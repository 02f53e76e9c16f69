/** The pellet emitter: a cassette-synchronised turret that charges on ticks
    and, on the swap to its own colour, fires a volley of pooled shots. Each
    shot waits out its delay, travels in a straight line, sweeps pixel by
    pixel into solids, plays an impact animation and is then destroyed. */
module StrawberryJamPellets {
  import opened Wrappers
  import opened Geometry
  import Cassette

  /** The four laser orientations an emitter can face (screen y grows down). */
  datatype LaserOrientation = Up | Down | Left | Right

  /** `LaserOrientations.Direction()`: the unit step the orientation
      points along. */
  function DirectionOf(o: LaserOrientation): (d: Vec)
    ensures AxisAligned(d) && (d.x == 0.0 <==> d.y != 0.0)
    ensures IsUnit(d)
    ensures (o == Up <==> d.y < 0.0) && (o == Down <==> d.y > 0.0)
    ensures (o == Left <==> d.x < 0.0) && (o == Right <==> d.x > 0.0)
  {
    match o
    case Up => Vec(0.0, -1.0)
    case Down => Vec(0.0, 1.0)
    case Left => Vec(-1.0, 0.0)
    case Right => Vec(1.0, 0.0)
  }

  /** `k` units along the orientation's direction, written per case so
      that no product of two unknowns appears. */
  function Along(o: LaserOrientation, k: real): Vec
  {
    match o
    case Up => Vec(0.0, -k)
    case Down => Vec(0.0, k)
    case Left => Vec(-k, 0.0)
    case Right => Vec(k, 0.0)
  }

  /** `Along` is the orientation's direction scaled by `k`. */
  lemma AlongIsScaledDirection(o: LaserOrientation, k: real)
    ensures Along(o, k) == Scale(DirectionOf(o), k)
  {
  }

  /** Distance from the emitter's position to a new shot's position. */
  const ShotOriginOffset: real := 12.0

  /** Number of one-unit steps `Move` takes before giving up on a collision. */
  const SweepSafety: nat := 50

  // ---------------------------------------------------------------------------
  // Animation keys and sounds

  function AnimationKeyPrefix(cassetteIndex: int): (p: string)
    ensures p == "blue" <==> cassetteIndex == 0
    ensures p == "pink" <==> cassetteIndex == 1
    ensures p == "both" <==> cassetteIndex != 0 && cassetteIndex != 1
  {
    match cassetteIndex
    case 0 => "blue"
    case 1 => "pink"
    case _ => "both"
  }

  function IdleKey(cassetteIndex: int): string { AnimationKeyPrefix(cassetteIndex) + "_idle" }

  function ChargingKey(cassetteIndex: int): string { AnimationKeyPrefix(cassetteIndex) + "_charging" }

  function FiringKey(cassetteIndex: int): string { AnimationKeyPrefix(cassetteIndex) + "_firing" }

  /** The idle, charging and firing keys of one emitter are pairwise distinct,
      and two emitters share a key exactly when they share the prefix. */
  lemma AnimationKeysDistinct(i: int, j: int)
    ensures IdleKey(i) != ChargingKey(j) && IdleKey(i) != FiringKey(j) && ChargingKey(i) != FiringKey(j)
    ensures IdleKey(i) == IdleKey(j) <==> AnimationKeyPrefix(i) == AnimationKeyPrefix(j)
    ensures ChargingKey(i) == ChargingKey(j) <==> AnimationKeyPrefix(i) == AnimationKeyPrefix(j)
    ensures FiringKey(i) == FiringKey(j) <==> AnimationKeyPrefix(i) == AnimationKeyPrefix(j)
  {
    var pi, pj := AnimationKeyPrefix(i), AnimationKeyPrefix(j);
    assert |pi| == 4 && |pj| == 4;
    assert IdleKey(i)[5] == 'i' && ChargingKey(j)[5] == 'c' && FiringKey(j)[5] == 'f';
    assert ChargingKey(i)[5] == 'c';
    if IdleKey(i) == IdleKey(j) { assert pi == IdleKey(i)[..4] && pj == IdleKey(j)[..4]; }
    if ChargingKey(i) == ChargingKey(j) { assert pi == ChargingKey(i)[..4] && pj == ChargingKey(j)[..4]; }
    if FiringKey(i) == FiringKey(j) { assert pi == FiringKey(i)[..4] && pj == FiringKey(j)[..4]; }
  }

  datatype Sfx = PaintEmitterBlue | PaintEmitterPink

  function FireSound(index: int): (s: Sfx)
    ensures s == PaintEmitterBlue <==> index == 0
  {
    if index == 0 then PaintEmitterBlue else PaintEmitterPink
  }

  /** The scene's one audio controller, shared by every emitter: it keeps the
      sounds played through it, in order. */
  class AudioController {
    var played: seq<Sfx>

    constructor ()
      ensures played == []
    {
      played := [];
    }

    method Play(s: Sfx)
      modifies this
      ensures played == old(played) + [s]
    {
      played := played + [s];
    }
  }

  // ---------------------------------------------------------------------------
  // The emitter's reaction to a cassette tick

  datatype TickReaction = PlayCharging | PlayFiringAndFire(index: int) | NoReaction

  /** The tick handler's decision. `isSwap` tells a swap tick from an
      ordinary one; `currentIndex` is the manager's active cassette index. */
  function TickReactionFor(cassetteIndex: int, currentIndex: int, isSwap: bool): TickReaction
  {
    if !isSwap && (cassetteIndex < 0 || cassetteIndex != currentIndex) then PlayCharging
    else if isSwap && (cassetteIndex < 0 || cassetteIndex == currentIndex) then PlayFiringAndFire(currentIndex)
    else NoReaction
  }

  /** An emitter of every colour (negative index) reacts to every tick; a
      coloured emitter charges on the ticks of the other colour and fires on
      the swap to its own, and ignores the rest. Fired shots always take the
      manager's index. */
  lemma TickReactionCases(cassetteIndex: int, currentIndex: int, isSwap: bool)
    ensures var r := TickReactionFor(cassetteIndex, currentIndex, isSwap);
      && (r == NoReaction <==> cassetteIndex >= 0 && (if isSwap then cassetteIndex != currentIndex else cassetteIndex == currentIndex))
      && (r.PlayCharging? ==> !isSwap)
      && (r.PlayFiringAndFire? ==> isSwap && r.index == currentIndex)
      && (cassetteIndex < 0 ==> (if isSwap then r == PlayFiringAndFire(currentIndex) else r == PlayCharging))
  {
  }

  /** The tick signal the listener delivers AS WRITTEN: it invokes its
      handler with the manager alone, and only on tick beats, which are never
      swap beats; the only truthful `isSwap` for such a call is false. */
  function AsWrittenTickSignal(m: Cassette.ManagerData): (isSwap: Option<bool>)
    ensures isSwap.Some? ==> isSwap == Some(false)
  {
    if Cassette.TickingCassetteListener.Update(Some(m)) == Cassette.Tick then Some(false) else None
  }

  /** Driven by the listener as written, an emitter never fires. */
  lemma AsWrittenEmitterNeverFires(m: Cassette.ManagerData, cassetteIndex: int)
    ensures AsWrittenTickSignal(m).Some? ==>
      !TickReactionFor(cassetteIndex, m.currentIndex as int, AsWrittenTickSignal(m).value).PlayFiringAndFire?
  {
  }

  /** The signal the emitter's two-argument handler expects: every tick beat
      with `isSwap` false, and every swap beat with `isSwap` true. */
  function IntendedTickSignal(m: Cassette.ManagerData): (isSwap: Option<bool>)
    requires Cassette.WellFormed(m)
    ensures isSwap == Some(true) <==>
      Cassette.IsSwapBeat(m.beatIndex as int, m.beatsPerTick as int, m.ticksPerSwap as int)
  {
    Cassette.UpdateTicksExactlyOnTickBeats(m);
    Cassette.MulAtLeast(m.ticksPerSwap as int, m.beatsPerTick as int);
    if Cassette.IsSwapBeat(m.beatIndex as int, m.beatsPerTick as int, m.ticksPerSwap as int) then Some(true)
    else if Cassette.TickingCassetteListener.Update(Some(m)) == Cassette.Tick then Some(false)
    else None
  }

  /** With the intended signal, an emitter of the active colour fires on the
      swap beat, and every listener tick still reaches the handler. */
  lemma IntendedSignalFiresOnSwap(m: Cassette.ManagerData, cassetteIndex: int)
    requires Cassette.WellFormed(m)
    ensures Cassette.TickingCassetteListener.Update(Some(m)) == Cassette.Tick ==> IntendedTickSignal(m) == Some(false)
    ensures Cassette.IsSwapBeat(m.beatIndex as int, m.beatsPerTick as int, m.ticksPerSwap as int)
            && (cassetteIndex < 0 || cassetteIndex == m.currentIndex as int)
            ==> TickReactionFor(cassetteIndex, m.currentIndex as int, IntendedTickSignal(m).value)
                == PlayFiringAndFire(m.currentIndex as int)
  {
    Cassette.UpdateTicksExactlyOnTickBeats(m);
    Cassette.MulAtLeast(m.ticksPerSwap as int, m.beatsPerTick as int);
  }

  // ---------------------------------------------------------------------------
  // The emitter

  /** Entity data the constructor reads; None is a field the map leaves out. */
  datatype EmitterData = EmitterData(
    position: Vec,
    cassetteIndex: Option<int>,
    collideWithSolids: Option<bool>,
    pelletCount: Option<int>,
    pelletDelay: Option<real>,
    pelletSpeed: Option<real>,
    wiggleFrequency: Option<real>,
    wiggleAmount: Option<real>,
    wiggleHitbox: Option<bool>,
    orientation: Option<LaserOrientation>,
    killPlayer: Option<bool>)

  class PelletEmitter {
    const Position: Vec
    const CassetteIndex: int
    const CollideWithSolids: bool
    const Count: int
    const Delay: real
    const Speed: real
    const WiggleFrequency: real
    const WiggleAmount: real
    const WiggleHitbox: bool
    const Orientation: LaserOrientation
    const KillPlayer: bool
    const Direction: Vec
    const Origin: Vec

    /** The animation the emitter sprite plays. */
    var animation: string
    /** The scene's audio controller, once the emitter is added to a scene. */
    var sfx: AudioController?

    constructor (data: EmitterData, offset: Vec)
      ensures Position == Add(data.position, offset)
      ensures CassetteIndex == data.cassetteIndex.GetOr(0)
      ensures CollideWithSolids == data.collideWithSolids.GetOr(true)
      ensures Count == data.pelletCount.GetOr(1)
      ensures Delay == data.pelletDelay.GetOr(0.25)
      ensures Speed == data.pelletSpeed.GetOr(100.0)
      ensures WiggleFrequency == data.wiggleFrequency.GetOr(2.0)
      ensures WiggleAmount == data.wiggleAmount.GetOr(2.0)
      ensures WiggleHitbox == data.wiggleHitbox.GetOr(false)
      ensures Orientation == data.orientation.GetOr(Up)
      ensures KillPlayer == data.killPlayer.GetOr(true)
      ensures Direction == DirectionOf(Orientation) && Origin == Scale(Direction, ShotOriginOffset)
      ensures animation == IdleKey(CassetteIndex) && sfx == null
    {
      Position := Add(data.position, offset);
      CassetteIndex := data.cassetteIndex.GetOr(0);
      CollideWithSolids := data.collideWithSolids.GetOr(true);
      Count := data.pelletCount.GetOr(1);
      Delay := data.pelletDelay.GetOr(0.25);
      Speed := data.pelletSpeed.GetOr(100.0);
      WiggleFrequency := data.wiggleFrequency.GetOr(2.0);
      WiggleAmount := data.wiggleAmount.GetOr(2.0);
      WiggleHitbox := data.wiggleHitbox.GetOr(false);
      Orientation := data.orientation.GetOr(Up);
      KillPlayer := data.killPlayer.GetOr(true);
      Direction := DirectionOf(data.orientation.GetOr(Up));
      Origin := Scale(DirectionOf(data.orientation.GetOr(Up)), ShotOriginOffset);
      animation := IdleKey(data.cassetteIndex.GetOr(0));
      sfx := null;
    }

    /** Added to a scene: take the scene's audio controller. */
    method Added(controller: AudioController)
      modifies this`sfx
      ensures sfx == controller
    {
      sfx := controller;
    }

    function SfxFrame(): set<object>
      reads this
    {
      if sfx == null then {} else {sfx}
    }

    /** Plays the fire sound for `index`, when the emitter has a controller. */
    method PlayFireSound(index: int)
      modifies SfxFrame()
      ensures sfx != null ==> sfx.played == old(sfx.played) + [FireSound(index)]
    {
      if sfx != null {
        sfx.Play(FireSound(index));
      }
    }

    /** Fires a volley: `Count` fresh shots, shot i delayed by `i * Delay`,
        all of them for `cassetteIndex` (the emitter's own when None), and
        one fire sound, with the first shot. */
    method Fire(cassetteIndex: Option<int>) returns (shots: seq<PelletShot>)
      modifies SfxFrame()
      ensures |shots| == if Count > 0 then Count else 0
      ensures forall k :: 0 <= k < |shots| ==> fresh(shots[k])
      ensures forall a, b :: 0 <= a < b < |shots| ==> shots[a] != shots[b]
      ensures forall k :: 0 <= k < |shots| ==>
        shots[k].View() == AddedView(InitView(this, k as real * Delay, cassetteIndex.GetOr(CassetteIndex), false))
      ensures sfx != null ==>
        sfx.played == old(sfx.played) + (if Count > 0 then [FireSound(cassetteIndex.GetOr(CassetteIndex))] else [])
    {
      var index := cassetteIndex;
      shots := [];
      var i := 0;
      while i < Count
        invariant 0 <= i && (Count > 0 ==> i <= Count) && (Count <= 0 ==> i == 0) && |shots| == i
        invariant i > 0 ==> index == Some(cassetteIndex.GetOr(CassetteIndex))
        invariant i == 0 ==> index == cassetteIndex
        invariant forall k :: 0 <= k < i ==> fresh(shots[k])
        invariant forall a, b :: 0 <= a < b < i ==> shots[a] != shots[b]
        invariant forall k :: 0 <= k < i ==>
          shots[k].View() == AddedView(InitView(this, k as real * Delay, cassetteIndex.GetOr(CassetteIndex), false))
        invariant sfx != null ==>
          sfx.played == old(sfx.played) + (if i > 0 then [FireSound(cassetteIndex.GetOr(CassetteIndex))] else [])
      {
        if index.None? {
          index := Some(CassetteIndex);
        }
        var shot := new PelletShot();
        shot.Init(this, i as real * Delay, index.value);
        shot.Added();
        shots := shots + [shot];
        if i == 0 {
          PlayFireSound(index.value);
        }
        i := i + 1;
      }
    }

    /** The tick handler, given the manager's active index and whether the
        tick is the swap. */
    method OnTick(currentIndex: int, isSwap: bool) returns (shots: seq<PelletShot>)
      modifies this`animation, SfxFrame()
      ensures match TickReactionFor(CassetteIndex, currentIndex, isSwap)
        case PlayCharging =>
          animation == ChargingKey(CassetteIndex) && shots == []
          && (sfx != null ==> sfx.played == old(sfx.played))
        case NoReaction =>
          animation == old(animation) && shots == []
          && (sfx != null ==> sfx.played == old(sfx.played))
        case PlayFiringAndFire(index) =>
          && animation == FiringKey(CassetteIndex)
          && |shots| == (if Count > 0 then Count else 0)
          && (forall k :: 0 <= k < |shots| ==>
                fresh(shots[k]) && shots[k].View() == AddedView(InitView(this, k as real * Delay, index, false)))
          && (sfx != null ==> sfx.played == old(sfx.played) + (if Count > 0 then [FireSound(index)] else []))
    {
      shots := [];
      if !isSwap && (CassetteIndex < 0 || CassetteIndex != currentIndex) {
        animation := ChargingKey(CassetteIndex);
      } else if isSwap && (CassetteIndex < 0 || CassetteIndex == currentIndex) {
        animation := FiringKey(CassetteIndex);
        shots := Fire(Some(currentIndex));
      }
    }

    /** Touching the emitter itself: whether the player is told to die. */
    method OnPlayerCollide() returns (dieRequested: bool)
      ensures dieRequested <==> KillPlayer
    {
      dieRequested := KillPlayer;
    }
  }

  // ---------------------------------------------------------------------------
  // The pooled shot

  datatype Trail = BlueTrail | PinkTrail

  /** A shot's colour; it names the shot's animations "blue..." or "pink...". */
  datatype ShotColour = BlueShot | PinkShot

  /** The shot sprites' animations: the projectile's flight, and the impact
      on the level's tiles or in the air (against any other solid). */
  datatype ShotAnim = Flying(colour: ShotColour) | HitTiles(colour: ShotColour) | HitAir(colour: ShotColour)

  /** The sprite-bank key of a shot animation. */
  function AnimName(a: ShotAnim): string
  {
    (if a.colour == BlueShot then "blue" else "pink") + (if a.HitAir? then "_air" else "")
  }

  /** A sprite's visibility and the animation it plays (None: stopped). */
  datatype SpriteState = SpriteState(visible: bool, playing: Option<ShotAnim>)

  /** What a solid check at a point finds: nothing, the level's solid tiles,
      or some other solid. */
  datatype SolidHit = NoSolid | TilesSolid | OtherSolid

  /** How a shot looks: its trail particles, the colour that names its
      animations, and its projectile and impact sprites. */
  datatype ShotLook = ShotLook(trail: Trail, colour: ShotColour, projectile: SpriteState, impact: SpriteState)

  /** How a shot sways: the sine wave it follows along its path (when
      active), and the wiggler that shakes it along `hitDir` after a kill. */
  datatype Wobble = Wobble(sineActive: bool, sineFrequency: real, wiggleAmount: real, hitDir: Vec, wiggling: bool)

  /** Everything about a shot that its methods read or write. */
  datatype ShotView = ShotView(
    dead: bool,
    speed: Vec,
    position: Vec,
    collideWithSolids: bool,
    collidable: bool,
    delayTimeRemaining: real,
    parent: PelletEmitter?,
    firedCassetteIndex: int,
    look: ShotLook,
    wobble: Wobble,
    inScene: bool)

  /** A shot as `Init` leaves it, fired by `e` after `delay` for
      `cassetteIndex`; whether it is in a scene is not Init's business. */
  function InitView(e: PelletEmitter, delay: real, cassetteIndex: int, inScene: bool): (s: ShotView)
    ensures !s.dead && s.collidable && s.parent == e
    ensures s.position == Add(e.Position, e.Origin) && s.delayTimeRemaining == delay
    ensures s.look.projectile.visible <==> delay == 0.0
    ensures s.look.trail == BlueTrail <==> cassetteIndex == 0
    ensures s.speed == Scale(DirectionOf(e.Orientation), e.Speed)
    ensures s.collideWithSolids == e.CollideWithSolids && s.firedCassetteIndex == cassetteIndex
  {
    AlongIsScaledDirection(e.Orientation, e.Speed);
    ShotView(
      dead := false,
      speed := Along(e.Orientation, e.Speed),
      position := Add(e.Position, e.Origin),
      collideWithSolids := e.CollideWithSolids,
      collidable := true,
      delayTimeRemaining := delay,
      parent := e,
      firedCassetteIndex := cassetteIndex,
      look := InitLook(delay, cassetteIndex),
      wobble := Wobble(true, e.WiggleFrequency, e.WiggleAmount, Zero, false),
      inScene := inScene)
  }

  function InitLook(delay: real, cassetteIndex: int): ShotLook
  {
    ShotLook(
      trail := if cassetteIndex == 0 then BlueTrail else PinkTrail,
      colour := if cassetteIndex == 0 then BlueShot else PinkShot,
      projectile := SpriteState(delay == 0.0, None),
      impact := SpriteState(false, None))
  }

  /** A shot added to the scene: an undelayed shot starts its animation. */
  function AddedView(s: ShotView): (r: ShotView)
    ensures r.inScene
    ensures r.look.projectile.playing.Some? <==> s.look.projectile.playing.Some? || s.delayTimeRemaining <= 0.0
  {
    s.(inScene := true,
       look := if s.delayTimeRemaining <= 0.0 then PlayProjectile(s.look) else s.look)
  }

  /** The projectile sprite starts its flight animation. */
  function PlayProjectile(l: ShotLook): ShotLook
  {
    l.(projectile := l.projectile.(playing := Some(Flying(l.colour))))
  }

  /** Both sprites stop. */
  function StopSprites(l: ShotLook): ShotLook
  {
    l.(projectile := l.projectile.(playing := None), impact := l.impact.(playing := None))
  }

  function DestroyView(s: ShotView): (r: ShotView)
    ensures r.dead && r.parent == null && !r.inScene
    ensures r.look.projectile.playing.None? && r.look.impact.playing.None?
  {
    s.(parent := null, look := StopSprites(s.look), dead := true, inScene := false)
  }

  /** The impact: the projectile stops and hides, the impact animation
      (the air variant when the solid is not the tiles) plays, and the
      shot stops colliding. */
  function ImpactView(s: ShotView, air: bool): (r: ShotView)
    ensures !r.collidable && r.look.impact.visible && !r.look.projectile.visible
    ensures r.look.impact.playing == Some(if air then HitAir(s.look.colour) else HitTiles(s.look.colour))
  {
    s.(look := ImpactLook(s.look, air), collidable := false)
  }

  function ImpactLook(l: ShotLook, air: bool): ShotLook
  {
    l.(projectile := SpriteState(false, None),
       impact := SpriteState(true, Some(if air then HitAir(l.colour) else HitTiles(l.colour))))
  }

  datatype SweepResult = Clear | Blocked(steps: nat, at: Vec, hit: SolidHit)

  function Shift(r: SweepResult, m: nat): SweepResult
  {
    match r
    case Clear => Clear
    case Blocked(k, at, h) => Blocked(k + m, at, h)
  }

  /** The one-unit sweep of `Move`: from `pos`, step along `n` at most
      `fuel` times, stopping in front of the first solid. */
  function Sweep(pos: Vec, n: Vec, solidAt: Vec -> SolidHit, fuel: nat): (r: SweepResult)
    ensures r.Blocked? ==> r.steps < fuel && r.hit != NoSolid
    decreases fuel
  {
    if fuel == 0 then Clear
    else
      var h := solidAt(Add(pos, n));
      if h != NoSolid then Blocked(0, pos, h)
      else Shift(Sweep(Add(pos, n), n, solidAt, fuel - 1), 1)
  }

  /** The sweep stops at the first solid within `fuel` steps, `steps` unit
      steps from the start, and is clear exactly when no step meets one. */
  lemma {:induction false} SweepFindsFirstSolid(pos: Vec, n: Vec, solidAt: Vec -> SolidHit, fuel: nat)
    ensures var r := Sweep(pos, n, solidAt, fuel);
      && (r.Blocked? ==> r.at == StepPos(pos, n, r.steps) && r.hit == solidAt(StepPos(pos, n, r.steps + 1))
                         && forall j :: 1 <= j <= r.steps ==> solidAt(StepPos(pos, n, j)) == NoSolid)
      && (r.Clear? <==> forall j :: 1 <= j <= fuel ==> solidAt(StepPos(pos, n, j)) == NoSolid)
    decreases fuel
  {
    assert StepPos(pos, n, 0) == pos;
    assert StepPos(pos, n, 1) == Add(pos, n);
    if fuel > 0 && solidAt(Add(pos, n)) == NoSolid {
      var p1 := Add(pos, n);
      SweepFindsFirstSolid(p1, n, solidAt, fuel - 1);
      forall j: nat | j <= fuel
        ensures StepPos(p1, n, j) == StepPos(pos, n, j + 1)
      {
        StepPosSucc(pos, n, j);
      }
      var r := Sweep(pos, n, solidAt, fuel);
      var r1 := Sweep(p1, n, solidAt, fuel - 1);
      assert r == Shift(r1, 1);
      if r.Clear? {
        forall j | 1 <= j <= fuel
          ensures solidAt(StepPos(pos, n, j)) == NoSolid
        {
          if j > 1 { assert StepPos(pos, n, j) == StepPos(p1, n, j - 1); }
        }
      } else {
        forall j | 1 <= j <= r.steps
          ensures solidAt(StepPos(pos, n, j)) == NoSolid
        {
          if j > 1 { assert StepPos(pos, n, j) == StepPos(p1, n, j - 1); }
        }
        assert !(forall j :: 1 <= j <= fuel ==> solidAt(StepPos(pos, n, j)) == NoSolid) by {
          assert solidAt(StepPos(p1, n, r1.steps + 1)) != NoSolid;
          assert StepPos(p1, n, r1.steps + 1) == StepPos(pos, n, r.steps + 1);
        }
      }
    }
  }

  /** The sweep `Move` makes when a solid lies at its target: unit steps
      along the sign of the frame's displacement. */
  function MoveSweep(s: ShotView, dt: real, solidAt: Vec -> SolidHit): SweepResult
  {
    Sweep(s.position, MoveNormal(s, dt), solidAt, SweepSafety)
  }

  /** The unit step of that sweep. */
  function MoveNormal(s: ShotView, dt: real): Vec
  {
    SignVec(Scale(s.speed, dt))
  }

  /** `Move`: advance by `speed * dt`, unless a solid lies at the target, in
      which case sweep one unit at a time toward it; on meeting the solid the
      shot stops there and impacts, and after `SweepSafety` clear steps it
      takes the target anyway. */
  function MoveView(s: ShotView, dt: real, hitAtTarget: bool, solidAt: Vec -> SolidHit): (r: ShotView)
    ensures !(s.collideWithSolids && hitAtTarget) ==> r == s.(position := Add(s.position, Scale(s.speed, dt)))
    ensures r.collidable ==> r == s.(position := Add(s.position, Scale(s.speed, dt)))
    ensures !r.collidable && s.collidable ==> r.speed == Zero && r.look.impact.visible
    ensures s.collidable && s.collideWithSolids && hitAtTarget ==> (r.collidable <==> MoveSweep(s, dt, solidAt).Clear?)
    ensures s.collideWithSolids && hitAtTarget && MoveSweep(s, dt, solidAt).Blocked? ==>
      && r.position == MoveSweep(s, dt, solidAt).at && r.speed == Zero && !r.collidable
      && !r.look.projectile.visible && r.look.impact.visible
      && r.look.impact.playing == Some(if MoveSweep(s, dt, solidAt).hit == OtherSolid
                                       then HitAir(s.look.colour) else HitTiles(s.look.colour))
    ensures r.dead == s.dead && r.delayTimeRemaining == s.delayTimeRemaining
  {
    var delta := Scale(s.speed, dt);
    var target := Add(s.position, delta);
    if s.collideWithSolids && hitAtTarget then
      match Sweep(s.position, SignVec(delta), solidAt, SweepSafety)
      case Blocked(_, at, h) => ImpactView(s.(position := at, speed := Zero), h == OtherSolid)
      case Clear => s.(position := target)
    else s.(position := target)
  }

  /** A shot that would run into a solid with solid collision on keeps
      going exactly when none of the 50 unit steps toward its target meets a
      solid; otherwise it impacts, standing on the last clear step in front
      of the first solid. */
  lemma MoveStopsInFrontOfFirstSolid(s: ShotView, dt: real, hitAtTarget: bool, solidAt: Vec -> SolidHit)
    requires s.collidable && s.collideWithSolids && hitAtTarget
    ensures MoveView(s, dt, hitAtTarget, solidAt).collidable <==>
      forall j :: 1 <= j <= SweepSafety ==> solidAt(StepPos(s.position, MoveNormal(s, dt), j)) == NoSolid
    ensures !MoveView(s, dt, hitAtTarget, solidAt).collidable ==>
      && MoveSweep(s, dt, solidAt).Blocked? && MoveSweep(s, dt, solidAt).steps < SweepSafety
      && MoveView(s, dt, hitAtTarget, solidAt).position == StepPos(s.position, MoveNormal(s, dt), MoveSweep(s, dt, solidAt).steps)
      && solidAt(StepPos(s.position, MoveNormal(s, dt), MoveSweep(s, dt, solidAt).steps + 1)) != NoSolid
      && forall j :: 1 <= j <= MoveSweep(s, dt, solidAt).steps ==> solidAt(StepPos(s.position, MoveNormal(s, dt), j)) == NoSolid
  {
    var n := MoveNormal(s, dt);
    SweepFindsFirstSolid(s.position, n, solidAt, SweepSafety);
  }

  /** Shots travel along an axis, so `SignVec` is the SafeNormalize of
      their per-frame displacement. */
  lemma MoveNormalIsSafeNormal(s: ShotView, dt: real)
    requires AxisAligned(s.speed)
    ensures IsSafeNormalOf(SignVec(Scale(s.speed, dt)), Scale(s.speed, dt))
  {
    AxisSignIsSafeNormal(Scale(s.speed, dt));
  }

  /** Engine answers for one frame of a shot. */
  datatype ShotEnv = ShotEnv(
    impactAnimating: bool,          // the impact sprite is still animating
    inLevel: bool,                  // the shot's scene is a level
    hitAtTarget: bool,              // a new solid overlaps the shot at its target
    solidAt: Vec -> SolidHit,       // the first solid overlapping the shot at a position
    inBounds: Vec -> bool)          // the shot at a position is inside the room

  datatype ShotStep = ShotStep(view: ShotView, playsFireSound: bool)

  datatype ShotPhase = Delayed | Traveling | Impacted | Destroyed

  function Phase(s: ShotView): ShotPhase
  {
    if s.dead then Destroyed
    else if !s.collidable then Impacted
    else if s.delayTimeRemaining > 0.0 then Delayed
    else Traveling
  }

  function PhaseRank(p: ShotPhase): nat
  {
    match p
    case Delayed => 0
    case Traveling => 1
    case Impacted => 2
    case Destroyed => 3
  }

  /** One frame of a shot. */
  function UpdateView(s: ShotView, dt: real, env: ShotEnv): (r: ShotStep)
    ensures s.dead ==> r == ShotStep(s, false)
    ensures !s.dead && !s.collidable && !env.impactAnimating ==> r.view.dead
    ensures !s.dead && s.collidable && env.inLevel && s.delayTimeRemaining > 0.0 && s.delayTimeRemaining - dt > 0.0
            ==> r.view.position == s.position && !r.playsFireSound
    ensures PhaseRank(Phase(r.view)) >= PhaseRank(Phase(s))
    // a live shot in a level counts its delay down by the frame time
    ensures !s.dead && s.collidable && env.inLevel && s.delayTimeRemaining > 0.0
            ==> r.view.delayTimeRemaining == s.delayTimeRemaining - dt
    // the fire sound plays exactly on the frame the delay runs out, when the shot has an emitter
    ensures r.playsFireSound <==> !s.dead && s.collidable && env.inLevel && s.delayTimeRemaining > 0.0
                                  && s.delayTimeRemaining - dt <= 0.0 && s.parent != null
    // a released shot that is still flying shows the flight animation
    ensures !s.dead && s.collidable && env.inLevel && s.delayTimeRemaining > 0.0 && s.delayTimeRemaining - dt <= 0.0
            && !r.view.dead && r.view.collidable
            ==> r.view.look.projectile == SpriteState(true, Some(Flying(s.look.colour)))
    // a shot whose delay is over moves as `MoveView` says, and is destroyed exactly when it ends up out of bounds
    ensures !s.dead && s.collidable && env.inLevel && !(s.delayTimeRemaining > 0.0 && s.delayTimeRemaining - dt > 0.0)
            ==> && r.view.position == MoveView(s, dt, env.hitAtTarget, env.solidAt).position
                && r.view.collidable == MoveView(s, dt, env.hitAtTarget, env.solidAt).collidable
                && (r.view.dead <==> !env.inBounds(r.view.position))
    // with no solid at its target it advances by speed times the frame time
    ensures !s.dead && s.collidable && env.inLevel && s.delayTimeRemaining <= 0.0 && !env.hitAtTarget
            ==> && r.view.position == Add(s.position, Scale(s.speed, dt))
                && (r.view.dead <==> !env.inBounds(Add(s.position, Scale(s.speed, dt))))
  {
    if s.dead then ShotStep(s, false)
    else
      var s1 := s.(look := s.look.(impact := s.look.impact.(visible := env.impactAnimating)));
      if !s1.collidable then
        ShotStep(if env.impactAnimating then s1 else DestroyView(s1), false)
      else if !env.inLevel then ShotStep(s1, false)
      else if s1.delayTimeRemaining > 0.0 && s1.delayTimeRemaining - dt > 0.0 then
        ShotStep(s1.(delayTimeRemaining := s1.delayTimeRemaining - dt), false)
      else
        var released := s1.delayTimeRemaining > 0.0;
        var s2 := if released
          then s1.(delayTimeRemaining := s1.delayTimeRemaining - dt,
                   look := s1.look.(projectile := SpriteState(true, Some(Flying(s1.look.colour)))))
          else s1;
        var s3 := MoveView(s2, dt, env.hitAtTarget, env.solidAt);
        ShotStep(if env.inBounds(s3.position) then s3 else DestroyView(s3), released && s1.parent != null)
  }

  /** Touching a live shot: when the player does die, the shot halts, stops
      wiggling along its path and shakes in the hit direction. */
  function PlayerCollideView(s: ShotView, playerDied: bool, direction: Vec): (r: ShotView)
    ensures !playerDied ==> r == s
    ensures playerDied ==> r.speed == Zero && !r.wobble.sineActive && r.wobble.wiggling && r.wobble.hitDir == direction
    ensures r.position == s.position && Phase(r) == Phase(s)
  {
    if !playerDied then s
    else s.(speed := Zero, wobble := s.wobble.(sineActive := false, hitDir := direction, wiggling := true))
  }

  /** The result of a sequence of frames. */
  function Run(s: ShotView, dts: seq<real>, envs: seq<ShotEnv>): ShotView
    requires |dts| == |envs|
    decreases |dts|
  {
    if |dts| == 0 then s
    else Run(UpdateView(s, dts[0], envs[0]).view, dts[1..], envs[1..])
  }

  /** Over any run, a shot never goes back in its lifecycle, and a
      destroyed shot stays exactly as it was. */
  lemma {:induction false} RunNeverRegresses(s: ShotView, dts: seq<real>, envs: seq<ShotEnv>)
    requires |dts| == |envs|
    ensures PhaseRank(Phase(Run(s, dts, envs))) >= PhaseRank(Phase(s))
    ensures s.dead ==> Run(s, dts, envs) == s
    decreases |dts|
  {
    if |dts| > 0 {
      RunNeverRegresses(UpdateView(s, dts[0], envs[0]).view, dts[1..], envs[1..]);
    }
  }

  class PelletShot {
    var Dead: bool
    var Speed: Vec
    var Position: Vec
    var CollideWithSolids: bool
    var Collidable: bool
    var delayTimeRemaining: real
    var parentEmitter: PelletEmitter?
    var firedCassetteIndex: int
    /** The trail particles, the animation colour and the two sprites. */
    var look: ShotLook
    /** The sine wave, the wiggle amount, the hit direction and the wiggler. */
    var wobble: Wobble
    var inScene: bool

    function View(): ShotView
      reads this
    {
      ShotView(Dead, Speed, Position, CollideWithSolids, Collidable, delayTimeRemaining, parentEmitter,
               firedCassetteIndex, look, wobble, inScene)
    }

    /** A blank pooled shot, as the pool creates it. */
    constructor ()
      ensures !Dead && Collidable && parentEmitter == null && !inScene
    {
      Dead := false;
      Speed := Zero;
      Position := Zero;
      CollideWithSolids := false;
      Collidable := true;
      delayTimeRemaining := 0.0;
      parentEmitter := null;
      firedCassetteIndex := 0;
      look := ShotLook(BlueTrail, BlueShot, SpriteState(true, None), SpriteState(true, None));
      wobble := Wobble(false, 2.0, 2.0, Zero, false);
      inScene := false;
    }

    /** Resets every field a recycled shot carries from its previous use. */
    method Init(emitter: PelletEmitter, delay: real, cassetteIndex: int)
      modifies this
      ensures View() == InitView(emitter, delay, cassetteIndex, old(inScene))
    {
      parentEmitter := emitter;
      delayTimeRemaining := delay;
      Dead := false;
      Speed := Along(emitter.Orientation, emitter.Speed);
      Position := Add(emitter.Position, emitter.Origin);
      CollideWithSolids := emitter.CollideWithSolids;
      Collidable := true;
      firedCassetteIndex := cassetteIndex;
      look := InitLook(delay, cassetteIndex);
      wobble := Wobble(true, emitter.WiggleFrequency, emitter.WiggleAmount, Zero, false);
    }

    method Added()
      modifies this
      ensures View() == AddedView(old(View()))
    {
      inScene := true;
      if delayTimeRemaining <= 0.0 {
        look := PlayProjectile(look);
      }
    }

    method Destroy()
      modifies this
      ensures View() == DestroyView(old(View()))
    {
      parentEmitter := null;
      look := StopSprites(look);
      Dead := true;
      inScene := false;
    }

    method Impact(air: bool)
      modifies this
      ensures View() == ImpactView(old(View()), air)
    {
      look := ImpactLook(look, air);
      Collidable := false;
    }

    method Move(dt: real, hitAtTarget: bool, solidAt: Vec -> SolidHit)
      modifies this
      ensures View() == MoveView(old(View()), dt, hitAtTarget, solidAt)
    {
      var delta := Scale(Speed, dt);
      var target := Add(Position, delta);
      if CollideWithSolids && hitAtTarget {
        // the sweep walks a local copy of the position; the object is only
        // touched once it stops in front of a solid
        var normal := SignVec(delta);
        var pos := Position;
        var safety := SweepSafety;
        while safety > 0
          invariant 0 <= safety <= SweepSafety
          invariant Sweep(Position, normal, solidAt, SweepSafety)
                    == Shift(Sweep(pos, normal, solidAt, safety), SweepSafety - safety)
        {
          safety := safety - 1;
          var solid := solidAt(Add(pos, normal));
          if solid != NoSolid {
            Position := pos;
            Speed := Zero;
            Impact(solid == OtherSolid);
            return;
          }
          pos := Add(pos, normal);
        }
      }
      Position := target;
    }

    function SoundFrame(): set<object>
      reads this, parentEmitter
    {
      if parentEmitter != null && parentEmitter.sfx != null then {parentEmitter.sfx} else {}
    }

    /** One frame of the shot. */
    method Update(dt: real, env: ShotEnv)
      modifies this, SoundFrame()
      ensures View() == UpdateView(old(View()), dt, env).view
      ensures old(parentEmitter) != null && old(parentEmitter.sfx) != null ==>
        old(parentEmitter.sfx).played == old(parentEmitter.sfx.played)
          + (if UpdateView(old(View()), dt, env).playsFireSound then [FireSound(old(firedCassetteIndex))] else [])
    {
      if Dead {
        return;
      }
      look := look.(impact := look.impact.(visible := env.impactAnimating));
      if !Collidable {
        if !env.impactAnimating {
          Destroy();
        }
        return;
      }
      if !env.inLevel {
        return;
      }
      if delayTimeRemaining > 0.0 {
        delayTimeRemaining := delayTimeRemaining - dt;
        if delayTimeRemaining > 0.0 {
          return;
        }
        look := look.(projectile := SpriteState(true, Some(Flying(look.colour))));
        if parentEmitter != null {
          parentEmitter.PlayFireSound(firedCassetteIndex);
        }
      }
      Move(dt, env.hitAtTarget, env.solidAt);
      if !env.inBounds(Position) {
        Destroy();
      }
    }

    method OnPlayerCollide(playerDied: bool, direction: Vec)
      modifies this
      ensures View() == PlayerCollideView(old(View()), playerDied, direction)
    {
      if !playerDied {
        return;
      }
      Speed := Zero;
      wobble := wobble.(sineActive := false, hitDir := direction, wiggling := true);
    }
  }
}
