/** The falling component: makes its solid wait for a trigger, shake, fall
    with capped acceleration, land, and either end on the level's tiles or
    fall again once the way is clear.

    The falling sequence is a coroutine. Its resume point and its locals
    live in a `FallRun` value; each `Update` runs one engine frame: a pending
    wait is counted down, otherwise the body runs to its next `yield`. The
    engine's collision queries for the frame arrive in a `FallEnv`. */
module FallingComponent {
  import opened Wrappers
  import opened Geometry

  /** What the default player checks ask of a solid. */
  datatype SolidQueries = SolidQueries(
    hasPlayerRider: bool,     // a player rides the solid (stands or climbs on it)
    hasPlayerOnTop: bool,     // a player stands on top of it
    playerLeft: bool,         // a player overlaps the solid one pixel to its left
    playerRight: bool)        // ... one pixel to its right

  /** Engine answers for one frame of the sequence. */
  datatype FallEnv = FallEnv(
    fallCheck: Option<bool>,  // the fall-check delegate's answer; None: no delegate
    waitCheck: Option<bool>,  // the wait-check delegate's answer; None: no delegate
    platformAhead: bool,      // a platform touches the solid one pixel in the fall direction
    solidAhead: bool,         // a solid does
    solidTilesAhead: bool,    // the level's solid tiles do
    moveBlocked: bool,        // the vertical move collided with a solid
    top: real,                // the solid's top and bottom edges after the move
    bottom: real,
    boundsTop: real,          // the level's bounds
    boundsBottom: real,
    canTransition: bool)      // the map lets the player move to the room beyond

  datatype FallPoint =
    | NotStarted       // before the first frame
    | WaitTrigger      // waiting for the trigger
    | ClearanceWait    // falling immediately: waiting for the way to clear
    | DelayWait        // counting down the fall delay
    | Shaking          // shaking before the fall
    | Falling          // falling
    | OffscreenWait    // fell out of the level: first pause
    | TransitionWait   // second pause, when the room beyond is reachable
    | ImpactWait       // pause after landing
    | RefallWait       // waiting for the way to clear to fall again
    | Finished         // the sequence has ended

  /** The coroutine: resume point, pending wait, and the body's locals. */
  datatype FallRun = FallRun(
    point: FallPoint,
    waitTimer: real,
    speed: real,
    fallDelayRemaining: real,
    shakeTimer: real,
    attached: bool)           // still a component of the solid

  const StartRun: FallRun := FallRun(NotStarted, 0.0, 0.0, 0.0, 0.0, true)

  /** The component's fields and its solid's, as one value. */
  datatype FallView = FallView(
    triggered: bool,
    started: bool,
    run: FallRun,
    safe: bool,
    collidable: bool,
    visible: bool,
    shaking: bool,
    removed: bool)

  /** The one-shot sounds the default shake and impact callbacks play. */
  datatype FallSound = ShakeSound | ImpactSound

  /** A frame's result: the new state; when the solid is asked to move, the
      signed vertical velocity it moves with (the move is it times the frame
      time); and the sounds played during the frame, in order. */
  datatype FallFrame = FallFrame(view: FallView, velocity: Option<real>, sounds: seq<FallSound> := [])

  /** The falling solid's fields the sequence touches. */
  class FallingSolid {
    var Safe: bool
    var Collidable: bool
    var Visible: bool
    var Shaking: bool
    var Removed: bool

    constructor ()
      ensures !Safe && Collidable && Visible && !Shaking && !Removed
    {
      Safe := false;
      Collidable := true;
      Visible := true;
      Shaking := false;
      Removed := false;
    }
  }

  /** Whether the solid is still within reach of the level after a move
      that hit nothing (otherwise it has fallen out and is removed). */
  predicate StillInLevel(fallUp: bool, env: FallEnv)
  {
    (!fallUp && env.top <= env.boundsBottom + 16.0 && (env.top <= env.boundsBottom - 1.0 || !env.solidAhead))
    || (fallUp && env.bottom >= env.boundsTop - 16.0 && (env.bottom >= env.boundsTop + 1.0 || !env.solidAhead))
  }

  class Falling {
    const FallDelay: real
    const ShouldRumble: bool
    const ClimbFall: bool
    const FallSpeed: real
    const ShouldManageSafe: bool
    const FallUp: bool
    const ShakeTime: real
    const EndOnSolidTiles: bool
    const FallImmediately: bool

    var Triggered: bool
    var HasStartedFalling: bool
    var coroutine: Option<FallRun>
    /** The solid the component is attached to; null when detached or when
        its entity is not a solid. */
    var Entity: FallingSolid?

    /** The component with its configuration; the defaults are the field
        initialisers of the component. */
    constructor (fallDelay: real := 0.0, shouldRumble: bool := true, climbFall: bool := true,
                 fallSpeed: real := 160.0, shouldManageSafe: bool := true, fallUp: bool := false,
                 shakeTime: real := 0.4, endOnSolidTiles: bool := true, fallImmediately: bool := false)
      ensures FallDelay == fallDelay && ShouldRumble == shouldRumble && ClimbFall == climbFall
      ensures FallSpeed == fallSpeed && ShouldManageSafe == shouldManageSafe && FallUp == fallUp
      ensures ShakeTime == shakeTime && EndOnSolidTiles == endOnSolidTiles && FallImmediately == fallImmediately
      ensures !Triggered && !HasStartedFalling && coroutine == None && Entity == null
    {
      FallDelay := fallDelay;
      ShouldRumble := shouldRumble;
      ClimbFall := climbFall;
      FallSpeed := fallSpeed;
      ShouldManageSafe := shouldManageSafe;
      FallUp := fallUp;
      ShakeTime := shakeTime;
      EndOnSolidTiles := endOnSolidTiles;
      FallImmediately := fallImmediately;
      Triggered := false;
      HasStartedFalling := false;
      coroutine := None;
      Entity := null;
    }

    /** The default fall check. */
    predicate OnPlayerFallCheck(solid: Option<SolidQueries>)
    {
      solid.Some? && (if ClimbFall then solid.value.hasPlayerRider else solid.value.hasPlayerOnTop)
    }

    /** The default wait check: keep shaking while triggered or while the
        fall check holds, or, for climb-fall, while a player touches a side. */
    predicate OnPlayerWaitCheck(solid: Option<SolidQueries>)
      reads this
    {
      if solid.None? then false
      else if Triggered || OnPlayerFallCheck(solid) then true
      else if !ClimbFall then false
      else solid.value.playerLeft || solid.value.playerRight
    }

    /** Both checks fail on a missing solid; the wait check holds whenever
        the fall check does, never fails on a solid while the component is
        triggered, and beyond those cases only holds for a climb-fall with a
        player at a side. */
    lemma PlayerChecks(solid: Option<SolidQueries>)
      ensures solid.None? ==> !OnPlayerFallCheck(solid) && !OnPlayerWaitCheck(solid)
      ensures OnPlayerFallCheck(solid) ==> OnPlayerWaitCheck(solid)
      ensures solid.Some? && Triggered ==> OnPlayerWaitCheck(solid)
      ensures OnPlayerWaitCheck(solid) && !Triggered && !OnPlayerFallCheck(solid) ==>
        ClimbFall && (solid.value.playerLeft || solid.value.playerRight)
    {
    }

    /** Added to an entity: a non-solid entity (`null` here) makes the
        component remove itself, which detaches the sequence and the
        entity; a solid gets a fresh sequence. */
    method Added(solid: FallingSolid?)
      modifies this, solid
      ensures Entity == solid
      ensures Triggered == old(Triggered) && HasStartedFalling == old(HasStartedFalling)
      ensures solid == null ==> coroutine == (if old(coroutine).Some? then Some(old(coroutine).value.(attached := false)) else None)
      ensures solid != null ==> coroutine == Some(StartRun)
      ensures solid != null ==> solid.Safe == (old(solid.Safe) && !ShouldManageSafe)
    {
      if solid == null {
        Removed();
        return;
      }
      Entity := solid;
      Reset();
    }

    /** Replaces the sequence with a fresh one (only when attached to a
        solid) and, when it manages safety, makes the solid unsafe. */
    method Reset()
      modifies this, Entity
      ensures Entity == old(Entity) && Triggered == old(Triggered) && HasStartedFalling == old(HasStartedFalling)
      ensures Entity != null ==> coroutine == Some(StartRun)
      ensures Entity == null ==> coroutine == (if old(coroutine).Some? then Some(old(coroutine).value.(attached := false)) else None)
      ensures Entity != null ==> Entity.Safe == (old(Entity.Safe) && !ShouldManageSafe)
      ensures Entity != null ==> Entity.Collidable == old(Entity.Collidable) && Entity.Visible == old(Entity.Visible)
                                 && Entity.Shaking == old(Entity.Shaking) && Entity.Removed == old(Entity.Removed)
    {
      if coroutine.Some? {
        coroutine := Some(coroutine.value.(attached := false));
      }
      if Entity != null {
        coroutine := Some(StartRun);
      }
      if ShouldManageSafe && Entity != null {
        Entity.Safe := false;
      }
    }

    /** Removed from its entity: the sequence is removed as well, and the
        component no longer has an entity. */
    method Removed()
      modifies this
      ensures coroutine == (if old(coroutine).Some? then Some(old(coroutine).value.(attached := false)) else None)
      ensures Triggered == old(Triggered) && HasStartedFalling == old(HasStartedFalling) && Entity == null
    {
      if coroutine.Some? {
        coroutine := Some(coroutine.value.(attached := false));
      }
      Entity := null;
    }

    /** Other entities trigger the fall by setting `Triggered`. */
    method Trigger()
      modifies this
      ensures Triggered && HasStartedFalling == old(HasStartedFalling) && coroutine == old(coroutine)
      ensures Entity == old(Entity)
    {
      Triggered := true;
    }

    // -------------------------------------------------------------------------
    // The sequence, segment by segment; each runs until the next yield.

    /** The sign of a move in the fall direction. */
    function Directed(amount: real): real
    {
      if FallUp then -amount else amount
    }

    function WaitTriggerHead(v: FallView, dt: real, env: FallEnv): FallFrame
      requires dt >= 0.0
    {
      if !v.triggered && env.fallCheck != Some(true) then
        FallFrame(v.(run := v.run.(point := WaitTrigger)), None)
      else if FallImmediately then ClearanceHead(v, dt, env)
      else DelayHead(v.(run := v.run.(fallDelayRemaining := FallDelay)), dt, env)
    }

    function ClearanceHead(v: FallView, dt: real, env: FallEnv): FallFrame
      requires dt >= 0.0
    {
      if env.platformAhead then FallFrame(v.(run := v.run.(waitTimer := 0.1, point := ClearanceWait)), None)
      else LoopTop(v.(started := true), dt, env)
    }

    function DelayHead(v: FallView, dt: real, env: FallEnv): FallFrame
      requires dt >= 0.0
    {
      if v.run.fallDelayRemaining > 0.0 then
        FallFrame(v.(run := v.run.(fallDelayRemaining := v.run.fallDelayRemaining - dt, point := DelayWait)), None)
      else LoopTop(v.(started := true), dt, env)
    }

    /** The top of the endless loop: shake (when there is a shake time),
        then fall. */
    function LoopTop(v: FallView, dt: real, env: FallEnv): FallFrame
      requires dt >= 0.0
    {
      if ShakeTime > 0.0 then
        var f := ShakeHead(v.(shaking := true, run := v.run.(shakeTimer := ShakeTime)), dt, env);
        f.(sounds := [ShakeSound] + f.sounds)
      else FallStep(v.(run := v.run.(speed := 0.0)), dt, env)
    }

    function ShakeHead(v: FallView, dt: real, env: FallEnv): FallFrame
      requires dt >= 0.0
    {
      if v.run.shakeTimer > 0.0 && env.waitCheck != Some(false) then
        FallFrame(v.(run := v.run.(point := Shaking)), None)
      else FallStep(v.(shaking := false, run := v.run.(speed := 0.0)), dt, env)
    }

    /** One step of the fall: accelerate by at most 500 per second toward
        `FallSpeed`, ask to move, and on a hit pause for the landing; when
        nothing was hit and the solid has left the level, hide it. */
    function FallStep(v: FallView, dt: real, env: FallEnv): FallFrame
      requires dt >= 0.0
    {
      var speed := Approach(v.run.speed, FallSpeed, 500.0 * dt);
      var v1 := v.(run := v.run.(speed := speed));
      var velocity := Some(Directed(speed));
      if !env.moveBlocked then
        if StillInLevel(FallUp, env) then FallFrame(v1.(run := v1.run.(point := Falling)), velocity)
        else FallFrame(v1.(collidable := false, visible := false, run := v1.run.(waitTimer := 0.2, point := OffscreenWait)), velocity)
      else FallFrame(v1.(shaking := true, run := v1.run.(waitTimer := 0.2, point := ImpactWait)), velocity, [ImpactSound])
    }

    function RefallHead(v: FallView, dt: real, env: FallEnv): FallFrame
      requires dt >= 0.0
    {
      if env.platformAhead then FallFrame(v.(run := v.run.(waitTimer := 0.1, point := RefallWait)), None)
      else LoopTop(v, dt, env)
    }

    /** One engine frame of the sequence. */
    function FrameSpec(v: FallView, dt: real, env: FallEnv): (r: FallFrame)
      requires dt >= 0.0
    {
      if !v.run.attached || v.run.point == Finished then FallFrame(v, None)
      else if v.run.waitTimer > 0.0 then FallFrame(v.(run := v.run.(waitTimer := v.run.waitTimer - dt)), None)
      else Resume(v, dt, env)
    }

    /** The sequence resumes from where it last yielded. */
    function Resume(v: FallView, dt: real, env: FallEnv): FallFrame
      requires dt >= 0.0
    {
        match v.run.point
        case NotStarted =>
          WaitTriggerHead(v.(safe := v.safe && !ShouldManageSafe, triggered := FallImmediately, started := false), dt, env)
        case WaitTrigger => WaitTriggerHead(v, dt, env)
        case ClearanceWait => ClearanceHead(v, dt, env)
        case DelayWait => DelayHead(v, dt, env)
        case Shaking => ShakeHead(v.(run := v.run.(shakeTimer := v.run.shakeTimer - dt)), dt, env)
        case Falling => FallStep(v, dt, env)
        case OffscreenWait =>
          if env.canTransition then FallFrame(v.(run := v.run.(waitTimer := 0.2, point := TransitionWait)), None)
          else FallFrame(v.(removed := true, run := v.run.(point := Finished)), None)
        case TransitionWait => FallFrame(v.(removed := true, run := v.run.(point := Finished)), None)
        case ImpactWait =>
          var v1 := v.(shaking := false);
          if EndOnSolidTiles && env.solidTilesAhead then
            FallFrame(v1.(safe := v1.safe || ShouldManageSafe, run := v1.run.(point := Finished)), None)
          else RefallHead(v1, dt, env)
        case RefallWait => RefallHead(v, dt, env)
        case Finished => FallFrame(v, None)
    }

    // -------------------------------------------------------------------------
    // Properties of the sequence

    /** The speed lies between 0 and `FallSpeed`. */
    predicate SpeedInRange(s: real)
    {
      (0.0 <= s <= FallSpeed) || (FallSpeed <= s <= 0.0)
    }

    /** The sequence has not yet started falling at these points. */
    predicate BeforeFall(p: FallPoint)
    {
      p.WaitTrigger? || p.ClearanceWait? || p.DelayWait?
    }

    /** ... and has at these. */
    predicate AfterStart(p: FallPoint)
    {
      p.Shaking? || p.Falling? || p.OffscreenWait? || p.TransitionWait? || p.ImpactWait? || p.RefallWait?
    }

    /** The states reachable between frames. */
    predicate Inv(v: FallView)
    {
      && SpeedInRange(v.run.speed)
      && (BeforeFall(v.run.point) ==> !v.started)
      && (AfterStart(v.run.point) ==> v.started)
      && (v.run.point == Shaking ==> v.shaking && ShakeTime > 0.0)
    }

    lemma StartRunInv(v: FallView)
      requires v.run == StartRun
      ensures Inv(v)
    {
    }

    /** One fall step: the speed moves toward `FallSpeed` by at most 500
        per second and never passes it, and the requested velocity is that
        speed, pointing up exactly when falling up. */
    lemma FallStepFacts(v: FallView, dt: real, env: FallEnv)
      requires dt >= 0.0 && SpeedInRange(v.run.speed) && v.started
      ensures var r := FallStep(v, dt, env);
        && SpeedInRange(r.view.run.speed) && r.view.started && r.view.triggered == v.triggered && r.view.safe == v.safe
        && r.view.run.speed - v.run.speed <= 500.0 * dt && v.run.speed - r.view.run.speed <= 500.0 * dt
        && r.view.run.speed == (if FallSpeed - v.run.speed <= 500.0 * dt && v.run.speed - FallSpeed <= 500.0 * dt then FallSpeed
                                else if v.run.speed <= FallSpeed then v.run.speed + 500.0 * dt
                                else v.run.speed - 500.0 * dt)
        && r.velocity == Some(Directed(r.view.run.speed))
        && (r.view.run.speed != 0.0 ==> (r.velocity.value < 0.0 <==> (FallUp <==> r.view.run.speed > 0.0)))
        && (r.view.run.point.Falling? || r.view.run.point.OffscreenWait? || r.view.run.point.ImpactWait?)
    {
    }

    /** The loop top and the heads that lead back to it keep the invariant,
        and any velocity they request is a fall step's. */
    lemma LoopTopFacts(v: FallView, dt: real, env: FallEnv)
      requires dt >= 0.0 && v.started && SpeedInRange(v.run.speed)
      ensures var r := LoopTop(v, dt, env);
        Inv(r.view) && AfterStart(r.view.run.point) && r.view.started && r.view.triggered == v.triggered && r.view.safe == v.safe
        && (r.velocity.Some? ==> r.velocity.value == Directed(r.view.run.speed))
    {
      if ShakeTime > 0.0 {
        ShakeHeadFacts(v.(shaking := true, run := v.run.(shakeTimer := ShakeTime)), dt, env);
      } else {
        FallStepFacts(v.(run := v.run.(speed := 0.0)), dt, env);
      }
    }

    lemma ShakeHeadFacts(v: FallView, dt: real, env: FallEnv)
      requires dt >= 0.0 && v.started && v.shaking && ShakeTime > 0.0 && SpeedInRange(v.run.speed)
      ensures var r := ShakeHead(v, dt, env);
        Inv(r.view) && AfterStart(r.view.run.point) && r.view.started && r.view.triggered == v.triggered && r.view.safe == v.safe
        && (r.velocity.Some? ==> r.velocity.value == Directed(r.view.run.speed))
    {
      if !(v.run.shakeTimer > 0.0 && env.waitCheck != Some(false)) {
        FallStepFacts(v.(shaking := false, run := v.run.(speed := 0.0)), dt, env);
      }
    }

    lemma RefallHeadFacts(v: FallView, dt: real, env: FallEnv)
      requires dt >= 0.0 && v.started && SpeedInRange(v.run.speed)
      ensures var r := RefallHead(v, dt, env);
        Inv(r.view) && AfterStart(r.view.run.point) && r.view.started && r.view.triggered == v.triggered
        && (r.velocity.Some? ==> r.velocity.value == Directed(r.view.run.speed))
    {
      if !env.platformAhead {
        LoopTopFacts(v, dt, env);
      }
    }

    /** The clearance and delay waits keep the invariant, and the fall
        starts exactly when the way is clear, or the delay has run out. */
    lemma ClearanceFacts(v: FallView, dt: real, env: FallEnv)
      requires dt >= 0.0 && !v.started && SpeedInRange(v.run.speed)
      ensures var c := ClearanceHead(v, dt, env);
        Inv(c.view) && c.view.run.point != WaitTrigger && (c.velocity.Some? ==> c.velocity.value == Directed(c.view.run.speed))
        && (c.view.started <==> !env.platformAhead)
        && c.view.triggered == v.triggered && c.view.safe == v.safe
    {
      if !env.platformAhead {
        LoopTopFacts(v.(started := true), dt, env);
      }
    }

    lemma DelayFacts(v: FallView, dt: real, env: FallEnv)
      requires dt >= 0.0 && !v.started && SpeedInRange(v.run.speed)
      ensures var d := DelayHead(v, dt, env);
        Inv(d.view) && d.view.run.point != WaitTrigger && (d.velocity.Some? ==> d.velocity.value == Directed(d.view.run.speed))
        && (d.view.started <==> v.run.fallDelayRemaining <= 0.0)
        && d.view.triggered == v.triggered && d.view.safe == v.safe
    {
      if !(v.run.fallDelayRemaining > 0.0) {
        LoopTopFacts(v.(started := true), dt, env);
      }
    }

    /** The trigger wait: the sequence keeps waiting exactly while it is
        neither triggered nor sees the fall check hold. */
    lemma WaitTriggerFacts(v: FallView, dt: real, env: FallEnv)
      requires dt >= 0.0 && !v.started && SpeedInRange(v.run.speed)
      ensures var w := WaitTriggerHead(v, dt, env);
        Inv(w.view) && (w.velocity.Some? ==> w.velocity.value == Directed(w.view.run.speed))
        && (w.view.run.point == WaitTrigger <==> !v.triggered && env.fallCheck != Some(true))
        && (w.view.started <==> (v.triggered || env.fallCheck == Some(true))
                                && (if FallImmediately then !env.platformAhead else FallDelay <= 0.0))
        && w.view.triggered == v.triggered && w.view.safe == v.safe
    {
      if !(!v.triggered && env.fallCheck != Some(true)) {
        if FallImmediately {
          ClearanceFacts(v, dt, env);
        } else {
          DelayFacts(v.(run := v.run.(fallDelayRemaining := FallDelay)), dt, env);
        }
      }
    }

    /** The sequence's first frame resets the flags: `Triggered` becomes
        `FallImmediately`, the solid stops being safe when the component
        manages that, and the fall starts in that same frame only if the
        trigger is already there and then the way is clear (falling
        immediately) or there is no delay. */
    lemma SequenceStart(v: FallView, dt: real, env: FallEnv)
      requires dt >= 0.0 && v.run.point == NotStarted && SpeedInRange(v.run.speed)
      ensures var r := Resume(v, dt, env).view;
        && r.triggered == FallImmediately
        && r.safe == (v.safe && !ShouldManageSafe)
        && (r.started <==> (FallImmediately || env.fallCheck == Some(true))
                           && (if FallImmediately then !env.platformAhead else FallDelay <= 0.0))
    {
      WaitTriggerFacts(v.(safe := v.safe && !ShouldManageSafe, triggered := FallImmediately, started := false), dt, env);
    }

    /** Resuming before the fall has started keeps the invariant. */
    lemma ResumeBeforeFall(v: FallView, dt: real, env: FallEnv)
      requires dt >= 0.0 && Inv(v) && (v.run.point.NotStarted? || BeforeFall(v.run.point))
      ensures var r := Resume(v, dt, env);
        && Inv(r.view)
        && (r.velocity.Some? ==> r.velocity.value == Directed(r.view.run.speed))
    {
      match v.run.point
      case NotStarted =>
        WaitTriggerFacts(v.(safe := v.safe && !ShouldManageSafe, triggered := FallImmediately, started := false), dt, env);
      case WaitTrigger => WaitTriggerFacts(v, dt, env);
      case ClearanceWait => ClearanceFacts(v, dt, env);
      case DelayWait => DelayFacts(v, dt, env);
    }

    /** ... and so does resuming in the shake or the fall ... */
    lemma ResumeMoving(v: FallView, dt: real, env: FallEnv)
      requires dt >= 0.0 && Inv(v) && (v.run.point.Shaking? || v.run.point.Falling?)
      ensures var r := Resume(v, dt, env);
        && Inv(r.view)
        && (r.velocity.Some? ==> r.velocity.value == Directed(r.view.run.speed))
    {
      if v.run.point.Shaking? {
        ShakeHeadFacts(v.(run := v.run.(shakeTimer := v.run.shakeTimer - dt)), dt, env);
      } else {
        FallStepFacts(v, dt, env);
      }
    }

    /** ... or after it has landed or left the level. */
    lemma ResumeLanded(v: FallView, dt: real, env: FallEnv)
      requires dt >= 0.0 && Inv(v) && AfterStart(v.run.point) && !v.run.point.Shaking? && !v.run.point.Falling?
      ensures var r := Resume(v, dt, env);
        && Inv(r.view)
        && (r.velocity.Some? ==> r.velocity.value == Directed(r.view.run.speed))
    {
      if v.run.point.ImpactWait? && !(EndOnSolidTiles && env.solidTilesAhead) {
        RefallHeadFacts(v.(shaking := false), dt, env);
      } else if v.run.point.RefallWait? {
        RefallHeadFacts(v, dt, env);
      }
    }

    /** One frame keeps the invariant, and any velocity requested is the
        current speed in the fall direction. */
    lemma FrameKeepsInv(v: FallView, dt: real, env: FallEnv)
      requires dt >= 0.0 && Inv(v)
      ensures var r := FrameSpec(v, dt, env);
        && Inv(r.view)
        && (r.velocity.Some? ==> r.velocity.value == Directed(r.view.run.speed))
    {
      if v.run.attached && v.run.point != Finished && v.run.waitTimer <= 0.0 {
        if v.run.point.NotStarted? || BeforeFall(v.run.point) {
          ResumeBeforeFall(v, dt, env);
        } else if v.run.point.Shaking? || v.run.point.Falling? {
          ResumeMoving(v, dt, env);
        } else {
          ResumeLanded(v, dt, env);
        }
      }
    }

    /** With no shake time the shake phase never runs: the loop top goes
        straight to the fall. */
    lemma NoShakeWithoutShakeTime(v: FallView, dt: real, env: FallEnv)
      requires dt >= 0.0 && ShakeTime <= 0.0
      ensures LoopTop(v, dt, env) == FallStep(v.(run := v.run.(speed := 0.0)), dt, env)
      ensures LoopTop(v, dt, env).view.run.point != Shaking
      ensures LoopTop(v, dt, env).view.shaking == (LoopTop(v, dt, env).view.run.point == ImpactWait || v.shaking)
    {
    }

    /** Landing on the solid tiles with `EndOnSolidTiles` ends the sequence
        and leaves the solid safe when the component manages safety (and as
        it was otherwise). */
    lemma LandingOnTilesEnds(v: FallView, dt: real, env: FallEnv)
      requires dt >= 0.0 && v.run.attached && v.run.waitTimer <= 0.0 && v.run.point == ImpactWait
      requires EndOnSolidTiles && env.solidTilesAhead
      ensures var r := FrameSpec(v, dt, env).view;
        r.run.point == Finished && r.safe == (v.safe || ShouldManageSafe) && !r.shaking
    {
    }

    /** The sounds of a frame: the impact sound exactly when the frame ends
        in a fresh landing pause, the shake sound only when a shake (with a
        shake time) starts rather than continues, and always when one
        starts; the shake, when both play, comes first. */
    lemma FrameSounds(v: FallView, dt: real, env: FallEnv)
      requires dt >= 0.0 && v.run.attached
      ensures var r := FrameSpec(v, dt, env);
        && (ImpactSound in r.sounds <==> r.view.run.point == ImpactWait && (v.run.point != ImpactWait || v.run.waitTimer <= 0.0))
        && (ShakeSound in r.sounds ==> ShakeTime > 0.0 && v.run.point != Shaking && v.run.waitTimer <= 0.0)
        && (r.view.run.point == Shaking && v.run.point != Shaking ==> ShakeSound in r.sounds)
        && |r.sounds| <= 2 && (|r.sounds| == 2 ==> r.sounds == [ShakeSound, ImpactSound])
    {
      if v.run.point != Finished && v.run.waitTimer <= 0.0 {
        ResumeSounds(v, dt, env);
      }
    }

    /** The sound shape of a segment that may run the loop top: the
        impact sound exactly on a fresh landing, the shake sound only with
        a shake time and on every shake yield, the shake first. */
    predicate LoopSounds(f: FallFrame)
    {
      && (ImpactSound in f.sounds <==> f.view.run.point == ImpactWait)
      && (ShakeSound in f.sounds ==> ShakeTime > 0.0)
      && (f.view.run.point == Shaking ==> ShakeSound in f.sounds)
      && |f.sounds| <= 2 && (|f.sounds| == 2 ==> f.sounds == [ShakeSound, ImpactSound])
    }

    lemma LoopTopSounds(v: FallView, dt: real, env: FallEnv)
      requires dt >= 0.0
      ensures LoopSounds(LoopTop(v, dt, env))
    {
      if ShakeTime > 0.0 {
        ShakeHeadSounds(v.(shaking := true, run := v.run.(shakeTimer := ShakeTime)), dt, env);
      } else {
        FallStepSounds(v.(run := v.run.(speed := 0.0)), dt, env);
      }
    }

    lemma ClearanceSounds(v: FallView, dt: real, env: FallEnv)
      requires dt >= 0.0
      ensures LoopSounds(ClearanceHead(v, dt, env))
    {
      if !env.platformAhead {
        LoopTopSounds(v.(started := true), dt, env);
        assert ClearanceHead(v, dt, env) == LoopTop(v.(started := true), dt, env);
      }
    }

    lemma DelaySounds(v: FallView, dt: real, env: FallEnv)
      requires dt >= 0.0
      ensures LoopSounds(DelayHead(v, dt, env))
    {
      if v.run.fallDelayRemaining <= 0.0 {
        LoopTopSounds(v.(started := true), dt, env);
        assert DelayHead(v, dt, env) == LoopTop(v.(started := true), dt, env);
      }
    }

    lemma WaitTriggerSounds(v: FallView, dt: real, env: FallEnv)
      requires dt >= 0.0
      ensures LoopSounds(WaitTriggerHead(v, dt, env))
    {
      if !(!v.triggered && env.fallCheck != Some(true)) {
        if FallImmediately {
          ClearanceSounds(v, dt, env);
        } else {
          DelaySounds(v.(run := v.run.(fallDelayRemaining := FallDelay)), dt, env);
        }
      }
    }

    lemma RefallSounds(v: FallView, dt: real, env: FallEnv)
      requires dt >= 0.0
      ensures LoopSounds(RefallHead(v, dt, env))
    {
      if !env.platformAhead {
        LoopTopSounds(v, dt, env);
        assert RefallHead(v, dt, env) == LoopTop(v, dt, env);
      }
    }

    /** Resuming the body: `LoopSounds`, except that a shake that continues
        plays no shake sound. */
    predicate ResumeSoundsOk(v: FallView, r: FallFrame)
    {
      && (ImpactSound in r.sounds <==> r.view.run.point == ImpactWait)
      && (ShakeSound in r.sounds ==> ShakeTime > 0.0 && v.run.point != Shaking)
      && (r.view.run.point == Shaking && v.run.point != Shaking ==> ShakeSound in r.sounds)
      && |r.sounds| <= 2 && (|r.sounds| == 2 ==> r.sounds == [ShakeSound, ImpactSound])
    }

    lemma ResumeSounds(v: FallView, dt: real, env: FallEnv)
      requires dt >= 0.0
      ensures ResumeSoundsOk(v, Resume(v, dt, env))
    {
      if v.run.point.NotStarted? || BeforeFall(v.run.point) {
        ResumeSoundsBeforeFall(v, dt, env);
      } else if v.run.point.Shaking? || v.run.point.Falling? {
        ResumeSoundsMoving(v, dt, env);
      } else {
        ResumeSoundsLanded(v, dt, env);
      }
    }

    lemma ResumeSoundsBeforeFall(v: FallView, dt: real, env: FallEnv)
      requires dt >= 0.0 && (v.run.point.NotStarted? || BeforeFall(v.run.point))
      ensures ResumeSoundsOk(v, Resume(v, dt, env))
    {
      match v.run.point
      case NotStarted =>
        var w := v.(safe := v.safe && !ShouldManageSafe, triggered := FallImmediately, started := false);
        WaitTriggerSounds(w, dt, env);
        assert Resume(v, dt, env) == WaitTriggerHead(w, dt, env);
      case WaitTrigger =>
        WaitTriggerSounds(v, dt, env);
        assert Resume(v, dt, env) == WaitTriggerHead(v, dt, env);
      case ClearanceWait =>
        ClearanceSounds(v, dt, env);
        assert Resume(v, dt, env) == ClearanceHead(v, dt, env);
      case DelayWait =>
        DelaySounds(v, dt, env);
        assert Resume(v, dt, env) == DelayHead(v, dt, env);
    }

    /** A fall step, and a shake that continues, play at most the impact
        sound, exactly on a landing. */
    lemma FallStepSounds(v: FallView, dt: real, env: FallEnv)
      requires dt >= 0.0
      ensures var f := FallStep(v, dt, env);
        f.sounds == (if f.view.run.point == ImpactWait then [ImpactSound] else []) && f.view.run.point != Shaking
    {
    }

    lemma ShakeHeadSounds(v: FallView, dt: real, env: FallEnv)
      requires dt >= 0.0
      ensures var f := ShakeHead(v, dt, env);
        f.sounds == (if f.view.run.point == ImpactWait then [ImpactSound] else [])
    {
      if !(v.run.shakeTimer > 0.0 && env.waitCheck != Some(false)) {
        FallStepSounds(v.(shaking := false, run := v.run.(speed := 0.0)), dt, env);
      }
    }

    lemma ResumeSoundsMoving(v: FallView, dt: real, env: FallEnv)
      requires dt >= 0.0 && (v.run.point.Shaking? || v.run.point.Falling?)
      ensures ResumeSoundsOk(v, Resume(v, dt, env))
    {
      if v.run.point.Shaking? {
        var f := ShakeHead(v.(run := v.run.(shakeTimer := v.run.shakeTimer - dt)), dt, env);
        ShakeHeadSounds(v.(run := v.run.(shakeTimer := v.run.shakeTimer - dt)), dt, env);
        assert Resume(v, dt, env) == f;
        assert ResumeSoundsOk(v, f);
      } else {
        var f := FallStep(v, dt, env);
        FallStepSounds(v, dt, env);
        assert Resume(v, dt, env) == f;
        assert ResumeSoundsOk(v, f);
      }
    }

    lemma ResumeSoundsLanded(v: FallView, dt: real, env: FallEnv)
      requires dt >= 0.0 && !v.run.point.NotStarted? && !BeforeFall(v.run.point)
      requires !v.run.point.Shaking? && !v.run.point.Falling?
      ensures ResumeSoundsOk(v, Resume(v, dt, env))
    {
      if v.run.point.ImpactWait? || v.run.point.RefallWait? {
        ResumeSoundsRefall(v, dt, env);
      } else {
        var f := Resume(v, dt, env);
        assert f.sounds == [] && f.view.run.point in {TransitionWait, Finished};
      }
    }

    lemma ResumeSoundsRefall(v: FallView, dt: real, env: FallEnv)
      requires dt >= 0.0 && (v.run.point.ImpactWait? || v.run.point.RefallWait?)
      ensures ResumeSoundsOk(v, Resume(v, dt, env))
    {
      var w := if v.run.point.ImpactWait? then v.(shaking := false) else v;
      if v.run.point.ImpactWait? && EndOnSolidTiles && env.solidTilesAhead {
        assert Resume(v, dt, env) == FallFrame(w.(safe := w.safe || ShouldManageSafe, run := w.run.(point := Finished)), None);
      } else {
        RefallSounds(w, dt, env);
        assert Resume(v, dt, env) == RefallHead(w, dt, env);
      }
    }

    /** A finished or detached sequence changes nothing. */
    lemma FinishedIsFinal(v: FallView, dt: real, env: FallEnv)
      requires dt >= 0.0 && (v.run.point == Finished || !v.run.attached)
      ensures FrameSpec(v, dt, env) == FallFrame(v, None)
    {
    }

    // -------------------------------------------------------------------------
    // The imperative frame

    function ViewOf(r: FallRun): FallView
      requires Entity != null
      reads this, Entity
    {
      FallView(Triggered, HasStartedFalling, r, Entity.Safe, Entity.Collidable, Entity.Visible, Entity.Shaking, Entity.Removed)
    }

    /** Writes a view back into the component and its solid. */
    method Store(v: FallView)
      requires Entity != null
      modifies this, Entity
      ensures Entity == old(Entity) && coroutine == Some(v.run) && ViewOf(v.run) == v
    {
      Triggered := v.triggered;
      HasStartedFalling := v.started;
      coroutine := Some(v.run);
      Entity.Safe := v.safe;
      Entity.Collidable := v.collidable;
      Entity.Visible := v.visible;
      Entity.Shaking := v.shaking;
      Entity.Removed := v.removed;
    }

    /** One engine frame: the sequence runs when it is attached to the
        solid; the result is the signed vertical velocity it asked the solid
        to move with, if any. */
    method Update(dt: real, env: FallEnv) returns (velocity: Option<real>, sounds: seq<FallSound>)
      requires dt >= 0.0 && Entity != null
      modifies this, Entity
      ensures Entity == old(Entity)
      ensures old(coroutine).None? ==> velocity == None && sounds == [] && coroutine == None
      ensures old(coroutine).Some? ==>
        coroutine.Some? && FallFrame(ViewOf(coroutine.value), velocity, sounds) == FrameSpec(old(ViewOf(coroutine.value)), dt, env)
    {
      velocity := None;
      sounds := [];
      if coroutine.None? {
        return;
      }
      var f := FrameSpec(ViewOf(coroutine.value), dt, env);
      Store(f.view);
      velocity := f.velocity;
      sounds := f.sounds;
    }
  }
}
