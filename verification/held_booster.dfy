/** The held booster: a red-style booster that launches the player only
    once the dash button is released. A green booster (one whose node lies
    away from it) always launches toward its node; a purple one launches the
    way the player aims while inside it.

    `SafeNormalize` of the node offset is supplied by the caller, held to
    the contract in `IsSafeNormalOf`; the input system's aim vector is a
    unit vector. Whether the player's gravity is inverted arrives as a
    parameter (false when the gravity helper is not installed). */
module HeldBooster {
  import opened Wrappers
  import opened Geometry
  import opened PlayerModel

  /** The arrow sprite's animation. */
  datatype ArrowAnim = ArrowIdle | ArrowInside | ArrowPop

  /** Whether a node makes a green booster: there is one, and it is not the
      booster's own position. */
  predicate IsGreen(position: Vec, node: Option<Vec>)
  {
    node.Some? && node.value != position
  }

  /** How much the player can move inside the bubble. */
  function BubbleFactor(green: bool): (f: real)
    ensures f == 0.0 <==> green
  {
    if green then 0.0 else 1.5
  }

  /** `RedDashUpdateAfter`: leave the red dash for the normal state as soon
      as the dash button is no longer held, and otherwise stay. */
  function RedDashUpdateAfter(dashHeld: bool): (r: Option<PlayerState>)
    ensures r == Some(StNormal) <==> !dashHeld
    ensures r.None? <==> dashHeld
  {
    if !dashHeld then Some(StNormal) else None
  }

  /** The player's speed for a launch in direction `d`: dash speed along
      `d`, with the vertical part flipped under inverted gravity so that the
      player moves the same way on screen. */
  function LaunchSpeed(d: Vec, inverted: bool): Vec
  {
    var s := Scale(d, DashSpeed);
    if inverted then s.(y := -s.y) else s
  }

  /** A velocity of magnitude `DashSpeed`. */
  predicate HasDashSpeed(v: Vec)
  {
    v.x * v.x + v.y * v.y == DashSpeed * DashSpeed
  }

  /** A launch along a unit direction has dash speed, inverted or not. */
  lemma LaunchHasDashSpeed(d: Vec, inverted: bool)
    requires IsUnit(d)
    ensures HasDashSpeed(LaunchSpeed(d, inverted))
    ensures LaunchSpeed(d, inverted).x == DashSpeed * d.x
    ensures LaunchSpeed(d, inverted).y == (if inverted then -DashSpeed * d.y else DashSpeed * d.y)
  {
    var s := LaunchSpeed(d, inverted);
    assert s.x * s.x == DashSpeed * DashSpeed * (d.x * d.x);
    assert s.y * s.y == DashSpeed * DashSpeed * (d.y * d.y);
  }

  /** Without a direction the launch leaves the player at rest. */
  lemma LaunchAtRest(inverted: bool)
    ensures LaunchSpeed(Zero, inverted) == Zero
  {
    assert Scale(Zero, DashSpeed) == Zero;
  }

  class HeldBooster {
    const green: bool
    const Start: Vec
    /** The unit direction toward the node (zero without a distinct node). */
    const dir: Vec
    const MovementInBubbleFactor: real

    var aim: Vec
    var prevAim: Vec
    var anim: real
    var hasPlayer: bool
    var Collidable: bool
    var arrow: ArrowAnim

    /** The states reachable between calls: the pulse lies in [0, 1], the
        booster is collidable exactly when nobody is inside, and the aim and
        the node's direction are each zero or a unit vector. */
    predicate Valid()
      reads this
    {
      && 0.0 <= anim <= 1.0
      && (hasPlayer <==> !Collidable)
      && (aim == Zero || IsUnit(aim))
      && (dir == Zero || IsUnit(dir))
    }

    /** A booster at `position` with an optional node; `nodeDir` is the
        safe normal of the node's offset (of minus the position, when there
        is no node). */
    constructor (position: Vec, node: Option<Vec>, nodeDir: Vec)
      requires IsSafeNormalOf(nodeDir, Sub(node.GetOr(Zero), position))
      ensures green == IsGreen(position, node)
      ensures MovementInBubbleFactor == BubbleFactor(green)
      ensures Start == position && dir == nodeDir
      ensures aim == Zero && prevAim == Zero && anim == 0.0 && !hasPlayer && Collidable && arrow == ArrowIdle
      ensures Valid()
    {
      green := IsGreen(position, node);
      MovementInBubbleFactor := BubbleFactor(IsGreen(position, node));
      Start := position;
      dir := nodeDir;
      aim := Zero;
      prevAim := Zero;
      anim := 0.0;
      hasPlayer := false;
      Collidable := true;
      arrow := ArrowIdle;
    }

    /** The direction a launch takes: the node's direction for a green
        booster, the player's aim for a purple one. */
    function LaunchDirection(): (d: Vec)
      reads this
      ensures green ==> d == dir
      ensures !green ==> d == aim
    {
      if green then dir else aim
    }

    /** A green booster with a distinct node launches along a unit vector
        that points at the node, whatever the player aimed. */
    lemma GreenLaunchesTowardNode(node: Vec)
      requires green && IsSafeNormalOf(dir, Sub(node, Start)) && node != Start
      ensures IsUnit(LaunchDirection())
      ensures LaunchDirection().x * (node.y - Start.y) == LaunchDirection().y * (node.x - Start.x)
      ensures LaunchDirection().x * (node.x - Start.x) + LaunchDirection().y * (node.y - Start.y) > 0.0
    {
    }

    /** Aim in direction `v` (a unit vector, or zero to keep the current
        aim); `pulse` restarts the pulse animation. */
    method SetAim(v: Vec, pulse: bool)
      requires Valid() && (v == Zero || IsUnit(v))
      modifies this`aim, this`anim
      ensures Valid()
      ensures v == Zero ==> aim == old(aim) && anim == old(anim)
      ensures v != Zero ==> aim == v && anim == (if pulse then 1.0 else old(anim))
    {
      if v == Zero {
        return;
      }
      aim := v;
      if pulse {
        anim := 1.0;
      }
    }

    /** The player enters: the booster stops colliding and holds the player;
        a green booster pulses, a purple one aims the way the player faces,
        with a pulse. */
    method OnPlayerEnter(facing: Facing)
      requires Valid()
      modifies this`Collidable, this`hasPlayer, this`anim, this`aim, this`arrow
      ensures Valid()
      ensures !Collidable && hasPlayer && anim == 1.0 && arrow == ArrowInside
      ensures aim == (if green then old(aim) else Vec(FacingSign(facing), 0.0))
    {
      Collidable := false;
      hasPlayer := true;
      if green {
        anim := 1.0;
      } else {
        SetAim(Vec(FacingSign(facing), 0.0), true);
      }
      arrow := ArrowInside;
    }

    /** The player leaves: the booster collides again and holds nobody. */
    method OnPlayerExit()
      requires Valid()
      modifies this`Collidable, this`hasPlayer, this`arrow
      ensures Valid()
      ensures Collidable && !hasPlayer && arrow == ArrowPop
    {
      Collidable := true;
      hasPlayer := false;
      arrow := ArrowPop;
    }

    /** One frame: a purple booster holding a player that has not been
        launched yet follows the aim input (zero input keeps the aim, a
        change of input pulses); the pulse then decays toward zero by twice
        the frame time. */
    method Update(dt: real, boostingPlayer: bool, aimInput: Vec, aimVector: Vec)
      requires Valid() && dt >= 0.0 && (aimInput != Zero ==> IsUnit(aimVector))
      modifies this`aim, this`anim, this`prevAim
      ensures Valid()
      ensures var v := if aimInput == Zero then Zero else aimVector;
        if !green && hasPlayer && !boostingPlayer then
          && prevAim == v
          && aim == (if v == Zero then old(aim) else v)
          && anim == Approach(if v != Zero && v != old(prevAim) then 1.0 else old(anim), 0.0, dt * 2.0)
        else
          prevAim == old(prevAim) && aim == old(aim) && anim == Approach(old(anim), 0.0, dt * 2.0)
    {
      if !green && hasPlayer && !boostingPlayer {
        var v := if aimInput == Zero then Zero else aimVector;
        SetAim(v, v != prevAim);
        prevAim := v;
      }
      anim := Approach(anim, 0.0, dt * 2.0);
    }

    /** The launch, once the dash button is released: the player dashes in
        the launch direction at dash speed (flipped vertically under inverted
        gravity), the glider boost direction is recorded, and a horizontal
        launch turns the player to face it. A booster that has a direction
        (green, or purple once aimed) launches at exactly dash speed; one
        without leaves the player at rest. */
    method RedDashCoroutineAfter(p: Player, inverted: bool)
      modifies p`DashDir, p`gliderBoostDir, p`Speed, p`Facing
      ensures p.DashDir == LaunchDirection() && p.gliderBoostDir == LaunchDirection()
      ensures p.Speed == LaunchSpeed(LaunchDirection(), inverted)
      ensures Valid() && LaunchDirection() != Zero ==> HasDashSpeed(p.Speed)
      ensures LaunchDirection() == Zero ==> p.Speed == Zero
      ensures p.Facing == (if LaunchDirection().x > 0.0 then Right
                           else if LaunchDirection().x < 0.0 then Left
                           else old(p.Facing))
    {
      var direction := if green then dir else aim;
      p.DashDir := direction;
      p.gliderBoostDir := direction;
      p.Speed := Scale(direction, DashSpeed);
      if inverted {
        p.Speed := p.Speed.(y := p.Speed.y * -1.0);
      }
      assert p.Speed == LaunchSpeed(direction, inverted);
      if direction == Zero {
        LaunchAtRest(inverted);
      } else if Valid() {
        // a valid booster aims along a unit vector
        LaunchHasDashSpeed(direction, inverted);
      }
      if p.DashDir.x != 0.0 {
        p.Facing := if Sign(p.DashDir.x) > 0.0 then Right else Left;
      }
    }
  }
}
