/** The dream tunnel dash player state: a dash that passes through solids
    carrying a dream tunnel. Begin sets the dash up, Update runs once per
    frame and picks the next player state, End restores the player.

    The engine's collision and input queries for a frame arrive in a
    `DashEnv`; the moves the state asks for (`NaiveMove`, `MoveHExact`) are
    returned rather than performed. */
module DreamTunnelDash {
  import opened Wrappers
  import opened Geometry
  import opened PlayerModel

  /** Collision answers when the dash begins: whether the player already
      overlaps a solid, and whether one is a step ahead in the dash's
      direction. */
  datatype BeginEnv = BeginEnv(inSolid: bool, solidAhead: bool)

  /** Engine answers for one frame of the dash. */
  datatype DashEnv = DashEnv(
    hitSolid: Option<SolidRef>,   // the solid the player overlaps, if any
    intoDeath: bool,              // the dash ends inside something deadly
    jumpPressed: bool,
    dreamBlockLeft: bool,         // a dream block 5 pixels to the player's left
    dreamBlockRight: bool,        // ... 5 pixels to the right
    climbLeft: bool,              // a climbable wall to the left
    climbRight: bool,             // ... to the right
    moveX: int,                   // horizontal input: -1, 0 or 1
    grabHeld: bool,
    noGrabbing: bool,             // the no-grabbing assist is on
    inverted: bool)               // the player's gravity is inverted

  /** What the grab check at the end of the dash does. */
  datatype Grab =
    | NoGrab
    | GrabClimb(facing: Facing)       // start climbing, facing the wall
    | GrabAssisted(facing: Facing)    // no-grabbing assist: face the wall, stop horizontally

  /** How one frame of the dash ends. */
  datatype DashExit =
    | Tunnelling                      // still dashing
    | Died                            // tunnelled into death; the death takes over
    | DreamJumpOut                    // a jump out of the tunnel
    | Leave(nudge: int, grab: Grab)   // back to the ground states

  /** One frame of the dash's inputs for the recorded data. */
  datatype TunnelFrame = TunnelFrame(dt: real, hit: Option<SolidRef>)

  const CanEndTime: real := 0.1

  // ---------------------------------------------------------------------------
  // Decisions

  function GrabAt(env: DashEnv): Grab
  {
    if env.grabHeld && ((env.moveX == 1 && env.climbRight) || (env.moveX == -1 && env.climbLeft)) then
      var f := if env.moveX == 1 then Right else Left;
      if !env.noGrabbing then GrabClimb(f) else GrabAssisted(f)
    else NoGrab
  }

  /** The frame's outcome, given the can-end timer after this frame's
      decrement and the dash direction. */
  function Decide(timer: real, dashDir: Vec, env: DashEnv): DashExit
  {
    if env.hitSolid.Some? then Tunnelling
    else if env.intoDeath then Died
    else if timer > 0.0 then Tunnelling
    else if env.jumpPressed && dashDir.x != 0.0 then DreamJumpOut
    else if dashDir.y >= 0.0 || dashDir.x != 0.0 then
      var nudge := if dashDir.x > 0.0 && env.dreamBlockLeft then -5
                   else if dashDir.x < 0.0 && env.dreamBlockRight then 5
                   else 0;
      Leave(nudge, GrabAt(env))
    else Leave(0, NoGrab)
  }

  /** The state the update returns for an outcome. */
  function NextState(e: DashExit): PlayerState
  {
    match e
    case Tunnelling => StDreamTunnelDash
    case Died => StDreamTunnelDash
    case DreamJumpOut => StNormal
    case Leave(_, g) => if g.GrabClimb? then StClimb else StNormal
  }

  /** The dash's recorded data after one frame: the timer counts down only
      while positive, and a solid overlapped this frame is recorded. */
  function RecordFrame(d: DreamTunnelData, f: TunnelFrame): DreamTunnelData
  {
    DreamTunnelData(if d.canEndTimer > 0.0 then d.canEndTimer - f.dt else d.canEndTimer,
                    if f.hit.Some? then f.hit else d.solid)
  }

  function RecordFrames(d: DreamTunnelData, frames: seq<TunnelFrame>): DreamTunnelData
    decreases |frames|
  {
    if frames == [] then d else RecordFrames(RecordFrame(d, frames[0]), frames[1..])
  }

  /** What Begin does to the recorded data: restart the can-end timer (the
      recorded solid is left as it was). */
  function BeginRecord(d: DreamTunnelData): DreamTunnelData
  {
    d.(canEndTimer := CanEndTime)
  }

  /** What End does to the recorded data as written: it clears only a local
      copy of the recorded solid, so the record itself survives. */
  function EndRecordAsWritten(d: DreamTunnelData): DreamTunnelData
  {
    d
  }

  /** ... and what it evidently means to do: forget the solid. */
  function EndRecord(d: DreamTunnelData): DreamTunnelData
  {
    d.(solid := None)
  }

  // ---------------------------------------------------------------------------
  // Properties of the decisions

  /** The update returns the climb state exactly when, out of any solid,
      alive and past the can-end time, the player does not dream-jump, the
      dash is not straight up, grab is held toward a climbable wall on the
      side of the horizontal input, and the no-grabbing assist is off. */
  lemma ClimbExactly(timer: real, dashDir: Vec, env: DashEnv)
    ensures NextState(Decide(timer, dashDir, env)) == StClimb <==>
      && env.hitSolid.None? && !env.intoDeath && timer <= 0.0
      && !(env.jumpPressed && dashDir.x != 0.0)
      && (dashDir.y >= 0.0 || dashDir.x != 0.0)
      && env.grabHeld && ((env.moveX == 1 && env.climbRight) || (env.moveX == -1 && env.climbLeft))
      && !env.noGrabbing
  {
  }

  /** Inside a solid, or before the can-end time has passed, the dash goes
      on (a death outside a solid also keeps the state, for the death to
      take over); once out of every solid past the can-end time and alive,
      the dash ends in the normal or the climb state. */
  lemma WhenTheDashEnds(timer: real, dashDir: Vec, env: DashEnv)
    ensures env.hitSolid.Some? ==> Decide(timer, dashDir, env) == Tunnelling
    ensures env.hitSolid.None? && !env.intoDeath && timer > 0.0 ==> Decide(timer, dashDir, env) == Tunnelling
    ensures NextState(Decide(timer, dashDir, env)) == StDreamTunnelDash <==>
      env.hitSolid.Some? || env.intoDeath || timer > 0.0
    ensures env.hitSolid.None? && !env.intoDeath && timer <= 0.0 ==>
      NextState(Decide(timer, dashDir, env)) in {StNormal, StClimb}
  {
  }

  /** A dash straight up never grabs and is never nudged; any nudge pushes
      the player 5 pixels back against the dash direction. */
  lemma NudgeAndUpwardDash(timer: real, dashDir: Vec, env: DashEnv)
    ensures dashDir.y < 0.0 && dashDir.x == 0.0 && Decide(timer, dashDir, env).Leave? ==>
      Decide(timer, dashDir, env) == Leave(0, NoGrab)
    ensures var e := Decide(timer, dashDir, env);
      e.Leave? && e.nudge != 0 ==>
        (e.nudge == -5 && dashDir.x > 0.0) || (e.nudge == 5 && dashDir.x < 0.0)
  {
  }

  /** Frames that overlap no solid leave the recorded solid alone. */
  lemma {:induction false} NoSolidKeepsRecord(d: DreamTunnelData, frames: seq<TunnelFrame>)
    requires forall i :: 0 <= i < |frames| ==> frames[i].hit.None?
    ensures RecordFrames(d, frames).solid == d.solid
    decreases |frames|
  {
    if frames != [] {
      NoSolidKeepsRecord(RecordFrame(d, frames[0]), frames[1..]);
    }
  }

  /** As written: after a dash through solid `s`, a later dash that never
      overlaps any solid still ends with `s` recorded, so its End grants the
      jump grace (and a dream jump for a horizontal dash) as if it had
      tunnelled through a solid. */
  lemma StaleSolidAsWritten(d: DreamTunnelData, s: SolidRef, dt: real, later: seq<TunnelFrame>)
    requires forall i :: 0 <= i < |later| ==> later[i].hit.None?
    ensures var first := EndRecordAsWritten(RecordFrame(BeginRecord(d), TunnelFrame(dt, Some(s))));
      RecordFrames(BeginRecord(first), later).solid == Some(s)
  {
    var first := EndRecordAsWritten(RecordFrame(BeginRecord(d), TunnelFrame(dt, Some(s))));
    NoSolidKeepsRecord(BeginRecord(first), later);
  }

  /** Corrected: once End forgets the solid, a later dash has a recorded
      solid exactly when it overlapped one. */
  lemma {:induction false} RecordMeansOverlapCorrected(d: DreamTunnelData, frames: seq<TunnelFrame>)
    ensures RecordFrames(BeginRecord(EndRecord(d)), frames).solid.Some? <==>
      exists i :: 0 <= i < |frames| && frames[i].hit.Some?
  {
    RecordSomeIffHit(BeginRecord(EndRecord(d)), frames);
  }

  lemma {:induction false} RecordSomeIffHit(d: DreamTunnelData, frames: seq<TunnelFrame>)
    requires d.solid.None?
    ensures RecordFrames(d, frames).solid.Some? <==> exists i :: 0 <= i < |frames| && frames[i].hit.Some?
    decreases |frames|
  {
    if frames != [] {
      var d1 := RecordFrame(d, frames[0]);
      if frames[0].hit.Some? {
        SomeStays(d1, frames[1..]);
      } else {
        RecordSomeIffHit(d1, frames[1..]);
        assert forall i :: 1 <= i < |frames| ==> frames[i] == frames[1..][i - 1];
        if exists j :: 0 <= j < |frames[1..]| && frames[1..][j].hit.Some? {
          var j :| 0 <= j < |frames[1..]| && frames[1..][j].hit.Some?;
          assert frames[j + 1].hit.Some?;
        }
      }
    }
  }

  /** A recorded solid is never cleared by frames. */
  lemma {:induction false} SomeStays(d: DreamTunnelData, frames: seq<TunnelFrame>)
    requires d.solid.Some?
    ensures RecordFrames(d, frames).solid.Some?
    decreases |frames|
  {
    if frames != [] {
      SomeStays(RecordFrame(d, frames[0]), frames[1..]);
    }
  }

  // ---------------------------------------------------------------------------
  // The player state's callbacks

  /** Begin: stop the dash's own start, nudge into a solid just ahead, stop
      ducking on a downward dash, move at dash speed, pass through things
      naively, draw in front, restart the can-end timer, refill stamina and
      clear the dream jump, and play the enter sound. */
  method Begin(p: Player, env: BeginEnv)
    modifies p`StartedDashing, p`Position, p`Ducking, p`Speed, p`TreatNaive, p`Depth,
             p`dreamTunnel, p`Stamina, p`dreamJump, p`played
    ensures !p.StartedDashing
    ensures p.Position == (if !env.inSolid && env.solidAhead then Add(old(p.Position), SignVec(p.DashDir)) else old(p.Position))
    ensures p.Ducking == (old(p.Ducking) && p.DashDir.y <= 0.0)
    ensures p.Speed == Scale(p.DashDir, DashSpeed) && p.TreatNaive && p.Depth == DreamDashingLayer
    ensures p.dreamTunnel == BeginRecord(old(p.dreamTunnel))
    ensures p.Stamina == ClimbMaxStamina && !p.dreamJump
    ensures p.played == old(p.played) + [DreamBlockEnter]
  {
    p.StartedDashing := false;
    var dir := SignVec(p.DashDir);
    if !env.inSolid && env.solidAhead {
      p.Position := Add(p.Position, dir);
    }
    if p.DashDir.y > 0.0 {
      p.Ducking := false;
    }
    p.Speed := Scale(p.DashDir, DashSpeed);
    p.TreatNaive := true;
    p.Depth := DreamDashingLayer;
    p.dreamTunnel := BeginRecord(p.dreamTunnel);
    p.Stamina := ClimbMaxStamina;
    p.dreamJump := false;
    p.played := p.played + [DreamBlockEnter];
  }

  /** One frame of the dash. The result is the next player state, how the
      frame ended, and the velocity the player moves with this frame
      (vertically flipped under inverted gravity). */
  method Update(p: Player, dt: real, env: DashEnv) returns (next: PlayerState, exit: DashExit, velocity: Vec)
    modifies p`dreamTunnel, p`dreamJump, p`Facing, p`Speed
    ensures p.dreamTunnel == RecordFrame(old(p.dreamTunnel), TunnelFrame(dt, env.hitSolid))
    ensures exit == Decide(p.dreamTunnel.canEndTimer, p.DashDir, env) && next == NextState(exit)
    ensures velocity == Vec(old(p.Speed).x, if env.inverted then -old(p.Speed).y else old(p.Speed).y)
    ensures p.dreamJump == (old(p.dreamJump) || exit.DreamJumpOut?)
    ensures p.Facing == (if exit.Leave? && !exit.grab.NoGrab? then exit.grab.facing else old(p.Facing))
    ensures p.Speed == (if exit.Leave? && exit.grab.GrabAssisted? then old(p.Speed).(x := 0.0) else old(p.Speed))
  {
    velocity := Vec(p.Speed.x, if env.inverted then -p.Speed.y else p.Speed.y);
    var timer := p.dreamTunnel.canEndTimer;
    if timer > 0.0 {
      p.dreamTunnel := p.dreamTunnel.(canEndTimer := timer - dt);
    }
    next := StDreamTunnelDash;
    if env.hitSolid.None? {
      if env.intoDeath {
        exit := Died;
      } else if p.dreamTunnel.canEndTimer <= 0.0 {
        if env.jumpPressed && p.DashDir.x != 0.0 {
          p.dreamJump := true;
          exit := DreamJumpOut;
        } else if p.DashDir.y >= 0.0 || p.DashDir.x != 0.0 {
          var nudge := 0;
          if p.DashDir.x > 0.0 && env.dreamBlockLeft {
            nudge := -5;
          } else if p.DashDir.x < 0.0 && env.dreamBlockRight {
            nudge := 5;
          }
          var grab := NoGrab;
          if env.grabHeld && ((env.moveX == 1 && env.climbRight) || (env.moveX == -1 && env.climbLeft)) {
            p.Facing := if env.moveX == 1 then Right else Left;
            if !env.noGrabbing {
              return StClimb, Leave(nudge, GrabClimb(p.Facing)), velocity;
            }
            p.Speed := p.Speed.(x := 0.0);
            grab := GrabAssisted(p.Facing);
          }
          exit := Leave(nudge, grab);
        } else {
          exit := Leave(0, NoGrab);
        }
        next := StNormal;
      } else {
        exit := Tunnelling;
      }
    } else {
      p.dreamTunnel := p.dreamTunnel.(solid := env.hitSolid);
      exit := Tunnelling;
    }
  }

  /** End, as written: back to the player's depth, an automatic jump unless
      the dash ended in a dream jump, dash refill unless the inventory
      forbids it, full stamina, no naive movement; after a recorded solid,
      jump grace (and a dream jump) for a horizontal dash and none
      otherwise; then the exit sound. The recorded solid is left in place. */
  method EndAsWritten(p: Player)
    modifies p`Depth, p`AutoJump, p`AutoJumpTimer, p`Dashes, p`Stamina, p`TreatNaive,
             p`jumpGraceTimer, p`dreamJump, p`played
    ensures p.Depth == PlayerLayer && p.Stamina == ClimbMaxStamina && !p.TreatNaive
    ensures !old(p.dreamJump) ==> p.AutoJump && p.AutoJumpTimer == 0.0
    ensures old(p.dreamJump) ==> p.AutoJump == old(p.AutoJump) && p.AutoJumpTimer == old(p.AutoJumpTimer)
    ensures p.Dashes == (if !p.Inventory.noRefills && old(p.Dashes) < p.Inventory.dashes then p.Inventory.dashes else old(p.Dashes))
    ensures p.dreamTunnel.solid.Some? ==>
      p.jumpGraceTimer == (if p.DashDir.x != 0.0 then 0.1 else 0.0) && p.dreamJump == (old(p.dreamJump) || p.DashDir.x != 0.0)
    ensures p.dreamTunnel.solid.None? ==> p.jumpGraceTimer == old(p.jumpGraceTimer) && p.dreamJump == old(p.dreamJump)
    ensures p.dreamTunnel == EndRecordAsWritten(old(p.dreamTunnel))
    ensures p.played == old(p.played) + [DreamBlockExit]
  {
    p.Depth := PlayerLayer;
    if !p.dreamJump {
      p.AutoJump := true;
      p.AutoJumpTimer := 0.0;
    }
    if !p.Inventory.noRefills {
      var _ := p.RefillDash();
    }
    p.RefillStamina();
    p.TreatNaive := false;
    var solid := p.dreamTunnel.solid;
    if solid.Some? {
      if p.DashDir.x != 0.0 {
        p.jumpGraceTimer := 0.1;
        p.dreamJump := true;
      } else {
        p.jumpGraceTimer := 0.0;
      }
      solid := None;
    }
    p.played := p.played + [DreamBlockExit];
  }

  /** End, corrected: as written, and the recorded solid is forgotten. */
  method End(p: Player)
    modifies p`Depth, p`AutoJump, p`AutoJumpTimer, p`Dashes, p`Stamina, p`TreatNaive,
             p`jumpGraceTimer, p`dreamJump, p`dreamTunnel, p`played
    ensures p.Depth == PlayerLayer && p.Stamina == ClimbMaxStamina && !p.TreatNaive
    ensures !old(p.dreamJump) ==> p.AutoJump && p.AutoJumpTimer == 0.0
    ensures old(p.dreamJump) ==> p.AutoJump == old(p.AutoJump) && p.AutoJumpTimer == old(p.AutoJumpTimer)
    ensures p.Dashes == (if !p.Inventory.noRefills && old(p.Dashes) < p.Inventory.dashes then p.Inventory.dashes else old(p.Dashes))
    ensures old(p.dreamTunnel).solid.Some? ==>
      p.jumpGraceTimer == (if p.DashDir.x != 0.0 then 0.1 else 0.0) && p.dreamJump == (old(p.dreamJump) || p.DashDir.x != 0.0)
    ensures old(p.dreamTunnel).solid.None? ==> p.jumpGraceTimer == old(p.jumpGraceTimer) && p.dreamJump == old(p.dreamJump)
    ensures p.dreamTunnel == EndRecord(old(p.dreamTunnel))
    ensures p.played == old(p.played) + [DreamBlockExit]
  {
    EndAsWritten(p);
    p.dreamTunnel := EndRecord(p.dreamTunnel);
  }
}
