/** The part of the game's player that the dream tunnel dash and the held
    booster read and write. Engine constants come from the player class:
    the dash speed is 240 and the maximum climbing stamina 110. */
module PlayerModel {
  import opened Wrappers
  import opened Geometry

  /** The player states the scripts return to the state machine. */
  datatype PlayerState = StNormal | StClimb | StDreamTunnelDash

  /** `Facings`: right is 1, left is -1. */
  datatype Facing = Left | Right

  function FacingSign(f: Facing): (s: real)
    ensures s == 1.0 || s == -1.0
    ensures s > 0.0 <==> f == Right
  {
    if f == Right then 1.0 else -1.0
  }

  /** The two drawing depths the dream tunnel dash switches between. */
  datatype DepthLayer = PlayerLayer | DreamDashingLayer

  /** A solid the player has tunnelled through, by identity. */
  datatype SolidRef = SolidRef(id: nat)

  /** What the dream tunnel dash keeps on the player by name (`DynamicData`):
      the time before the dash may end, and the last solid it overlapped. */
  datatype DreamTunnelData = DreamTunnelData(canEndTimer: real, solid: Option<SolidRef>)

  /** The one-shot sounds the dream tunnel dash plays on the player. */
  datatype PlayerSound = DreamBlockEnter | DreamBlockExit

  /** The inventory fields the scripts consult. */
  datatype Inventory = Inventory(dashes: int, noRefills: bool)

  const DashSpeed: real := 240.0
  const ClimbMaxStamina: real := 110.0

  class Player {
    var Position: Vec
    var Speed: Vec
    var DashDir: Vec
    var Facing: Facing
    var StartedDashing: bool
    var Ducking: bool
    var TreatNaive: bool
    var Depth: DepthLayer
    var Stamina: real
    var Dashes: int
    var Inventory: Inventory
    var jumpGraceTimer: real
    var dreamJump: bool
    var AutoJump: bool
    var AutoJumpTimer: real
    var dreamTunnel: DreamTunnelData
    var gliderBoostDir: Vec
    /** The one-shot sounds played on the player, oldest first. */
    var played: seq<PlayerSound>

    /** A player standing at `position`, facing right, with a full inventory
        of `inventory.dashes` dashes and full stamina. */
    constructor (position: Vec, inventory: Inventory)
      ensures Position == position && Speed == Zero && DashDir == Zero && Facing == Right
      ensures !StartedDashing && !Ducking && !TreatNaive && Depth == PlayerLayer
      ensures Stamina == ClimbMaxStamina && Dashes == inventory.dashes && Inventory == inventory
      ensures jumpGraceTimer == 0.0 && !dreamJump && !AutoJump && AutoJumpTimer == 0.0
      ensures dreamTunnel == DreamTunnelData(0.0, None) && gliderBoostDir == Zero && played == []
    {
      Position := position;
      Speed := Zero;
      DashDir := Zero;
      Facing := Right;
      StartedDashing := false;
      Ducking := false;
      TreatNaive := false;
      Depth := PlayerLayer;
      Stamina := ClimbMaxStamina;
      Dashes := inventory.dashes;
      Inventory := inventory;
      jumpGraceTimer := 0.0;
      dreamJump := false;
      AutoJump := false;
      AutoJumpTimer := 0.0;
      dreamTunnel := DreamTunnelData(0.0, None);
      gliderBoostDir := Zero;
      played := [];
    }

    /** `RefillDash`: top the dashes up to the inventory's count; the
        result says whether anything was refilled. */
    method RefillDash() returns (refilled: bool)
      modifies this`Dashes
      ensures refilled <==> old(Dashes) < Inventory.dashes
      ensures Dashes == (if refilled then Inventory.dashes else old(Dashes))
      ensures Dashes >= Inventory.dashes && Dashes >= old(Dashes)
    {
      refilled := Dashes < Inventory.dashes;
      if refilled {
        Dashes := Inventory.dashes;
      }
    }

    /** `RefillStamina`: full climbing stamina. */
    method RefillStamina()
      modifies this`Stamina
      ensures Stamina == ClimbMaxStamina
    {
      Stamina := ClimbMaxStamina;
    }
  }
}
