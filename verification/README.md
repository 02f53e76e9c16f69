# CommunalHelper gameplay core, modelled in Dafny

CommunalHelper is a content mod for the game Celeste. It adds entities,
components and player states to the Monocle engine. This project models seven
of its pieces and proves properties about them:

- **Ticking cassette listener** (module `Cassette`). A cassette listener
  fires `OnTick` on every tick beat of the level's cassette block manager
  except the swap beat. The model works in C#'s 32-bit arithmetic:
  truncated remainder, wrapping product, and the exception on a zero
  divisor.
- **Pellet emitter and its shots** (module `StrawberryJamPellets`). The
  emitter fires a volley of pellets on cassette ticks of its colour. Each
  pellet waits out its delay, travels, sweeps pixel by pixel for solids,
  plays its impact animation and is destroyed.
- **Aero slingshot block** (module `AeroSlingshot`). A block that is pushed
  away from its start. Once released, it winds back along the line to its
  start, then cools down.
- **Falling component** (module `FallingComponent`). The reusable "falling
  block" behaviour: it waits for a trigger, shakes, falls with
  acceleration, and lands (or leaves the level and waits to fall again).
- **Zipping component** (module `ZippingComponent`). The reusable "zip
  mover" behaviour: on trigger it travels to its target, pauses, and
  returns.
- **Dream tunnel dash** (module `DreamTunnelDash`). A player state that
  tunnels through solids. It is modelled over the parts of the player it
  touches (module `PlayerModel`).
- **Held booster** (module `HeldBooster`). A red booster that launches only
  when the dash button is released. A green one launches toward its node;
  a purple one launches the way the player aims.

Each Monocle coroutine is modelled the same way. A datatype names the
yield point where the coroutine is suspended. A run record holds its wait
timer and locals. A pure function (`FrameSpec`, `StepSpec`, `UpdateView`)
gives one engine frame. If a timer is running, the frame only counts it
down; otherwise the body runs to its next `yield`. Each class's `Update`
method is proved to perform exactly that frame on its fields. Lemmas then
prove, about the frame function, the invariants the sequence keeps and the
order in which it visits its states.

Collision queries, the input system, `Ease.SineIn` and the frame time
`Engine.DeltaTime` are parameters. One-shot sounds are kept as the names
of the events played: the emitter's fire sound, the zip mover's trigger
sound, the falling block's shake and impact sounds, and the dream tunnel
dash's enter and exit sounds. Animations are kept as the names played.

## Model

| member | source | states |
|---|---|---|
| Cassette.CsRem | src/Entities/StrawberryJam/TickingCassetteListener.cs:23-24 | C#'s `%`: the remainder is zero exactly when the divisor's magnitude divides the dividend, and it lies strictly inside the divisor's magnitude with the dividend's sign |
| Cassette.CsRemChecked | src/Entities/StrawberryJam/TickingCassetteListener.cs:23-24 | `%` on ints faults exactly on a zero divisor or on `int.MinValue % -1`, and otherwise yields the truncated remainder |
| Cassette.MulInt32 | src/Entities/StrawberryJam/TickingCassetteListener.cs:24 | `beatsPerTick * ticksPerSwap` is the exact product whenever that product fits in an int, and otherwise agrees with it modulo 2^32 (the unchecked wrap-around) |
| Cassette.TickingCassetteListener.constructor | src/Entities/StrawberryJam/TickingCassetteListener.cs:11-14 | a new listener keeps its index and tempo and is active |
| Cassette.TickingCassetteListener.Update | src/Entities/StrawberryJam/TickingCassetteListener.cs:16-27 | the frame does nothing exactly when the level has no cassette block manager (its faults are `UpdateFaultsExactly`) |
| Cassette.UpdateFaultsExactly | src/Entities/StrawberryJam/TickingCassetteListener.cs:23-24 | the frame faults exactly on a zero `beatsPerTick`, on `int.MinValue % -1`, or, on a beat that starts a tick, on a wrapped swap period of 0 (or of -1 with the beat at `int.MinValue`) |
| Cassette.ZeroBeatsPerTickFaults | src/Entities/StrawberryJam/TickingCassetteListener.cs:23 | a zero `beatsPerTick` faults on every beat |
| Cassette.UpdateTicksExactlyOnTickBeats | src/Entities/StrawberryJam/TickingCassetteListener.cs:20-25 | with positive counters whose product fits in an int, the listener never faults, and it ticks if and only if the beat is a multiple of `beatsPerTick` but not of the swap period |
| Cassette.SwapBeatsNeverTick | src/Entities/StrawberryJam/TickingCassetteListener.cs:23-25 | a beat on the swap period never ticks, whatever the signs of the counters |
| Cassette.PeriodPrefixCount | src/Entities/StrawberryJam/TickingCassetteListener.cs:23-25 | the first `j` ticks' worth of beats in a swap period contain exactly `j - 1` tick beats |
| Cassette.TicksPerSwapPeriod | src/Entities/StrawberryJam/TickingCassetteListener.cs:23-25 | every swap period holds exactly `ticksPerSwap - 1` ticks: every tick except the swap |
| Cassette.WrappedPeriodFaults | src/Entities/StrawberryJam/TickingCassetteListener.cs:24 | counters 65536 × 65536 wrap to a zero modulus, and the listener faults on beat 0 |
| StrawberryJamPellets.DirectionOf | src/Entities/StrawberryJam/PelletEmitter.cs:78-81 | an orientation's direction is an axis-aligned unit vector, pointing up, down, left or right exactly for that orientation |
| StrawberryJamPellets.AlongIsScaledDirection | src/Entities/StrawberryJam/PelletEmitter.cs:210 | a shot's speed written per orientation is the direction scaled by the emitter's speed |
| StrawberryJamPellets.AnimationKeyPrefix | src/Entities/StrawberryJam/PelletEmitter.cs:55 | index 0 is "blue", index 1 is "pink", and every other index is "both" (each as an if-and-only-if) |
| StrawberryJamPellets.AnimationKeysDistinct | src/Entities/StrawberryJam/PelletEmitter.cs:55-59 | idle, charging and firing keys never collide, and two keys of one kind agree exactly when the prefixes agree |
| StrawberryJamPellets.FireSound | src/Entities/StrawberryJam/PelletEmitter.cs:61 | the blue fire sound plays exactly for index 0 |
| StrawberryJamPellets.TickReactionCases | src/Entities/StrawberryJam/PelletEmitter.cs:111-123 | a coloured emitter charges on ordinary ticks while another colour is active, fires on the swap to its own colour, and ignores the rest; an emitter of every colour (negative index) charges on every ordinary tick and fires on every swap; shots take the manager's index |
| StrawberryJamPellets.AsWrittenEmitterNeverFires | src/Entities/StrawberryJam/TickingCassetteListener.cs:25 | reading the mismatched `OnTick` signature as a listener that never reports a swap, the emitter's firing branch is unreachable |
| StrawberryJamPellets.IntendedSignalFiresOnSwap | src/Entities/StrawberryJam/PelletEmitter.cs:111-123 | a listener that passes `isSwap` reports a swap exactly on swap beats, and a tick only on tick beats |
| StrawberryJamPellets.PelletEmitter.constructor | src/Entities/StrawberryJam/PelletEmitter.cs:66-125 | each setting takes its map value or its default (index 0, collide with solids, 1 pellet, 0.25 s delay, speed 100, wiggle 2/2, no wiggle hitbox, up, kills); direction and shot origin follow the orientation; the idle animation plays |
| StrawberryJamPellets.PelletEmitter.Added | src/Entities/StrawberryJam/PelletEmitter.cs:127-131 | the emitter keeps the scene's audio controller |
| StrawberryJamPellets.PelletEmitter.PlayFireSound | src/Entities/StrawberryJam/PelletEmitter.cs:151-153 | the controller's play log gains exactly the fire sound for the index |
| StrawberryJamPellets.PelletEmitter.Fire | src/Entities/StrawberryJam/PelletEmitter.cs:139-148 | a volley is `Count` fresh, distinct shots (none when `Count` ≤ 0); shot k leaves the origin after k × `Delay`; all shots take the given index (the emitter's own when none); exactly one fire sound plays, and only when the volley is not empty |
| StrawberryJamPellets.PelletEmitter.OnTick | src/Entities/StrawberryJam/PelletEmitter.cs:111-123 | the emitter switches animation, or fires, as the tick reaction for its index says |
| StrawberryJamPellets.PelletEmitter.OnPlayerCollide | src/Entities/StrawberryJam/PelletEmitter.cs:155-159 | the player is killed exactly when the emitter kills |
| StrawberryJamPellets.InitView | src/Entities/StrawberryJam/PelletEmitter.cs:206-239 | a shot starts alive and collidable at the emitter's shot origin, with the given delay, speed = direction × emitter speed, the emitter's solid setting and the fired index; the projectile is visible exactly when there is no delay; the trail is blue exactly for index 0 |
| StrawberryJamPellets.PelletShot.Init | src/Entities/StrawberryJam/PelletEmitter.cs:206-239 | the shot's fields become `InitView` of the emitter, delay and index |
| StrawberryJamPellets.AddedView | src/Entities/StrawberryJam/PelletEmitter.cs:241-246 | after being added, the shot is in the scene, and the projectile animation plays exactly when it already did or there is no delay |
| StrawberryJamPellets.PelletShot.Added | src/Entities/StrawberryJam/PelletEmitter.cs:241-246 | the shot's fields become `AddedView` of the old ones |
| StrawberryJamPellets.DestroyView | src/Entities/StrawberryJam/PelletEmitter.cs:248-254 | a destroyed shot is dead, detached from its emitter, out of the scene, and both sprites stop |
| StrawberryJamPellets.PelletShot.Destroy | src/Entities/StrawberryJam/PelletEmitter.cs:248-254 | the shot's fields become `DestroyView` of the old ones |
| StrawberryJamPellets.ImpactView | src/Entities/StrawberryJam/PelletEmitter.cs:358-369 | an impacting shot stops colliding, hides the projectile, and shows the air or tiles impact animation in its colour |
| StrawberryJamPellets.PelletShot.Impact | src/Entities/StrawberryJam/PelletEmitter.cs:358-369 | the shot's fields become `ImpactView` of the old ones |
| StrawberryJamPellets.Sweep | src/Entities/StrawberryJam/PelletEmitter.cs:306-356 | a sweep that stops reports a solid, within the steps available |
| StrawberryJamPellets.SweepFindsFirstSolid | src/Entities/StrawberryJam/PelletEmitter.cs:310-350 | a blocked sweep stops at a solid and every earlier unit step was clear; an unblocked sweep found no solid on any step |
| StrawberryJamPellets.MoveView | src/Entities/StrawberryJam/PelletEmitter.cs:306-363 | without a solid at the target the shot moves by speed × dt; a collidable shot that would hit a solid with solid collision on stays collidable exactly when the unit sweep is clear; when the sweep is blocked it stops where the sweep stopped, with zero speed, and impacts: projectile hidden, impact shown, the air animation for a non-tile solid and the tiles one otherwise; a shot that stays collidable moved the full step and is otherwise unchanged |
| StrawberryJamPellets.MoveStopsInFrontOfFirstSolid | src/Entities/StrawberryJam/PelletEmitter.cs:313-354 | a shot that would run into a solid keeps flying exactly when none of the 50 unit steps meets a solid; otherwise it stands on the last clear step, within the 50, with a solid on the next step |
| StrawberryJamPellets.MoveNormalIsSafeNormal | src/Entities/StrawberryJam/PelletEmitter.cs:312 | the per-pixel step of an axis-aligned shot is the safe normal of its displacement |
| StrawberryJamPellets.PelletShot.Move | src/Entities/StrawberryJam/PelletEmitter.cs:306-356 | the loop leaves the shot's fields at `MoveView` of the old ones |
| StrawberryJamPellets.UpdateView | src/Entities/StrawberryJam/PelletEmitter.cs:256-304 | a dead shot is untouched; a non-colliding shot whose impact ended is destroyed; a live shot in a level counts its delay down by dt; the fire sound plays exactly on the frame the delay runs out, for a shot with an emitter; a released shot still flying shows the flight animation; once the delay is over the shot moves as `MoveView` says and is destroyed exactly when it ends up out of bounds (with no solid at the target: at position + speed × dt); the phase (delayed, flying, impacting, dead) never goes back |
| StrawberryJamPellets.PelletShot.Update | src/Entities/StrawberryJam/PelletEmitter.cs:256-304 | the shot's fields become `UpdateView` of the old ones, and the parent's controller logs the fire sound exactly when that frame says so |
| StrawberryJamPellets.PlayerCollideView | src/Entities/StrawberryJam/PelletEmitter.cs:371-378 | when the player dies the shot stops and wobbles away from the player in place; otherwise nothing changes |
| StrawberryJamPellets.PelletShot.OnPlayerCollide | src/Entities/StrawberryJam/PelletEmitter.cs:371-378 | the shot's fields become `PlayerCollideView` of the old ones |
| StrawberryJamPellets.RunNeverRegresses | src/Entities/StrawberryJam/PelletEmitter.cs:256-304 | over any sequence of frames the phase never goes back, and a dead shot stays as it is |
| AeroSlingshot.AeroBlockSlingshot.constructor | src/Entities/Aero/AeroBlockSlingshot.cs:47-73 | the timings and push speed take their arguments; start and end are the first two nodes and the block starts at the first; it is idle with release timer -1 and not pushable before its sequence runs |
| AeroSlingshot.AeroBlockSlingshot.OnPush | src/Entities/Aero/AeroBlockSlingshot.cs:81-85 | a push winds the block up and rearms the release timer; nothing else changes |
| AeroSlingshot.AeroBlockSlingshot.MoveTo | src/Entities/Aero/AeroBlockSlingshot.cs:114 | moving changes only the position |
| AeroSlingshot.AeroBlockSlingshot.LaunchAt | src/Entities/Aero/AeroBlockSlingshot.cs:110-115 | launch progress becomes min(1, at + dt / `LaunchTime`), and 1 at once when the launch time is not positive |
| AeroSlingshot.AeroBlockSlingshot.LaunchAfterFrames | src/Entities/Aero/AeroBlockSlingshot.cs:110-115 | after n frames of dt the progress is min(1, n × dt / `LaunchTime`): the launch ends once the frames add up to the launch time |
| AeroSlingshot.AeroBlockSlingshot.WaitOrRelease | src/Entities/Aero/AeroBlockSlingshot.cs:96-103 | the wait ends exactly when the release timer has run out and the block has moved more than 0.01 from its start |
| AeroSlingshot.AeroBlockSlingshot.StepSpec | src/Entities/Aero/AeroBlockSlingshot.cs:89-120 | a frame keeps the block consistent, enters states only in the cycle Idle, Ready, Launching, Cooldown, Idle, and the block is pushable exactly while it waits |
| AeroSlingshot.AeroBlockSlingshot.Update | src/Entities/Aero/AeroBlockSlingshot.cs:89-120 | the block's fields become `StepSpec` of the old ones |
| AeroSlingshot.AeroBlockSlingshot.WaitLoopHead | src/Entities/Aero/AeroBlockSlingshot.cs:93-100 | entering the wait loop leaves the fields at `WaitOrRelease` of the old ones |
| AeroSlingshot.AeroBlockSlingshot.PushWhileActiveIsConsistent | src/Entities/Aero/AeroBlockSlingshot.cs:81-85 | a push can only arrive while the block waits, and it keeps the block consistent |
| AeroSlingshot.AeroBlockSlingshot.LaunchFollowsLine | src/Entities/Aero/AeroBlockSlingshot.cs:108-115 | during the launch the block sits on the line from the release point to the start, at the eased progress |
| AeroSlingshot.AeroBlockSlingshot.WaitingNeedsTimerAndMove | src/Entities/Aero/AeroBlockSlingshot.cs:96-100 | while the timer runs or the block has not moved, a frame only counts the timer down and the block keeps waiting |
| AeroSlingshot.RunFollowsCycle | src/Entities/Aero/AeroBlockSlingshot.cs:91-119 | over any sequence of frames the states entered follow the cycle |
| AeroSlingshot.CycleConcat | src/Entities/Aero/AeroBlockSlingshot.cs:91-119 | two cycle-following traces joined end to end follow the cycle |
| FallingComponent.Falling.constructor | src/Components/Falling.cs:34-42 | the settings take their arguments (defaults: no delay, rumble, climb fall, speed 160, manage safe, fall down, shake 0.4, end on tiles, not immediate); nothing is triggered or running |
| FallingComponent.Falling.PlayerChecks | src/Components/Falling.cs:73-85 | without a solid neither check passes; the wait check holds whenever the fall check does and whenever the component is triggered, and otherwise only for a climb fall with the player at a side |
| FallingComponent.Falling.Added | src/Components/Falling.cs:44-57 | added to a solid the component restarts its sequence and makes the solid unsafe when it manages safety; added to a non-solid it removes itself, detaching the sequence and the entity |
| FallingComponent.Falling.Reset | src/Components/Falling.cs:59-65 | with a solid the sequence restarts; without one the old sequence is detached; the trigger flags and the solid stay |
| FallingComponent.Falling.Removed | src/Components/Falling.cs:67-71 | removal detaches the sequence and leaves the component without an entity; the flags stay |
| FallingComponent.Falling.Trigger | src/Components/Falling.cs:157-158 | triggering sets `Triggered` and nothing else |
| FallingComponent.Falling.FallStepFacts | src/Components/Falling.cs:201-237 | a falling frame moves the speed toward `FallSpeed` by exactly 500 × dt, or onto `FallSpeed` when it is within that step, keeping it in [0, `FallSpeed`]; the velocity is that speed, upward exactly when the component falls up |
| FallingComponent.Falling.FrameSounds | src/Components/Falling.cs:87-97 | a frame plays the impact sound exactly when it lands the solid in a fresh landing pause (line 240); it plays the shake sound only when a shake with a shake time starts rather than continues, and always when one starts (line 185); when both play, the shake comes first |
| FallingComponent.Falling.WaitTriggerFacts | src/Components/Falling.cs:156-177 | the sequence keeps waiting exactly while it is not triggered and the fall check does not pass; the fall starts in that frame exactly when the trigger is there and then the way is clear (falling immediately) or there is no delay |
| FallingComponent.Falling.SequenceStart | src/Components/Falling.cs:152-177 | the first frame sets `Triggered` to `FallImmediately`, clears `Safe` when safety is managed, and starts the fall only after the trigger and then the clearance or the delay |
| FallingComponent.Falling.ClearanceFacts | src/Components/Falling.cs:160-177 | the clearance wait keeps the invariant, never returns to waiting for a trigger, and starts the fall exactly when no platform is ahead |
| FallingComponent.Falling.DelayFacts | src/Components/Falling.cs:166-177 | the fall delay keeps the invariant, never returns to waiting for a trigger, and starts the fall exactly when the remaining delay is at most 0 |
| FallingComponent.Falling.FrameKeepsInv | src/Components/Falling.cs:140-259 | every frame keeps the speed in range, `HasStartedFalling` false before the fall starts and true after, and shaking only with a positive shake time |
| FallingComponent.Falling.NoShakeWithoutShakeTime | src/Components/Falling.cs:182-195 | with no shake time the loop skips shaking and falls from speed 0 |
| FallingComponent.Falling.LandingOnTilesEnds | src/Components/Falling.cs:249-253 | a landing on solid tiles with `EndOnSolidTiles` finishes the sequence |
| FallingComponent.Falling.FinishedIsFinal | src/Components/Falling.cs:249-253 | a finished or detached sequence changes nothing and moves nothing |
| FallingComponent.Falling.Update | src/Components/Falling.cs:140-259 | the component and solid fields become `FrameSpec` of the old ones; the velocity returned is the one that frame asked the solid to move with, and the sounds returned are the ones it played |
| ZippingComponent.Zipping.constructor | src/Components/Zipping.cs:14-19 | the target and sound setting are kept; nothing runs, no solid, percent 0 |
| ZippingComponent.Zipping.Reset | src/Components/Zipping.cs:50-60 | the sequence restarts exactly when there is a solid, and a fresh sound source exists exactly when there is a solid and sound is managed |
| ZippingComponent.Zipping.Removed | src/Components/Zipping.cs:62-70 | removal drops the sequence, the sound source and the solid |
| ZippingComponent.Zipping.Added | src/Components/Zipping.cs:36-48 | adding to a solid restarts the sequence with a sound source exactly when sound is managed; adding to nothing clears both |
| ZippingComponent.Zipping.OnTriggerSfx | src/Components/Zipping.cs:29-34 | the trigger sound plays once on the component's source, when it has one |
| ZippingComponent.Zipping.StartRunInv | src/Components/Zipping.cs:72-74 | a fresh sequence satisfies the invariant |
| ZippingComponent.Zipping.FrameKeepsInv | src/Components/Zipping.cs:72-122 | every frame keeps progress in [0, 1], the player's run-into animation enabled only while moving, and the sequence advancing along its cycle |
| ZippingComponent.Zipping.TriggerStartsCycle | src/Components/Zipping.cs:78-84 | when waiting, a trigger plays the sound, shakes for 0.1 s and waits 0.1 s; without a trigger the sequence keeps waiting |
| ZippingComponent.Zipping.StartCapturedOnce | src/Components/Zipping.cs:74 | once its first wait is over, the sequence has recorded its start position |
| ZippingComponent.Zipping.OutboundLeg | src/Components/Zipping.cs:88-106 | outbound progress grows by 2 × dt, the solid sits at the eased point between start and target, and arrival shakes for 0.2 s, stops the run-into animation and pauses 0.5 s |
| ZippingComponent.Zipping.ReturnLeg | src/Components/Zipping.cs:108-120 | return progress grows by 0.5 × dt from the target back to the start, and arrival pauses before waiting for a trigger again |
| ZippingComponent.Zipping.PausesEnd | src/Components/Zipping.cs:86-87 | leaving either pause re-enables running into the solid, restarts progress at 0 and starts the next leg in place |
| ZippingComponent.Zipping.WaitOnlyCountsDown | src/Components/Zipping.cs:72-122 | while a wait runs, a frame only counts it down |
| ZippingComponent.Zipping.RunKeepsInv | src/Components/Zipping.cs:72-122 | over any sequence of frames the invariant holds |
| ZippingComponent.Zipping.RunKeepsStart | src/Components/Zipping.cs:74 | the start position recorded once never changes again |
| ZippingComponent.Zipping.TriggerLoopHead | src/Components/Zipping.cs:78-84 | entering the trigger loop leaves the fields at `TriggerHead` of the old ones |
| ZippingComponent.Zipping.Update | src/Components/Zipping.cs:72-122 | the component and solid become `FrameSpec` of the old ones, and the sound plays exactly when that frame triggers |
| PlayerModel.FacingSign | src/Entities/BoosterStuff/HeldBooster.cs:115 | a facing reads as ±1, positive exactly for right |
| PlayerModel.Player.RefillDash | src/States/DreamTunnelDash.cs:62-65 | dashes are refilled exactly when below the inventory count, and never go down |
| PlayerModel.Player.RefillStamina | src/States/DreamTunnelDash.cs:66 | stamina becomes the full climbing stamina |
| DreamTunnelDash.ClimbExactly | src/States/DreamTunnelDash.cs:146-155 | the dash ends in climbing exactly when no solid overlaps, not into death, the timer is out, no jump-out, grab is held toward a climbable wall, and grabbing is allowed |
| DreamTunnelDash.WhenTheDashEnds | src/States/DreamTunnelDash.cs:121-162 | inside a solid, or before the timer runs out, the dash goes on; it stays in the dash state exactly in those cases and on a death; otherwise it ends |
| DreamTunnelDash.NudgeAndUpwardDash | src/States/DreamTunnelDash.cs:136-145 | a straight upward dash leaves with no nudge and no grab; any nudge is 5 pixels against the horizontal dash direction |
| DreamTunnelDash.NoSolidKeepsRecord | src/States/DreamTunnelDash.cs:121-165 | frames that overlap no solid leave the stored solid as it was |
| DreamTunnelDash.StaleSolidAsWritten | src/States/DreamTunnelDash.cs:68-82 | as written, a dash that overlaps no solid still ends with the solid of an earlier dash |
| DreamTunnelDash.RecordMeansOverlapCorrected | src/States/DreamTunnelDash.cs:68-82 | with the stored solid cleared at the end, a later dash holds a solid exactly when one of its own frames overlapped one |
| DreamTunnelDash.Begin | src/States/DreamTunnelDash.cs:10-50 | the dash starts not "started"; the player is nudged one step into a solid just ahead; a downward dash unducks; speed is dash speed along the dash direction; naive movement, the dream-dash depth, a 0.1 s end timer, full stamina, no dream jump; the enter sound is played (line 39) |
| DreamTunnelDash.Update | src/States/DreamTunnelDash.cs:88-180 | the timer and stored solid follow the frame record; the next state and exit follow `Decide`; the velocity is the speed with y flipped under inverted gravity; a jump-out sets `dreamJump`; a grab turns the player, and an assisted grab stops horizontal speed |
| DreamTunnelDash.EndAsWritten | src/States/DreamTunnelDash.cs:52-86 | player depth and stamina restore and naive movement ends; without a dream jump the player auto-jumps; dashes refill unless refills are off; a stored solid gives jump grace and a dream jump for horizontal dashes; the exit sound is played (line 84); the stored solid is kept |
| DreamTunnelDash.End | src/States/DreamTunnelDash.cs:52-86 | as `EndAsWritten`, and the stored solid is cleared |
| HeldBooster.BubbleFactor | src/Entities/BoosterStuff/HeldBooster.cs:90 | the player cannot move inside a green bubble: the factor is 0 exactly for green |
| HeldBooster.RedDashUpdateAfter | src/Entities/BoosterStuff/HeldBooster.cs:134-139 | releasing dash returns to the normal state; holding it stays (both directions) |
| HeldBooster.LaunchHasDashSpeed | src/Entities/BoosterStuff/HeldBooster.cs:144-152 | a launch along a unit direction has speed 240, along the direction, with y flipped under inverted gravity |
| HeldBooster.HeldBooster.constructor | src/Entities/BoosterStuff/HeldBooster.cs:70-94 | green exactly when there is a node other than the position; the start, the node direction and the bubble factor follow; empty-handed and collidable |
| HeldBooster.HeldBooster.LaunchDirection | src/Entities/BoosterStuff/HeldBooster.cs:144 | green launches along the node direction, purple along the aim |
| HeldBooster.HeldBooster.GreenLaunchesTowardNode | src/Entities/BoosterStuff/HeldBooster.cs:93-144 | a green booster launches along a unit vector that points at its node, whatever the aim |
| HeldBooster.HeldBooster.SetAim | src/Entities/BoosterStuff/HeldBooster.cs:161-171 | a zero vector changes nothing; any other sets the aim, and a pulse restarts the animation |
| HeldBooster.HeldBooster.OnPlayerEnter | src/Entities/BoosterStuff/HeldBooster.cs:107-118 | the booster holds the player and stops colliding; the pulse restarts; purple aims the way the player faces |
| HeldBooster.HeldBooster.OnPlayerExit | src/Entities/BoosterStuff/HeldBooster.cs:120-126 | the booster collides again, holds nobody and pops its arrow |
| HeldBooster.HeldBooster.Update | src/Entities/BoosterStuff/HeldBooster.cs:173-183 | a purple booster holding a player not yet launched follows the aim (zero input keeps it, a change pulses); the pulse always decays toward 0 by 2 × dt |
| HeldBooster.HeldBooster.RedDashCoroutineAfter | src/Entities/BoosterStuff/HeldBooster.cs:141-159 | the player dashes in the launch direction at `LaunchSpeed`, records it as the glider boost direction, and faces a horizontal launch; a booster in the state its constructor and methods keep (aim and node direction each zero or a unit vector) that has a direction (green, or purple once aimed) launches at exactly 240, and one without leaves the player at rest |
| Geometry.Approach | src/Components/Zipping.cs:92 | `Calc.Approach` stays between the value and the target, moves at most `maxMove`, reaches the target exactly when it was within `maxMove`, and otherwise moves toward it by exactly `maxMove` |
| Geometry.Lerp | src/Components/Zipping.cs:94 | `Vector2.Lerp` gives the first point at 0 and the second at 1 |
| Geometry.Sign | src/Entities/BoosterStuff/HeldBooster.cs:156 | `Math.Sign` is -1, 0 or 1 with the sign of its argument |

## Left out

- Rendering, particles, light, screen shake, rumble, freeze frames and sprite effects: none of them feeds back into game state.
- Audio is kept only as the events played: the emitter's `AudioController` log, the zip mover's `SoundSource` play count, the sounds a falling frame returns, and the player's `played` list. Looping and stopping sounds (the dash's travel loop) are left out. So is the pellet's impact sound, because it plays only when the camera sees the shot and the camera is not modelled.
- The falling sounds are modelled as the default `OnShakeSfx` and `OnImpactSfx` handlers (src/Components/Falling.cs:87-97); a handler a user installs in `ShakeSfx` or `ImpactSfx` is foreign code and is left out.
- Engine collision (`CollideCheck`, `CollideFirst`, climb checks, the level bounds) becomes parameters: booleans, or a `solidAt` function for the pellet sweep.
- `Ease.SineIn` is the `ease` parameter, taken as any function of the progress.
- Movement the engine performs (`MoveHExact`, `MoveV`, `MoveTowardsY`, and `NaiveMove` during the dash) is returned as a velocity or a nudge, not carried out. The exception is the one-step `NaiveMove` of `DreamTunnelDash.Begin`, which is written into the player's position.
- Float arithmetic is modelled as exact real arithmetic; `Engine.DeltaTime` is the parameter `dt`.
- The cassette block manager is read through its three counters (`ManagerData`); the tempo and `getTickLength` only set animation speed and are not modelled.
- Pellet pooling and `SingletonAudioController` creation are not modelled; each shot is a new object.
- The optional `action` callback of `Fire` runs foreign code on each shot and is left out.
- StrawberryJamPellets.MoveView: the floor/ceiling snap of the position before the sweep, and the snap to the collider's edge and the rounding of the other coordinate at the hit, are left out, because collider geometry and rounding are not modelled; the sweep starts from the unsnapped position and stops at the last clear step.
- AeroSlingshot.AeroBlockSlingshot.LaunchAt: `Util.Interpolate` is not part of this model; it is taken to start its progress at 0, advance it by dt / duration each frame up to 1, and finish one frame after reaching 1.
- The travel sine wave of a pellet is kept as flags (`sineActive`, `wiggling`, `hitDir`), not as an offset.
- The dream tunnel dash's feather mode steers with rotation and joystick-precision correction; that steering is left out.
- `DreamTunnelDash.Update` leaves out the dream trail, displacement bursts, `Jump` and `DreamDashDie`; they are engine calls.
- `DreamTunnelDash.Begin` leaves out the `DreamDashListener` callbacks; `End` leaves out the `DreamTunnelInteraction` exit callbacks. Both are foreign components.
- `PlayerModel.Player` models only the player fields these scripts read or write; the player's maximum dashes are `Inventory.dashes`; dash speed 240 and climbing stamina 110 are the game's constants.
- `HeldBooster.BoostRoutine` yields forever; it only stops the base red booster from launching after 0.25 s, and is modelled by having no automatic launch at all.
- The rest of the base custom booster (entering, respawning, the red-dash state itself) is not part of this model.
- HeldBooster.HeldBooster.SetAim: the source normalizes its argument; the model takes the aim vector already normalized, because square roots are not modelled. Every caller passes a unit vector, or the zero vector that `SetAim` ignores.
- `targetAngle` in `SetAim` only feeds the arrow's rotation when drawn, so it is left out.
- HeldBooster's `Added` and `Removed` only add and remove the path renderer, so they are left out.
- FallingComponent.Falling.Update: requires the component to have a solid; without one no sequence exists, and the engine never runs it.
- ZippingComponent.Zipping.StartCapturedOnce: says only that the start is recorded once the first wait has elapsed, because a frame that only counts a pending wait down does not yet run the body.
- The engine's removal of a finished coroutine is modelled as a finished state that every later frame leaves unchanged.

## Findings

| source | as written | input that shows it | evidently intended | confidence | as-written member | corrected member |
|---|---|---|---|---|---|---|
| src/Entities/StrawberryJam/TickingCassetteListener.cs:9,25 | an interface mismatch: as shown the two files do not type-check together, since the handler is a two-parameter lambda assigned to an `Action<CassetteBlockManager>`; read as the listener's behaviour, the listener invokes `OnTick` with the manager alone, and only on tick beats that are not swaps; the emitter's handler (PelletEmitter.cs:111-123) takes `(cbm, isSwap)` and fires only when `isSwap` is true | any swap beat: under that reading the listener stays silent, so the emitter never fires | the listener reports swap beats too, so the emitter fires on the swap | not executed | StrawberryJamPellets.AsWrittenEmitterNeverFires | StrawberryJamPellets.IntendedSignalFiresOnSwap |
| src/States/DreamTunnelDash.cs:81 | `solid = null` clears a local copy; the solid stored on the player survives the dash | a dash through a solid, then a second tunnel dash that ends without overlapping any solid: the second end still finds a solid, grants jump grace and a dream jump, and calls exit on the old solid | the stored solid is cleared when the dash ends | not executed | DreamTunnelDash.StaleSolidAsWritten | DreamTunnelDash.RecordMeansOverlapCorrected |
