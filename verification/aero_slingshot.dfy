/** The slingshot aero block: pushed sideways it winds up, and once released
    it waits, flings itself back to its start position and cools down.

    Its behaviour lives in one coroutine. The model keeps the coroutine's
    resume point as a field and runs one engine frame per `Update`, as the
    engine's coroutine component does: while a yielded wait is pending the
    frame only counts it down; otherwise the body runs to its next `yield`.
    A yielded child routine starts on the next frame, and the frame in which
    it finishes only removes it, so the body resumes one frame later. */
module AeroSlingshot {
  import opened Wrappers
  import opened Geometry

  const DefaultLaunchTime: real := 0.5
  const DefaultCooldownTime: real := 0.5
  const DefaultSetTime: real := 0.1
  const DefaultDelayTime: real := 0.2
  const DefaultPushSpeed: real := 20.0

  datatype SlingshotStates = Idle | WindingUp | Ready | Launching | Cooldown

  /** Where the coroutine resumes on its next frame. */
  datatype ResumePoint =
    | NotStarted      // before the first frame
    | WaitingLoop     // inside the wait-for-release loop
    | AfterReady      // after the delay that follows Ready
    | LaunchLeg       // the launch interpolation is the running child
    | LaunchDone      // the child has finished; the frame removes it
    | AfterCooldown   // after the cooldown wait; the outer loop repeats

  /** The state the coroutine body itself last entered (WindingUp is only
      ever entered by a push). */
  function LastEntered(p: ResumePoint): Option<SlingshotStates>
  {
    match p
    case NotStarted => None
    case WaitingLoop => Some(Idle)
    case AfterReady => Some(Ready)
    case LaunchLeg => Some(Launching)
    case LaunchDone => Some(Launching)
    case AfterCooldown => Some(Cooldown)
  }

  /** The state the body assigns after `prev`: the cycle Idle, Ready,
      Launching, Cooldown, starting from Idle. */
  function CycleNext(prev: Option<SlingshotStates>): SlingshotStates
  {
    match prev
    case None => Idle
    case Some(Idle) => Ready
    case Some(WindingUp) => Ready
    case Some(Ready) => Launching
    case Some(Launching) => Cooldown
    case Some(Cooldown) => Idle
  }

  /** `trace` lists states in cycle order, continuing from `prev`. */
  predicate FollowsCycle(prev: Option<SlingshotStates>, trace: seq<SlingshotStates>)
    decreases |trace|
  {
    |trace| == 0 || (trace[0] == CycleNext(prev) && FollowsCycle(Some(trace[0]), trace[1..]))
  }

  function LastOf(prev: Option<SlingshotStates>, trace: seq<SlingshotStates>): Option<SlingshotStates>
  {
    if |trace| == 0 then prev else Some(trace[|trace| - 1])
  }

  /** Whether the block has left its start column (by more than 0.01). */
  predicate HasMoved(x: real, startX: real)
  {
    x - startX > 0.01 || startX - x > 0.01
  }

  /** Everything the slingshot's methods read or write. */
  datatype SlingView = SlingView(
    state: SlingshotStates,
    releaseTimer: real,
    percent: real,
    position: Vec,
    pushableActive: bool,
    point: ResumePoint,
    waitTimer: real,
    at: real,
    releasePosition: Vec)

  /** One frame's new state, and the states the body entered during it. */
  datatype SlingStep = SlingStep(view: SlingView, entered: seq<SlingshotStates>)

  class AeroBlockSlingshot {
    const LaunchTime: real
    const CooldownTime: real
    const SetTime: real
    const DelayTime: real
    const PushSpeed: real
    const startPosition: Vec
    const endPosition: Vec
    /** The pushable's speed cap. */
    const MaxPushSpeed: real

    var State: SlingshotStates
    var releaseTimer: real
    var percent: real
    var Position: Vec
    /** Whether the pushable component may push the block. */
    var pushableActive: bool
    // the coroutine: resume point, pending wait, the launch leg's progress
    // and the position the launch started from
    var point: ResumePoint
    var waitTimer: real
    var at: real
    var releasePosition: Vec

    function View(): SlingView
      reads this
    {
      SlingView(State, releaseTimer, percent, Position, pushableActive, point, waitTimer, at, releasePosition)
    }

    constructor (positions: seq<Vec>, launchTime: real := DefaultLaunchTime,
                 cooldownTime: real := DefaultCooldownTime, setTime: real := DefaultSetTime,
                 delayTime: real := DefaultDelayTime, pushSpeed: real := DefaultPushSpeed)
      requires |positions| >= 2
      ensures LaunchTime == launchTime && CooldownTime == cooldownTime && SetTime == setTime
      ensures DelayTime == delayTime && PushSpeed == pushSpeed && MaxPushSpeed == pushSpeed
      ensures startPosition == positions[0] && endPosition == positions[1] && Position == positions[0]
      ensures State == Idle && releaseTimer == -1.0 && !pushableActive
      ensures point == NotStarted && waitTimer == 0.0
      ensures Consistent(View())
    {
      LaunchTime := launchTime;
      CooldownTime := cooldownTime;
      SetTime := setTime;
      DelayTime := delayTime;
      PushSpeed := pushSpeed;
      startPosition := positions[0];
      endPosition := positions[1];
      MaxPushSpeed := pushSpeed;
      State := Idle;
      releaseTimer := -1.0;
      percent := 0.0;
      Position := positions[0];
      pushableActive := false;
      point := NotStarted;
      waitTimer := 0.0;
      at := 0.0;
      releasePosition := positions[0];
    }

    /** The pushable's push callback: wind up and restart the release timer. */
    method OnPush()
      modifies this
      ensures View() == old(View()).(state := WindingUp, releaseTimer := SetTime)
    {
      State := WindingUp;
      releaseTimer := SetTime;
    }

    /** The block moved by the engine (a push, or the launch leg's MoveTo). */
    method MoveTo(target: Vec)
      modifies this
      ensures View() == old(View()).(position := target)
    {
      Position := target;
    }

    /** The states the model can be in between frames. */
    predicate Consistent(v: SlingView)
    {
      match v.point
      case NotStarted => v.state == Idle && !v.pushableActive
      case WaitingLoop => (v.state == Idle || v.state == WindingUp) && v.pushableActive
      case AfterReady => v.state == Ready && !v.pushableActive
      case LaunchLeg => v.state == Launching && !v.pushableActive && 0.0 <= v.at <= 1.0
      case LaunchDone => v.state == Launching && !v.pushableActive && v.at >= 1.0
      case AfterCooldown => v.state == Cooldown && !v.pushableActive
    }

    /** The launch leg's progress after one frame: it advances by the
        frame's share of the launch time and stops at 1, which a launch time
        of zero or less reaches at once. */
    function LaunchAt(at: real, dt: real): (r: real)
      requires dt >= 0.0 && at <= 1.0
      ensures at <= r <= 1.0
      ensures LaunchTime > 0.0 ==> r == (if at + dt / LaunchTime >= 1.0 then 1.0 else at + dt / LaunchTime)
      ensures LaunchTime <= 0.0 ==> r == 1.0
    {
      if LaunchTime <= 0.0 then 1.0 else Approach(at, 1.0, dt / LaunchTime)
    }

    /** The launch progress after `n` frames of `dt` each, from 0. */
    function LaunchAfter(n: nat, dt: real): real
      requires dt >= 0.0
    {
      if n == 0 then 0.0 else LaunchAt(LaunchAfter(n - 1, dt), dt)
    }

    /** With a positive launch time, `n` frames of `dt` bring the progress
        to `n * dt / LaunchTime`, capped at 1: the launch ends once the
        frames add up to the launch time. */
    lemma {:induction false} LaunchAfterFrames(n: nat, dt: real)
      requires dt >= 0.0 && LaunchTime > 0.0
      ensures LaunchAfter(n, dt) <= 1.0
      ensures var q := n as real * (dt / LaunchTime);
        LaunchAfter(n, dt) == (if q >= 1.0 then 1.0 else q)
    {
      if n > 0 {
        LaunchAfterFrames(n - 1, dt);
        assert n as real * (dt / LaunchTime) == (n - 1) as real * (dt / LaunchTime) + dt / LaunchTime;
        assert dt / LaunchTime >= 0.0;
      }
    }

    /** The head of the wait-for-release loop: wait while the release timer
        runs or the block has not moved, otherwise turn Ready. */
    function WaitOrRelease(v: SlingView, dt: real): (r: SlingStep)
      ensures r.view.point == AfterReady <==> v.releaseTimer <= 0.0 && HasMoved(v.position.x, startPosition.x)
      ensures r.view.point == WaitingLoop <==> !(v.releaseTimer <= 0.0 && HasMoved(v.position.x, startPosition.x))
    {
      if v.releaseTimer > 0.0 || !HasMoved(v.position.x, startPosition.x) then
        SlingStep(v.(releaseTimer := v.releaseTimer - dt, point := WaitingLoop), [])
      else
        SlingStep(v.(state := Ready, pushableActive := false, waitTimer := DelayTime, point := AfterReady), [Ready])
    }

    /** One frame of the coroutine. */
    function StepSpec(v: SlingView, dt: real, ease: real -> real): (r: SlingStep)
      requires dt >= 0.0 && Consistent(v)
      ensures Consistent(r.view)
      ensures FollowsCycle(LastEntered(v.point), r.entered)
      ensures LastEntered(r.view.point) == LastOf(LastEntered(v.point), r.entered)
      ensures r.view.state == Ready && v.state != Ready
              ==> v.waitTimer <= 0.0 && v.releaseTimer <= 0.0 && HasMoved(v.position.x, startPosition.x)
      ensures r.view.pushableActive <==> r.view.point == WaitingLoop
    {
      if v.waitTimer > 0.0 then SlingStep(v.(waitTimer := v.waitTimer - dt), [])
      else
        match v.point
        case NotStarted =>
          var w := WaitOrRelease(v.(state := Idle, pushableActive := true), dt);
          SlingStep(w.view, [Idle] + w.entered)
        case AfterCooldown =>
          var w := WaitOrRelease(v.(state := Idle, pushableActive := true), dt);
          SlingStep(w.view, [Idle] + w.entered)
        case WaitingLoop => WaitOrRelease(v, dt)
        case AfterReady =>
          SlingStep(v.(state := Launching, releasePosition := v.position, at := 0.0, point := LaunchLeg), [Launching])
        case LaunchLeg =>
          if v.at < 1.0 then
            var a := LaunchAt(v.at, dt);
            var p := ease(a);
            SlingStep(v.(at := a, percent := p, position := Lerp(v.releasePosition, startPosition, p)), [])
          else SlingStep(v.(point := LaunchDone), [])
        case LaunchDone =>
          SlingStep(v.(state := Cooldown, waitTimer := CooldownTime, point := AfterCooldown), [Cooldown])
    }

    /** One engine frame of the slingshot's coroutine. */
    method Update(dt: real, ease: real -> real) returns (entered: seq<SlingshotStates>)
      requires dt >= 0.0 && Consistent(View())
      modifies this
      ensures SlingStep(View(), entered) == StepSpec(old(View()), dt, ease)
    {
      entered := [];
      if waitTimer > 0.0 {
        waitTimer := waitTimer - dt;
        return;
      }
      match point {
        case NotStarted =>
          State := Idle;
          pushableActive := true;
          entered := [Idle];
          var more := WaitLoopHead(dt);
          entered := entered + more;
        case AfterCooldown =>
          State := Idle;
          pushableActive := true;
          entered := [Idle];
          var more := WaitLoopHead(dt);
          entered := entered + more;
        case WaitingLoop =>
          entered := WaitLoopHead(dt);
        case AfterReady =>
          State := Launching;
          entered := [Launching];
          releasePosition := Position;
          at := 0.0;
          point := LaunchLeg;
        case LaunchLeg =>
          if at < 1.0 {
            at := LaunchAt(at, dt);
            percent := ease(at);
            Position := Lerp(releasePosition, startPosition, percent);
          } else {
            point := LaunchDone;
          }
        case LaunchDone =>
          State := Cooldown;
          entered := [Cooldown];
          waitTimer := CooldownTime;
          point := AfterCooldown;
      }
    }

    method WaitLoopHead(dt: real) returns (entered: seq<SlingshotStates>)
      modifies this
      ensures SlingStep(View(), entered) == WaitOrRelease(old(View()), dt)
    {
      if releaseTimer > 0.0 || !HasMoved(Position.x, startPosition.x) {
        releaseTimer := releaseTimer - dt;
        point := WaitingLoop;
        entered := [];
      } else {
        State := Ready;
        pushableActive := false;
        waitTimer := DelayTime;
        point := AfterReady;
        entered := [Ready];
      }
    }

    /** The pushable only pushes while it is active, and a push keeps the
        model consistent then; a push is what winds the block up. */
    lemma PushWhileActiveIsConsistent(v: SlingView)
      requires Consistent(v) && v.pushableActive
      ensures Consistent(v.(state := WindingUp, releaseTimer := SetTime))
      ensures v.point == WaitingLoop
    {
    }

    /** While the launch leg runs, the block sits on the straight line from
        where it was released to its start, at the eased progress; with an
        ease that maps 1 to 1 the leg ends exactly on the start position. */
    lemma LaunchFollowsLine(v: SlingView, dt: real, ease: real -> real)
      requires dt >= 0.0 && Consistent(v) && v.waitTimer <= 0.0 && v.point == LaunchLeg && v.at < 1.0
      ensures var r := StepSpec(v, dt, ease).view;
        && v.at <= r.at <= 1.0
        && r.position == Lerp(v.releasePosition, startPosition, ease(r.at))
        && r.releasePosition == v.releasePosition
        && (ease(1.0) == 1.0 && r.at == 1.0 ==> r.position == startPosition)
    {
    }

    /** A release needs the timer to have run out and the block to have
        been moved: while either fails, the loop keeps waiting, counting the
        release timer down by the frame's time. */
    lemma WaitingNeedsTimerAndMove(v: SlingView, dt: real, ease: real -> real)
      requires dt >= 0.0 && Consistent(v) && v.waitTimer <= 0.0 && v.point == WaitingLoop
      requires v.releaseTimer > 0.0 || !HasMoved(v.position.x, startPosition.x)
      ensures var r := StepSpec(v, dt, ease);
        && r.view.point == WaitingLoop && r.view.pushableActive && r.entered == []
        && r.view.releaseTimer == v.releaseTimer - dt && r.view.position == v.position
    {
    }
  }

  /** A run of frames: the states entered over the whole run continue the
      cycle from the last state entered before it. */
  lemma {:induction false} RunFollowsCycle(s: AeroBlockSlingshot, v: SlingView, dts: seq<real>, ease: real -> real)
    requires s.Consistent(v) && forall i :: 0 <= i < |dts| ==> dts[i] >= 0.0
    ensures FollowsCycle(LastEntered(v.point), RunTrace(s, v, dts, ease))
    decreases |dts|
  {
    if |dts| > 0 {
      var st := s.StepSpec(v, dts[0], ease);
      RunFollowsCycle(s, st.view, dts[1..], ease);
      CycleConcat(LastEntered(v.point), st.entered, RunTrace(s, st.view, dts[1..], ease));
    }
  }

  /** The states a run of frames assigns, in order. */
  function RunTrace(s: AeroBlockSlingshot, v: SlingView, dts: seq<real>, ease: real -> real): seq<SlingshotStates>
    requires s.Consistent(v) && forall i :: 0 <= i < |dts| ==> dts[i] >= 0.0
    decreases |dts|
  {
    if |dts| == 0 then []
    else
      var st := s.StepSpec(v, dts[0], ease);
      st.entered + RunTrace(s, st.view, dts[1..], ease)
  }

  lemma {:induction false} CycleConcat(prev: Option<SlingshotStates>, a: seq<SlingshotStates>, b: seq<SlingshotStates>)
    requires FollowsCycle(prev, a) && FollowsCycle(LastOf(prev, a), b)
    ensures FollowsCycle(prev, a + b)
    decreases |a|
  {
    if |a| > 0 {
      assert (a + b)[0] == a[0];
      assert (a + b)[1..] == a[1..] + b;
      assert LastOf(Some(a[0]), a[1..]) == LastOf(prev, a);
      CycleConcat(Some(a[0]), a[1..], b);
      assert FollowsCycle(Some((a + b)[0]), (a + b)[1..]);
    } else {
      assert a + b == b;
    }
  }
}
