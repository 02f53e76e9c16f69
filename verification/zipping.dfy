/** The zipping component: a solid that, once a player rides it, zips to a
    target position, pauses, travels back to where it started, pauses, and
    waits for the next ride.

    The zipping sequence is a coroutine. Its resume point and its locals
    live in a `ZipRun` value; each `Update` runs one engine frame: a pending
    wait is counted down, otherwise the body runs to its next `yield`. The
    trigger check's answer for the frame is a parameter, and the easing
    curve (`Ease.SineIn`) is a function parameter `ease`. */
module ZippingComponent {
  import opened Wrappers
  import opened Geometry

  /** The sound source the component may add to its solid; only the count
      of sounds started on it is modelled. */
  class SoundSource {
    var plays: nat

    constructor ()
      ensures plays == 0
    {
      plays := 0;
    }

    method Play()
      modifies this
      ensures plays == old(plays) + 1
    {
      plays := plays + 1;
    }
  }

  /** What the sequence reads and writes of its solid. */
  class ZipSolid {
    var Position: Vec
    var StopPlayerRunIntoAnimation: bool
    /** The time left on the solid's shake (`StartShaking`). */
    var shakeTimer: real

    constructor (position: Vec)
      ensures Position == position && !StopPlayerRunIntoAnimation && shakeTimer == 0.0
    {
      Position := position;
      StopPlayerRunIntoAnimation := false;
      shakeTimer := 0.0;
    }
  }

  /** Where the sequence resumes at its next frame. */
  datatype ZipPoint =
    | NotStarted      // the body has not run yet
    | WaitTrigger     // inside the wait-for-a-rider loop
    | AfterTrigger    // after the short wait that follows the trigger
    | Outbound        // inside the loop toward the target
    | PauseOut        // after the pause at the target
    | Return          // inside the loop back to the start
    | PauseBack       // after the pause back at the start

  /** The coroutine: resume point, pending wait, and the locals `start` and `at`. */
  datatype ZipRun = ZipRun(point: ZipPoint, waitTimer: real, start: Vec, at: real)

  const StartRun: ZipRun := ZipRun(NotStarted, 0.0, Zero, 0.0)

  /** Everything one frame of the sequence reads or writes. */
  datatype ZipView = ZipView(run: ZipRun, percent: real, position: Vec, stopRun: bool, shakeTimer: real)

  /** One frame's inputs: its duration and the trigger check's answer. */
  datatype ZipInput = ZipInput(dt: real, trigger: bool)

  /** A frame's result: the new state and whether the trigger sound is due. */
  datatype ZipFrame = ZipFrame(view: ZipView, triggerSfx: bool)

  /** The order in which the sequence moves between its resume points: a
      frame either stays or moves to the next point of the cycle. */
  predicate Advances(p: ZipPoint, q: ZipPoint)
  {
    q == p ||
    match p
    case NotStarted => q == WaitTrigger || q == AfterTrigger
    case WaitTrigger => q == AfterTrigger
    case AfterTrigger => q == Outbound
    case Outbound => q == PauseOut
    case PauseOut => q == Return
    case Return => q == PauseBack
    case PauseBack => q == WaitTrigger || q == AfterTrigger
  }

  class Zipping {
    const Target: Vec
    const ManageSoundSource: bool

    var coroutine: Option<ZipRun>
    var percent: real
    var sfx: SoundSource?
    /** The solid the component is attached to; null when detached or when
        its entity is not a solid. */
    var Entity: ZipSolid?

    /** A detached component; `ManageSoundSource` defaults to true. */
    constructor (target: Vec, manageSoundSource: bool := true)
      ensures Target == target && ManageSoundSource == manageSoundSource
      ensures coroutine == None && sfx == null && Entity == null && percent == 0.0
    {
      Target := target;
      ManageSoundSource := manageSoundSource;
      coroutine := None;
      percent := 0.0;
      sfx := null;
      Entity := null;
    }

    /** Drops the sequence and the sound source, then, when attached to a
        solid, starts a fresh sequence and (only when it manages one) a new
        sound source. */
    method Reset()
      modifies this
      ensures Entity == old(Entity) && percent == old(percent)
      ensures coroutine == (if Entity != null then Some(StartRun) else None)
      ensures Entity != null && ManageSoundSource ==> sfx != null && fresh(sfx) && sfx.plays == 0
      ensures !(Entity != null && ManageSoundSource) ==> sfx == null
    {
      coroutine := None;
      sfx := null;
      if Entity != null {
        coroutine := Some(StartRun);
      }
      if ManageSoundSource && Entity != null {
        sfx := new SoundSource();
      }
    }

    /** Removed from its entity: both the sequence and the sound source go. */
    method Removed()
      modifies this
      ensures coroutine == None && sfx == null && Entity == null && percent == old(percent)
    {
      coroutine := None;
      sfx := null;
      Entity := null;
    }

    /** Added to an entity (null stands for an entity that is not a solid):
        a non-solid entity makes the component remove itself, and the reset
        that still follows finds no solid, so nothing is started. */
    method Added(solid: ZipSolid?)
      modifies this
      ensures Entity == solid
      ensures solid == null ==> coroutine == None && sfx == null
      ensures solid != null ==> coroutine == Some(StartRun)
      ensures solid != null ==> (ManageSoundSource <==> sfx != null)
    {
      Entity := solid;
      if solid == null {
        Removed();
      }
      Reset();
    }

    /** The default trigger sound: plays on the managed sound source, and
        does nothing without a solid, when the sound source is not managed,
        or when there is none. */
    method OnTriggerSfx()
      modifies sfx
      ensures sfx != null ==>
        sfx.plays == old(sfx.plays) + (if Entity != null && ManageSoundSource then 1 else 0)
    {
      if Entity == null || !ManageSoundSource || sfx == null {
        return;
      }
      sfx.Play();
    }

    // -------------------------------------------------------------------------
    // The sequence, segment by segment; each runs until the next yield.

    /** The head of the wait-for-a-rider loop: keep waiting without a rider;
        with one, sound the trigger, shake for 0.1 and wait 0.1. */
    function TriggerHead(v: ZipView, trigger: bool): ZipFrame
    {
      if !trigger then ZipFrame(v.(run := v.run.(point := WaitTrigger)), false)
      else ZipFrame(v.(shakeTimer := 0.1, run := v.run.(point := AfterTrigger, waitTimer := 0.1)), true)
    }

    /** One frame toward the target: `at` approaches 1 by `2 dt`, and the
        solid sits at the eased point between start and target; on arrival,
        shake, block running into it, and pause for 0.5. */
    function OutboundStep(v: ZipView, dt: real, ease: real -> real): ZipView
      requires dt >= 0.0
    {
      var a := Approach(v.run.at, 1.0, 2.0 * dt);
      var p := ease(a);
      var w := v.(percent := p, position := Lerp(v.run.start, Target, p), run := v.run.(at := a));
      if a < 1.0 then w.(run := w.run.(point := Outbound))
      else w.(shakeTimer := 0.2, stopRun := true, run := w.run.(point := PauseOut, waitTimer := 0.5))
    }

    /** One frame back to the start: `at` approaches 1 by `dt / 2`; the
        percent runs down from 1; on arrival, block running into the solid,
        shake, and pause for 0.5. */
    function ReturnStep(v: ZipView, dt: real, ease: real -> real): ZipView
      requires dt >= 0.0
    {
      var a := Approach(v.run.at, 1.0, 0.5 * dt);
      var e := ease(a);
      var w := v.(percent := 1.0 - e, position := Lerp(Target, v.run.start, e), run := v.run.(at := a));
      if a < 1.0 then w.(run := w.run.(point := Return))
      else w.(stopRun := true, shakeTimer := 0.2, run := w.run.(point := PauseBack, waitTimer := 0.5))
    }

    /** One engine frame of the sequence. */
    function FrameSpec(v: ZipView, dt: real, trigger: bool, ease: real -> real): ZipFrame
      requires dt >= 0.0
    {
      if v.run.waitTimer > 0.0 then ZipFrame(v.(run := v.run.(waitTimer := v.run.waitTimer - dt)), false)
      else
        match v.run.point
        case NotStarted => TriggerHead(v.(run := v.run.(start := v.position)), trigger)
        case WaitTrigger => TriggerHead(v, trigger)
        case AfterTrigger => ZipFrame(v.(stopRun := false, run := v.run.(at := 0.0, point := Outbound)), false)
        case Outbound => ZipFrame(OutboundStep(v, dt, ease), false)
        case PauseOut => ZipFrame(v.(stopRun := false, run := v.run.(at := 0.0, point := Return)), false)
        case Return => ZipFrame(ReturnStep(v, dt, ease), false)
        case PauseBack => TriggerHead(v, trigger)
    }

    // -------------------------------------------------------------------------
    // Properties of the sequence

    /** The states reachable between frames: `at` lies in [0, 1] and is
        below 1 while travelling; running into the solid is allowed while it
        travels and blocked while it pauses after arriving. */
    predicate Inv(v: ZipView)
    {
      && 0.0 <= v.run.at <= 1.0
      && (v.run.point.Outbound? || v.run.point.Return? ==> !v.stopRun && v.run.at < 1.0)
      && (v.run.point.PauseOut? || v.run.point.PauseBack? ==> v.stopRun)
    }

    lemma StartRunInv(v: ZipView)
      requires v.run == StartRun
      ensures Inv(v)
    {
    }

    /** One frame keeps the invariant and moves along the cycle. */
    lemma FrameKeepsInv(v: ZipView, dt: real, trigger: bool, ease: real -> real)
      requires dt >= 0.0 && Inv(v)
      ensures var r := FrameSpec(v, dt, trigger, ease).view;
        Inv(r) && Advances(v.run.point, r.run.point)
    {
    }

    /** The trigger: from the wait loop (or the pause back at the start) the
        sequence goes on exactly when the trigger check holds, and then
        sounds the trigger, shakes for 0.1 and waits 0.1; otherwise nothing
        but the resume point changes. */
    lemma TriggerStartsCycle(v: ZipView, dt: real, trigger: bool, ease: real -> real)
      requires dt >= 0.0 && v.run.waitTimer <= 0.0 && (v.run.point.WaitTrigger? || v.run.point.PauseBack?)
      ensures var f := FrameSpec(v, dt, trigger, ease);
        && (f.view.run.point == AfterTrigger <==> trigger)
        && (f.triggerSfx <==> trigger)
        && (trigger ==> f.view.run.waitTimer == 0.1 && f.view.shakeTimer == 0.1)
        && (!trigger ==> f.view == v.(run := v.run.(point := WaitTrigger)))
    {
    }

    /** The start position is taken from the solid in the sequence's first
        frame, and never changes afterwards. */
    lemma StartCapturedOnce(v: ZipView, dt: real, trigger: bool, ease: real -> real)
      requires dt >= 0.0
      ensures var r := FrameSpec(v, dt, trigger, ease).view;
        && (v.run.point.NotStarted? && v.run.waitTimer <= 0.0 ==> r.run.start == v.position)
        && (!v.run.point.NotStarted? ==> r.run.start == v.run.start)
        && (v.run.waitTimer <= 0.0 ==> !r.run.point.NotStarted?)
    {
    }

    /** The outbound leg: `at` rises toward 1 by at most `2 dt`, stays in
        [0, 1], the solid sits at the eased point from start to target, and
        the leg ends exactly when `at` reaches 1; with an ease that maps 1
        to 1 it then sits exactly on the target. */
    lemma OutboundLeg(v: ZipView, dt: real, trigger: bool, ease: real -> real)
      requires dt >= 0.0 && Inv(v) && v.run.waitTimer <= 0.0 && v.run.point.Outbound?
      ensures var r := FrameSpec(v, dt, trigger, ease).view;
        && v.run.at <= r.run.at <= 1.0 && r.run.at - v.run.at <= 2.0 * dt
        && r.percent == ease(r.run.at)
        && r.position == Lerp(v.run.start, Target, ease(r.run.at))
        && (r.run.point.PauseOut? <==> r.run.at == 1.0)
        && (r.run.point.Outbound? <==> r.run.at < 1.0)
        && (r.run.point.Outbound? ==> r.run.at == v.run.at + 2.0 * dt)
        && (r.run.point.PauseOut? ==> r.stopRun && r.run.waitTimer == 0.5 && r.shakeTimer == 0.2)
        && (ease(1.0) == 1.0 && r.run.point.PauseOut? ==> r.position == Target)
    {
    }

    /** The return leg: `at` rises toward 1 by at most `dt / 2`, the percent
        is one minus the eased progress, the solid sits at the eased point
        from target back to start, and arriving ends the leg exactly on the
        start (for an ease that maps 1 to 1). */
    lemma ReturnLeg(v: ZipView, dt: real, trigger: bool, ease: real -> real)
      requires dt >= 0.0 && Inv(v) && v.run.waitTimer <= 0.0 && v.run.point.Return?
      ensures var r := FrameSpec(v, dt, trigger, ease).view;
        && v.run.at <= r.run.at <= 1.0 && r.run.at - v.run.at <= 0.5 * dt
        && r.percent == 1.0 - ease(r.run.at)
        && r.position == Lerp(Target, v.run.start, ease(r.run.at))
        && (r.run.point.PauseBack? <==> r.run.at == 1.0)
        && (r.run.point.Return? ==> r.run.at == v.run.at + 0.5 * dt)
        && (r.run.point.PauseBack? ==> r.stopRun && r.run.waitTimer == 0.5 && r.shakeTimer == 0.2)
        && (ease(1.0) == 1.0 && r.run.point.PauseBack? ==> r.position == v.run.start)
    {
    }

    /** Leaving either pause re-allows running into the solid and restarts
        `at` from 0 for the next leg. */
    lemma PausesEnd(v: ZipView, dt: real, trigger: bool, ease: real -> real)
      requires dt >= 0.0 && v.run.waitTimer <= 0.0 && (v.run.point.AfterTrigger? || v.run.point.PauseOut?)
      ensures var r := FrameSpec(v, dt, trigger, ease).view;
        !r.stopRun && r.run.at == 0.0 && (r.run.point.Outbound? || r.run.point.Return?)
        && r.position == v.position
    {
    }

    /** A pending wait only counts down. */
    lemma WaitOnlyCountsDown(v: ZipView, dt: real, trigger: bool, ease: real -> real)
      requires dt >= 0.0 && v.run.waitTimer > 0.0
      ensures var f := FrameSpec(v, dt, trigger, ease);
        !f.triggerSfx && f.view.run.waitTimer == v.run.waitTimer - dt
        && f.view.(run := v.run) == v
    {
    }

    /** The view after a run of frames, one per input. */
    function Run(v: ZipView, frames: seq<ZipInput>, ease: real -> real): ZipView
      requires forall i :: 0 <= i < |frames| ==> frames[i].dt >= 0.0
      decreases |frames|
    {
      if frames == [] then v
      else Run(FrameSpec(v, frames[0].dt, frames[0].trigger, ease).view, frames[1..], ease)
    }

    /** Any run of frames keeps the invariant. */
    lemma {:induction false} RunKeepsInv(v: ZipView, frames: seq<ZipInput>, ease: real -> real)
      requires Inv(v) && forall i :: 0 <= i < |frames| ==> frames[i].dt >= 0.0
      ensures Inv(Run(v, frames, ease))
      decreases |frames|
    {
      if frames != [] {
        FrameKeepsInv(v, frames[0].dt, frames[0].trigger, ease);
        RunKeepsInv(FrameSpec(v, frames[0].dt, frames[0].trigger, ease).view, frames[1..], ease);
      }
    }

    /** Once the sequence has started, no run of frames moves its start
        position: both legs keep aiming at the same two points. */
    lemma {:induction false} RunKeepsStart(v: ZipView, frames: seq<ZipInput>, ease: real -> real)
      requires !v.run.point.NotStarted? && forall i :: 0 <= i < |frames| ==> frames[i].dt >= 0.0
      ensures Run(v, frames, ease).run.start == v.run.start
      ensures !Run(v, frames, ease).run.point.NotStarted?
      decreases |frames|
    {
      if frames != [] {
        var f := frames[0];
        StartCapturedOnce(v, f.dt, f.trigger, ease);
        RunKeepsStart(FrameSpec(v, f.dt, f.trigger, ease).view, frames[1..], ease);
      }
    }

    // -------------------------------------------------------------------------
    // The imperative frame

    function ViewOf(r: ZipRun): ZipView
      requires Entity != null
      reads this, Entity
    {
      ZipView(r, percent, Entity.Position, Entity.StopPlayerRunIntoAnimation, Entity.shakeTimer)
    }

    /** The wait-for-a-rider loop head, run in place. */
    method TriggerLoopHead(r: ZipRun, trigger: bool)
      requires Entity != null
      modifies this, Entity, sfx
      ensures Entity == old(Entity) && sfx == old(sfx) && coroutine.Some?
      ensures var f := TriggerHead(old(ViewOf(r)), trigger);
        && ViewOf(coroutine.value) == f.view
        && (sfx != null ==> sfx.plays == old(sfx.plays) + (if f.triggerSfx && ManageSoundSource then 1 else 0))
    {
      if !trigger {
        coroutine := Some(r.(point := WaitTrigger));
        return;
      }
      OnTriggerSfx();
      Entity.shakeTimer := 0.1;
      coroutine := Some(r.(point := AfterTrigger, waitTimer := 0.1));
    }

    /** One engine frame, run in place on the component and its solid; the
        trigger sound plays on the managed sound source. */
    method Update(dt: real, trigger: bool, ease: real -> real)
      requires dt >= 0.0 && Entity != null
      modifies this, Entity, sfx
      ensures Entity == old(Entity) && sfx == old(sfx)
      ensures old(coroutine).None? ==> coroutine == None && percent == old(percent) && unchanged(Entity)
      ensures old(coroutine).Some? ==>
        (coroutine.Some? &&
         var f := FrameSpec(old(ViewOf(coroutine.value)), dt, trigger, ease);
         && ViewOf(coroutine.value) == f.view
         && (sfx != null ==> sfx.plays == old(sfx.plays) + (if f.triggerSfx && ManageSoundSource then 1 else 0)))
    {
      if coroutine.None? {
        return;
      }
      var r := coroutine.value;
      if r.waitTimer > 0.0 {
        coroutine := Some(r.(waitTimer := r.waitTimer - dt));
        return;
      }
      match r.point {
        case NotStarted =>
          TriggerLoopHead(r.(start := Entity.Position), trigger);
        case WaitTrigger =>
          TriggerLoopHead(r, trigger);
        case AfterTrigger =>
          Entity.StopPlayerRunIntoAnimation := false;
          coroutine := Some(r.(at := 0.0, point := Outbound));
        case Outbound =>
          var at := Approach(r.at, 1.0, 2.0 * dt);
          percent := ease(at);
          Entity.Position := Lerp(r.start, Target, percent);
          if at < 1.0 {
            coroutine := Some(r.(at := at, point := Outbound));
          } else {
            Entity.shakeTimer := 0.2;
            Entity.StopPlayerRunIntoAnimation := true;
            coroutine := Some(r.(at := at, point := PauseOut, waitTimer := 0.5));
          }
        case PauseOut =>
          Entity.StopPlayerRunIntoAnimation := false;
          coroutine := Some(r.(at := 0.0, point := Return));
        case Return =>
          var at := Approach(r.at, 1.0, 0.5 * dt);
          percent := 1.0 - ease(at);
          Entity.Position := Lerp(Target, r.start, ease(at));
          if at < 1.0 {
            coroutine := Some(r.(at := at, point := Return));
          } else {
            Entity.StopPlayerRunIntoAnimation := true;
            Entity.shakeTimer := 0.2;
            coroutine := Some(r.(at := at, point := PauseBack, waitTimer := 0.5));
          }
        case PauseBack =>
          TriggerLoopHead(r, trigger);
      }
    }
  }
}
