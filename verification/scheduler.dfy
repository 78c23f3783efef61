/**
  The backing `SimpleDiscreteEventScheduler` together with the
  `SourceTrackingEventScheduler` facades and the `SourceSchedulerTracker`.

  Closures are `Cmd` values interpreted by `Exec`. While a closure runs, the
  tracker answers with the source of the event being dispatched, so every
  observation it records carries that source.

  A source's pause is applied when its events are dispatched: an event of a
  paused source, taken from either global queue, is moved to that source's
  held queues instead of running. The release event, due at the pause's end,
  puts the held doNows at the head of the immediate queue and the held doAts,
  retimed to the release time, at the head of the timed queue.
 */
module Scheduler {
  import opened Events
  import opened TimedQueue

  /** A backing scheduler at `start`, paused as in the tests' setup, nothing queued. */
  function Init(start: Time): (st: State)
    ensures st.suspended && st.nowQ == [] && st.atQ == [] && st.pauses == map[]
    ensures st.now == start && st.trace == []
    ensures Step(st).Idle?
  {
    State(start, true, [], [], map[], {}, 0, [])
  }

  // ---------------------------------------------------------------------------
  // Submission (doNow / doAt / cancel / delayExecutionUntil)
  // ---------------------------------------------------------------------------

  /** `doNow` through the scheduler of `src`: the event joins the back of the immediate queue. */
  function SubmitNow(st: State, src: Source, body: Cmd): (r: State)
    ensures r.nowQ == st.nowQ + [Event(st.nextId, src, st.now, Action(body))]
    ensures r.nextId == st.nextId + 1
    ensures r == st.(nowQ := r.nowQ, nextId := r.nextId)
  {
    st.(nowQ := st.nowQ + [Event(st.nextId, src, st.now, Action(body))], nextId := st.nextId + 1)
  }

  /**
    `doAt` through the scheduler of `src`. A time earlier than the clock is
    refused; otherwise the event is queued behind every event due no later.
   */
  function SubmitAt(st: State, src: Source, t: Time, body: Cmd): (r: Outcome)
    ensures r.Raised? <==> t < st.now
    ensures r.Raised? ==> r.st == st && r.err == ScheduleInPast
    ensures r.Completed? ==>
      && multiset(r.st.atQ) == multiset(st.atQ) + multiset{Event(st.nextId, src, t, Action(body))}
      && r.st.nextId == st.nextId + 1
      && r.st == st.(atQ := r.st.atQ, nextId := r.st.nextId)
  {
    if t < st.now then Raised(st, ScheduleInPast)
    else Completed(st.(atQ := Insert(st.atQ, Event(st.nextId, src, t, Action(body))), nextId := st.nextId + 1))
  }

  /** `Cancelable.cancel`: idempotent, and harmless for an event that already ran. */
  function CancelHandle(st: State, h: Handle): (r: State)
    ensures h in r.cancelled && r.cancelled == st.cancelled + {h}
    ensures r == st.(cancelled := r.cancelled)
  {
    st.(cancelled := st.cancelled + {h})
  }

  /**
    `delayExecutionUntil(until)` called from a closure of source `active` on
    the scheduler of `src`.
   */
  function StartPause(st: State, active: Source, src: Source, until: Time): (r: Outcome)
    ensures r.Raised? <==> src != active || until < st.now || src in st.pauses
    ensures r.Raised? ==> r.st == st
    ensures r.Raised? && src != active ==> r.err == DelayOffSource
    ensures r.Raised? && src == active && until < st.now ==> r.err == DelayInPast
    ensures r.Raised? && src == active && st.now <= until ==> r.err == AlreadyPaused
    ensures r.Completed? ==>
      && r.st.pauses == st.pauses[src := Pause(until, [], [])]
      && multiset(r.st.atQ) == multiset(st.atQ) + multiset{Event(st.nextId, src, until, ReleasePause)}
  {
    if src != active then Raised(st, DelayOffSource)
    else if until < st.now then Raised(st, DelayInPast)
    else if src in st.pauses then Raised(st, AlreadyPaused)
    else
      Completed(st.(pauses := st.pauses[src := Pause(until, [], [])],
                    atQ := Insert(st.atQ, Event(st.nextId, src, until, ReleasePause)),
                    nextId := st.nextId + 1))
  }

  // ---------------------------------------------------------------------------
  // Running a closure
  // ---------------------------------------------------------------------------

  /** The observations `t1` adds to `t0` were all made at `now` by event `e`. */
  ghost predicate AppendsFrom(t0: seq<Obs>, t1: seq<Obs>, now: Time, e: Event) {
    && t0 <= t1
    && forall i :: |t0| <= i < |t1| ==> t1[i].time == now && t1[i].source == e.src && t1[i].handle == e.id
  }

  /**
    The effects of a closure never touch the clock or an existing pause; they
    only add work, handles, cancellations and pauses.
   */
  ghost predicate Grows(st: State, r: State) {
    && r.now == st.now
    && r.suspended == st.suspended
    && st.cancelled <= r.cancelled
    && st.nextId <= r.nextId
    && (forall s :: s in st.pauses ==> s in r.pauses && r.pauses[s] == st.pauses[s])
  }

  /**
    Runs command `c` as part of the closure of event `e`: the tracker reports
    `e.src` throughout, so every observation carries `e`'s source, handle and
    the current clock.
   */
  function Exec(st: State, e: Event, c: Cmd): (r: Outcome)
    ensures Grows(st, r.st)
    ensures AppendsFrom(st.trace, r.st.trace, st.now, e)
    decreases c, 1
  {
    match c
    case Record(name) => Completed(st.(trace := st.trace + [Obs(name, st.now, e.src, e.id)]))
    case DoNow(src, body) => Completed(SubmitNow(st, src, body))
    case DoAt(src, t, body) => SubmitAt(st, src, t, body)
    case Delay(src, until) => StartPause(st, e.src, src, until)
    case Cancel(h) => Completed(CancelHandle(st, h))
    case Seq(cs) => ExecAll(st, e, cs)
  }

  /** Runs `cs` in order, stopping at the first error, as a thrown exception would. */
  function ExecAll(st: State, e: Event, cs: seq<Cmd>): (r: Outcome)
    ensures Grows(st, r.st)
    ensures AppendsFrom(st.trace, r.st.trace, st.now, e)
    decreases cs, 0
  {
    if cs == [] then Completed(st)
    else
      match Exec(st, e, cs[0])
      case Raised(st1, err) => Raised(st1, err)
      case Completed(st1) => ExecAll(st1, e, cs[1..])
  }

  /**
    A closure's statements run in order: running `a + b` is running `a`, then
    running `b` from where `a` left off, unless `a` raised an error.
   */
  lemma {:induction false} ExecAllAppend(st: State, e: Event, a: seq<Cmd>, b: seq<Cmd>)
    ensures ExecAll(st, e, a + b) ==
      match ExecAll(st, e, a)
      case Completed(st1) => ExecAll(st1, e, b)
      case Raised(st1, err) => Raised(st1, err)
    decreases |a|
  {
    if a == [] {
      assert a + b == b;
    } else {
      assert (a + b)[0] == a[0];
      assert (a + b)[1..] == a[1..] + b;
      match Exec(st, e, a[0])
      case Raised(_, _) =>
      case Completed(st1) => ExecAllAppend(st1, e, a[1..], b);
    }
  }

  // ---------------------------------------------------------------------------
  // Dispatch
  // ---------------------------------------------------------------------------

  /** An event of a paused source goes to the held queue matching the global queue it came from. */
  function Hold(st: State, e: Event, immediate: bool): (r: State)
    requires e.src in st.pauses
    ensures e.src in r.pauses && r.pauses.Keys == st.pauses.Keys
    ensures r.pauses[e.src].until == st.pauses[e.src].until
    ensures immediate ==> r.pauses[e.src].heldNow == st.pauses[e.src].heldNow + [e]
                          && r.pauses[e.src].heldAt == st.pauses[e.src].heldAt
    ensures !immediate ==> r.pauses[e.src].heldAt == st.pauses[e.src].heldAt + [e]
                           && r.pauses[e.src].heldNow == st.pauses[e.src].heldNow
    ensures forall s :: s in st.pauses && s != e.src ==> r.pauses[s] == st.pauses[s]
    ensures r == st.(pauses := r.pauses)
  {
    var p := st.pauses[e.src];
    var p' := if immediate then p.(heldNow := p.heldNow + [e]) else p.(heldAt := p.heldAt + [e]);
    st.(pauses := st.pauses[e.src := p'])
  }

  /**
    The release of `src`'s pause. The pause ends, the held doNows go in front
    of the immediate queue in the order they were held, and the held doAts go
    in front of the timed queue, all due at the release time.
   */
  function Release(st: State, src: Source): (r: State)
    ensures src !in r.pauses
    ensures src in st.pauses ==>
      var p := st.pauses[src];
      && |r.nowQ| == |p.heldNow| + |st.nowQ|
      && r.nowQ[..|p.heldNow|] == p.heldNow
      && r.nowQ[|p.heldNow|..] == st.nowQ
      && |r.atQ| == |p.heldAt| + |st.atQ|
      && (forall i :: 0 <= i < |p.heldAt| ==> r.atQ[i] == p.heldAt[i].(time := p.until))
      && r.atQ[|p.heldAt|..] == st.atQ
    ensures src !in st.pauses ==> r == st
    ensures r == st.(pauses := r.pauses, nowQ := r.nowQ, atQ := r.atQ)
  {
    if src !in st.pauses then st
    else
      var p := st.pauses[src];
      st.(pauses := st.pauses - {src},
          nowQ := p.heldNow + st.nowQ,
          atQ := Retime(p.heldAt, p.until) + st.atQ)
  }

  /**
    Dispatches `e`, already taken off a global queue (`immediate` says which).
    A cancelled closure is dropped; a closure of a paused source is held; any
    other closure runs with the tracker reporting `e.src`.
   */
  function Dispatch(st: State, e: Event, immediate: bool): (r: Outcome)
    ensures e.work.ReleasePause? ==> r.Completed? && e.src !in r.st.pauses && r.st.trace == st.trace
    ensures e.work.Action? && e.id in st.cancelled ==> r == Completed(st)
    ensures e.work.Action? && e.id !in st.cancelled && e.src in st.pauses ==>
      && r.Completed? && r.st.trace == st.trace && r.st.nowQ == st.nowQ && r.st.atQ == st.atQ
      && e.src in r.st.pauses
      && (if immediate then r.st.pauses[e.src].heldNow == st.pauses[e.src].heldNow + [e]
          else r.st.pauses[e.src].heldAt == st.pauses[e.src].heldAt + [e])
    ensures r.st.trace != st.trace ==> e.work.Action? && e.id !in st.cancelled && e.src !in st.pauses
    ensures e.work.Action? ==> AppendsFrom(st.trace, r.st.trace, st.now, e)
    ensures e.work.Action? && e.src !in st.pauses ==> Grows(st, r.st)
  {
    match e.work
    case ReleasePause => Completed(Release(st, e.src))
    case Action(c) =>
      if e.id in st.cancelled then Completed(st)
      else if e.src in st.pauses then Completed(Hold(st, e, immediate))
      else Exec(st, e, c)
  }

  datatype StepResult =
    | Idle
    | Stepped(st: State, e: Event)
    | Failed(st: State, e: Event, err: Error)

  /** The global queues with their next event taken off, and the clock moved to it. */
  function Pop(st: State): (r: (State, Event, bool))
    requires |st.nowQ| > 0 || |st.atQ| > 0
    ensures r.2 <==> |st.nowQ| > 0
    ensures r.2 ==> r.1 == st.nowQ[0] && r.0.now == st.now && r.0.atQ == st.atQ
    ensures !r.2 ==> r.1 == st.atQ[0] && r.0.now == r.1.time && r.0.nowQ == st.nowQ == []
    ensures !r.2 && Sorted(st.atQ) ==> forall i :: 0 <= i < |r.0.atQ| ==> r.1.time <= r.0.atQ[i].time
    ensures multiset(r.0.nowQ) + multiset(r.0.atQ) + multiset{r.1} == multiset(st.nowQ) + multiset(st.atQ)
    ensures r.0 == st.(nowQ := r.0.nowQ, atQ := r.0.atQ, now := r.0.now)
  {
    if |st.nowQ| > 0 then
      assert st.nowQ == [st.nowQ[0]] + st.nowQ[1..];
      (st.(nowQ := st.nowQ[1..]), st.nowQ[0], true)
    else
      assert st.atQ == [st.atQ[0]] + st.atQ[1..];
      (st.(atQ := st.atQ[1..], now := st.atQ[0].time), st.atQ[0], false)
  }

  /**
    One round of the backing scheduler's loop: the immediate queue is drained
    before the earliest doAt is considered. A suspended scheduler does nothing.
   */
  function Step(st: State): (r: StepResult)
    ensures r.Idle? <==> st.suspended || (st.nowQ == [] && st.atQ == [])
  {
    if st.suspended || (st.nowQ == [] && st.atQ == []) then Idle
    else
      var (st1, e, immediate) := Pop(st);
      match Dispatch(st1, e, immediate)
      case Completed(st2) => Stepped(st2, e)
      case Raised(st2, err) => Failed(st2, e, err)
  }

  datatype RunResult =
    | Quiescent(st: State)
    | Halted(st: State, err: Error)
    | OutOfFuel(st: State)

  /**
    The dispatch loop, bounded by `fuel` rounds. An error raised by a closure
    stops the loop, leaving the rest of the work queued.
   */
  function Run(st: State, fuel: nat): (r: RunResult)
    ensures r.Quiescent? ==> r.st.suspended || (r.st.nowQ == [] && r.st.atQ == [])
    decreases fuel
  {
    match Step(st)
    case Idle => Quiescent(st)
    case Failed(st1, _, err) => Halted(st1, err)
    case Stepped(st1, _) => if fuel == 0 then OutOfFuel(st1) else Run(st1, fuel - 1)
  }

  // ---------------------------------------------------------------------------
  // The API the tests drive from outside any event
  // ---------------------------------------------------------------------------

  /** `backingScheduler.pause()`: submissions still queue, nothing is dispatched. */
  function PauseAll(st: State): (r: State)
    ensures r.suspended && Step(r).Idle?
    ensures r == st.(suspended := true)
  {
    st.(suspended := true)
  }

  /** `backingScheduler.unPause()`: dispatch resumes and runs until nothing is left (or fuel ends). */
  function UnPause(st: State, fuel: nat): (r: RunResult)
    ensures r.Quiescent? ==> r.st.nowQ == [] && r.st.atQ == []
  {
    RunUnsuspended(st.(suspended := false), fuel);
    Run(st.(suspended := false), fuel)
  }

  /** The loop never suspends the scheduler itself. */
  lemma {:induction false} RunUnsuspended(st: State, fuel: nat)
    requires !st.suspended
    ensures !Run(st, fuel).st.suspended
    decreases fuel
  {
    match Step(st)
    case Idle =>
    case Failed(st1, e, err) =>
      StepKeepsSuspended(st);
    case Stepped(st1, e) =>
      StepKeepsSuspended(st);
      if fuel > 0 {
        RunUnsuspended(st1, fuel - 1);
      }
  }

  lemma StepKeepsSuspended(st: State)
    requires !Step(st).Idle?
    ensures Step(st).st.suspended == st.suspended
  {
    var (st1, e, immediate) := Pop(st);
    match e.work
    case ReleasePause =>
    case Action(c) =>
  }

  /** A doAt submitted from the test body; returns the `Cancelable` handle. */
  function ScheduleAt(st: State, src: Source, t: Time, body: Cmd): (r: (Outcome, Handle))
    ensures r.1 == st.nextId
    ensures r.0.Raised? <==> t < st.now
  {
    (SubmitAt(st, src, t, body), st.nextId)
  }

  /** A doNow submitted from the test body; returns the `Cancelable` handle. */
  function ScheduleNow(st: State, src: Source, body: Cmd): (r: (State, Handle))
    ensures r.1 == st.nextId
    ensures |r.0.nowQ| == |st.nowQ| + 1 && r.0.nowQ[|st.nowQ|].id == r.1
  {
    (SubmitNow(st, src, body), st.nextId)
  }
}
