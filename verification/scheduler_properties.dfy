/**
  What the scheduler promises, for every state that satisfies the invariant:
  dispatch order, the tracker's answer, cancellation, the effect of a pause
  on its own source and its lack of effect on the others.
 */
module SchedulerProperties {
  import opened Events
  import opened TimedQueue
  import opened Scheduler
  import opened SchedulerInvariants

  // ---------------------------------------------------------------------------
  // One round of the loop
  // ---------------------------------------------------------------------------

  /**
    The immediate queue is drained first, without moving the clock; only when
    it is empty does the earliest doAt run, and the clock moves forward to it.
   */
  lemma DispatchOrder(st: State)
    requires Inv(st) && !Step(st).Idle?
    ensures |st.nowQ| > 0 ==> Step(st).e == st.nowQ[0] && Step(st).st.now == st.now
    ensures st.nowQ == [] ==>
      && Step(st).e == st.atQ[0]
      && (forall i :: 0 <= i < |st.atQ| ==> Step(st).e.time <= st.atQ[i].time)
      && st.now <= Step(st).e.time == Step(st).st.now
  {
    var (st1, e, immediate) := Pop(st);
    match e.work
    case ReleasePause =>
    case Action(c) =>
  }

  /**
    The release rule. When the immediate queue is empty and a release heads
    the timed queue, the round ends that source's pause at its release time.
    The held doNows, in held order, become the whole immediate queue: they
    are dispatched before any doAt, and a doNow one of them sends queues
    behind them. The held doAts, retimed to the release time and in held
    order, go ahead of every doAt still queued when the release runs. A doAt
    of another source due at the release time but queued before the pause
    began is dispatched before the release, and so before the held doAts.
   */
  lemma ReleaseStep(st: State)
    requires Inv(st) && !st.suspended && st.nowQ == [] && st.atQ != [] && st.atQ[0].work.ReleasePause?
    ensures st.atQ[0].src in st.pauses
    ensures var e := st.atQ[0];
      var p := st.pauses[e.src];
      var r := Step(st);
      && r.Stepped? && r.e == e
      && r.st.now == p.until
      && e.src !in r.st.pauses
      && r.st.nowQ == p.heldNow
      && r.st.atQ == Retime(p.heldAt, p.until) + st.atQ[1..]
      && r.st.trace == st.trace
      && Inv(r.st)
  {
    assert st.atQ[0] in st.atQ;
    StepInv(st);
  }

  /**
    What one round adds to the trace: observations made at the (new) clock by
    the dispatched event, reported by the tracker as that event's source.
    A release, a cancelled closure or a closure of a paused source adds nothing.
   */
  lemma StepObservations(st: State)
    requires !Step(st).Idle?
    ensures AppendsFrom(st.trace, Step(st).st.trace, Step(st).st.now, Step(st).e)
    ensures var e := Step(st).e;
      e.work.ReleasePause? || e.id in Pop(st).0.cancelled || e.src in Pop(st).0.pauses ==>
        Step(st).st.trace == st.trace
    ensures st.cancelled <= Step(st).st.cancelled
    ensures Step(st).e.src !in Pop(st).0.pauses || Step(st).e.work.ReleasePause? ==>
      forall s :: s in st.pauses && s != Step(st).e.src ==>
        s in Step(st).st.pauses && Step(st).st.pauses[s] == st.pauses[s]
  {
    var (st1, e, immediate) := Pop(st);
    match e.work
    case ReleasePause =>
    case Action(c) =>
  }

  // ---------------------------------------------------------------------------
  // Whole runs
  // ---------------------------------------------------------------------------

  /**
    Virtual time never goes backwards, the trace only grows, and the
    observations of a run are in time order.
   */
  lemma {:induction false} RunTimeOrdered(st: State, fuel: nat)
    requires Inv(st)
    ensures st.now <= Run(st, fuel).st.now
    ensures st.trace <= Run(st, fuel).st.trace
    ensures TraceOrdered(Run(st, fuel).st.trace, Run(st, fuel).st.now)
    decreases fuel
  {
    RunInv(st, fuel);
    if !Step(st).Idle? {
      StepClockAndTrace(st);
      if Step(st).Stepped? && fuel > 0 {
        var st1 := Step(st).st;
        StepInv(st);
        RunTimeOrdered(st1, fuel - 1);
        PrefixTrans(st.trace, st1.trace, Run(st1, fuel - 1).st.trace);
      }
    }
  }

  /** One round moves the clock forward (or not at all) and only extends the trace. */
  lemma StepClockAndTrace(st: State)
    requires Inv(st) && !Step(st).Idle?
    ensures st.now <= Step(st).st.now && st.trace <= Step(st).st.trace
  {
    DispatchOrder(st);
    StepObservations(st);
  }

  lemma PrefixTrans(a: seq<Obs>, b: seq<Obs>, c: seq<Obs>)
    requires a <= b && b <= c
    ensures a <= c
  {
    assert a == b[..|a|] && b == c[..|b|];
    assert c[..|b|][..|a|] == c[..|a|];
  }

  /** A handle cancelled before the run starts never has its closure observed running. */
  lemma {:induction false} CancelledNeverRuns(st: State, fuel: nat, h: Handle)
    requires h in st.cancelled
    ensures st.trace <= Run(st, fuel).st.trace
    ensures forall i :: |st.trace| <= i < |Run(st, fuel).st.trace| ==> Run(st, fuel).st.trace[i].handle != h
    decreases fuel
  {
    match Step(st)
    case Idle =>
    case Failed(st1, _, _) =>
      StepObservations(st);
    case Stepped(st1, _) =>
      StepObservations(st);
      if fuel > 0 {
        CancelledNeverRuns(st1, fuel - 1, h);
        var r := Run(st1, fuel - 1).st;
        forall i | |st.trace| <= i < |r.trace| ensures r.trace[i].handle != h {
          if i >= |st1.trace| {
          } else {
            assert r.trace[i] == st1.trace[i];
          }
        }
      }
  }

  /** The observations from index `k` on made by source `s` are no earlier than `until`. */
  ghost predicate NoneBefore(tr: seq<Obs>, k: nat, s: Source, until: Time) {
    forall i :: k <= i < |tr| && tr[i].source == s ==> until <= tr[i].time
  }

  /**
    One round cannot let a source paused until `until` run early: either the
    pause is still in force, or the clock has reached `until`.
   */
  lemma StepHoldsBack(st: State, k: nat, s: Source, until: Time)
    requires Inv(st) && !Step(st).Idle?
    requires (s in st.pauses && st.pauses[s].until == until) || until <= st.now
    requires k <= |st.trace| && NoneBefore(st.trace, k, s, until)
    ensures (s in Step(st).st.pauses && Step(st).st.pauses[s].until == until) || until <= Step(st).st.now
    ensures NoneBefore(Step(st).st.trace, k, s, until)
  {
    DispatchOrder(st);
    StepObservations(st);
    var (st1, e, immediate) := Pop(st);
    var r := Step(st).st;
    if until > st.now && e.work.ReleasePause? && e.src == s {
      assert e == st.atQ[0] && e in st.atQ;
    }
  }

  /**
    A source paused until `until` records nothing before `until`: every
    observation its closures make during the run, whether they were
    scheduled before the pause, by the source itself or by another source,
    is made at `until` or later.
   */
  lemma PausedSourceHeldBack(st: State, fuel: nat, s: Source)
    requires Inv(st) && s in st.pauses
    ensures NoneBefore(Run(st, fuel).st.trace, |st.trace|, s, st.pauses[s].until)
  {
    HeldBackFrom(st, fuel, |st.trace|, s, st.pauses[s].until);
  }

  lemma {:induction false} HeldBackFrom(st: State, fuel: nat, k: nat, s: Source, until: Time)
    requires Inv(st)
    requires (s in st.pauses && st.pauses[s].until == until) || until <= st.now
    requires k <= |st.trace| && NoneBefore(st.trace, k, s, until)
    ensures NoneBefore(Run(st, fuel).st.trace, k, s, until)
    decreases fuel
  {
    match Step(st)
    case Idle =>
    case Failed(st1, _, _) =>
      StepHoldsBack(st, k, s, until);
    case Stepped(st1, _) =>
      StepHoldsBack(st, k, s, until);
      StepObservations(st);
      if fuel > 0 {
        StepInv(st);
        HeldBackFrom(st1, fuel - 1, k, s, until);
      }
  }

  // ---------------------------------------------------------------------------
  // Pauses do not leak across sources
  // ---------------------------------------------------------------------------

  function WithPause(st: State, s: Source, p: Pause): State {
    st.(pauses := st.pauses[s := p])
  }

  function LiftOutcome(r: Outcome, s: Source, p: Pause): Outcome {
    match r
    case Completed(st) => Completed(WithPause(st, s, p))
    case Raised(st, err) => Raised(WithPause(st, s, p), err)
  }

  function LiftStep(r: StepResult, s: Source, p: Pause): StepResult {
    match r
    case Idle => Idle
    case Stepped(st, e) => Stepped(WithPause(st, s, p), e)
    case Failed(st, e, err) => Failed(WithPause(st, s, p), e, err)
  }

  lemma {:induction false} ExecIgnoresOtherPause(st: State, e: Event, c: Cmd, s: Source, p: Pause)
    requires e.src != s
    ensures Exec(WithPause(st, s, p), e, c) == LiftOutcome(Exec(st, e, c), s, p)
    decreases c, 1
  {
    match c
    case Record(name) =>
    case DoNow(src, body) =>
    case DoAt(src, t, body) => SubmitAtIgnoresPause(st, src, t, body, s, p);
    case Delay(src, until) => StartPauseIgnoresOtherPause(st, e.src, src, until, s, p);
    case Cancel(h) =>
    case Seq(cs) => ExecAllIgnoresOtherPause(st, e, cs, s, p);
  }

  lemma SubmitAtIgnoresPause(st: State, src: Source, t: Time, body: Cmd, s: Source, p: Pause)
    ensures SubmitAt(WithPause(st, s, p), src, t, body) == LiftOutcome(SubmitAt(st, src, t, body), s, p)
  {
  }

  lemma StartPauseIgnoresOtherPause(st: State, active: Source, src: Source, until: Time, s: Source, p: Pause)
    requires active != s
    ensures StartPause(WithPause(st, s, p), active, src, until) == LiftOutcome(StartPause(st, active, src, until), s, p)
  {
    if src == active && until >= st.now && src !in st.pauses {
      PauseStarts(st, src, until);
      PauseStarts(WithPause(st, s, p), src, until);
      UpdatesCommute(st.pauses, s, p, src, Pause(until, [], []));
    }
  }

  /** A pause that may start: the source's release is queued and its handle issued. */
  lemma PauseStarts(st: State, src: Source, until: Time)
    requires st.now <= until && src !in st.pauses
    ensures StartPause(st, src, src, until)
      == Completed(st.(pauses := st.pauses[src := Pause(until, [], [])],
                       atQ := Insert(st.atQ, Event(st.nextId, src, until, ReleasePause)),
                       nextId := st.nextId + 1))
  {
  }

  lemma UpdatesCommute(m: map<Source, Pause>, s: Source, p: Pause, s': Source, p': Pause)
    requires s != s'
    ensures m[s := p][s' := p'] == m[s' := p'][s := p]
  {
  }

  lemma {:induction false} ExecAllIgnoresOtherPause(st: State, e: Event, cs: seq<Cmd>, s: Source, p: Pause)
    requires e.src != s
    ensures ExecAll(WithPause(st, s, p), e, cs) == LiftOutcome(ExecAll(st, e, cs), s, p)
    decreases cs, 0
  {
    if cs != [] {
      ExecIgnoresOtherPause(st, e, cs[0], s, p);
      match Exec(st, e, cs[0])
      case Raised(st1, err) =>
      case Completed(st1) => ExecAllIgnoresOtherPause(st1, e, cs[1..], s, p);
    }
  }

  /**
    Whether source `s` is paused, and what it holds back, makes no difference
    to a round that dispatches an event of another source: that event runs at
    the same time, with the same effects, as if `s` were not paused.
   */
  lemma PauseOnlyAffectsItsSource(st: State, s: Source, p: Pause)
    requires !Step(st).Idle? && Step(st).e.src != s
    ensures Step(WithPause(st, s, p)) == LiftStep(Step(st), s, p)
  {
    var st' := WithPause(st, s, p);
    var (st1, e, immediate) := Pop(st);
    assert Pop(st') == (WithPause(st1, s, p), e, immediate);
    match e.work
    case ReleasePause =>
      if e.src in st1.pauses {
        assert (st1.pauses[s := p]) - {e.src} == (st1.pauses - {e.src})[s := p];
      }
    case Action(c) =>
      if e.id !in st1.cancelled && e.src in st1.pauses {
        var q := st1.pauses[e.src];
        var q' := if immediate then q.(heldNow := q.heldNow + [e]) else q.(heldAt := q.heldAt + [e]);
        assert st1.pauses[s := p][e.src := q'] == st1.pauses[e.src := q'][s := p];
      } else if e.id !in st1.cancelled {
        ExecIgnoresOtherPause(st1, e, c, s, p);
      }
  }

  // ---------------------------------------------------------------------------
  // Replaying a timed schedule
  // ---------------------------------------------------------------------------

  /** Every event in `q` is a closure that only records an observation. */
  ghost predicate Recorders(q: seq<Event>) {
    forall i :: 0 <= i < |q| ==> q[i].work.Action? && q[i].work.cmd.Record?
  }

  /** What a run of the recorders in `q` is expected to observe, one entry each, in queue order. */
  function Expected(q: seq<Event>): (r: seq<Obs>)
    requires forall i :: 0 <= i < |q| ==> q[i].work.Action? && q[i].work.cmd.Record?
    ensures |r| == |q|
  {
    if q == [] then []
    else [Obs(q[0].work.cmd.name, q[0].time, q[0].src, q[0].id)] + Expected(q[1..])
  }

  /**
    Timed events run in ascending time order, each observing its own due time
    and, through the tracker, the source that scheduled it: a run over a
    sorted timed queue of recorders, with no pause and no cancellation,
    observes exactly `Expected(atQ)` and then goes quiet.
   */
  lemma {:induction false} TimedScheduleReplays(st: State)
    requires !st.suspended && st.nowQ == [] && st.pauses == map[]
    requires Sorted(st.atQ) && AllAtLeast(st.atQ, st.now) && Recorders(st.atQ)
    requires forall i :: 0 <= i < |st.atQ| ==> st.atQ[i].id !in st.cancelled
    ensures Run(st, |st.atQ|).Quiescent?
    ensures Run(st, |st.atQ|).st.trace == st.trace + Expected(st.atQ)
    decreases |st.atQ|
  {
    if st.atQ != [] {
      var e := st.atQ[0];
      var st1 := st.(atQ := st.atQ[1..], now := e.time, trace := st.trace + [Obs(e.work.cmd.name, e.time, e.src, e.id)]);
      assert Step(st) == Stepped(st1, e);
      assert AllAtLeast(st1.atQ, st1.now) by {
        forall i | 0 <= i < |st1.atQ| ensures st1.now <= st1.atQ[i].time {
          assert st1.atQ[i] == st.atQ[i + 1];
        }
      }
      assert Recorders(st1.atQ) by {
        forall i | 0 <= i < |st1.atQ| ensures st1.atQ[i].work.Action? && st1.atQ[i].work.cmd.Record? {
          assert st1.atQ[i] == st.atQ[i + 1];
        }
      }
      forall i | 0 <= i < |st1.atQ| ensures st1.atQ[i].id !in st1.cancelled {
        assert st1.atQ[i] == st.atQ[i + 1];
      }
      TimedScheduleReplays(st1);
    }
  }
}
