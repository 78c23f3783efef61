/**
  The invariant the scheduler keeps between dispatches, and the proof that
  every operation preserves it.

  - The timed queue is sorted and holds nothing earlier than the clock.
  - Only closures wait in the immediate queue and in held queues.
  - Each paused source has exactly one release event pending, due at its
    release time, and every pending release belongs to a paused source.
  - The observations recorded so far are in time order and none is later
    than the clock.
 */
module SchedulerInvariants {
  import opened Events
  import opened TimedQueue
  import opened Scheduler

  ghost predicate Closures(q: seq<Event>) {
    forall i :: 0 <= i < |q| ==> q[i].work.Action?
  }

  ghost predicate TraceOrdered(tr: seq<Obs>, now: Time) {
    && (forall i, j :: 0 <= i < j < |tr| ==> tr[i].time <= tr[j].time)
    && (forall i :: 0 <= i < |tr| ==> tr[i].time <= now)
  }

  ghost predicate ReleasesMatchPauses(st: State) {
    && (forall x :: x in st.atQ && x.work.ReleasePause? ==>
          x.src in st.pauses && x.time == st.pauses[x.src].until)
    && (forall s :: s in st.pauses ==> exists x :: x in st.atQ && x.work.ReleasePause? && x.src == s)
    && OneReleasePerSource(st.atQ)
  }

  ghost predicate Inv(st: State) {
    && Sorted(st.atQ)
    && AllAtLeast(st.atQ, st.now)
    && Closures(st.nowQ)
    && (forall s :: s in st.pauses ==> Closures(st.pauses[s].heldNow) && Closures(st.pauses[s].heldAt))
    && ReleasesMatchPauses(st)
    && TraceOrdered(st.trace, st.now)
  }

  /** A pause never outlives its release time: the clock cannot pass a pending release. */
  lemma PauseNotOverdue(st: State, s: Source)
    requires Inv(st) && s in st.pauses
    ensures st.now <= st.pauses[s].until
  {
    var x :| x in st.atQ && x.work.ReleasePause? && x.src == s;
    var i :| 0 <= i < |st.atQ| && st.atQ[i] == x;
  }

  lemma InitInv(start: Time)
    ensures Inv(Init(start))
  {
  }

  lemma SubmitNowInv(st: State, src: Source, body: Cmd)
    requires Inv(st)
    ensures Inv(SubmitNow(st, src, body))
  {
  }

  lemma SubmitAtInv(st: State, src: Source, t: Time, body: Cmd)
    requires Inv(st)
    ensures Inv(SubmitAt(st, src, t, body).st)
  {
  }

  lemma StartPauseInv(st: State, active: Source, src: Source, until: Time)
    requires Inv(st)
    ensures Inv(StartPause(st, active, src, until).st)
  {
    var r := StartPause(st, active, src, until);
    if r.Completed? {
      var rel := Event(st.nextId, src, until, ReleasePause);
      assert NoReleaseOf(st.atQ, src) by {
        forall i | 0 <= i < |st.atQ| && st.atQ[i].work.ReleasePause? ensures st.atQ[i].src != src {
          assert st.atQ[i] in st.atQ;
        }
      }
      assert rel in r.st.atQ;
      forall s | s in r.st.pauses
        ensures exists x :: x in r.st.atQ && x.work.ReleasePause? && x.src == s
      {
        if s != src {
          var x :| x in st.atQ && x.work.ReleasePause? && x.src == s;
          assert x in r.st.atQ;
        }
      }
    }
  }

  lemma RecordInv(st: State, e: Event, name: string)
    requires Inv(st)
    ensures Inv(st.(trace := st.trace + [Obs(name, st.now, e.src, e.id)]))
  {
  }

  lemma {:induction false} ExecInv(st: State, e: Event, c: Cmd)
    requires Inv(st)
    ensures Inv(Exec(st, e, c).st)
    decreases c, 1
  {
    match c
    case Record(name) => RecordInv(st, e, name);
    case DoNow(src, body) => SubmitNowInv(st, src, body);
    case DoAt(src, t, body) => SubmitAtInv(st, src, t, body);
    case Delay(src, until) => StartPauseInv(st, e.src, src, until);
    case Cancel(h) =>
    case Seq(cs) => ExecAllInv(st, e, cs);
  }

  lemma {:induction false} ExecAllInv(st: State, e: Event, cs: seq<Cmd>)
    requires Inv(st)
    ensures Inv(ExecAll(st, e, cs).st)
    decreases cs, 0
  {
    if cs != [] {
      ExecInv(st, e, cs[0]);
      match Exec(st, e, cs[0])
      case Raised(st1, err) =>
      case Completed(st1) => ExecAllInv(st1, e, cs[1..]);
    }
  }

  lemma HoldInv(st: State, e: Event, immediate: bool)
    requires Inv(st) && e.src in st.pauses && e.work.Action?
    ensures Inv(Hold(st, e, immediate))
  {
    var r := Hold(st, e, immediate);
    forall s | s in r.pauses
      ensures exists x :: x in r.atQ && x.work.ReleasePause? && x.src == s
    {
      var x :| x in st.atQ && x.work.ReleasePause? && x.src == s;
    }
  }

  /** Dispatching a closure keeps the invariant, whether it is dropped, held or run. */
  lemma DispatchActionInv(st: State, e: Event, immediate: bool)
    requires Inv(st) && e.work.Action?
    ensures Inv(Dispatch(st, e, immediate).st)
  {
    if e.id in st.cancelled {
    } else if e.src in st.pauses {
      HoldInv(st, e, immediate);
    } else {
      ExecInv(st, e, e.work.cmd);
    }
  }

  /** What is left of the timed queue once its head is taken off. */
  lemma TimedRest(st: State)
    requires Inv(st) && |st.atQ| > 0
    ensures Sorted(st.atQ[1..]) && AllAtLeast(st.atQ[1..], st.atQ[0].time)
    ensures OneReleasePerSource(st.atQ[1..])
    ensures forall x :: x in st.atQ[1..] ==> x in st.atQ
    ensures forall s :: s in st.pauses && s != st.atQ[0].src ==>
              exists x :: x in st.atQ[1..] && x.work.ReleasePause? && x.src == s
    ensures st.atQ[0].work.ReleasePause? ==> NoReleaseOf(st.atQ[1..], st.atQ[0].src)
  {
    var rest := st.atQ[1..];
    forall s | s in st.pauses && s != st.atQ[0].src
      ensures exists x :: x in rest && x.work.ReleasePause? && x.src == s
    {
      var x :| x in st.atQ && x.work.ReleasePause? && x.src == s;
      var i :| 0 <= i < |st.atQ| && st.atQ[i] == x;
      assert rest[i - 1] == x;
    }
    assert AllAtLeast(rest, st.atQ[0].time) by {
      forall i | 0 <= i < |rest| ensures st.atQ[0].time <= rest[i].time {
        assert rest[i] == st.atQ[i + 1];
      }
    }
    assert OneReleasePerSource(rest) by {
      forall i, j | 0 <= i < j < |rest| && rest[i].work.ReleasePause? && rest[j].work.ReleasePause?
        ensures rest[i].src != rest[j].src
      {
        assert rest[i] == st.atQ[i + 1] && rest[j] == st.atQ[j + 1];
      }
    }
    if st.atQ[0].work.ReleasePause? {
      forall i | 0 <= i < |rest| && rest[i].work.ReleasePause? ensures rest[i].src != st.atQ[0].src {
        assert rest[i] == st.atQ[i + 1];
      }
    }
  }

  /** Taking the earliest closure off the timed queue and moving the clock to it keeps the invariant. */
  lemma PopTimedActionInv(st: State)
    requires Inv(st) && st.nowQ == [] && |st.atQ| > 0 && st.atQ[0].work.Action?
    ensures Inv(Pop(st).0)
  {
    TimedRest(st);
    forall s | s in st.pauses
      ensures exists x :: x in st.atQ[1..] && x.work.ReleasePause? && x.src == s
    {
      if s == st.atQ[0].src {
        var x :| x in st.atQ && x.work.ReleasePause? && x.src == s;
        var i :| 0 <= i < |st.atQ| && st.atQ[i] == x;
        assert st.atQ[1..][i - 1] == x;
      }
    }
  }

  /** Closures put in front of a queue add no release events to it. */
  lemma PrependClosures(held: seq<Event>, rest: seq<Event>, t: Time)
    requires Closures(held)
    ensures forall x :: x in Retime(held, t) + rest && x.work.ReleasePause? ==> x in rest
    ensures OneReleasePerSource(rest) ==> OneReleasePerSource(Retime(held, t) + rest)
    ensures forall x :: x in rest ==> x in Retime(held, t) + rest
  {
    var r := Retime(held, t) + rest;
    forall x | x in r && x.work.ReleasePause? ensures x in rest {
      var i :| 0 <= i < |r| && r[i] == x;
      assert i >= |held|;
      assert rest[i - |held|] == x;
    }
    if OneReleasePerSource(rest) {
      forall i, j | 0 <= i < j < |r| && r[i].work.ReleasePause? && r[j].work.ReleasePause?
        ensures r[i].src != r[j].src
      {
        assert r[i] == rest[i - |held|] && r[j] == rest[j - |held|];
      }
    }
  }

  /** Once `s` is released, every release still queued belongs to a source still paused. */
  lemma ReleasesStillMatch(q: seq<Event>, held: seq<Event>, t: Time, pauses: map<Source, Pause>, s: Source)
    requires Closures(held)
    requires forall x :: x in q && x.work.ReleasePause? ==> x.src != s && x.src in pauses && x.time == pauses[x.src].until
    ensures forall x :: x in Retime(held, t) + q && x.work.ReleasePause? ==>
      x.src in pauses - {s} && x.time == (pauses - {s})[x.src].until
  {
    PrependClosures(held, q, t);
  }

  /** Once `s` is released, every source still paused still has its release queued. */
  lemma PausesStillReleased(q: seq<Event>, held: seq<Event>, t: Time, pauses: map<Source, Pause>, s: Source)
    requires forall s' :: s' in pauses && s' != s ==> exists x :: x in q && x.work.ReleasePause? && x.src == s'
    ensures forall s' :: s' in pauses - {s} ==> exists x :: x in Retime(held, t) + q && x.work.ReleasePause? && x.src == s'
  {
    forall s' | s' in pauses - {s}
      ensures exists x :: x in Retime(held, t) + q && x.work.ReleasePause? && x.src == s'
    {
      var x :| x in q && x.work.ReleasePause? && x.src == s';
      assert x in Retime(held, t) + q;
    }
  }

  /**
    Releasing a paused source `s` at its release time keeps the invariant:
    the held doAts, due at the release time, sort ahead of everything queued,
    and no other release of `s` is pending.
   */
  lemma ReleaseInv(st: State, s: Source)
    requires s in st.pauses && st.now == st.pauses[s].until
    requires Sorted(st.atQ) && AllAtLeast(st.atQ, st.now) && OneReleasePerSource(st.atQ)
    requires Closures(st.nowQ)
    requires forall s' :: s' in st.pauses ==> Closures(st.pauses[s'].heldNow) && Closures(st.pauses[s'].heldAt)
    requires forall x :: x in st.atQ && x.work.ReleasePause? ==>
               x.src != s && x.src in st.pauses && x.time == st.pauses[x.src].until
    requires forall s' :: s' in st.pauses && s' != s ==> exists x :: x in st.atQ && x.work.ReleasePause? && x.src == s'
    requires TraceOrdered(st.trace, st.now)
    ensures Inv(Release(st, s))
  {
    var p := st.pauses[s];
    var r := Release(st, s);
    assert r.atQ == Retime(p.heldAt, p.until) + st.atQ;
    assert Sorted(r.atQ) && AllAtLeast(r.atQ, r.now) by {
      PrependRetimedSorted(p.heldAt, st.atQ, p.until);
    }
    PrependClosures(p.heldAt, st.atQ, p.until);
    assert r.pauses == st.pauses - {s};
    ReleasesStillMatch(st.atQ, p.heldAt, p.until, st.pauses, s);
    PausesStillReleased(st.atQ, p.heldAt, p.until, st.pauses, s);
  }

  /** Dispatching the release at the head of the timed queue keeps the invariant. */
  lemma ReleaseStepInv(st: State)
    requires Inv(st) && st.nowQ == [] && |st.atQ| > 0 && st.atQ[0].work.ReleasePause?
    ensures Inv(Release(Pop(st).0, st.atQ[0].src))
  {
    var e := st.atQ[0];
    assert e in st.atQ;
    TimedRest(st);
    var st1 := Pop(st).0;
    assert st1.atQ == st.atQ[1..];
    forall x | x in st1.atQ && x.work.ReleasePause?
      ensures x.src != e.src && x.src in st1.pauses && x.time == st1.pauses[x.src].until
    {
      var i :| 0 <= i < |st1.atQ| && st1.atQ[i] == x;
      assert x in st.atQ;
    }
    ReleaseInv(st1, e.src);
  }

  /** One round of the dispatch loop keeps the invariant, even when the closure raises an error. */
  lemma StepInv(st: State)
    requires Inv(st) && !Step(st).Idle?
    ensures Inv(Step(st).st)
  {
    var (st1, e, immediate) := Pop(st);
    if |st.nowQ| > 0 {
      assert e == st.nowQ[0];
      DispatchActionInv(st1, e, immediate);
    } else if e.work.Action? {
      PopTimedActionInv(st);
      DispatchActionInv(st1, e, immediate);
    } else {
      ReleaseStepInv(st);
    }
  }

  lemma {:induction false} RunInv(st: State, fuel: nat)
    requires Inv(st)
    ensures Inv(Run(st, fuel).st)
    decreases fuel
  {
    match Step(st)
    case Idle =>
    case Failed(st1, _, _) => StepInv(st);
    case Stepped(st1, _) =>
      StepInv(st);
      if fuel > 0 {
        RunInv(st1, fuel - 1);
      }
  }
}
