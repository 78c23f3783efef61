/**
  One round of the backing scheduler's loop, worked out for each kind of
  event it can take off a global queue. Each lemma names the next event and
  the state the round leaves behind, field by field; fields it does not
  mention are unchanged.
 */
module SchedulerSteps {
  import opened Events
  import opened TimedQueue
  import opened Scheduler

  /** The next event comes from the timed queue. */
  ghost predicate NextTimed(st: State) {
    !st.suspended && st.nowQ == [] && st.atQ != []
  }

  /** The next event comes from the immediate queue. */
  ghost predicate NextNow(st: State) {
    !st.suspended && st.nowQ != []
  }

  /** A closure that runs: not cancelled and of a source that is not paused. */
  ghost predicate Runs(st: State, e: Event) {
    e.work.Action? && e.id !in st.cancelled && e.src !in st.pauses
  }

  /** `st'` differs from `st` at most in the clock, the queues, the pauses and the trace. */
  ghost predicate Keeps(st: State, st': State) {
    st'.suspended == st.suspended && st'.cancelled == st.cancelled && st'.nextId == st.nextId
  }

  /** Source `s` is paused in `st'` as `p`; every other source is as in `st`. */
  ghost predicate PausedAs(st: State, st': State, s: Source, p: Pause) {
    && st'.pauses.Keys == st.pauses.Keys + {s}
    && s in st'.pauses && st'.pauses[s] == p
    && forall x :: x in st.pauses && x != s ==> st'.pauses[x] == st.pauses[x]
  }

  /** A doAt that records `name` appends one observation at its own time. */
  lemma TimedRecord(st: State, st': State, name: string)
    requires NextTimed(st) && Runs(st, st.atQ[0]) && st.atQ[0].work.cmd == Record(name)
    requires Keeps(st, st') && st'.now == st.atQ[0].time && st'.nowQ == [] && st'.atQ == st.atQ[1..]
    requires st'.pauses == st.pauses
    requires st'.trace == st.trace + [Obs(name, st.atQ[0].time, st.atQ[0].src, st.atQ[0].id)]
    ensures Step(st) == Stepped(st', st.atQ[0])
  {
  }

  /** A doAt that sends a doNow queues it, stamped with the doAt's time and the next handle. */
  lemma TimedDoNow(st: State, st': State, src: Source, body: Cmd)
    requires NextTimed(st) && Runs(st, st.atQ[0]) && st.atQ[0].work.cmd == DoNow(src, body)
    requires st'.suspended == st.suspended && st'.cancelled == st.cancelled && st'.nextId == st.nextId + 1
    requires st'.now == st.atQ[0].time && st'.atQ == st.atQ[1..]
    requires st'.nowQ == [Event(st.nextId, src, st.atQ[0].time, Action(body))]
    requires st'.pauses == st.pauses && st'.trace == st.trace
    ensures Step(st) == Stepped(st', st.atQ[0])
  {
  }

  /** A doAt that cancels a handle adds it to the cancelled set. */
  lemma TimedCancel(st: State, st': State, h: Handle)
    requires NextTimed(st) && Runs(st, st.atQ[0]) && st.atQ[0].work.cmd == Cancel(h)
    requires st'.suspended == st.suspended && st'.cancelled == st.cancelled + {h} && st'.nextId == st.nextId
    requires st'.now == st.atQ[0].time && st'.nowQ == [] && st'.atQ == st.atQ[1..]
    requires st'.pauses == st.pauses && st'.trace == st.trace
    ensures Step(st) == Stepped(st', st.atQ[0])
  {
  }

  /**
    A doAt that pauses its own source starts the pause and queues its
    release, which here falls behind everything already queued.
   */
  lemma TimedDelay(st: State, st': State, until: Time)
    requires NextTimed(st) && Runs(st, st.atQ[0]) && st.atQ[0].work.cmd == Delay(st.atQ[0].src, until)
    requires st.atQ[0].time <= until
    requires forall i :: 1 <= i < |st.atQ| ==> st.atQ[i].time <= until
    requires st'.suspended == st.suspended && st'.cancelled == st.cancelled && st'.nextId == st.nextId + 1
    requires st'.now == st.atQ[0].time && st'.nowQ == []
    requires st'.atQ == st.atQ[1..] + [Event(st.nextId, st.atQ[0].src, until, ReleasePause)]
    requires PausedAs(st, st', st.atQ[0].src, Pause(until, [], []))
    requires st'.trace == st.trace
    ensures Step(st) == Stepped(st', st.atQ[0])
  {
    var e := st.atQ[0];
    var st1 := st.(atQ := st.atQ[1..], now := e.time);
    assert Pop(st) == (st1, e, false);
    PauseStarted(st1, st', e.src, until);
    assert Dispatch(st1, e, false) == Completed(st');
  }

  /** Starting a pause whose release is due no earlier than anything queued. */
  lemma PauseStarted(st: State, st': State, src: Source, until: Time)
    requires st.now <= until && src !in st.pauses
    requires forall i :: 0 <= i < |st.atQ| ==> st.atQ[i].time <= until
    requires st'.now == st.now && st'.nowQ == st.nowQ && st'.trace == st.trace
    requires st'.suspended == st.suspended && st'.cancelled == st.cancelled && st'.nextId == st.nextId + 1
    requires st'.atQ == st.atQ + [Event(st.nextId, src, until, ReleasePause)]
    requires PausedAs(st, st', src, Pause(until, [], []))
    ensures StartPause(st, src, src, until) == Completed(st')
  {
    var rel := Event(st.nextId, src, until, ReleasePause);
    InsertAtEnd(st.atQ, rel);
    PausesUpdated(st.pauses, st'.pauses, src, Pause(until, [], []));
    assert st' == st.(pauses := st.pauses[src := Pause(until, [], [])], atQ := Insert(st.atQ, rel), nextId := st.nextId + 1);
  }

  lemma PausesUpdated(before: map<Source, Pause>, after: map<Source, Pause>, s: Source, p: Pause)
    requires after.Keys == before.Keys + {s} && s in after && after[s] == p
    requires forall x :: x in before && x != s ==> after[x] == before[x]
    ensures after == before[s := p]
  {
  }

  /** A cancelled doAt is dropped; only the clock moves. */
  lemma TimedDropped(st: State, st': State)
    requires NextTimed(st) && st.atQ[0].work.Action? && st.atQ[0].id in st.cancelled
    requires Keeps(st, st') && st'.now == st.atQ[0].time && st'.nowQ == [] && st'.atQ == st.atQ[1..]
    requires st'.pauses == st.pauses && st'.trace == st.trace
    ensures Step(st) == Stepped(st', st.atQ[0])
  {
  }

  /** A doAt of a paused source joins the back of that source's held doAts. */
  lemma TimedHold(st: State, st': State)
    requires NextTimed(st) && st.atQ[0].work.Action? && st.atQ[0].id !in st.cancelled
    requires st.atQ[0].src in st.pauses
    requires Keeps(st, st') && st'.now == st.atQ[0].time && st'.nowQ == [] && st'.atQ == st.atQ[1..]
    requires var p := st.pauses[st.atQ[0].src];
      PausedAs(st, st', st.atQ[0].src, p.(heldAt := p.heldAt + [st.atQ[0]]))
    requires st'.trace == st.trace
    ensures Step(st) == Stepped(st', st.atQ[0])
  {
  }

  /**
    The release of a pause: the held doNows become the immediate queue and
    the held doAts, due now, go in front of the timed queue.
   */
  lemma TimedRelease(st: State, st': State)
    requires NextTimed(st) && st.atQ[0].work.ReleasePause? && st.atQ[0].src in st.pauses
    requires var p := st.pauses[st.atQ[0].src];
      && Keeps(st, st') && st'.now == st.atQ[0].time
      && st'.nowQ == p.heldNow
      && st'.atQ == Retime(p.heldAt, p.until) + st.atQ[1..]
    requires st'.pauses == st.pauses - {st.atQ[0].src}
    requires st'.trace == st.trace
    ensures Step(st) == Stepped(st', st.atQ[0])
  {
  }

  /** A doNow that records `name` appends one observation at the current time. */
  lemma NowRecord(st: State, st': State, name: string)
    requires NextNow(st) && Runs(st, st.nowQ[0]) && st.nowQ[0].work.cmd == Record(name)
    requires Keeps(st, st') && st'.now == st.now && st'.nowQ == st.nowQ[1..] && st'.atQ == st.atQ
    requires st'.pauses == st.pauses
    requires st'.trace == st.trace + [Obs(name, st.now, st.nowQ[0].src, st.nowQ[0].id)]
    ensures Step(st) == Stepped(st', st.nowQ[0])
  {
  }

  /** A doNow of a paused source joins the back of that source's held doNows. */
  lemma NowHold(st: State, st': State)
    requires NextNow(st) && st.nowQ[0].work.Action? && st.nowQ[0].id !in st.cancelled
    requires st.nowQ[0].src in st.pauses
    requires Keeps(st, st') && st'.now == st.now && st'.nowQ == st.nowQ[1..] && st'.atQ == st.atQ
    requires var p := st.pauses[st.nowQ[0].src];
      PausedAs(st, st', st.nowQ[0].src, p.(heldNow := p.heldNow + [st.nowQ[0]]))
    requires st'.trace == st.trace
    ensures Step(st) == Stepped(st', st.nowQ[0])
  {
  }

  /**
    A doNow that records `name` and then sends a doNow: one observation, and
    the new doNow joins the back of the immediate queue.
   */
  lemma NowRecordThenDoNow(st: State, st': State, name: string, src: Source, body: Cmd)
    requires NextNow(st) && Runs(st, st.nowQ[0]) && st.nowQ[0].work.cmd == Seq([Record(name), DoNow(src, body)])
    requires st'.suspended == st.suspended && st'.cancelled == st.cancelled && st'.nextId == st.nextId + 1
    requires st'.now == st.now && st'.atQ == st.atQ && st'.pauses == st.pauses
    requires st'.nowQ == st.nowQ[1..] + [Event(st.nextId, src, st.now, Action(body))]
    requires st'.trace == st.trace + [Obs(name, st.now, st.nowQ[0].src, st.nowQ[0].id)]
    ensures Step(st) == Stepped(st', st.nowQ[0])
  {
    var e := st.nowQ[0];
    var st1 := st.(nowQ := st.nowQ[1..]);
    var cs := [Record(name), DoNow(src, body)];
    var st2 := st1.(trace := st1.trace + [Obs(name, st1.now, e.src, e.id)]);
    assert Pop(st) == (st1, e, true);
    assert Exec(st1, e, cs[0]) == Completed(st2);
    assert cs[1..] == [DoNow(src, body)];
    assert ExecAll(st2, e, cs[1..]) == Completed(SubmitNow(st2, src, body)) by {
      assert cs[1..][1..] == [];
    }
    assert ExecAll(st1, e, cs) == ExecAll(st2, e, cs[1..]);
    assert Dispatch(st1, e, true) == Exec(st1, e, Seq(cs));
    assert Exec(st1, e, Seq(cs)) == ExecAll(st1, e, cs);
    assert SubmitNow(st2, src, body) == st';
  }

  /** One round that ends in `st'` lets the rest of the run start from `st'`. */
  lemma RunStepped(st: State, st': State, e: Event, fuel: nat)
    requires Step(st) == Stepped(st', e) && fuel > 0
    ensures Run(st, fuel) == Run(st', fuel - 1)
  {
  }

  /** A run that reaches a state with nothing left to do ends there. */
  lemma RunIdle(st: State, fuel: nat)
    requires !st.suspended && st.nowQ == [] && st.atQ == []
    ensures Run(st, fuel) == Quiescent(st)
  {
  }
}
