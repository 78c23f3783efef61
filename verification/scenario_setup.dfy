/**
  What the scheduler tests share: the two sources, the backing scheduler
  paused at time 0 with the test body's doAts queued, and a way to write the
  states a run passes through. Handles are issued from 0 in submission
  order, release events included.
 */
module ScenarioSetup {
  import opened Events
  import opened TimedQueue
  import opened Scheduler

  function T1(): Source { 1 }
  function T2(): Source { 2 }

  /** The tests' times: a pause from 10 000, events 4321 apart, and a pause lasting a further 12 345. */
  function PauseTime(): Time { 10_000 }
  function EventTime(): Time { PauseTime() + 4321 }
  function LaterEventTime(): Time { EventTime() + 4321 }
  function PauseEndTime(): Time { EventTime() + 12_345 }
  function LaterPauseEndTime(): Time { LaterEventTime() + 12_345 }

  /** Enough rounds of the loop for every test. */
  function Fuel(): nat { 20 }

  /** doAt submissions made from the test body, in order, on the paused backing scheduler. */
  function Submit(st: State, subs: seq<(Source, Time, Cmd)>): State
    decreases |subs|
  {
    if subs == [] then st
    else Submit(SubmitAt(st, subs[0].0, subs[0].1, subs[0].2).st, subs[1..])
  }

  /** The backing scheduler when the test body calls `unPause`. */
  function Setup(subs: seq<(Source, Time, Cmd)>): State {
    Submit(PauseAll(Init(0)), subs)
  }

  /** The events the submissions `subs` create, with handles issued from `id`. */
  function Queued(id: Handle, subs: seq<(Source, Time, Cmd)>): seq<Event>
    decreases |subs|
  {
    if subs == [] then [] else [Event(id, subs[0].0, subs[0].1, Action(subs[0].2))] + Queued(id + 1, subs[1..])
  }

  /** Submission `i` becomes the event with handle `id + i`. */
  lemma {:induction false} QueuedEvents(id: Handle, subs: seq<(Source, Time, Cmd)>)
    ensures |Queued(id, subs)| == |subs|
    ensures forall i :: 0 <= i < |subs| ==> Queued(id, subs)[i] == Event(id + i, subs[i].0, subs[i].1, Action(subs[i].2))
    decreases |subs|
  {
    if subs != [] {
      QueuedEvents(id + 1, subs[1..]);
    }
  }

  /** Submissions whose times never go down. */
  ghost predicate Ordered(subs: seq<(Source, Time, Cmd)>)
    decreases |subs|
  {
    |subs| <= 1 || (subs[0].1 <= subs[1].1 && Ordered(subs[1..]))
  }

  /** Nothing in `q` is due after `t`. */
  ghost predicate DueBy(q: seq<Event>, t: Time) {
    forall i :: 0 <= i < |q| ==> q[i].time <= t
  }

  /**
    Submissions in time order, the first no earlier than the clock or than
    anything queued, queue up in submission order behind what is there.
   */
  lemma {:induction false} SubmitInOrder(st: State, subs: seq<(Source, Time, Cmd)>)
    requires Ordered(subs)
    requires subs != [] ==> st.now <= subs[0].1 && DueBy(st.atQ, subs[0].1)
    ensures Submit(st, subs) == st.(atQ := st.atQ + Queued(st.nextId, subs), nextId := st.nextId + |subs|)
    decreases |subs|
  {
    if subs == [] {
      assert st.atQ + [] == st.atQ;
    } else {
      var st1 := SubmitFirst(st, subs);
      SubmitInOrder(st1, subs[1..]);
      ConsQueued(st, subs);
    }
  }

  /** Queueing the first submission and then the rest is queueing them all. */
  lemma ConsQueued(st: State, subs: seq<(Source, Time, Cmd)>)
    requires subs != []
    ensures var st1 := st.(atQ := st.atQ + [Event(st.nextId, subs[0].0, subs[0].1, Action(subs[0].2))], nextId := st.nextId + 1);
      st1.(atQ := st1.atQ + Queued(st1.nextId, subs[1..]), nextId := st1.nextId + |subs[1..]|)
        == st.(atQ := st.atQ + Queued(st.nextId, subs), nextId := st.nextId + |subs|)
  {
    QueuedAfterFirst(st.atQ, st.nextId, subs);
  }

  /** The first of the ordered submissions goes to the back; the rest still meet the ordering. */
  lemma SubmitFirst(st: State, subs: seq<(Source, Time, Cmd)>) returns (st1: State)
    requires subs != [] && Ordered(subs)
    requires st.now <= subs[0].1 && DueBy(st.atQ, subs[0].1)
    ensures Submit(st, subs) == Submit(st1, subs[1..])
    ensures st1 == st.(atQ := st.atQ + [Event(st.nextId, subs[0].0, subs[0].1, Action(subs[0].2))], nextId := st.nextId + 1)
    ensures Ordered(subs[1..])
    ensures subs[1..] != [] ==> st1.now <= subs[1..][0].1 && DueBy(st1.atQ, subs[1..][0].1)
  {
    st1 := SubmitAtEnd(st, subs[0].0, subs[0].1, subs[0].2);
    if |subs| > 1 {
      assert subs[1..][0] == subs[1];
    }
  }

  /** Splitting off the first queued event. */
  lemma QueuedAfterFirst(p: seq<Event>, id: Handle, subs: seq<(Source, Time, Cmd)>)
    requires subs != []
    ensures p + Queued(id, subs) == (p + [Event(id, subs[0].0, subs[0].1, Action(subs[0].2))]) + Queued(id + 1, subs[1..])
  {
    var e := Event(id, subs[0].0, subs[0].1, Action(subs[0].2));
    assert Queued(id, subs) == [e] + Queued(id + 1, subs[1..]);
    AppendOne(p, e, Queued(id + 1, subs[1..]));
  }

  lemma AppendOne(p: seq<Event>, e: Event, q: seq<Event>)
    ensures p + ([e] + q) == (p + [e]) + q
  {
  }

  /** A doAt due no earlier than the clock or than anything queued goes to the back of the queue. */
  lemma SubmitAtEnd(st: State, src: Source, t: Time, body: Cmd) returns (st1: State)
    requires st.now <= t && DueBy(st.atQ, t)
    ensures SubmitAt(st, src, t, body) == Completed(st1)
    ensures st1 == st.(atQ := st.atQ + [Event(st.nextId, src, t, Action(body))], nextId := st.nextId + 1)
    ensures forall t' :: t <= t' ==> DueBy(st1.atQ, t')
  {
    var e := Event(st.nextId, src, t, Action(body));
    st1 := st.(atQ := st.atQ + [e], nextId := st.nextId + 1);
    InsertAtEnd(st.atQ, e);
  }

  /** A doAt due strictly before the head of the queue becomes its new head. */
  lemma SubmitAtFront(st: State, src: Source, t: Time, body: Cmd) returns (st1: State)
    requires st.now <= t && (st.atQ != [] ==> t < st.atQ[0].time)
    ensures SubmitAt(st, src, t, body) == Completed(st1)
    ensures st1 == st.(atQ := [Event(st.nextId, src, t, Action(body))] + st.atQ, nextId := st.nextId + 1)
  {
    var e := Event(st.nextId, src, t, Action(body));
    st1 := st.(atQ := [e] + st.atQ, nextId := st.nextId + 1);
    InsertAtFront(st.atQ, e);
  }

  /** A scheduler running at `now`. */
  function Running(now: Time, nowQ: seq<Event>, atQ: seq<Event>, pauses: map<Source, Pause>,
                   cancelled: set<Handle>, nextId: Handle, trace: seq<Obs>): State
  {
    State(now, false, nowQ, atQ, pauses, cancelled, nextId, trace)
  }

  /** The scheduler when the test unpauses it, if the test body's submissions were in time order. */
  lemma SetupInOrder(subs: seq<(Source, Time, Cmd)>)
    requires Ordered(subs)
    ensures Setup(subs).(suspended := false) == Running(0, [], Queued(0, subs), map[], {}, |subs|, [])
  {
    var st := PausedStart();
    SubmitInOrder(st, subs);
    UnpausedQueue(st, subs);
  }

  /** The backing scheduler paused at time 0 with nothing queued. */
  lemma PausedStart() returns (st: State)
    ensures PauseAll(Init(0)) == st
    ensures st == State(0, true, [], [], map[], {}, 0, [])
  {
    st := State(0, true, [], [], map[], {}, 0, []);
  }

  lemma UnpausedQueue(st: State, subs: seq<(Source, Time, Cmd)>)
    requires st == State(0, true, [], [], map[], {}, 0, [])
    ensures st.(atQ := st.atQ + Queued(st.nextId, subs), nextId := st.nextId + |subs|).(suspended := false)
      == Running(0, [], Queued(0, subs), map[], {}, |subs|, [])
  {
    assert st.atQ + Queued(0, subs) == Queued(0, subs);
  }

  /** The run the test starts with `unPause`, from the state its submissions leave behind. */
  lemma Unpaused(subs: seq<(Source, Time, Cmd)>, s0: State, r: RunResult)
    requires Ordered(subs)
    requires s0 == Running(0, [], Queued(0, subs), map[], {}, |subs|, [])
    requires Run(s0, Fuel()) == r
    ensures UnPause(Setup(subs), Fuel()) == r
  {
    SetupInOrder(subs);
  }

  /** A closure event. */
  function At(id: Handle, src: Source, t: Time, c: Cmd): Event {
    Event(id, src, t, Action(c))
  }

  /** The release event of `src`'s pause. */
  function ReleaseOf(id: Handle, src: Source, t: Time): Event {
    Event(id, src, t, ReleasePause)
  }

  /** T1 pausing itself until `until`. */
  function PauseT1(until: Time): Cmd {
    Delay(T1(), until)
  }

  /** The test helper `scheduleDoNow`: sends `src` a doNow recording `name`. */
  function DoNowRecord(src: Source, name: string): Cmd {
    DoNow(src, Record(name))
  }

  /** The test helper `scheduleRecursiveDoNow`: a doNow that records `name` and then sends a doNow recording `triggered`. */
  function RecursiveDoNow(src: Source, name: string, triggered: string): Cmd {
    DoNow(src, Seq([Record(name), DoNow(src, Record(triggered))]))
  }
}
