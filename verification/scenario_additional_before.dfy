/**
  The test "Delayed doAt events execute after additional doNow events": a
  doNow held back during T1's pause, and the doNow it sends in turn, both run
  before T1's doAt held back earlier in the pause.
 */
module AdditionalDoNowBeforeDelayedDoAt {
  import opened Events
  import opened Scheduler
  import opened SchedulerSteps
  import opened ScenarioSetup

  function Delayed(): string { "DELAYED_DO_NOW" }
  function Triggered(): string { "TRIGGERED_DO_NOW" }

  /** What the held doNow does: record, then send T1 one more doNow. */
  function RecordThenSend(): Cmd { Seq([Record(Delayed()), DoNow(T1(), Record(Triggered()))]) }

  function Subs(pauseAt: Time, doAtAt: Time, doNowAt: Time, until: Time): seq<(Source, Time, Cmd)> {
    [ (T1(), pauseAt, PauseT1(until)),
      (T1(), doAtAt, Record("DO_AT")),
      (T2(), doNowAt, RecursiveDoNow(T1(), Delayed(), Triggered())) ]
  }

  function Pausing(pauseAt: Time, until: Time): Event { At(0, T1(), pauseAt, PauseT1(until)) }
  function RecordDoAt(t: Time): Event { At(1, T1(), t, Record("DO_AT")) }
  function Sending(doNowAt: Time): Event { At(2, T2(), doNowAt, RecursiveDoNow(T1(), Delayed(), Triggered())) }
  function Releasing(until: Time): Event { ReleaseOf(3, T1(), until) }
  function Sent(doNowAt: Time): Event { At(4, T1(), doNowAt, RecordThenSend()) }
  function TriggeredDoNow(until: Time): Event { At(5, T1(), until, Record(Triggered())) }

  function Paused(until: Time, heldNow: seq<Event>, heldAt: seq<Event>): map<Source, Pause> {
    map[T1() := Pause(until, heldNow, heldAt)]
  }

  function S0(pauseAt: Time, doAtAt: Time, doNowAt: Time, until: Time): State {
    Running(0, [], [Pausing(pauseAt, until), RecordDoAt(doAtAt), Sending(doNowAt)], map[], {}, 3, [])
  }
  function S1(pauseAt: Time, doAtAt: Time, doNowAt: Time, until: Time): State {
    Running(pauseAt, [], [RecordDoAt(doAtAt), Sending(doNowAt), Releasing(until)], Paused(until, [], []), {}, 4, [])
  }
  function S2(doAtAt: Time, doNowAt: Time, until: Time): State {
    Running(doAtAt, [], [Sending(doNowAt), Releasing(until)], Paused(until, [], [RecordDoAt(doAtAt)]), {}, 4, [])
  }
  function S3(doAtAt: Time, doNowAt: Time, until: Time): State {
    Running(doNowAt, [Sent(doNowAt)], [Releasing(until)], Paused(until, [], [RecordDoAt(doAtAt)]), {}, 5, [])
  }
  function S4(doAtAt: Time, doNowAt: Time, until: Time): State {
    Running(doNowAt, [], [Releasing(until)], Paused(until, [Sent(doNowAt)], [RecordDoAt(doAtAt)]), {}, 5, [])
  }
  function S5(doNowAt: Time, until: Time): State {
    Running(until, [Sent(doNowAt)], [RecordDoAt(until)], map[], {}, 5, [])
  }
  function S6(until: Time): State {
    Running(until, [TriggeredDoNow(until)], [RecordDoAt(until)], map[], {}, 6, [Obs(Delayed(), until, T1(), 4)])
  }
  function S7(until: Time): State {
    Running(until, [], [RecordDoAt(until)], map[], {}, 6,
            [Obs(Delayed(), until, T1(), 4), Obs(Triggered(), until, T1(), 5)])
  }
  function S8(until: Time): State {
    Running(until, [], [], map[], {}, 6,
            [Obs(Delayed(), until, T1(), 4), Obs(Triggered(), until, T1(), 5), Obs("DO_AT", until, T1(), 1)])
  }

  /** T1 pauses itself. */
  lemma Round1(pauseAt: Time, doAtAt: Time, doNowAt: Time, until: Time)
    requires pauseAt <= doAtAt <= doNowAt <= until
    ensures Step(S0(pauseAt, doAtAt, doNowAt, until)) == Stepped(S1(pauseAt, doAtAt, doNowAt, until), Pausing(pauseAt, until))
  {
    TimedDelay(S0(pauseAt, doAtAt, doNowAt, until), S1(pauseAt, doAtAt, doNowAt, until), until);
  }

  /** T1's doAt falls due and is held back. */
  lemma Round2(pauseAt: Time, doAtAt: Time, doNowAt: Time, until: Time)
    ensures Step(S1(pauseAt, doAtAt, doNowAt, until)) == Stepped(S2(doAtAt, doNowAt, until), RecordDoAt(doAtAt))
  {
    TimedHold(S1(pauseAt, doAtAt, doNowAt, until), S2(doAtAt, doNowAt, until));
  }

  /** T2 sends T1 the recursive doNow ... */
  lemma Round3(doAtAt: Time, doNowAt: Time, until: Time)
    ensures Step(S2(doAtAt, doNowAt, until)) == Stepped(S3(doAtAt, doNowAt, until), Sending(doNowAt))
  {
    TimedDoNow(S2(doAtAt, doNowAt, until), S3(doAtAt, doNowAt, until), T1(), RecordThenSend());
  }

  /** ... which is held back. */
  lemma Round4(doAtAt: Time, doNowAt: Time, until: Time)
    ensures Step(S3(doAtAt, doNowAt, until)) == Stepped(S4(doAtAt, doNowAt, until), Sent(doNowAt))
  {
    NowHold(S3(doAtAt, doNowAt, until), S4(doAtAt, doNowAt, until));
  }

  /** The release: the doNow to the immediate queue, the doAt to the head of the timed queue. */
  lemma Round5(doAtAt: Time, doNowAt: Time, until: Time)
    ensures Step(S4(doAtAt, doNowAt, until)) == Stepped(S5(doNowAt, until), Releasing(until))
  {
    TimedRelease(S4(doAtAt, doNowAt, until), S5(doNowAt, until));
  }

  /** The held doNow records and sends another doNow, which runs before any doAt. */
  lemma Round6(doNowAt: Time, until: Time)
    ensures Step(S5(doNowAt, until)) == Stepped(S6(until), Sent(doNowAt))
  {
    NowRecordThenDoNow(S5(doNowAt, until), S6(until), Delayed(), T1(), Record(Triggered()));
  }

  lemma Round7(until: Time)
    ensures Step(S6(until)) == Stepped(S7(until), TriggeredDoNow(until))
  {
    NowRecord(S6(until), S7(until), Triggered());
  }

  lemma Round8(until: Time)
    ensures Step(S7(until)) == Stepped(S8(until), RecordDoAt(until))
  {
    TimedRecord(S7(until), S8(until), "DO_AT");
  }

  /** The first 4 rounds of the run. */
  lemma Opening(pauseAt: Time, doAtAt: Time, doNowAt: Time, until: Time)
    requires pauseAt <= doAtAt <= doNowAt <= until
    ensures Run(S0(pauseAt, doAtAt, doNowAt, until), Fuel()) == Run(S4(doAtAt, doNowAt, until), Fuel() - 4)
  {
    Round1(pauseAt, doAtAt, doNowAt, until);
    Round2(pauseAt, doAtAt, doNowAt, until);
    Round3(doAtAt, doNowAt, until);
    Round4(doAtAt, doNowAt, until);
    RunStepped(S0(pauseAt, doAtAt, doNowAt, until), S1(pauseAt, doAtAt, doNowAt, until), Pausing(pauseAt, until), 20);
    RunStepped(S1(pauseAt, doAtAt, doNowAt, until), S2(doAtAt, doNowAt, until), RecordDoAt(doAtAt), 19);
    RunStepped(S2(doAtAt, doNowAt, until), S3(doAtAt, doNowAt, until), Sending(doNowAt), 18);
    RunStepped(S3(doAtAt, doNowAt, until), S4(doAtAt, doNowAt, until), Sent(doNowAt), 17);
  }

  /** The remaining rounds, up to the point where nothing is left to run. */
  lemma Closing(pauseAt: Time, doAtAt: Time, doNowAt: Time, until: Time)
    ensures Run(S4(doAtAt, doNowAt, until), Fuel() - 4) == Quiescent(S8(until))
  {
    Round5(doAtAt, doNowAt, until);
    Round6(doNowAt, until);
    Round7(until);
    Round8(until);
    RunStepped(S4(doAtAt, doNowAt, until), S5(doNowAt, until), Releasing(until), 16);
    RunStepped(S5(doNowAt, until), S6(until), Sent(doNowAt), 15);
    RunStepped(S6(until), S7(until), TriggeredDoNow(until), 14);
    RunStepped(S7(until), S8(until), RecordDoAt(until), 13);
    RunIdle(S8(until), 12);
  }

  /** The test body's submissions leave the backing scheduler in `S0`. */
  lemma Start(pauseAt: Time, doAtAt: Time, doNowAt: Time, until: Time)
    requires pauseAt <= doAtAt <= doNowAt <= until
    ensures Ordered(Subs(pauseAt, doAtAt, doNowAt, until))
    ensures S0(pauseAt, doAtAt, doNowAt, until) == Running(0, [], Queued(0, Subs(pauseAt, doAtAt, doNowAt, until)), map[], {}, |Subs(pauseAt, doAtAt, doNowAt, until)|, [])
  {
    QueuedEvents(0, Subs(pauseAt, doAtAt, doNowAt, until));
    assert Queued(0, Subs(pauseAt, doAtAt, doNowAt, until)) == S0(pauseAt, doAtAt, doNowAt, until).atQ;
  }

  /** For any times in order, both doNows run before the doAt held back during the pause. */
  lemma Traced(pauseAt: Time, doAtAt: Time, doNowAt: Time, until: Time)
    requires pauseAt <= doAtAt <= doNowAt <= until
    ensures var r := UnPause(Setup(Subs(pauseAt, doAtAt, doNowAt, until)), Fuel());
      && r.Quiescent?
      && r.st.trace == [Obs(Delayed(), until, T1(), 4), Obs(Triggered(), until, T1(), 5), Obs("DO_AT", until, T1(), 1)]
  {
    Start(pauseAt, doAtAt, doNowAt, until);
    Opening(pauseAt, doAtAt, doNowAt, until);
    Closing(pauseAt, doAtAt, doNowAt, until);
    Unpaused(Subs(pauseAt, doAtAt, doNowAt, until), S0(pauseAt, doAtAt, doNowAt, until), Quiescent(S8(until)));
  }

  /** The test's own times: paused at 10 000 until 30 987, the doAt due at 14 321, the doNow sent at 18 642. */
  lemma AtTestTimes()
    ensures var r := UnPause(Setup(Subs(PauseTime(), EventTime(), LaterEventTime(), LaterPauseEndTime())), Fuel());
      && r.Quiescent?
      && r.st.trace == [ Obs(Delayed(), LaterPauseEndTime(), T1(), 4),
                         Obs(Triggered(), LaterPauseEndTime(), T1(), 5),
                         Obs("DO_AT", LaterPauseEndTime(), T1(), 1) ]
  {
    Traced(PauseTime(), EventTime(), LaterEventTime(), LaterPauseEndTime());
  }
}
