/**
  The test "Delayed doNow events execute before additional doNow events": two
  doNows held back during T1's pause run in the order they were sent, and a
  doNow sent by the second of them runs after both.
 */
module AdditionalDoNowAfterDelayedDoNows {
  import opened Events
  import opened Scheduler
  import opened SchedulerSteps
  import opened ScenarioSetup

  function First(): string { "DELAYED_DO_NOW_1" }
  function Second(): string { "DELAYED_DO_NOW_2" }
  function Triggered(): string { "TRIGGERED_DO_NOW" }

  /** What the second doNow does: record, then send T1 one more doNow. */
  function RecordThenSend(): Cmd { Seq([Record(Second()), DoNow(T1(), Record(Triggered()))]) }

  function Subs(pauseAt: Time, doNowAt: Time, until: Time): seq<(Source, Time, Cmd)> {
    [ (T1(), pauseAt, PauseT1(until)),
      (T2(), doNowAt, DoNowRecord(T1(), First())),
      (T2(), doNowAt, RecursiveDoNow(T1(), Second(), Triggered())) ]
  }

  function Pausing(pauseAt: Time, until: Time): Event { At(0, T1(), pauseAt, PauseT1(until)) }
  function SendingFirst(doNowAt: Time): Event { At(1, T2(), doNowAt, DoNowRecord(T1(), First())) }
  function SendingSecond(doNowAt: Time): Event { At(2, T2(), doNowAt, RecursiveDoNow(T1(), Second(), Triggered())) }
  function Releasing(until: Time): Event { ReleaseOf(3, T1(), until) }
  function FirstDoNow(doNowAt: Time): Event { At(4, T1(), doNowAt, Record(First())) }
  function SecondDoNow(doNowAt: Time): Event { At(5, T1(), doNowAt, RecordThenSend()) }
  function TriggeredDoNow(until: Time): Event { At(6, T1(), until, Record(Triggered())) }

  function Paused(until: Time, heldNow: seq<Event>): map<Source, Pause> {
    map[T1() := Pause(until, heldNow, [])]
  }

  function S0(pauseAt: Time, doNowAt: Time, until: Time): State {
    Running(0, [], [Pausing(pauseAt, until), SendingFirst(doNowAt), SendingSecond(doNowAt)], map[], {}, 3, [])
  }
  function S1(pauseAt: Time, doNowAt: Time, until: Time): State {
    Running(pauseAt, [], [SendingFirst(doNowAt), SendingSecond(doNowAt), Releasing(until)], Paused(until, []), {}, 4, [])
  }
  function S2(doNowAt: Time, until: Time): State {
    Running(doNowAt, [FirstDoNow(doNowAt)], [SendingSecond(doNowAt), Releasing(until)], Paused(until, []), {}, 5, [])
  }
  function S3(doNowAt: Time, until: Time): State {
    Running(doNowAt, [], [SendingSecond(doNowAt), Releasing(until)], Paused(until, [FirstDoNow(doNowAt)]), {}, 5, [])
  }
  function S4(doNowAt: Time, until: Time): State {
    Running(doNowAt, [SecondDoNow(doNowAt)], [Releasing(until)], Paused(until, [FirstDoNow(doNowAt)]), {}, 6, [])
  }
  function S5(doNowAt: Time, until: Time): State {
    Running(doNowAt, [], [Releasing(until)], Paused(until, [FirstDoNow(doNowAt), SecondDoNow(doNowAt)]), {}, 6, [])
  }
  function S6(doNowAt: Time, until: Time): State {
    Running(until, [FirstDoNow(doNowAt), SecondDoNow(doNowAt)], [], map[], {}, 6, [])
  }
  function S7(doNowAt: Time, until: Time): State {
    Running(until, [SecondDoNow(doNowAt)], [], map[], {}, 6, [Obs(First(), until, T1(), 4)])
  }
  function S8(until: Time): State {
    Running(until, [TriggeredDoNow(until)], [], map[], {}, 7,
            [Obs(First(), until, T1(), 4), Obs(Second(), until, T1(), 5)])
  }
  function S9(until: Time): State {
    Running(until, [], [], map[], {}, 7,
            [Obs(First(), until, T1(), 4), Obs(Second(), until, T1(), 5), Obs(Triggered(), until, T1(), 6)])
  }

  /** T1 pauses itself. */
  lemma Round1(pauseAt: Time, doNowAt: Time, until: Time)
    requires pauseAt <= doNowAt <= until
    ensures Step(S0(pauseAt, doNowAt, until)) == Stepped(S1(pauseAt, doNowAt, until), Pausing(pauseAt, until))
  {
    TimedDelay(S0(pauseAt, doNowAt, until), S1(pauseAt, doNowAt, until), until);
  }

  /** T2 sends the first doNow ... */
  lemma Round2(pauseAt: Time, doNowAt: Time, until: Time)
    ensures Step(S1(pauseAt, doNowAt, until)) == Stepped(S2(doNowAt, until), SendingFirst(doNowAt))
  {
    TimedDoNow(S1(pauseAt, doNowAt, until), S2(doNowAt, until), T1(), Record(First()));
  }

  /** ... which is held back ... */
  lemma Round3(doNowAt: Time, until: Time)
    ensures Step(S2(doNowAt, until)) == Stepped(S3(doNowAt, until), FirstDoNow(doNowAt))
  {
    NowHold(S2(doNowAt, until), S3(doNowAt, until));
  }

  /** ... then the second ... */
  lemma Round4(doNowAt: Time, until: Time)
    ensures Step(S3(doNowAt, until)) == Stepped(S4(doNowAt, until), SendingSecond(doNowAt))
  {
    TimedDoNow(S3(doNowAt, until), S4(doNowAt, until), T1(), RecordThenSend());
  }

  /** ... which is held back behind the first. */
  lemma Round5(doNowAt: Time, until: Time)
    ensures Step(S4(doNowAt, until)) == Stepped(S5(doNowAt, until), SecondDoNow(doNowAt))
  {
    NowHold(S4(doNowAt, until), S5(doNowAt, until));
  }

  /** The release makes both the immediate queue, in the order they were sent. */
  lemma Round6(doNowAt: Time, until: Time)
    ensures Step(S5(doNowAt, until)) == Stepped(S6(doNowAt, until), Releasing(until))
  {
    TimedRelease(S5(doNowAt, until), S6(doNowAt, until));
  }

  lemma Round7(doNowAt: Time, until: Time)
    ensures Step(S6(doNowAt, until)) == Stepped(S7(doNowAt, until), FirstDoNow(doNowAt))
  {
    NowRecord(S6(doNowAt, until), S7(doNowAt, until), First());
  }

  /** The second records and sends a doNow, which joins the back of the immediate queue. */
  lemma Round8(doNowAt: Time, until: Time)
    ensures Step(S7(doNowAt, until)) == Stepped(S8(until), SecondDoNow(doNowAt))
  {
    NowRecordThenDoNow(S7(doNowAt, until), S8(until), Second(), T1(), Record(Triggered()));
  }

  lemma Round9(until: Time)
    ensures Step(S8(until)) == Stepped(S9(until), TriggeredDoNow(until))
  {
    NowRecord(S8(until), S9(until), Triggered());
  }

  /** The first 5 rounds of the run. */
  lemma Opening(pauseAt: Time, doNowAt: Time, until: Time)
    requires pauseAt <= doNowAt <= until
    ensures Run(S0(pauseAt, doNowAt, until), Fuel()) == Run(S5(doNowAt, until), Fuel() - 5)
  {
    Round1(pauseAt, doNowAt, until);
    Round2(pauseAt, doNowAt, until);
    Round3(doNowAt, until);
    Round4(doNowAt, until);
    Round5(doNowAt, until);
    RunStepped(S0(pauseAt, doNowAt, until), S1(pauseAt, doNowAt, until), Pausing(pauseAt, until), 20);
    RunStepped(S1(pauseAt, doNowAt, until), S2(doNowAt, until), SendingFirst(doNowAt), 19);
    RunStepped(S2(doNowAt, until), S3(doNowAt, until), FirstDoNow(doNowAt), 18);
    RunStepped(S3(doNowAt, until), S4(doNowAt, until), SendingSecond(doNowAt), 17);
    RunStepped(S4(doNowAt, until), S5(doNowAt, until), SecondDoNow(doNowAt), 16);
  }

  /** The remaining rounds, up to the point where nothing is left to run. */
  lemma Closing(pauseAt: Time, doNowAt: Time, until: Time)
    ensures Run(S5(doNowAt, until), Fuel() - 5) == Quiescent(S9(until))
  {
    Round6(doNowAt, until);
    Round7(doNowAt, until);
    Round8(doNowAt, until);
    Round9(until);
    RunStepped(S5(doNowAt, until), S6(doNowAt, until), Releasing(until), 15);
    RunStepped(S6(doNowAt, until), S7(doNowAt, until), FirstDoNow(doNowAt), 14);
    RunStepped(S7(doNowAt, until), S8(until), SecondDoNow(doNowAt), 13);
    RunStepped(S8(until), S9(until), TriggeredDoNow(until), 12);
    RunIdle(S9(until), 11);
  }

  /** The test body's submissions leave the backing scheduler in `S0`. */
  lemma Start(pauseAt: Time, doNowAt: Time, until: Time)
    requires pauseAt <= doNowAt <= until
    ensures Ordered(Subs(pauseAt, doNowAt, until))
    ensures S0(pauseAt, doNowAt, until) == Running(0, [], Queued(0, Subs(pauseAt, doNowAt, until)), map[], {}, |Subs(pauseAt, doNowAt, until)|, [])
  {
    QueuedEvents(0, Subs(pauseAt, doNowAt, until));
    assert Queued(0, Subs(pauseAt, doNowAt, until)) == S0(pauseAt, doNowAt, until).atQ;
  }

  /** For any times in order, the held doNows run in the order sent, then the doNow the second one sent. */
  lemma Traced(pauseAt: Time, doNowAt: Time, until: Time)
    requires pauseAt <= doNowAt <= until
    ensures var r := UnPause(Setup(Subs(pauseAt, doNowAt, until)), Fuel());
      && r.Quiescent?
      && r.st.trace == [Obs(First(), until, T1(), 4), Obs(Second(), until, T1(), 5), Obs(Triggered(), until, T1(), 6)]
  {
    Start(pauseAt, doNowAt, until);
    Opening(pauseAt, doNowAt, until);
    Closing(pauseAt, doNowAt, until);
    Unpaused(Subs(pauseAt, doNowAt, until), S0(pauseAt, doNowAt, until), Quiescent(S9(until)));
  }

  /** The test's own times: paused at 10 000 until 26 666, both doNows sent at 14 321. */
  lemma AtTestTimes()
    ensures var r := UnPause(Setup(Subs(PauseTime(), EventTime(), PauseEndTime())), Fuel());
      && r.Quiescent?
      && r.st.trace == [ Obs(First(), PauseEndTime(), T1(), 4),
                         Obs(Second(), PauseEndTime(), T1(), 5),
                         Obs(Triggered(), PauseEndTime(), T1(), 6) ]
  {
    Traced(PauseTime(), EventTime(), PauseEndTime());
  }
}
