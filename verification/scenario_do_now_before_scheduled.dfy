/**
  The test "Delayed doNow event executes before scheduled doAt event": at the
  end of T1's pause, a doNow held back during the pause runs before the doAt
  T1 had scheduled for exactly that time.
 */
module DelayedDoNowBeforeScheduledDoAt {
  import opened Events
  import opened Scheduler
  import opened SchedulerSteps
  import opened ScenarioSetup

  function Subs(pauseAt: Time, eventAt: Time, until: Time): seq<(Source, Time, Cmd)> {
    [(T1(), pauseAt, PauseT1(until)), (T2(), eventAt, DoNowRecord(T1(), "DO_NOW")), (T1(), until, Record("DO_AT"))]
  }

  function Pausing(pauseAt: Time, until: Time): Event { At(0, T1(), pauseAt, PauseT1(until)) }
  function Sending(eventAt: Time): Event { At(1, T2(), eventAt, DoNowRecord(T1(), "DO_NOW")) }
  function RecordDoAt(until: Time): Event { At(2, T1(), until, Record("DO_AT")) }
  function Releasing(until: Time): Event { ReleaseOf(3, T1(), until) }
  function RecordDoNow(eventAt: Time): Event { At(4, T1(), eventAt, Record("DO_NOW")) }

  function Paused(until: Time, heldNow: seq<Event>, heldAt: seq<Event>): map<Source, Pause> {
    map[T1() := Pause(until, heldNow, heldAt)]
  }

  function S0(pauseAt: Time, eventAt: Time, until: Time): State {
    Running(0, [], [Pausing(pauseAt, until), Sending(eventAt), RecordDoAt(until)], map[], {}, 3, [])
  }
  function S1(pauseAt: Time, eventAt: Time, until: Time): State {
    Running(pauseAt, [], [Sending(eventAt), RecordDoAt(until), Releasing(until)], Paused(until, [], []), {}, 4, [])
  }
  function S2(eventAt: Time, until: Time): State {
    Running(eventAt, [RecordDoNow(eventAt)], [RecordDoAt(until), Releasing(until)], Paused(until, [], []), {}, 5, [])
  }
  function S3(eventAt: Time, until: Time): State {
    Running(eventAt, [], [RecordDoAt(until), Releasing(until)], Paused(until, [RecordDoNow(eventAt)], []), {}, 5, [])
  }
  function S4(eventAt: Time, until: Time): State {
    Running(until, [], [Releasing(until)], Paused(until, [RecordDoNow(eventAt)], [RecordDoAt(until)]), {}, 5, [])
  }
  function S5(eventAt: Time, until: Time): State {
    Running(until, [RecordDoNow(eventAt)], [RecordDoAt(until)], map[], {}, 5, [])
  }
  function S6(until: Time): State {
    Running(until, [], [RecordDoAt(until)], map[], {}, 5, [Obs("DO_NOW", until, T1(), 4)])
  }
  function S7(until: Time): State {
    Running(until, [], [], map[], {}, 5, [Obs("DO_NOW", until, T1(), 4), Obs("DO_AT", until, T1(), 2)])
  }

  /** T1 pauses itself; the release goes behind the doAt already due at the same time. */
  lemma Round1(pauseAt: Time, eventAt: Time, until: Time)
    requires pauseAt <= eventAt <= until
    ensures Step(S0(pauseAt, eventAt, until)) == Stepped(S1(pauseAt, eventAt, until), Pausing(pauseAt, until))
  {
    TimedDelay(S0(pauseAt, eventAt, until), S1(pauseAt, eventAt, until), until);
  }

  /** T2's event sends T1 a doNow. */
  lemma Round2(pauseAt: Time, eventAt: Time, until: Time)
    ensures Step(S1(pauseAt, eventAt, until)) == Stepped(S2(eventAt, until), Sending(eventAt))
  {
    TimedDoNow(S1(pauseAt, eventAt, until), S2(eventAt, until), T1(), Record("DO_NOW"));
  }

  /** The doNow is held back. */
  lemma Round3(eventAt: Time, until: Time)
    ensures Step(S2(eventAt, until)) == Stepped(S3(eventAt, until), RecordDoNow(eventAt))
  {
    NowHold(S2(eventAt, until), S3(eventAt, until));
  }

  /** T1's scheduled doAt falls due before the release is dispatched, and is held back too. */
  lemma Round4(eventAt: Time, until: Time)
    ensures Step(S3(eventAt, until)) == Stepped(S4(eventAt, until), RecordDoAt(until))
  {
    TimedHold(S3(eventAt, until), S4(eventAt, until));
  }

  /** The release: the doNow goes to the immediate queue, the doAt to the head of the timed queue. */
  lemma Round5(eventAt: Time, until: Time)
    ensures Step(S4(eventAt, until)) == Stepped(S5(eventAt, until), Releasing(until))
  {
    TimedRelease(S4(eventAt, until), S5(eventAt, until));
  }

  lemma Round6(eventAt: Time, until: Time)
    ensures Step(S5(eventAt, until)) == Stepped(S6(until), RecordDoNow(eventAt))
  {
    NowRecord(S5(eventAt, until), S6(until), "DO_NOW");
  }

  lemma Round7(until: Time)
    ensures Step(S6(until)) == Stepped(S7(until), RecordDoAt(until))
  {
    TimedRecord(S6(until), S7(until), "DO_AT");
  }

  /** The first 4 rounds of the run. */
  lemma Opening(pauseAt: Time, eventAt: Time, until: Time)
    requires pauseAt <= eventAt <= until
    ensures Run(S0(pauseAt, eventAt, until), Fuel()) == Run(S4(eventAt, until), Fuel() - 4)
  {
    Round1(pauseAt, eventAt, until);
    Round2(pauseAt, eventAt, until);
    Round3(eventAt, until);
    Round4(eventAt, until);
    RunStepped(S0(pauseAt, eventAt, until), S1(pauseAt, eventAt, until), Pausing(pauseAt, until), 20);
    RunStepped(S1(pauseAt, eventAt, until), S2(eventAt, until), Sending(eventAt), 19);
    RunStepped(S2(eventAt, until), S3(eventAt, until), RecordDoNow(eventAt), 18);
    RunStepped(S3(eventAt, until), S4(eventAt, until), RecordDoAt(until), 17);
  }

  /** The remaining rounds, up to the point where nothing is left to run. */
  lemma Closing(pauseAt: Time, eventAt: Time, until: Time)
    ensures Run(S4(eventAt, until), Fuel() - 4) == Quiescent(S7(until))
  {
    Round5(eventAt, until);
    Round6(eventAt, until);
    Round7(until);
    RunStepped(S4(eventAt, until), S5(eventAt, until), Releasing(until), 16);
    RunStepped(S5(eventAt, until), S6(until), RecordDoNow(eventAt), 15);
    RunStepped(S6(until), S7(until), RecordDoAt(until), 14);
    RunIdle(S7(until), 13);
  }

  /** The test body's submissions leave the backing scheduler in `S0`. */
  lemma Start(pauseAt: Time, eventAt: Time, until: Time)
    requires pauseAt <= eventAt <= until
    ensures Ordered(Subs(pauseAt, eventAt, until))
    ensures S0(pauseAt, eventAt, until) == Running(0, [], Queued(0, Subs(pauseAt, eventAt, until)), map[], {}, |Subs(pauseAt, eventAt, until)|, [])
  {
    QueuedEvents(0, Subs(pauseAt, eventAt, until));
    assert Queued(0, Subs(pauseAt, eventAt, until)) == S0(pauseAt, eventAt, until).atQ;
  }

  /** For any times in order, the held doNow runs before the doAt scheduled for the end of the pause. */
  lemma Traced(pauseAt: Time, eventAt: Time, until: Time)
    requires pauseAt <= eventAt <= until
    ensures var r := UnPause(Setup(Subs(pauseAt, eventAt, until)), Fuel());
      r.Quiescent? && r.st.trace == [Obs("DO_NOW", until, T1(), 4), Obs("DO_AT", until, T1(), 2)]
  {
    Start(pauseAt, eventAt, until);
    Opening(pauseAt, eventAt, until);
    Closing(pauseAt, eventAt, until);
    Unpaused(Subs(pauseAt, eventAt, until), S0(pauseAt, eventAt, until), Quiescent(S7(until)));
  }

  /** The test's own times: paused at 10 000 until 26 666, the doNow sent at 14 321. */
  lemma AtTestTimes()
    ensures var r := UnPause(Setup(Subs(PauseTime(), EventTime(), PauseEndTime())), Fuel());
      r.Quiescent? && r.st.trace == [Obs("DO_NOW", PauseEndTime(), T1(), 4), Obs("DO_AT", PauseEndTime(), T1(), 2)]
  {
    Traced(PauseTime(), EventTime(), PauseEndTime());
  }
}
