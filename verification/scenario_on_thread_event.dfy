/**
  The test "On thread event is delayed": T1 pauses itself, and its doAt due
  during the pause is held back until the pause ends.
 */
module OnThreadEventDelayed {
  import opened Events
  import opened Scheduler
  import opened SchedulerSteps
  import opened ScenarioSetup

  function Subs(pauseAt: Time, eventAt: Time, until: Time): seq<(Source, Time, Cmd)> {
    [(T1(), pauseAt, PauseT1(until)), (T1(), eventAt, Record("EVENT"))]
  }

  function Pausing(pauseAt: Time, until: Time): Event { At(0, T1(), pauseAt, PauseT1(until)) }
  function Recording(t: Time): Event { At(1, T1(), t, Record("EVENT")) }
  function Releasing(until: Time): Event { ReleaseOf(2, T1(), until) }

  // The states the run passes through.
  function S0(pauseAt: Time, eventAt: Time, until: Time): State {
    Running(0, [], [Pausing(pauseAt, until), Recording(eventAt)], map[], {}, 2, [])
  }
  function S1(pauseAt: Time, eventAt: Time, until: Time): State {
    Running(pauseAt, [], [Recording(eventAt), Releasing(until)], map[T1() := Pause(until, [], [])], {}, 3, [])
  }
  function S2(eventAt: Time, until: Time): State {
    Running(eventAt, [], [Releasing(until)], map[T1() := Pause(until, [], [Recording(eventAt)])], {}, 3, [])
  }
  function S3(until: Time): State {
    Running(until, [], [Recording(until)], map[], {}, 3, [])
  }
  function S4(until: Time): State {
    Running(until, [], [], map[], {}, 3, [Obs("EVENT", until, T1(), 1)])
  }

  /** T1 pauses itself; the release is queued behind the doAt. */
  lemma Round1(pauseAt: Time, eventAt: Time, until: Time)
    requires pauseAt <= eventAt <= until
    ensures Step(S0(pauseAt, eventAt, until)) == Stepped(S1(pauseAt, eventAt, until), Pausing(pauseAt, until))
  {
    TimedDelay(S0(pauseAt, eventAt, until), S1(pauseAt, eventAt, until), until);
  }

  /** The doAt falls due while T1 is paused and is held back. */
  lemma Round2(pauseAt: Time, eventAt: Time, until: Time)
    ensures Step(S1(pauseAt, eventAt, until)) == Stepped(S2(eventAt, until), Recording(eventAt))
  {
    TimedHold(S1(pauseAt, eventAt, until), S2(eventAt, until));
  }

  /** The release puts the held doAt at the head of the timed queue, due now. */
  lemma Round3(eventAt: Time, until: Time)
    ensures Step(S2(eventAt, until)) == Stepped(S3(until), Releasing(until))
  {
    TimedRelease(S2(eventAt, until), S3(until));
  }

  lemma Round4(until: Time)
    ensures Step(S3(until)) == Stepped(S4(until), Recording(until))
  {
    TimedRecord(S3(until), S4(until), "EVENT");
  }

  /** The first 2 rounds of the run. */
  lemma Opening(pauseAt: Time, eventAt: Time, until: Time)
    requires pauseAt <= eventAt <= until
    ensures Run(S0(pauseAt, eventAt, until), Fuel()) == Run(S2(eventAt, until), Fuel() - 2)
  {
    Round1(pauseAt, eventAt, until);
    Round2(pauseAt, eventAt, until);
    RunStepped(S0(pauseAt, eventAt, until), S1(pauseAt, eventAt, until), Pausing(pauseAt, until), 20);
    RunStepped(S1(pauseAt, eventAt, until), S2(eventAt, until), Recording(eventAt), 19);
  }

  /** The remaining rounds, up to the point where nothing is left to run. */
  lemma Closing(pauseAt: Time, eventAt: Time, until: Time)
    ensures Run(S2(eventAt, until), Fuel() - 2) == Quiescent(S4(until))
  {
    Round3(eventAt, until);
    Round4(until);
    RunStepped(S2(eventAt, until), S3(until), Releasing(until), 18);
    RunStepped(S3(until), S4(until), Recording(until), 17);
    RunIdle(S4(until), 16);
  }

  /** The test body's submissions leave the backing scheduler in `S0`. */
  lemma Start(pauseAt: Time, eventAt: Time, until: Time)
    requires pauseAt <= eventAt <= until
    ensures Ordered(Subs(pauseAt, eventAt, until))
    ensures S0(pauseAt, eventAt, until) == Running(0, [], Queued(0, Subs(pauseAt, eventAt, until)), map[], {}, |Subs(pauseAt, eventAt, until)|, [])
  {
    QueuedEvents(0, Subs(pauseAt, eventAt, until));
    assert Queued(0, Subs(pauseAt, eventAt, until)) == S0(pauseAt, eventAt, until).atQ;
  }

  /**
    For any pause start, event time and pause end in that order, the doAt
    runs once, and the clock it observes is the end of the pause.
   */
  lemma Traced(pauseAt: Time, eventAt: Time, until: Time)
    requires pauseAt <= eventAt <= until
    ensures var r := UnPause(Setup(Subs(pauseAt, eventAt, until)), Fuel());
      r.Quiescent? && r.st.trace == [Obs("EVENT", until, T1(), 1)]
  {
    Start(pauseAt, eventAt, until);
    Opening(pauseAt, eventAt, until);
    Closing(pauseAt, eventAt, until);
    Unpaused(Subs(pauseAt, eventAt, until), S0(pauseAt, eventAt, until), Quiescent(S4(until)));
  }

  /** The test's own times: paused at 10 000 until 26 666, the doAt due at 14 321. */
  lemma AtTestTimes()
    ensures var r := UnPause(Setup(Subs(PauseTime(), EventTime(), PauseEndTime())), Fuel());
      r.Quiescent? && r.st.trace == [Obs("EVENT", PauseEndTime(), T1(), 1)]
  {
    Traced(PauseTime(), EventTime(), PauseEndTime());
  }
}
