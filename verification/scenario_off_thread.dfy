/**
  The test "Off thread event is not delayed": while T1 is paused, a doAt of
  T2 runs at its own time.
 */
module OffThreadEventNotDelayed {
  import opened Events
  import opened Scheduler
  import opened SchedulerSteps
  import opened ScenarioSetup

  function Subs(pauseAt: Time, eventAt: Time, until: Time): seq<(Source, Time, Cmd)> {
    [(T1(), pauseAt, PauseT1(until)), (T2(), eventAt, Record("EVENT"))]
  }

  function Pausing(pauseAt: Time, until: Time): Event { At(0, T1(), pauseAt, PauseT1(until)) }
  function Recording(eventAt: Time): Event { At(1, T2(), eventAt, Record("EVENT")) }
  function Releasing(until: Time): Event { ReleaseOf(2, T1(), until) }

  function S0(pauseAt: Time, eventAt: Time, until: Time): State {
    Running(0, [], [Pausing(pauseAt, until), Recording(eventAt)], map[], {}, 2, [])
  }
  function S1(pauseAt: Time, eventAt: Time, until: Time): State {
    Running(pauseAt, [], [Recording(eventAt), Releasing(until)], map[T1() := Pause(until, [], [])], {}, 3, [])
  }
  function S2(eventAt: Time, until: Time): State {
    Running(eventAt, [], [Releasing(until)], map[T1() := Pause(until, [], [])], {}, 3, [Obs("EVENT", eventAt, T2(), 1)])
  }
  function S3(eventAt: Time, until: Time): State {
    Running(until, [], [], map[], {}, 3, [Obs("EVENT", eventAt, T2(), 1)])
  }

  /** T1 pauses itself. */
  lemma Round1(pauseAt: Time, eventAt: Time, until: Time)
    requires pauseAt <= eventAt <= until
    ensures Step(S0(pauseAt, eventAt, until)) == Stepped(S1(pauseAt, eventAt, until), Pausing(pauseAt, until))
  {
    TimedDelay(S0(pauseAt, eventAt, until), S1(pauseAt, eventAt, until), until);
  }

  /** T2's doAt is not held: it runs at its own time. */
  lemma Round2(pauseAt: Time, eventAt: Time, until: Time)
    ensures Step(S1(pauseAt, eventAt, until)) == Stepped(S2(eventAt, until), Recording(eventAt))
  {
    TimedRecord(S1(pauseAt, eventAt, until), S2(eventAt, until), "EVENT");
  }

  /** The release finds nothing held. */
  lemma Round3(eventAt: Time, until: Time)
    ensures Step(S2(eventAt, until)) == Stepped(S3(eventAt, until), Releasing(until))
  {
    TimedRelease(S2(eventAt, until), S3(eventAt, until));
  }

  /** The first 2 rounds of the run. */
  lemma Opening(pauseAt: Time, eventAt: Time, until: Time)
    requires pauseAt <= eventAt <= until
    ensures Run(S0(pauseAt, eventAt, until), Fuel()) == Run(S2(eventAt, until), Fuel() - 2)
  {
    Round1(pauseAt, eventAt, until);
    Round2(pauseAt, eventAt, until);
    RunStepped(S0(pauseAt, eventAt, until), S1(pauseAt, eventAt, until), Pausing(pauseAt, until), 20);
    RunStepped(S1(pauseAt, eventAt, until), S2(eventAt, until), Recording(eventAt), 19);
  }

  /** The remaining rounds, up to the point where nothing is left to run. */
  lemma Closing(pauseAt: Time, eventAt: Time, until: Time)
    ensures Run(S2(eventAt, until), Fuel() - 2) == Quiescent(S3(eventAt, until))
  {
    Round3(eventAt, until);
    RunStepped(S2(eventAt, until), S3(eventAt, until), Releasing(until), 18);
    RunIdle(S3(eventAt, until), 17);
  }

  /** The test body's submissions leave the backing scheduler in `S0`. */
  lemma Start(pauseAt: Time, eventAt: Time, until: Time)
    requires pauseAt <= eventAt <= until
    ensures Ordered(Subs(pauseAt, eventAt, until))
    ensures S0(pauseAt, eventAt, until) == Running(0, [], Queued(0, Subs(pauseAt, eventAt, until)), map[], {}, |Subs(pauseAt, eventAt, until)|, [])
  {
    QueuedEvents(0, Subs(pauseAt, eventAt, until));
    assert Queued(0, Subs(pauseAt, eventAt, until)) == S0(pauseAt, eventAt, until).atQ;
  }

  /** For any times in order, T2's doAt observes its own time, not the end of T1's pause. */
  lemma Traced(pauseAt: Time, eventAt: Time, until: Time)
    requires pauseAt <= eventAt <= until
    ensures var r := UnPause(Setup(Subs(pauseAt, eventAt, until)), Fuel());
      r.Quiescent? && r.st.trace == [Obs("EVENT", eventAt, T2(), 1)]
  {
    Start(pauseAt, eventAt, until);
    Opening(pauseAt, eventAt, until);
    Closing(pauseAt, eventAt, until);
    Unpaused(Subs(pauseAt, eventAt, until), S0(pauseAt, eventAt, until), Quiescent(S3(eventAt, until)));
  }

  /** The test's own times: T1 paused at 10 000 until 26 666, T2's doAt at 14 321. */
  lemma AtTestTimes()
    ensures var r := UnPause(Setup(Subs(PauseTime(), EventTime(), PauseEndTime())), Fuel());
      r.Quiescent? && r.st.trace == [Obs("EVENT", EventTime(), T2(), 1)]
  {
    Traced(PauseTime(), EventTime(), PauseEndTime());
  }
}
