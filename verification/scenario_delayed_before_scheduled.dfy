/**
  The test "Delayed doAt event executes before scheduled doAt event": T1's
  doAt held back during its pause runs before the doAt T1 had scheduled for
  exactly the end of the pause.
 */
module DelayedDoAtBeforeScheduledDoAt {
  import opened Events
  import opened Scheduler
  import opened SchedulerSteps
  import opened ScenarioSetup

  function Subs(pauseAt: Time, doAtAt: Time, until: Time): seq<(Source, Time, Cmd)> {
    [(T1(), pauseAt, PauseT1(until)), (T1(), doAtAt, Record("DELAYED_DO_AT")), (T1(), until, Record("SCHEDULED_DO_AT"))]
  }

  function Pausing(pauseAt: Time, until: Time): Event { At(0, T1(), pauseAt, PauseT1(until)) }
  function Delayed(t: Time): Event { At(1, T1(), t, Record("DELAYED_DO_AT")) }
  function Scheduled(until: Time): Event { At(2, T1(), until, Record("SCHEDULED_DO_AT")) }
  function Releasing(until: Time): Event { ReleaseOf(3, T1(), until) }

  function Paused(until: Time, heldAt: seq<Event>): map<Source, Pause> {
    map[T1() := Pause(until, [], heldAt)]
  }

  function S0(pauseAt: Time, doAtAt: Time, until: Time): State {
    Running(0, [], [Pausing(pauseAt, until), Delayed(doAtAt), Scheduled(until)], map[], {}, 3, [])
  }
  function S1(pauseAt: Time, doAtAt: Time, until: Time): State {
    Running(pauseAt, [], [Delayed(doAtAt), Scheduled(until), Releasing(until)], Paused(until, []), {}, 4, [])
  }
  function S2(doAtAt: Time, until: Time): State {
    Running(doAtAt, [], [Scheduled(until), Releasing(until)], Paused(until, [Delayed(doAtAt)]), {}, 4, [])
  }
  function S3(doAtAt: Time, until: Time): State {
    Running(until, [], [Releasing(until)], Paused(until, [Delayed(doAtAt), Scheduled(until)]), {}, 4, [])
  }
  function S4(until: Time): State {
    Running(until, [], [Delayed(until), Scheduled(until)], map[], {}, 4, [])
  }
  function S5(until: Time): State {
    Running(until, [], [Scheduled(until)], map[], {}, 4, [Obs("DELAYED_DO_AT", until, T1(), 1)])
  }
  function S6(until: Time): State {
    Running(until, [], [], map[], {}, 4, [Obs("DELAYED_DO_AT", until, T1(), 1), Obs("SCHEDULED_DO_AT", until, T1(), 2)])
  }

  /** T1 pauses itself; the release goes behind the doAt scheduled for the same time. */
  lemma Round1(pauseAt: Time, doAtAt: Time, until: Time)
    requires pauseAt <= doAtAt <= until
    ensures Step(S0(pauseAt, doAtAt, until)) == Stepped(S1(pauseAt, doAtAt, until), Pausing(pauseAt, until))
  {
    TimedDelay(S0(pauseAt, doAtAt, until), S1(pauseAt, doAtAt, until), until);
  }

  /** The first doAt falls due during the pause and is held back. */
  lemma Round2(pauseAt: Time, doAtAt: Time, until: Time)
    ensures Step(S1(pauseAt, doAtAt, until)) == Stepped(S2(doAtAt, until), Delayed(doAtAt))
  {
    TimedHold(S1(pauseAt, doAtAt, until), S2(doAtAt, until));
  }

  /** The scheduled doAt is dispatched before the release, so it is held back behind the first. */
  lemma Round3(doAtAt: Time, until: Time)
    ensures Step(S2(doAtAt, until)) == Stepped(S3(doAtAt, until), Scheduled(until))
  {
    TimedHold(S2(doAtAt, until), S3(doAtAt, until));
  }

  /** The release puts both back in the order they were held. */
  lemma Round4(doAtAt: Time, until: Time)
    ensures Step(S3(doAtAt, until)) == Stepped(S4(until), Releasing(until))
  {
    TimedRelease(S3(doAtAt, until), S4(until));
  }

  lemma Round5(until: Time)
    ensures Step(S4(until)) == Stepped(S5(until), Delayed(until))
  {
    TimedRecord(S4(until), S5(until), "DELAYED_DO_AT");
  }

  lemma Round6(until: Time)
    ensures Step(S5(until)) == Stepped(S6(until), Scheduled(until))
  {
    TimedRecord(S5(until), S6(until), "SCHEDULED_DO_AT");
  }

  /** The first 3 rounds of the run. */
  lemma Opening(pauseAt: Time, doAtAt: Time, until: Time)
    requires pauseAt <= doAtAt <= until
    ensures Run(S0(pauseAt, doAtAt, until), Fuel()) == Run(S3(doAtAt, until), Fuel() - 3)
  {
    Round1(pauseAt, doAtAt, until);
    Round2(pauseAt, doAtAt, until);
    Round3(doAtAt, until);
    RunStepped(S0(pauseAt, doAtAt, until), S1(pauseAt, doAtAt, until), Pausing(pauseAt, until), 20);
    RunStepped(S1(pauseAt, doAtAt, until), S2(doAtAt, until), Delayed(doAtAt), 19);
    RunStepped(S2(doAtAt, until), S3(doAtAt, until), Scheduled(until), 18);
  }

  /** The remaining rounds, up to the point where nothing is left to run. */
  lemma Closing(pauseAt: Time, doAtAt: Time, until: Time)
    ensures Run(S3(doAtAt, until), Fuel() - 3) == Quiescent(S6(until))
  {
    Round4(doAtAt, until);
    Round5(until);
    Round6(until);
    RunStepped(S3(doAtAt, until), S4(until), Releasing(until), 17);
    RunStepped(S4(until), S5(until), Delayed(until), 16);
    RunStepped(S5(until), S6(until), Scheduled(until), 15);
    RunIdle(S6(until), 14);
  }

  /** The test body's submissions leave the backing scheduler in `S0`. */
  lemma Start(pauseAt: Time, doAtAt: Time, until: Time)
    requires pauseAt <= doAtAt <= until
    ensures Ordered(Subs(pauseAt, doAtAt, until))
    ensures S0(pauseAt, doAtAt, until) == Running(0, [], Queued(0, Subs(pauseAt, doAtAt, until)), map[], {}, |Subs(pauseAt, doAtAt, until)|, [])
  {
    QueuedEvents(0, Subs(pauseAt, doAtAt, until));
    assert Queued(0, Subs(pauseAt, doAtAt, until)) == S0(pauseAt, doAtAt, until).atQ;
  }

  /** For any times in order, the delayed doAt runs before the scheduled one, both at the end of the pause. */
  lemma Traced(pauseAt: Time, doAtAt: Time, until: Time)
    requires pauseAt <= doAtAt <= until
    ensures var r := UnPause(Setup(Subs(pauseAt, doAtAt, until)), Fuel());
      && r.Quiescent?
      && r.st.trace == [Obs("DELAYED_DO_AT", until, T1(), 1), Obs("SCHEDULED_DO_AT", until, T1(), 2)]
  {
    Start(pauseAt, doAtAt, until);
    Opening(pauseAt, doAtAt, until);
    Closing(pauseAt, doAtAt, until);
    Unpaused(Subs(pauseAt, doAtAt, until), S0(pauseAt, doAtAt, until), Quiescent(S6(until)));
  }

  /** The test's own times: paused at 10 000 until 26 666, the delayed doAt due at 14 321. */
  lemma AtTestTimes()
    ensures var r := UnPause(Setup(Subs(PauseTime(), EventTime(), PauseEndTime())), Fuel());
      && r.Quiescent?
      && r.st.trace == [Obs("DELAYED_DO_AT", PauseEndTime(), T1(), 1), Obs("SCHEDULED_DO_AT", PauseEndTime(), T1(), 2)]
  {
    Traced(PauseTime(), EventTime(), PauseEndTime());
  }
}
