/**
  The test "On thread doNow event is delayed": while T1 is paused, an event
  of T2 sends T1 a doNow, which is held back until the pause ends.
 */
module OnThreadDoNowDelayed {
  import opened Events
  import opened Scheduler
  import opened SchedulerSteps
  import opened ScenarioSetup

  function Subs(pauseAt: Time, eventAt: Time, until: Time): seq<(Source, Time, Cmd)> {
    [(T1(), pauseAt, PauseT1(until)), (T2(), eventAt, DoNowRecord(T1(), "EVENT"))]
  }

  function Pausing(pauseAt: Time, until: Time): Event { At(0, T1(), pauseAt, PauseT1(until)) }
  function Sending(eventAt: Time): Event { At(1, T2(), eventAt, DoNowRecord(T1(), "EVENT")) }
  function Releasing(until: Time): Event { ReleaseOf(2, T1(), until) }
  function Recording(eventAt: Time): Event { At(3, T1(), eventAt, Record("EVENT")) }

  function Paused(until: Time, heldNow: seq<Event>): map<Source, Pause> {
    map[T1() := Pause(until, heldNow, [])]
  }

  function S0(pauseAt: Time, eventAt: Time, until: Time): State {
    Running(0, [], [Pausing(pauseAt, until), Sending(eventAt)], map[], {}, 2, [])
  }
  function S1(pauseAt: Time, eventAt: Time, until: Time): State {
    Running(pauseAt, [], [Sending(eventAt), Releasing(until)], Paused(until, []), {}, 3, [])
  }
  function S2(eventAt: Time, until: Time): State {
    Running(eventAt, [Recording(eventAt)], [Releasing(until)], Paused(until, []), {}, 4, [])
  }
  function S3(eventAt: Time, until: Time): State {
    Running(eventAt, [], [Releasing(until)], Paused(until, [Recording(eventAt)]), {}, 4, [])
  }
  function S4(eventAt: Time, until: Time): State {
    Running(until, [Recording(eventAt)], [], map[], {}, 4, [])
  }
  function S5(until: Time): State {
    Running(until, [], [], map[], {}, 4, [Obs("EVENT", until, T1(), 3)])
  }

  /** T1 pauses itself. */
  lemma Round1(pauseAt: Time, eventAt: Time, until: Time)
    requires pauseAt <= eventAt <= until
    ensures Step(S0(pauseAt, eventAt, until)) == Stepped(S1(pauseAt, eventAt, until), Pausing(pauseAt, until))
  {
    TimedDelay(S0(pauseAt, eventAt, until), S1(pauseAt, eventAt, until), until);
  }

  /** T2 is not paused: its event runs and sends T1 a doNow. */
  lemma Round2(pauseAt: Time, eventAt: Time, until: Time)
    ensures Step(S1(pauseAt, eventAt, until)) == Stepped(S2(eventAt, until), Sending(eventAt))
  {
    TimedDoNow(S1(pauseAt, eventAt, until), S2(eventAt, until), T1(), Record("EVENT"));
  }

  /** The doNow is T1's, so it is held back. */
  lemma Round3(eventAt: Time, until: Time)
    ensures Step(S2(eventAt, until)) == Stepped(S3(eventAt, until), Recording(eventAt))
  {
    NowHold(S2(eventAt, until), S3(eventAt, until));
  }

  /** The release returns it to the immediate queue. */
  lemma Round4(eventAt: Time, until: Time)
    ensures Step(S3(eventAt, until)) == Stepped(S4(eventAt, until), Releasing(until))
  {
    TimedRelease(S3(eventAt, until), S4(eventAt, until));
  }

  lemma Round5(eventAt: Time, until: Time)
    ensures Step(S4(eventAt, until)) == Stepped(S5(until), Recording(eventAt))
  {
    NowRecord(S4(eventAt, until), S5(until), "EVENT");
  }

  /** The first 3 rounds of the run. */
  lemma Opening(pauseAt: Time, eventAt: Time, until: Time)
    requires pauseAt <= eventAt <= until
    ensures Run(S0(pauseAt, eventAt, until), Fuel()) == Run(S3(eventAt, until), Fuel() - 3)
  {
    Round1(pauseAt, eventAt, until);
    Round2(pauseAt, eventAt, until);
    Round3(eventAt, until);
    RunStepped(S0(pauseAt, eventAt, until), S1(pauseAt, eventAt, until), Pausing(pauseAt, until), 20);
    RunStepped(S1(pauseAt, eventAt, until), S2(eventAt, until), Sending(eventAt), 19);
    RunStepped(S2(eventAt, until), S3(eventAt, until), Recording(eventAt), 18);
  }

  /** The remaining rounds, up to the point where nothing is left to run. */
  lemma Closing(pauseAt: Time, eventAt: Time, until: Time)
    ensures Run(S3(eventAt, until), Fuel() - 3) == Quiescent(S5(until))
  {
    Round4(eventAt, until);
    Round5(eventAt, until);
    RunStepped(S3(eventAt, until), S4(eventAt, until), Releasing(until), 17);
    RunStepped(S4(eventAt, until), S5(until), Recording(eventAt), 16);
    RunIdle(S5(until), 15);
  }

  /** The test body's submissions leave the backing scheduler in `S0`. */
  lemma Start(pauseAt: Time, eventAt: Time, until: Time)
    requires pauseAt <= eventAt <= until
    ensures Ordered(Subs(pauseAt, eventAt, until))
    ensures S0(pauseAt, eventAt, until) == Running(0, [], Queued(0, Subs(pauseAt, eventAt, until)), map[], {}, |Subs(pauseAt, eventAt, until)|, [])
  {
    QueuedEvents(0, Subs(pauseAt, eventAt, until));
    assert Queued(0, Subs(pauseAt, eventAt, until)) == S0(pauseAt, eventAt, until).atQ;
  }

  /** For any times in order, the doNow runs once, and the clock it observes is the end of the pause. */
  lemma Traced(pauseAt: Time, eventAt: Time, until: Time)
    requires pauseAt <= eventAt <= until
    ensures var r := UnPause(Setup(Subs(pauseAt, eventAt, until)), Fuel());
      r.Quiescent? && r.st.trace == [Obs("EVENT", until, T1(), 3)]
  {
    Start(pauseAt, eventAt, until);
    Opening(pauseAt, eventAt, until);
    Closing(pauseAt, eventAt, until);
    Unpaused(Subs(pauseAt, eventAt, until), S0(pauseAt, eventAt, until), Quiescent(S5(until)));
  }

  /** The test's own times: paused at 10 000 until 26 666, the doNow sent at 14 321. */
  lemma AtTestTimes()
    ensures var r := UnPause(Setup(Subs(PauseTime(), EventTime(), PauseEndTime())), Fuel());
      r.Quiescent? && r.st.trace == [Obs("EVENT", PauseEndTime(), T1(), 3)]
  {
    Traced(PauseTime(), EventTime(), PauseEndTime());
  }
}
