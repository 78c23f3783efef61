/**
  The test "when event executed then correct scheduler type set": three
  doAts through T1, T2 and T1 each observe the tracker.
 */
module CorrectSchedulerTypeSet {
  import opened Events
  import opened Scheduler
  import opened SchedulerSteps
  import opened ScenarioSetup

  function Observe(): Cmd { Record("OBSERVE") }

  function Subs(t1: Time, t2: Time, t3: Time): seq<(Source, Time, Cmd)> {
    [(T1(), t1, Observe()), (T2(), t2, Observe()), (T1(), t3, Observe())]
  }

  function First(t1: Time): Event { At(0, T1(), t1, Observe()) }
  function Second(t2: Time): Event { At(1, T2(), t2, Observe()) }
  function Third(t3: Time): Event { At(2, T1(), t3, Observe()) }

  function S0(t1: Time, t2: Time, t3: Time): State {
    Running(0, [], [First(t1), Second(t2), Third(t3)], map[], {}, 3, [])
  }
  function S1(t1: Time, t2: Time, t3: Time): State {
    Running(t1, [], [Second(t2), Third(t3)], map[], {}, 3, [Obs("OBSERVE", t1, T1(), 0)])
  }
  function S2(t1: Time, t2: Time, t3: Time): State {
    Running(t2, [], [Third(t3)], map[], {}, 3, [Obs("OBSERVE", t1, T1(), 0), Obs("OBSERVE", t2, T2(), 1)])
  }
  function S3(t1: Time, t2: Time, t3: Time): State {
    Running(t3, [], [], map[], {}, 3, [Obs("OBSERVE", t1, T1(), 0), Obs("OBSERVE", t2, T2(), 1), Obs("OBSERVE", t3, T1(), 2)])
  }

  lemma Round1(t1: Time, t2: Time, t3: Time)
    ensures Step(S0(t1, t2, t3)) == Stepped(S1(t1, t2, t3), First(t1))
  {
    TimedRecord(S0(t1, t2, t3), S1(t1, t2, t3), "OBSERVE");
  }

  lemma Round2(t1: Time, t2: Time, t3: Time)
    ensures Step(S1(t1, t2, t3)) == Stepped(S2(t1, t2, t3), Second(t2))
  {
    TimedRecord(S1(t1, t2, t3), S2(t1, t2, t3), "OBSERVE");
  }

  lemma Round3(t1: Time, t2: Time, t3: Time)
    ensures Step(S2(t1, t2, t3)) == Stepped(S3(t1, t2, t3), Third(t3))
  {
    TimedRecord(S2(t1, t2, t3), S3(t1, t2, t3), "OBSERVE");
  }

  /** The test body's submissions leave the backing scheduler in `S0`. */
  lemma Start(t1: Time, t2: Time, t3: Time)
    requires t1 <= t2 <= t3
    ensures Ordered(Subs(t1, t2, t3))
    ensures S0(t1, t2, t3) == Running(0, [], Queued(0, Subs(t1, t2, t3)), map[], {}, |Subs(t1, t2, t3)|, [])
  {
    QueuedEvents(0, Subs(t1, t2, t3));
    assert Queued(0, Subs(t1, t2, t3)) == S0(t1, t2, t3).atQ;
  }

  /**
    For any three times in order, the doAts run in that order, each at its
    own time, and while each runs the tracker reports the source that
    scheduled it: T1, T2, T1.
   */
  lemma Traced(t1: Time, t2: Time, t3: Time)
    requires t1 <= t2 <= t3
    ensures var r := UnPause(Setup(Subs(t1, t2, t3)), Fuel());
      && r.Quiescent?
      && r.st.trace == [Obs("OBSERVE", t1, T1(), 0), Obs("OBSERVE", t2, T2(), 1), Obs("OBSERVE", t3, T1(), 2)]
  {
    Start(t1, t2, t3);
    Round1(t1, t2, t3);
    Round2(t1, t2, t3);
    Round3(t1, t2, t3);
    RunStepped(S0(t1, t2, t3), S1(t1, t2, t3), First(t1), 20);
    RunStepped(S1(t1, t2, t3), S2(t1, t2, t3), Second(t2), 19);
    RunStepped(S2(t1, t2, t3), S3(t1, t2, t3), Third(t3), 18);
    RunIdle(S3(t1, t2, t3), 17);
    Unpaused(Subs(t1, t2, t3), S0(t1, t2, t3), Quiescent(S3(t1, t2, t3)));
  }

  /** The test's own times: 50, 100 and 150. */
  lemma AtTestTimes()
    ensures var r := UnPause(Setup(Subs(50, 100, 150)), Fuel());
      && r.Quiescent?
      && r.st.trace == [Obs("OBSERVE", 50, T1(), 0), Obs("OBSERVE", 100, T2(), 1), Obs("OBSERVE", 150, T1(), 2)]
  {
    Traced(50, 100, 150);
  }
}
