/**
  The test "when event cancelled then event not executed": a doAt cancels
  the handle of a later doAt.
 */
module CancelledEventNotExecuted {
  import opened Events
  import opened Scheduler
  import opened SchedulerSteps
  import opened ScenarioSetup

  function Subs(eventAt: Time, cancelAt: Time): seq<(Source, Time, Cmd)> {
    [(T1(), eventAt, Record("EXECUTED")), (T1(), cancelAt, Cancel(0))]
  }

  function Executing(eventAt: Time): Event { At(0, T1(), eventAt, Record("EXECUTED")) }
  function Cancelling(cancelAt: Time): Event { At(1, T1(), cancelAt, Cancel(0)) }

  function S0(eventAt: Time, cancelAt: Time): State {
    Running(0, [], [Cancelling(cancelAt), Executing(eventAt)], map[], {}, 2, [])
  }
  function S1(eventAt: Time, cancelAt: Time): State {
    Running(cancelAt, [], [Executing(eventAt)], map[], {0}, 2, [])
  }
  function S2(eventAt: Time): State {
    Running(eventAt, [], [], map[], {0}, 2, [])
  }

  /** The cancelling doAt, submitted second but due first, is queued in front. */
  lemma Setup0(eventAt: Time, cancelAt: Time)
    requires cancelAt < eventAt
    ensures Setup(Subs(eventAt, cancelAt)).(suspended := false) == S0(eventAt, cancelAt)
  {
    var subs := Subs(eventAt, cancelAt);
    var st := State(0, true, [], [], map[], {}, 0, []);
    assert PauseAll(Init(0)) == st;
    var st1 := SubmitAtEnd(st, T1(), eventAt, Record("EXECUTED"));
    var st2 := SubmitAtFront(st1, T1(), cancelAt, Cancel(0));
    var rest: seq<(Source, Time, Cmd)> := subs[1..];
    assert rest == [(T1(), cancelAt, Cancel(0))];
    assert Submit(st1, rest) == Submit(st2, rest[1..]);
    assert rest[1..] == [];
  }

  lemma Round1(eventAt: Time, cancelAt: Time)
    ensures Step(S0(eventAt, cancelAt)) == Stepped(S1(eventAt, cancelAt), Cancelling(cancelAt))
  {
    TimedCancel(S0(eventAt, cancelAt), S1(eventAt, cancelAt), 0);
  }

  lemma Round2(eventAt: Time, cancelAt: Time)
    ensures Step(S1(eventAt, cancelAt)) == Stepped(S2(eventAt), Executing(eventAt))
  {
    TimedDropped(S1(eventAt, cancelAt), S2(eventAt));
  }

  /** For any cancellation due before the event, the event never runs: nothing is recorded. */
  lemma Traced(eventAt: Time, cancelAt: Time)
    requires cancelAt < eventAt
    ensures var r := UnPause(Setup(Subs(eventAt, cancelAt)), Fuel());
      r.Quiescent? && r.st.trace == []
  {
    Setup0(eventAt, cancelAt);
    Round1(eventAt, cancelAt);
    Round2(eventAt, cancelAt);
    RunStepped(S0(eventAt, cancelAt), S1(eventAt, cancelAt), Cancelling(cancelAt), 20);
    RunStepped(S1(eventAt, cancelAt), S2(eventAt), Executing(eventAt), 19);
    RunIdle(S2(eventAt), 18);
  }

  /** The test's own times: the event at 50, the cancellation at 25. */
  lemma AtTestTimes()
    ensures var r := UnPause(Setup(Subs(50, 25)), Fuel());
      r.Quiescent? && r.st.trace == []
  {
    Traced(50, 25);
  }
}
