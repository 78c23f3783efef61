# Source-tracking event scheduler and optional one-to-one index

This project models two parts of Ocava's core.

1. **The discrete-event scheduler with per-source "thread pause".** It combines three classes:
   - `SimpleDiscreteEventScheduler`, the backing scheduler, with one virtual clock, an immediate (doNow) queue and a time-ordered (doAt) queue;
   - the `SourceTrackingEventScheduler` facades, one per scheduler type (`T1`, `T2`);
   - the `SourceSchedulerTracker`, which reports the scheduler type of the event that is running.

   A source can call `delayExecutionUntil(t)` from one of its own events. Its work is then held back until `t`. At `t`:
   - the held doNows are dispatched first, in FIFO order, followed by the doNows they send to the released source;
   - then the held doAts run, ahead of every doAt still queued when the release runs.

   Other sources are unaffected.

2. **`OptionalOneToOneIndex` over an `IndexedImmutableObjectCache`.** Each cached state has an optional key:
   - a state whose key is empty is not indexed;
   - no two indexed states share a key;
   - `snapshot()` returns the key-to-state map and hands out the same map object until an indexed entry is added or removed.

The implementation classes are not part of this model's sources. Their behaviour is reconstructed from the two test classes the rows below cite, and each scenario lemma states one test's assertion.

Modules, in dependency order:

- `Events`: the vocabulary.
  - Sources, time and handles, all `nat`.
  - Closures, written as a command datatype (`Record`, `DoNow`, `DoAt`, `Delay`, `Cancel`, `Seq`).
  - Queued events, per-source pauses, observations, errors and the whole scheduler state.
- `TimedQueue`: the doAt queue, a sequence sorted by time with ties kept in insertion order, and the retiming of held doAts.
- `Scheduler`: submission (`doNow`, `doAt`, cancel, `delayExecutionUntil`), the closure interpreter, the hold and release of a pause, one round of the dispatch loop, and the fuel-bounded run.
- `SchedulerInvariants`: the invariant every round keeps.
  - The doAt queue is sorted and not in the past.
  - Exactly one release is queued per paused source, due at that pause's end.
  - The trace is in time order.
- `SchedulerProperties`: the general theorems.
  - Dispatch order.
  - Tracker attribution.
  - Time monotonicity.
  - Cancellation.
  - A paused source is held back; other sources are unaffected.
  - In-order replay of a timed schedule.
- `SchedulerSteps` and `ScenarioSetup`: one lemma per kind of round, plus the setup every scheduler test shares. That setup is a backing scheduler paused at time 0, the test body's doAts, and then `unPause`.
- Ten scenario modules, one per scheduler test. Each proves the test's trace for every choice of times in the test's order (`Traced`), and for the test's own constants (`AtTestTimes`).
- `IndexedCache`: the cache, its index and the cached snapshot. Snapshot identity is a stamp:
  - each snapshot of a non-empty index takes a fresh stamp;
  - stamp 0 is the one shared empty map.
- `IndexProperties`: the invariant and the abstraction property (the index is exactly the map from present keys to their states), plus the snapshot reuse rules.
- `IndexScenarios`: the index tests, one lemma each.

How the pause works in the model: an event of a paused source is intercepted when it is **dispatched**. It can come from either global queue, and it moves to the matching held queue of its source.

Interception happens at dispatch, not at submission: in the test at `SourceTrackingEventSchedulerTest.java` lines 81-93, the doAt at `eventTime` is queued before the pause starts and is still delayed to the pause end.

## Model

| member | source | states |
|---|---|---|
| Scheduler.Init | OcavaCore/src/test/java/com/ocadotechnology/event/scheduling/SourceTrackingEventSchedulerTest.java:38-45 | a backing scheduler paused by the test setup starts at the given time with empty queues, no pause and an empty trace, and dispatches nothing |
| Scheduler.SubmitNow | OcavaCore/src/test/java/com/ocadotechnology/event/scheduling/SourceTrackingEventSchedulerTest.java:232-234 | a doNow joins the back of the immediate queue under the next handle, tagged with the source whose scheduler took it; nothing else changes |
| Scheduler.SubmitAt | OcavaCore/src/test/java/com/ocadotechnology/event/scheduling/SourceTrackingEventSchedulerTest.java:50-52 | a doAt is refused exactly when its time is before the clock (state unchanged); otherwise the timed queue gains exactly that event and one handle is used, nothing else changes |
| Scheduler.ScheduleAt | OcavaCore/src/test/java/com/ocadotechnology/event/scheduling/SourceTrackingEventSchedulerTest.java:66 | the `Cancelable` returned by doAt is the handle of the event it queued; the call fails exactly for a time in the past |
| Scheduler.ScheduleNow | OcavaCore/src/test/java/com/ocadotechnology/event/scheduling/SourceTrackingEventSchedulerTest.java:232-234 | the handle returned by doNow is that of the event now last in the immediate queue |
| Scheduler.CancelHandle | OcavaCore/src/test/java/com/ocadotechnology/event/scheduling/SourceTrackingEventSchedulerTest.java:66-67 | cancelling marks the handle cancelled (idempotently) and changes nothing else |
| Scheduler.StartPause | OcavaCore/src/test/java/com/ocadotechnology/event/scheduling/SourceTrackingEventSchedulerTest.java:88 | `delayExecutionUntil` fails exactly when called outside the source's own event, with a time in the past, or during a pause (with the matching error); otherwise it opens an empty pause and queues exactly one release due at its end |
| Scheduler.Exec | OcavaCore/src/test/java/com/ocadotechnology/event/scheduling/SourceTrackingEventSchedulerTest.java:47-60 | a running closure never moves the clock or alters an existing pause, and every observation it makes carries the clock and the source and handle of the event being run (the tracker's answer) |
| Scheduler.ExecAll | OcavaCore/src/test/java/com/ocadotechnology/event/scheduling/SourceTrackingEventSchedulerTest.java:236-240 | a closure's statements, up to the first error, never move the clock or alter an existing pause, and every observation they make carries the clock and the running event's source and handle |
| Scheduler.ExecAllAppend | OcavaCore/src/test/java/com/ocadotechnology/event/scheduling/SourceTrackingEventSchedulerTest.java:236-240 | a closure's statements run in order: running `a + b` is running `a`, then `b` from the state `a` left, and an error in `a` stops the closure before `b` |
| Scheduler.Hold | OcavaCore/src/test/java/com/ocadotechnology/event/scheduling/SourceTrackingEventSchedulerTest.java:81-109 | an event of a paused source joins the back of that source's held doNows or held doAts according to the queue it came from; its release time and every other pause are untouched |
| Scheduler.Release | OcavaCore/src/test/java/com/ocadotechnology/event/scheduling/SourceTrackingEventSchedulerTest.java:143-190 | releasing ends the pause, puts the held doNows in held order in front of the immediate queue, and the held doAts, retimed to the release time and in held order, in front of the timed queue |
| Scheduler.Dispatch | OcavaCore/src/test/java/com/ocadotechnology/event/scheduling/SourceTrackingEventSchedulerTest.java:62-123 | a release ends its source's pause and records nothing; a cancelled closure changes nothing; a closure of a paused source records nothing, leaves both global queues alone and joins the back of the held queue matching the queue it came from; only a closure that is neither cancelled nor paused can record, and what it records carries its source, its handle and the clock |
| Scheduler.Pop | OcavaCore/src/test/java/com/ocadotechnology/event/scheduling/SourceTrackingEventSchedulerTest.java:125-135 | the next event is the head of the immediate queue when it has one, leaving the clock alone; otherwise it is the head of the timed queue, the earliest doAt when that queue is sorted, and the clock moves to its time; nothing is lost or added (multiset) and no other field changes |
| Scheduler.Step | OcavaCore/src/test/java/com/ocadotechnology/event/scheduling/SourceTrackingEventSchedulerTest.java:129-130 | a round does nothing exactly when the scheduler is paused or both queues are empty |
| Scheduler.Run | OcavaCore/src/test/java/com/ocadotechnology/event/scheduling/SourceTrackingEventSchedulerTest.java:129-130 | a run that stops quietly stops because the scheduler is paused or nothing is left to dispatch |
| Scheduler.PauseAll | OcavaCore/src/test/java/com/ocadotechnology/event/scheduling/SourceTrackingEventSchedulerTest.java:42-45 | `pause()` suspends dispatch and nothing else: no round runs |
| Scheduler.UnPause | OcavaCore/src/test/java/com/ocadotechnology/event/scheduling/SourceTrackingEventSchedulerTest.java:53 | `unPause()` runs the loop, and a quiet finish leaves both queues empty |
| TimedQueue.Insert | OcavaCore/src/test/java/com/ocadotechnology/event/scheduling/SourceTrackingEventSchedulerTest.java:129-130 | inserting into the doAt queue keeps it sorted by time, adds exactly the new event (multiset), keeps any lower time bound the event respects, and keeps one release per source |
| TimedQueue.InsertAtEnd | OcavaCore/src/test/java/com/ocadotechnology/event/scheduling/SourceTrackingEventSchedulerTest.java:199-201 | a doAt due no earlier than everything queued goes to the back, so doAts for the same time run in submission order |
| TimedQueue.InsertAtFront | OcavaCore/src/test/java/com/ocadotechnology/event/scheduling/SourceTrackingEventSchedulerTest.java:66-67 | a doAt due strictly before the head of the queue becomes the new head |
| TimedQueue.PrependRetimedSorted | OcavaCore/src/test/java/com/ocadotechnology/event/scheduling/SourceTrackingEventSchedulerTest.java:176-190 | held doAts retimed to the release time and put in front keep the queue sorted and not in the past, ahead of every doAt still queued when the release runs, including those due then |
| SchedulerInvariants.PauseNotOverdue | OcavaCore/src/test/java/com/ocadotechnology/event/scheduling/SourceTrackingEventSchedulerTest.java:81-93 | under the invariant the clock never passes the end of an open pause |
| SchedulerInvariants.InitInv | OcavaCore/src/test/java/com/ocadotechnology/event/scheduling/SourceTrackingEventSchedulerTest.java:38-45 | a fresh scheduler satisfies the invariant |
| SchedulerInvariants.SubmitNowInv | OcavaCore/src/test/java/com/ocadotechnology/event/scheduling/SourceTrackingEventSchedulerTest.java:232-234 | doNow keeps the invariant |
| SchedulerInvariants.SubmitAtInv | OcavaCore/src/test/java/com/ocadotechnology/event/scheduling/SourceTrackingEventSchedulerTest.java:50-52 | doAt keeps the invariant, whether accepted or refused |
| SchedulerInvariants.StartPauseInv | OcavaCore/src/test/java/com/ocadotechnology/event/scheduling/SourceTrackingEventSchedulerTest.java:88 | starting a pause keeps the invariant: its release is the only one for that source and is due at the pause end |
| SchedulerInvariants.ExecInv | OcavaCore/src/test/java/com/ocadotechnology/event/scheduling/SourceTrackingEventSchedulerTest.java:236-240 | running any closure keeps the invariant, also when it raises |
| SchedulerInvariants.HoldInv | OcavaCore/src/test/java/com/ocadotechnology/event/scheduling/SourceTrackingEventSchedulerTest.java:81-109 | holding an event back keeps the invariant |
| SchedulerInvariants.ReleaseInv | OcavaCore/src/test/java/com/ocadotechnology/event/scheduling/SourceTrackingEventSchedulerTest.java:176-190 | releasing a pause at its end keeps the invariant: the timed queue stays sorted with the retimed doAts in front |
| SchedulerInvariants.StepInv | OcavaCore/src/test/java/com/ocadotechnology/event/scheduling/SourceTrackingEventSchedulerTest.java:129-130 | every round of the loop keeps the invariant |
| SchedulerInvariants.RunInv | OcavaCore/src/test/java/com/ocadotechnology/event/scheduling/SourceTrackingEventSchedulerTest.java:129-130 | every run keeps the invariant |
| SchedulerProperties.DispatchOrder | OcavaCore/src/test/java/com/ocadotechnology/event/scheduling/SourceTrackingEventSchedulerTest.java:129-130 | the immediate queue is drained first without moving the clock; only when it is empty is the earliest doAt taken, and the clock moves forward to its time |
| SchedulerProperties.ReleaseStep | OcavaCore/src/test/java/com/ocadotechnology/event/scheduling/SourceTrackingEventSchedulerTest.java:143-230 | for every state satisfying the invariant, a release heading the timed queue (no doNow waiting) ends the pause at its release time and makes the held doNows, in held order, the whole immediate queue, so they, and the doNows they send to the released source, are dispatched before any doAt; the held doAts, retimed, go ahead of every doAt still queued when the release runs, and the round records nothing |
| SchedulerProperties.StepObservations | OcavaCore/src/test/java/com/ocadotechnology/event/scheduling/SourceTrackingEventSchedulerTest.java:47-60 | a round only appends observations, all at the new clock and attributed to the dispatched event's source and handle; a release, a cancelled closure or a held closure appends none |
| SchedulerProperties.RunTimeOrdered | OcavaCore/src/test/java/com/ocadotechnology/event/scheduling/SourceTrackingEventSchedulerTest.java:129-130 | over any run the clock never goes back, the trace only grows, and the observations are in time order |
| SchedulerProperties.CancelledNeverRuns | OcavaCore/src/test/java/com/ocadotechnology/event/scheduling/SourceTrackingEventSchedulerTest.java:62-70 | no observation made during a run comes from a handle already cancelled |
| SchedulerProperties.StepHoldsBack | OcavaCore/src/test/java/com/ocadotechnology/event/scheduling/SourceTrackingEventSchedulerTest.java:81-109 | one round keeps the guarantee that no observation of a source paused until t, made since a given point, is earlier than t |
| SchedulerProperties.PausedSourceHeldBack | OcavaCore/src/test/java/com/ocadotechnology/event/scheduling/SourceTrackingEventSchedulerTest.java:81-109 | once a source is paused, nothing it runs for the rest of the run is observed before the pause end |
| SchedulerProperties.ExecIgnoresOtherPause | OcavaCore/src/test/java/com/ocadotechnology/event/scheduling/SourceTrackingEventSchedulerTest.java:111-123 | a closure of one source does the same whatever pause another source is in |
| SchedulerProperties.PauseOnlyAffectsItsSource | OcavaCore/src/test/java/com/ocadotechnology/event/scheduling/SourceTrackingEventSchedulerTest.java:111-123 | a round dispatching another source's event goes exactly the same whether or not a source is paused |
| SchedulerProperties.TimedScheduleReplays | OcavaCore/src/test/java/com/ocadotechnology/event/scheduling/SourceTrackingEventSchedulerTest.java:47-60 | recording doAts with no pause open run in queue order, each observed at its own time and attributed to its own source, and then the run stops quietly |
| ScenarioSetup.QueuedEvents | OcavaCore/src/test/java/com/ocadotechnology/event/scheduling/SourceTrackingEventSchedulerTest.java:50-52 | handles are issued in submission order: the i-th submission gets handle i |
| ScenarioSetup.SubmitInOrder | OcavaCore/src/test/java/com/ocadotechnology/event/scheduling/SourceTrackingEventSchedulerTest.java:50-52 | doAts submitted in time order queue in submission order behind what is already queued, with consecutive handles |
| ScenarioSetup.SetupInOrder | OcavaCore/src/test/java/com/ocadotechnology/event/scheduling/SourceTrackingEventSchedulerTest.java:42-53 | the test body's in-order doAts on the paused scheduler leave exactly those events queued, clock at 0, when `unPause` is called |
| CorrectSchedulerTypeSet.Traced | OcavaCore/src/test/java/com/ocadotechnology/event/scheduling/SourceTrackingEventSchedulerTest.java:47-60 | for any times t1 <= t2 <= t3, the three doAts run in order and the tracker reports T1, T2, T1 |
| CorrectSchedulerTypeSet.AtTestTimes | OcavaCore/src/test/java/com/ocadotechnology/event/scheduling/SourceTrackingEventSchedulerTest.java:47-60 | at 50, 100 and 150 the observed types are T1, T2, T1 |
| CancelledEventNotExecuted.Traced | OcavaCore/src/test/java/com/ocadotechnology/event/scheduling/SourceTrackingEventSchedulerTest.java:62-70 | for any cancellation due before the event, the event never runs: nothing is recorded |
| CancelledEventNotExecuted.AtTestTimes | OcavaCore/src/test/java/com/ocadotechnology/event/scheduling/SourceTrackingEventSchedulerTest.java:62-70 | with the event at 50 and the cancellation at 25, the event is not executed |
| OnThreadEventDelayed.Traced | OcavaCore/src/test/java/com/ocadotechnology/event/scheduling/SourceTrackingEventSchedulerTest.java:81-93 | for any event time inside T1's pause, T1's doAt runs once, observing the pause end time |
| OnThreadEventDelayed.AtTestTimes | OcavaCore/src/test/java/com/ocadotechnology/event/scheduling/SourceTrackingEventSchedulerTest.java:81-93 | with the test's times, the one entry is ("EVENT", 26 666) |
| OnThreadDoNowDelayed.Traced | OcavaCore/src/test/java/com/ocadotechnology/event/scheduling/SourceTrackingEventSchedulerTest.java:95-109 | a doNow that T2 sends to paused T1 runs once, at the pause end, attributed to T1 |
| OnThreadDoNowDelayed.AtTestTimes | OcavaCore/src/test/java/com/ocadotechnology/event/scheduling/SourceTrackingEventSchedulerTest.java:95-109 | with the test's times, the one entry is ("EVENT", 26 666) |
| OffThreadEventNotDelayed.Traced | OcavaCore/src/test/java/com/ocadotechnology/event/scheduling/SourceTrackingEventSchedulerTest.java:111-123 | T2's doAt runs at its own time while T1 is paused |
| OffThreadEventNotDelayed.AtTestTimes | OcavaCore/src/test/java/com/ocadotechnology/event/scheduling/SourceTrackingEventSchedulerTest.java:111-123 | with the test's times, the one entry is ("EVENT", 14 321) |
| DelayedDoNowBeforeScheduledDoAt.Traced | OcavaCore/src/test/java/com/ocadotechnology/event/scheduling/SourceTrackingEventSchedulerTest.java:143-157 | the held doNow runs before T1's doAt naturally due at the pause end: DO_NOW then DO_AT, both at the pause end |
| DelayedDoNowBeforeScheduledDoAt.AtTestTimes | OcavaCore/src/test/java/com/ocadotechnology/event/scheduling/SourceTrackingEventSchedulerTest.java:143-157 | with the test's times the trace is DO_NOW, DO_AT |
| DelayedDoNowBeforeDelayedDoAt.Traced | OcavaCore/src/test/java/com/ocadotechnology/event/scheduling/SourceTrackingEventSchedulerTest.java:159-174 | the held doNow runs before the doAt held earlier in the same pause: DO_NOW then DO_AT |
| DelayedDoNowBeforeDelayedDoAt.AtTestTimes | OcavaCore/src/test/java/com/ocadotechnology/event/scheduling/SourceTrackingEventSchedulerTest.java:159-174 | with the test's times the trace is DO_NOW, DO_AT |
| DelayedDoAtBeforeScheduledDoAt.Traced | OcavaCore/src/test/java/com/ocadotechnology/event/scheduling/SourceTrackingEventSchedulerTest.java:176-190 | the held doAt runs before the doAt naturally due at the pause end: DELAYED_DO_AT then SCHEDULED_DO_AT |
| DelayedDoAtBeforeScheduledDoAt.AtTestTimes | OcavaCore/src/test/java/com/ocadotechnology/event/scheduling/SourceTrackingEventSchedulerTest.java:176-190 | with the test's times the trace is DELAYED_DO_AT, SCHEDULED_DO_AT |
| AdditionalDoNowAfterDelayedDoNows.Traced | OcavaCore/src/test/java/com/ocadotechnology/event/scheduling/SourceTrackingEventSchedulerTest.java:192-209 | the two held doNows run in the order sent, and the doNow the second one triggers runs after them |
| AdditionalDoNowAfterDelayedDoNows.AtTestTimes | OcavaCore/src/test/java/com/ocadotechnology/event/scheduling/SourceTrackingEventSchedulerTest.java:192-209 | with the test's times the trace is DELAYED_DO_NOW_1, DELAYED_DO_NOW_2, TRIGGERED_DO_NOW |
| AdditionalDoNowBeforeDelayedDoAt.Traced | OcavaCore/src/test/java/com/ocadotechnology/event/scheduling/SourceTrackingEventSchedulerTest.java:211-230 | the held doNow and the doNow it triggers both run before the held doAt |
| AdditionalDoNowBeforeDelayedDoAt.AtTestTimes | OcavaCore/src/test/java/com/ocadotechnology/event/scheduling/SourceTrackingEventSchedulerTest.java:211-230 | with the test's times the trace is DELAYED_DO_NOW, TRIGGERED_DO_NOW, DO_AT |
| IndexedCache.Add | OcavaCore/src/test/java/com/ocadotechnology/indexedcache/OptionalOneToOneIndexTest.java:174-187 | a successful add files the state under its id; a state with an empty key leaves the index (and its snapshot) exactly as it was; one with a present key invalidates the snapshot |
| IndexedCache.AddAll | OcavaCore/src/test/java/com/ocadotechnology/indexedcache/OptionalOneToOneIndexTest.java:102-115 | a successful batch add keeps every state already cached, files every state of the batch under its own id, each of which was not cached before, and adds nothing else (the size grows by the batch length); an empty batch changes nothing |
| IndexedCache.Delete | OcavaCore/src/test/java/com/ocadotechnology/indexedcache/OptionalOneToOneIndexTest.java:189-203 | delete fails exactly when the id is not cached; otherwise it removes that id only; removing an unindexed state leaves the index as it was, removing an indexed one invalidates the snapshot |
| IndexedCache.TakeSnapshot | OcavaCore/src/test/java/com/ocadotechnology/indexedcache/OptionalOneToOneIndexTest.java:131-148 | taking a snapshot changes neither the cache nor the index entries, caches what it returns, and returns the cached snapshot when there is one |
| IndexedCache.GetOrNull | OcavaCore/src/test/java/com/ocadotechnology/indexedcache/OptionalOneToOneIndexTest.java:81-87 | when the index abstracts the cache, `getOrNull(k)` returns a state exactly when some cached state has key k, and that state is the cached one filed under its id with key k |
| IndexedCache.StreamKeys | OcavaCore/src/test/java/com/ocadotechnology/indexedcache/OptionalOneToOneIndexTest.java:75-79 | when the index abstracts the cache, `streamKeys()` yields exactly the keys some cached state has |
| IndexProperties.AbstractsIsIndexed | OcavaCore/src/test/java/com/ocadotechnology/indexedcache/OptionalOneToOneIndexTest.java:94-109 | the index relation holds for exactly one map: the map from each present key to the state that has it |
| IndexProperties.EmptyInv | OcavaCore/src/test/java/com/ocadotechnology/indexedcache/OptionalOneToOneIndexTest.java:64-68 | a new cache with its index satisfies the invariant and streams no key |
| IndexProperties.KeyUsedIsIndexed | OcavaCore/src/test/java/com/ocadotechnology/indexedcache/OptionalOneToOneIndexTest.java:75-87 | a key is indexed exactly when some cached state has it |
| IndexProperties.AddInv | OcavaCore/src/test/java/com/ocadotechnology/indexedcache/OptionalOneToOneIndexTest.java:75-87 | add fails exactly when the id is already cached or the key is already used, and otherwise keeps the invariant |
| IndexProperties.DeleteInv | OcavaCore/src/test/java/com/ocadotechnology/indexedcache/OptionalOneToOneIndexTest.java:111-121 | delete fails exactly when the id is missing, and otherwise keeps the invariant |
| IndexProperties.AdmissibleSplit | OcavaCore/src/test/java/com/ocadotechnology/indexedcache/OptionalOneToOneIndexTest.java:102-115 | a batch can be added exactly when its first state can and the rest can be added after it |
| IndexProperties.AddAllInv | OcavaCore/src/test/java/com/ocadotechnology/indexedcache/OptionalOneToOneIndexTest.java:102-115 | addAll succeeds exactly for batches of fresh, distinct ids and fresh, distinct present keys; it then keeps the invariant and adds every state of the batch and nothing else |
| IndexProperties.GetOrNullFinds | OcavaCore/src/test/java/com/ocadotechnology/indexedcache/OptionalOneToOneIndexTest.java:81-87 | `getOrNull(k)` returns a state exactly when some cached state has key k, and then returns that cached state |
| IndexProperties.StreamKeysUsed | OcavaCore/src/test/java/com/ocadotechnology/indexedcache/OptionalOneToOneIndexTest.java:75-79 | `streamKeys()` yields exactly the present keys of the cached states |
| IndexProperties.EmptyKeyNotIndexed | OcavaCore/src/test/java/com/ocadotechnology/indexedcache/OptionalOneToOneIndexTest.java:174-187 | adding a state with an empty key changes neither the keys nor the snapshot |
| IndexProperties.PresentKeyIndexed | OcavaCore/src/test/java/com/ocadotechnology/indexedcache/OptionalOneToOneIndexTest.java:81-87 | after adding a state with a present key, looking up that key returns it |
| IndexProperties.SnapshotContents | OcavaCore/src/test/java/com/ocadotechnology/indexedcache/OptionalOneToOneIndexTest.java:89-109 | a snapshot is exactly the map from present keys to their states (empty states left out), and taking it keeps the invariant |
| IndexProperties.SnapshotStable | OcavaCore/src/test/java/com/ocadotechnology/indexedcache/OptionalOneToOneIndexTest.java:131-148 | with no change in between, the second snapshot is the first |
| IndexProperties.IndexedAddRenews | OcavaCore/src/test/java/com/ocadotechnology/indexedcache/OptionalOneToOneIndexTest.java:150-159 | after adding an indexed state, the next snapshot is a different object and holds the new entry |
| IndexProperties.IndexedDeleteRenews | OcavaCore/src/test/java/com/ocadotechnology/indexedcache/OptionalOneToOneIndexTest.java:161-172 | after deleting an indexed state, the next snapshot is a different object without that key |
| IndexProperties.UnindexedDeleteKeeps | OcavaCore/src/test/java/com/ocadotechnology/indexedcache/OptionalOneToOneIndexTest.java:189-203 | deleting a state with an empty key changes neither the keys nor the snapshot |
| IndexProperties.DeleteRemovesOnlyItsEntry | OcavaCore/src/test/java/com/ocadotechnology/indexedcache/OptionalOneToOneIndexTest.java:111-121 | deleting a state removes its own key from the snapshot and keeps every other entry as it was |
| IndexScenarios.EmptyOptionalNotIndexed | OcavaCore/src/test/java/com/ocadotechnology/indexedcache/OptionalOneToOneIndexTest.java:75-79 | after adding a state with an empty key, zero keys are streamed |
| IndexScenarios.PresentOptionalIndexed | OcavaCore/src/test/java/com/ocadotechnology/indexedcache/OptionalOneToOneIndexTest.java:81-87 | after adding a state at the origin, `getOrNull(ORIGIN)` is that state |
| IndexScenarios.EmptyIndexEmptySnapshot | OcavaCore/src/test/java/com/ocadotechnology/indexedcache/OptionalOneToOneIndexTest.java:89-92 | the snapshot of an empty index is empty |
| IndexScenarios.SingleElementSnapshot | OcavaCore/src/test/java/com/ocadotechnology/indexedcache/OptionalOneToOneIndexTest.java:94-100 | the snapshot is {ORIGIN: the state} |
| IndexScenarios.SnapshotWithoutUnindexed | OcavaCore/src/test/java/com/ocadotechnology/indexedcache/OptionalOneToOneIndexTest.java:102-109 | of the two states added together, only the one with a present key is in the snapshot |
| IndexScenarios.SnapshotWithoutRemoved | OcavaCore/src/test/java/com/ocadotechnology/indexedcache/OptionalOneToOneIndexTest.java:111-121 | after deleting state one, the snapshot is {(1,0): state two} |
| IndexScenarios.EmptySnapshotReused | OcavaCore/src/test/java/com/ocadotechnology/indexedcache/OptionalOneToOneIndexTest.java:131-137 | two snapshots of the empty cache are the same object |
| IndexScenarios.NonEmptySnapshotReused | OcavaCore/src/test/java/com/ocadotechnology/indexedcache/OptionalOneToOneIndexTest.java:139-148 | two snapshots of a non-empty cache with no change in between are the same object |
| IndexScenarios.AddedToRenewed | OcavaCore/src/test/java/com/ocadotechnology/indexedcache/OptionalOneToOneIndexTest.java:150-159 | adding an indexed state between two snapshots makes the second a new object |
| IndexScenarios.RemovedFromRenewed | OcavaCore/src/test/java/com/ocadotechnology/indexedcache/OptionalOneToOneIndexTest.java:161-172 | deleting an indexed state between two snapshots makes the second a new object |
| IndexScenarios.NotAddedToReused | OcavaCore/src/test/java/com/ocadotechnology/indexedcache/OptionalOneToOneIndexTest.java:174-187 | adding a state with an empty key between two snapshots keeps the same object |
| IndexScenarios.NotRemovedFromReused | OcavaCore/src/test/java/com/ocadotechnology/indexedcache/OptionalOneToOneIndexTest.java:189-203 | deleting a state with an empty key between two snapshots keeps the same object |

## Left out

- Scheduler.Run: the dispatch loop is bounded by a `fuel` count of rounds and stops with `OutOfFuel` when it runs out. The Java loop has no bound. Every scenario is proved to reach quiescence well within the fuel it is given (20 rounds).
- Scheduler.StartPause: a second pause of a source before the first one is released fails with `AlreadyPaused`. Stacked pauses are not modelled, and the tests never nest pauses.
- Scheduler.Exec: an error raised by a closure (a doAt in the past, an invalid `delayExecutionUntil`) stops that closure and halts the run, with the remaining work left queued. How Java exceptions propagate out of `EventExecutor` is not modelled, and the tests raise none.
- Scheduler.Release: doNows that other sources send to each other while held doNows are replayed interleave FIFO in the one global immediate queue. There is no separate drain scoped to the released source. The tests only trigger doNows to the released source itself, where the two readings agree.
- Scheduler.Release: where the release sits among doAts due at the same time is a reconstruction the tests do not fix. The release queues behind every event due no later than its time when the pause starts. So another source's doAt due at the release time and queued before the pause began runs before the held doAts. The tests only place the source's own doAts there, and those are held and released in order.
- Scheduler.Hold: interception happens at dispatch rather than at submission, for the reason given above.
- Time: the Java scheduler uses `double` time. The model uses `nat`, as the tests only use integer offsets. Floating-point rounding is out of scope.
- Realtime scheduling, the `AdjustableTimeProvider` and `EventExecutor` internals, and the `SourceSchedulerTracker` query outside any event are not modelled. The tracker is modelled only as the attribution of each observation to the running event's source.
- The scenario-test DSL (`AbstractThenSteps`, `CoreSimulationWhenSteps`) is not modelled. It forwards to classes that are not part of this model.
- IndexedCache.Add: adding a state whose present key another cached state already has fails with `KeyTaken` and leaves the cache unchanged. The tests never exercise this case, so this is a reconstruction.
- IndexedCache.AddAll: the batch is added in sequence order, and the first failure rejects the whole batch. Java's `ImmutableSet` iteration order is taken to be the order the states are listed. Rollback details of the hash-map cache are not modelled.
- The index's key type is fixed to the tests' `Coordinate` rather than being generic.
- The cache's hash-map backing and the `CacheSubTypeTests` variance check (`OptionalOneToOneIndexTest.java` lines 44-55, a compile-time typing concern) are not modelled.
- Object identity of snapshots is modelled by stamps. The `isSameAs` and `isNotSameAs` assertions become equality and inequality of stamps.
