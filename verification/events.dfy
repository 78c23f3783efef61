/**
  Vocabulary of the source-tracking discrete-event scheduler: sources, the
  commands that stand in for the Java closures, queued events, per-source
  pause state and the observable trace.
 */
module Events {

  /** A scheduler type (`T1`, `T2`, ...): a named logical source sharing the clock. */
  type Source = nat

  /** Virtual time. The tests only use integer offsets. */
  type Time = nat

  /** The identity behind a `Cancelable`; handles are issued in submission order. */
  type Handle = nat

  /**
    The work a closure performs. `Record` stands for "append my label, the
    time I observe and the active scheduler type to a list"; the others are
    the scheduler calls the tests make from inside events.
   */
  datatype Cmd =
    | Record(name: string)
    | DoNow(src: Source, body: Cmd)
    | DoAt(src: Source, time: Time, body: Cmd)
    | Delay(src: Source, until: Time)
    | Cancel(handle: Handle)
    | Seq(cmds: seq<Cmd>)

  /** What an event does when dispatched: run a closure, or end a pause of its source. */
  datatype Work = Action(cmd: Cmd) | ReleasePause

  /**
    A queued unit of work, tagged with the source whose scheduler accepted it.
    For timed events `time` is the dispatch time; for immediate events it is
    the submission time and plays no part in ordering.
   */
  datatype Event = Event(id: Handle, src: Source, time: Time, work: Work)

  /** A source's "thread pause": its release time and the work held back so far. */
  datatype Pause = Pause(until: Time, heldNow: seq<Event>, heldAt: seq<Event>)

  /** One observation made by a running closure: label, clock, tracker answer, event. */
  datatype Obs = Obs(name: string, time: Time, source: Source, handle: Handle)

  datatype Error =
    | ScheduleInPast    // doAt with a time earlier than the clock
    | DelayInPast       // delayExecutionUntil with a time earlier than the clock
    | DelayOffSource    // delayExecutionUntil called outside the source's own event
    | AlreadyPaused     // a second pause before the first one is released

  /**
    The whole scheduler: the backing scheduler's clock, its pause flag and its
    two global queues; the per-source pauses; the cancelled handles; the next
    handle to issue; and the trace recorded by the closures.
   */
  datatype State = State(
    now: Time,
    suspended: bool,
    nowQ: seq<Event>,
    atQ: seq<Event>,
    pauses: map<Source, Pause>,
    cancelled: set<Handle>,
    nextId: Handle,
    trace: seq<Obs>
  )

  /** The result of running one closure: its effects up to the end or up to the first error. */
  datatype Outcome = Completed(st: State) | Raised(st: State, err: Error)
}
