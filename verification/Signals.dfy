/** Identifiers and signals exchanged between the scheduler, the relays and the workers. */
module Signals {
  const TWO_TO_64: int := 0x1_0000_0000_0000_0000

  /** The 64-bit ids of the source. */
  type u64 = n: int | 0 <= n < TWO_TO_64

  type ActivityId = u64
  type WorkerId = u64
  type AgentId = u64
  type RelayId = u64

  datatype Option<+T> = None | Some(value: T)

  datatype ActivityError = StartupError | StepError | ShutdownError

  /** A core signal. T is the type of a time stamp: nanoseconds in the socket codec,
      `()` where only the control flow matters, since no component branches on a time stamp. */
  datatype Signal<+T> =
    | StartupSync(info: T)
    | Startup(id: ActivityId, at: T)
    | Shutdown(id: ActivityId, at: T)
    | Step(id: ActivityId, at: T)
    | Ready(id: ActivityId, at: T)
    | ActivityFailed(id: ActivityId, error: ActivityError)
    | Terminate(at: T)
    | TerminateAck(agent: AgentId)

  /** Startup, Step and Shutdown ask a worker to run a method of one activity. */
  predicate IsRequest<T>(s: Signal<T>) {
    s.Startup? || s.Step? || s.Shutdown?
  }

  datatype ChannelId =
    | ActivityChannel(activity: ActivityId)
    | AgentChannel(agent: AgentId)
    | WorkerChannel(worker: WorkerId)
    | RelayChannel(relay: RelayId)
}
