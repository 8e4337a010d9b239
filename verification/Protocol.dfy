/** Scheduler and workers as one transition system: one move is one send or receive of the
    scheduler, or one receive, one shared-memory access or one answer of a worker.
    Which move comes next is arbitrary, and so are the graph and the assignment to workers. */
module Protocol {
  import opened Signals
  import opened Lanes
  import opened Bodies
  import opened Graphs

  datatype Config = Config(
    deps: Dependencies,
    owner: map<ActivityId, WorkerId>,
    agentOf: map<WorkerId, AgentId>,
    primary: AgentId,
    connected: set<AgentId>,
    program: Program)

  /** Every scheduled activity belongs to a worker that has a channel. */
  ghost predicate Valid(c: Config) {
    && c.deps.Keys <= c.owner.Keys
    && forall id :: id in c.owner ==> c.owner[id] in c.agentOf
  }

  /** `ActivityState` of the source. */
  datatype Flags = Flags(triggered: bool, ready: bool, everReady: bool)

  datatype Phase =
    | Starting(unsent: set<ActivityId>)
    | Stepping
    /** `todo` still gets its Shutdown, `pending` has not confirmed; `stale` records which
        activities had an unanswered request when the shutdown began. */
    | Stopping(todo: set<ActivityId>, pending: set<ActivityId>, stale: set<ActivityId>)
    | Terminating(notify: set<WorkerId>, acks: set<AgentId>)
    | Done

  /** `cycle` counts the passes of the task chain begun so far. */
  datatype State = State(
    phase: Phase,
    cycle: nat,
    flags: map<ActivityId, Flags>,
    lanes: map<WorkerId, Lane>,
    shared: Shared)

  datatype Move =
    // scheduler
    | SendStartup(id: ActivityId)
    | BeginCycle
    | Trigger(id: ActivityId)
    | ReceiveReady(worker: WorkerId)
    | ReceiveFailed(worker: WorkerId)
    | GiveUp
    | StopRequested
    | SendShutdown(id: ActivityId)
    | Confirm(worker: WorkerId)
    | StopWaiting
    | SendTerminate(worker: WorkerId)
    | ReceiveAck(worker: WorkerId)
    | Finished
    // workers
    | Take(worker: WorkerId)
    | Access(worker: WorkerId)
    | Answer(worker: WorkerId, ok: bool, error: ActivityError)

  predicate IsWorkerMove(x: Move) { x.Take? || x.Access? || x.Answer? }

  predicate AllReady(flags: map<ActivityId, Flags>) {
    forall id | id in flags :: flags[id].ready
  }

  /** Only dependencies that are themselves scheduled are looked at. */
  predicate DepsReady(c: Config, flags: map<ActivityId, Flags>, id: ActivityId)
    requires id in c.deps
  {
    forall d | d in flags && d in c.deps[id] :: flags[d].ready
  }

  /** `wait_next_ready` is called in two loops, both guarded by not all being ready. */
  predicate Waiting(s: State) {
    (s.phase.Stepping? || s.phase == Starting({})) && !AllReady(s.flags)
  }

  predicate HasAnswer(s: State, w: WorkerId) {
    w in s.lanes && s.lanes[w].received < |s.lanes[w].answers|
  }

  function Head(s: State, w: WorkerId): Sig
    requires HasAnswer(s, w)
  {
    s.lanes[w].answers[s.lanes[w].received]
  }

  predicate Exited(l: Lane) { l.answers != [] && l.answers[|l.answers| - 1].TerminateAck? }

  predicate Running(s: State, w: WorkerId) {
    w in s.lanes && s.lanes[w].Valid() && s.lanes[w].Busy()
  }

  /** Worker w is inside `step()` of activity id. */
  predicate InStep(s: State, w: WorkerId, id: ActivityId) {
    Running(s, w) && s.lanes[w].Current().Step? && s.lanes[w].Current().id == id
  }

  /** What a worker answers once the method has returned. */
  function AnswerTo(r: Sig, agent: AgentId, ok: bool, error: ActivityError): Sig {
    if !IsRequest(r) then TerminateAck(agent)
    else if ok then Ready(r.id, ())
    else ActivityFailed(r.id, error)
  }

  function Started(flags: map<ActivityId, Flags>): set<ActivityId> {
    set id | id in flags && flags[id].everReady
  }

  /** Activities with a request the scheduler has not seen answered. */
  function Unanswered(c: Config, s: State): set<ActivityId> {
    set id | id in s.flags && id in c.owner && c.owner[id] in s.lanes
             && s.lanes[c.owner[id]].Valid() && s.lanes[c.owner[id]].Open(id) != []
  }

  function SendTo(lanes: map<WorkerId, Lane>, w: WorkerId, x: Sig): map<WorkerId, Lane>
    requires w in lanes
  {
    lanes[w := lanes[w].Send(x)]
  }

  function ReceiveFrom(lanes: map<WorkerId, Lane>, w: WorkerId): map<WorkerId, Lane>
    requires w in lanes
  {
    lanes[w := lanes[w].Receive()]
  }

  predicate Reaches(c: Config, s: State, id: ActivityId) { id in c.owner && c.owner[id] in s.lanes }

  // ----- the scheduler -----

  predicate CanSendStartup(c: Config, s: State, id: ActivityId) {
    s.phase.Starting? && id in s.phase.unsent && Reaches(c, s, id)
  }

  function AfterSendStartup(c: Config, s: State, id: ActivityId): State
    requires CanSendStartup(c, s, id)
  {
    s.(phase := Starting(s.phase.unsent - {id}), lanes := SendTo(s.lanes, c.owner[id], Startup(id, ())))
  }

  predicate CanBeginCycle(s: State) {
    (s.phase.Stepping? || s.phase == Starting({})) && AllReady(s.flags)
  }

  function Cleared(flags: map<ActivityId, Flags>): map<ActivityId, Flags> {
    map id | id in flags :: Flags(false, false, flags[id].everReady)
  }

  function AfterBeginCycle(s: State): State {
    s.(phase := Stepping, cycle := s.cycle + 1, flags := Cleared(s.flags))
  }

  predicate CanTrigger(c: Config, s: State, id: ActivityId) {
    && s.phase.Stepping? && id in c.deps && id in s.flags && Reaches(c, s, id)
    && !s.flags[id].triggered && DepsReady(c, s.flags, id)
  }

  function AfterTrigger(c: Config, s: State, id: ActivityId): State
    requires CanTrigger(c, s, id)
  {
    s.(flags := s.flags[id := s.flags[id].(triggered := true)],
       lanes := SendTo(s.lanes, c.owner[id], Step(id, ())))
  }

  predicate CanReceiveReady(s: State, w: WorkerId) {
    Waiting(s) && HasAnswer(s, w) && Head(s, w).Ready? && Head(s, w).id in s.flags
  }

  function AfterReceiveReady(s: State, w: WorkerId): State
    requires CanReceiveReady(s, w)
  {
    var id := Head(s, w).id;
    s.(flags := s.flags[id := s.flags[id].(ready := true, everReady := true)], lanes := ReceiveFrom(s.lanes, w))
  }

  /** Entry of `shutdown_gracefully`. */
  function AfterGiveUp(c: Config, s: State): State {
    s.(phase := Stopping(Started(s.flags), Started(s.flags), Unanswered(c, s)))
  }

  predicate CanReceiveFailed(s: State, w: WorkerId) {
    Waiting(s) && HasAnswer(s, w) && Head(s, w).ActivityFailed?
  }

  function AfterReceiveFailed(c: Config, s: State, w: WorkerId): State
    requires CanReceiveFailed(s, w)
  {
    AfterGiveUp(c, s.(lanes := ReceiveFrom(s.lanes, w)))
  }

  predicate CanSendShutdown(c: Config, s: State, id: ActivityId) {
    s.phase.Stopping? && id in s.phase.todo && Reaches(c, s, id)
  }

  function AfterSendShutdown(c: Config, s: State, id: ActivityId): State
    requires CanSendShutdown(c, s, id)
  {
    s.(phase := s.phase.(todo := s.phase.todo - {id}), lanes := SendTo(s.lanes, c.owner[id], Shutdown(id, ())))
  }

  /** The activities a signal confirms the shutdown of. */
  function Confirmed(a: Sig): set<ActivityId> {
    if a.Ready? || a.ActivityFailed? then {a.id} else {}
  }

  predicate CanConfirm(s: State, w: WorkerId) {
    s.phase.Stopping? && s.phase.todo == {} && s.phase.pending != {} && HasAnswer(s, w)
  }

  function AfterConfirm(s: State, w: WorkerId): State
    requires CanConfirm(s, w)
  {
    s.(phase := s.phase.(pending := s.phase.pending - Confirmed(Head(s, w))), lanes := ReceiveFrom(s.lanes, w))
  }

  predicate CanStopWaiting(s: State) { s.phase.Stopping? && s.phase.todo == {} }

  function AfterStopWaiting(c: Config, s: State): State {
    s.(phase := Terminating(c.agentOf.Keys, c.connected - {c.primary}))
  }

  predicate CanSendTerminate(s: State, w: WorkerId) {
    s.phase.Terminating? && w in s.phase.notify && w in s.lanes
  }

  function AfterSendTerminate(s: State, w: WorkerId): State
    requires CanSendTerminate(s, w)
  {
    s.(phase := s.phase.(notify := s.phase.notify - {w}), lanes := SendTo(s.lanes, w, Terminate(())))
  }

  function Acknowledged(a: Sig): set<AgentId> { if a.TerminateAck? then {a.agent} else {} }

  predicate CanReceiveAck(s: State, w: WorkerId) {
    s.phase.Terminating? && s.phase.notify == {} && HasAnswer(s, w)
  }

  function AfterReceiveAck(s: State, w: WorkerId): State
    requires CanReceiveAck(s, w)
  {
    s.(phase := s.phase.(acks := s.phase.acks - Acknowledged(Head(s, w))), lanes := ReceiveFrom(s.lanes, w))
  }

  // ----- the workers -----

  predicate CanTake(s: State, w: WorkerId) {
    && w in s.lanes && s.lanes[w].Valid() && !s.lanes[w].Busy()
    && s.lanes[w].Inbox() != [] && !Exited(s.lanes[w])
  }

  function AfterTake(c: Config, s: State, w: WorkerId): State
    requires CanTake(s, w)
  {
    var r := s.lanes[w].sent[s.lanes[w].taken];
    s.(lanes := s.lanes[w := s.lanes[w].Take()],
       shared := if r.Step? then Enter(c.program, s.shared, r.id) else s.shared)
  }

  predicate CanAccess(c: Config, s: State, w: WorkerId) {
    Running(s, w) && s.lanes[w].Current().Step? && CanAct(c.program, s.shared, s.lanes[w].Current().id)
  }

  function AfterAccess(c: Config, s: State, w: WorkerId): State
    requires CanAccess(c, s, w)
  {
    s.(shared := Act(c.program, s.shared, s.lanes[w].Current().id))
  }

  predicate CanAnswer(c: Config, s: State, w: WorkerId, ok: bool) {
    && Running(s, w) && w in c.agentOf
    && var r := s.lanes[w].Current();
       && (IsRequest(r) || r.Terminate?)
       && (r.Step? ==> CanFinish(c.program, s.shared, r.id, ok))
  }

  function AfterAnswer(c: Config, s: State, w: WorkerId, ok: bool, error: ActivityError): State
    requires CanAnswer(c, s, w, ok)
  {
    s.(lanes := s.lanes[w := s.lanes[w].Answer(AnswerTo(s.lanes[w].Current(), c.agentOf[w], ok, error))])
  }

  // ----- all moves -----

  predicate Enabled(c: Config, s: State, x: Move) {
    match x
    case SendStartup(id) => CanSendStartup(c, s, id)
    case BeginCycle => CanBeginCycle(s)
    case Trigger(id) => CanTrigger(c, s, id)
    case ReceiveReady(w) => CanReceiveReady(s, w)
    case ReceiveFailed(w) => CanReceiveFailed(s, w)
    case GiveUp => Waiting(s)
    case StopRequested => s.phase.Stepping? && AllReady(s.flags)
    case SendShutdown(id) => CanSendShutdown(c, s, id)
    case Confirm(w) => CanConfirm(s, w)
    case StopWaiting => CanStopWaiting(s)
    case SendTerminate(w) => CanSendTerminate(s, w)
    case ReceiveAck(w) => CanReceiveAck(s, w)
    case Finished => s.phase.Terminating? && s.phase.notify == {}
    case Take(w) => CanTake(s, w)
    case Access(w) => CanAccess(c, s, w)
    case Answer(w, ok, _) => CanAnswer(c, s, w, ok)
  }

  /** A move that is not enabled changes nothing. */
  function Do(c: Config, s: State, x: Move): State {
    if !Enabled(c, s, x) then s else
    match x
    case SendStartup(id) => AfterSendStartup(c, s, id)
    case BeginCycle => AfterBeginCycle(s)
    case Trigger(id) => AfterTrigger(c, s, id)
    case ReceiveReady(w) => AfterReceiveReady(s, w)
    case ReceiveFailed(w) => AfterReceiveFailed(c, s, w)
    case GiveUp => AfterGiveUp(c, s)
    case StopRequested => AfterGiveUp(c, s)
    case SendShutdown(id) => AfterSendShutdown(c, s, id)
    case Confirm(w) => AfterConfirm(s, w)
    case StopWaiting => AfterStopWaiting(c, s)
    case SendTerminate(w) => AfterSendTerminate(s, w)
    case ReceiveAck(w) => AfterReceiveAck(s, w)
    case Finished => s.(phase := Done)
    case Take(w) => AfterTake(c, s, w)
    case Access(w) => AfterAccess(c, s, w)
    case Answer(w, ok, error) => AfterAnswer(c, s, w, ok, error)
  }

  /** Before the first signal: no guard held anywhere, nothing in any channel. */
  ghost predicate Initial(c: Config, s: State) {
    && s.phase == Starting(c.deps.Keys) && s.cycle == 0
    && s.flags.Keys == c.deps.Keys
    && (forall id :: id in s.flags ==> s.flags[id] == Flags(false, false, false))
    && s.lanes.Keys == c.agentOf.Keys
    && (forall w :: w in s.lanes ==> s.lanes[w] == Lane([], 0, [], 0))
    && s.shared.values.Keys == s.shared.cells.Keys
    && (forall t :: t in s.shared.cells ==> s.shared.cells[t] == AccessWord.Fresh)
    && (forall id :: id in s.shared.threads ==> s.shared.threads[id].pc.Begin?)
    && s.shared.panicked == {}
  }

  ghost predicate Run(c: Config, s: State, moves: seq<Move>, s': State)
    decreases |moves|
  {
    if moves == [] then s == s'
    else Enabled(c, s, moves[0]) && Run(c, Do(c, s, moves[0]), moves[1..], s')
  }

  ghost predicate Reachable(c: Config, s: State) {
    exists s0, moves :: Initial(c, s0) && Run(c, s0, moves, s)
  }
}
