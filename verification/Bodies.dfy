/** The bodies of `step()`: programs that read and write shared topics through guards. */
module Bodies {
  import opened Signals
  import opened AccessWord

  type Topic = string
  type Value = seq<int>

  /** Everything an activity keeps between two of its actions. */
  type Local = seq<int>

  /** The next thing a step does. Data is reached only through a guard. */
  datatype Action =
    | Finish(ok: bool)
    | OpenRead(topic: Topic)
    | Load(topic: Topic)
    | CloseRead(topic: Topic)
    | OpenWrite(topic: Topic)
    | Store(topic: Topic, value: Value)
    | Publish(topic: Topic)

  /** Deterministic activity code: how a step starts, what it does next in a given local
      state, and how it goes on once that action is complete. */
  datatype Program = Program(
    enter: (ActivityId, Local) -> Local,
    next: (ActivityId, Local) -> Action,
    resume: (ActivityId, Local, Value) -> Local)

  /** One activity: its data, its position inside a lock operation, and how many actions
      of the present step are complete. */
  datatype Thread = Thread(local: Local, pc: Pc, acts: nat)

  datatype Shared = Shared(
    values: map<Topic, Value>,
    cells: map<Topic, Cell>,
    threads: map<ActivityId, Thread>,
    panicked: set<ActivityId>)

  ghost predicate SharedOk(m: Shared) {
    && m.values.Keys == m.cells.Keys
    && forall t :: t in m.cells ==> CellOk(m.cells[t])
  }

  function LockOp(a: Action): Option<Op> {
    match a
    case OpenRead(_) => Some(LockRead)
    case CloseRead(_) => Some(UnlockRead)
    case OpenWrite(_) => Some(LockWrite)
    case Publish(_) => Some(Send)
    case _ => None
  }

  predicate HoldsGuard(m: Shared, id: ActivityId, t: Topic)
  {
    t in m.cells && (id in m.cells[t].readers || m.cells[t].writer == Some(id))
  }

  /** What the guard types allow the activity to do now: data only under a guard, release
      only what is held, one write guard per topic at a time. */
  predicate CanAct(p: Program, m: Shared, id: ActivityId) {
    && id in m.threads && id !in m.panicked
    && m.values.Keys == m.cells.Keys
    && var th := m.threads[id];
       match p.next(id, th.local)
       case Finish(_) => false
       case OpenRead(t) => t in m.cells
       case Load(t) => HoldsGuard(m, id, t)
       case CloseRead(t) => t in m.cells && id in m.cells[t].readers
       case OpenWrite(t) => t in m.cells && m.cells[t].writer != Some(id)
       case Store(t, _) => t in m.cells && m.cells[t].writer == Some(id)
       case Publish(t) => t in m.cells && (m.cells[t].writer == Some(id) || th.pc.Unlocked?)
  }

  /** The action is complete: resume with the value it delivered. */
  function Completed(p: Program, id: ActivityId, th: Thread, v: Value): Thread {
    Thread(p.resume(id, th.local, v), Begin, th.acts + 1)
  }

  /** One atomic access of the activity: a data access, or one load or compare-exchange of a
      lock operation, which is complete only when the operation is. */
  function Act(p: Program, m: Shared, id: ActivityId): Shared
    requires CanAct(p, m, id)
  {
    var th := m.threads[id];
    var a := p.next(id, th.local);
    match a
    case Finish(_) => m
    case Load(t) => m.(threads := m.threads[id := Completed(p, id, th, m.values[t])])
    case Store(t, v) => m.(values := m.values[t := v], threads := m.threads[id := Completed(p, id, th, [])])
    case _ =>
      var t := a.topic;
      match Atomic(m.cells[t], id, LockOp(a).value, th.pc)
      case Continue(cell, pc) => m.(cells := m.cells[t := cell], threads := m.threads[id := th.(pc := pc)])
      case Complete(cell) => m.(cells := m.cells[t := cell], threads := m.threads[id := Completed(p, id, th, [])])
      case Panic(_) => m.(panicked := m.panicked + {id})
  }

  /** The call of `step()` begins. */
  function Enter(p: Program, m: Shared, id: ActivityId): Shared {
    var local := if id in m.threads then m.threads[id].local else [];
    m.(threads := m.threads[id := Thread(p.enter(id, local), Begin, 0)])
  }

  /** The call may return `ok`: the body says so and has released its guards. */
  predicate CanFinish(p: Program, m: Shared, id: ActivityId, ok: bool) {
    && id in m.threads && id !in m.panicked
    && p.next(id, m.threads[id].local) == Finish(ok)
    && m.threads[id].pc.Begin?
    && forall t | t in m.cells :: !HoldsGuard(m, id, t)
  }
}
