/** Who holds guards: activities in the middle of a step that uses the topic. */
module Guards {
  import opened Signals
  import opened AccessWord
  import opened Bodies

  /** Activity id may open topic t for reading. */
  ghost predicate Reads(p: Program, id: ActivityId, t: Topic) {
    exists l :: p.next(id, l) == OpenRead(t)
  }

  predicate IsWrite(a: Action, t: Topic) { (a.OpenWrite? || a.Store?) && a.topic == t }

  /** Activity id may open topic t for writing, or write to it. */
  ghost predicate Writes(p: Program, id: ActivityId, t: Topic) {
    exists l :: IsWrite(p.next(id, l), t)
  }

  /** Guards on topic t are held by activities in the middle of a step that uses t. */
  ghost predicate GuardsOk(p: Program, active: set<ActivityId>, cell: Cell, t: Topic) {
    && CellOk(cell)
    && (forall u :: u in cell.readers ==> u in active && Reads(p, u, t))
    && (forall u :: cell.writer == Some(u) ==> u in active && Writes(p, u, t))
  }

  /** A lock operation is in progress only inside a step, on a guard the step may use. */
  ghost predicate ThreadOk(p: Program, active: set<ActivityId>, cells: map<Topic, Cell>, id: ActivityId, th: Thread) {
    th.pc.Begin? ||
    (&& id in active
     && var a := p.next(id, th.local);
        && LockOp(a).Some? && a.topic in cells
        && OpOk(cells[a.topic], id, LockOp(a).value, th.pc)
        && (th.pc.Unlocked? ==> Writes(p, id, a.topic) && cells[a.topic].writer != Some(id)))
  }

  ghost predicate SharedInv(p: Program, active: set<ActivityId>, m: Shared) {
    && m.values.Keys == m.cells.Keys
    && (forall t :: t in m.cells ==> GuardsOk(p, active, m.cells[t], t))
    && (forall id :: id in m.threads ==> ThreadOk(p, active, m.cells, id, m.threads[id]))
  }

  /** What an atomic access of the thread's lock operation may rely on. */
  lemma LockPre(p: Program, active: set<ActivityId>, m: Shared, id: ActivityId)
    requires SharedInv(p, active, m) && id in active && CanAct(p, m, id)
    requires LockOp(p.next(id, m.threads[id].local)).Some?
    ensures var a := p.next(id, m.threads[id].local);
            && a.topic in m.cells && CellOk(m.cells[a.topic])
            && OpOk(m.cells[a.topic], id, LockOp(a).value, m.threads[id].pc)
  {
    var a := p.next(id, m.threads[id].local);
    assert ThreadOk(p, active, m.cells, id, m.threads[id]);
    if !m.threads[id].pc.Begin? {
      assert a.topic in m.cells;
    }
    assert GuardsOk(p, active, m.cells[a.topic], a.topic);
  }

  /** The other threads' operations stay well-formed when id's access changes the cell. */
  lemma OthersKeep(p: Program, active: set<ActivityId>, m: Shared, t: Topic, cell: Cell, id: ActivityId, u: ActivityId)
    requires SharedInv(p, active, m) && t in m.cells && u in m.threads && u != id
    requires cell.readers[u] == m.cells[t].readers[u]
    requires cell.writer == Some(u) <==> m.cells[t].writer == Some(u)
    ensures ThreadOk(p, active, m.cells[t := cell], u, m.threads[u])
  {
    assert ThreadOk(p, active, m.cells, u, m.threads[u]);
  }

  /** Lock operation `a` of activity id, inside its step. */
  ghost predicate LockStep(p: Program, active: set<ActivityId>, m: Shared, id: ActivityId, a: Action) {
    && SharedInv(p, active, m) && id in active && CanAct(p, m, id)
    && a == p.next(id, m.threads[id].local) && LockOp(a).Some?
  }

  lemma GuardsAfter(p: Program, active: set<ActivityId>, m: Shared, id: ActivityId, a: Action, cell: Cell)
    requires LockStep(p, active, m, id, a)
    requires var r := Atomic(m.cells[a.topic], id, LockOp(a).value, m.threads[id].pc);
             !r.Panic? && r.cell == cell
    ensures GuardsOk(p, active, cell, a.topic)
    ensures forall u :: u in m.threads && u != id ==> ThreadOk(p, active, m.cells[a.topic := cell], u, m.threads[u])
  {
    LockPre(p, active, m, id);
    AtomicKeeps(m.cells[a.topic], id, LockOp(a).value, m.threads[id].pc);
    assert GuardsOk(p, active, m.cells[a.topic], a.topic);
    forall u | u in m.threads && u != id { OthersKeep(p, active, m, a.topic, cell, id, u); }
    assert a.OpenRead? ==> Reads(p, id, a.topic);
    assert a.OpenWrite? ==> IsWrite(a, a.topic) && Writes(p, id, a.topic);
  }

  lemma ThreadContinues(p: Program, active: set<ActivityId>, m: Shared, id: ActivityId, a: Action)
    requires LockStep(p, active, m, id, a)
    requires Atomic(m.cells[a.topic], id, LockOp(a).value, m.threads[id].pc).Continue?
    ensures var r := Atomic(m.cells[a.topic], id, LockOp(a).value, m.threads[id].pc);
            ThreadOk(p, active, m.cells[a.topic := r.cell], id, m.threads[id].(pc := r.pc))
  {
    LockPre(p, active, m, id);
    AtomicKeeps(m.cells[a.topic], id, LockOp(a).value, m.threads[id].pc);
    assert ThreadOk(p, active, m.cells, id, m.threads[id]);
    assert GuardsOk(p, active, m.cells[a.topic], a.topic);
  }

  lemma SharedAfter(p: Program, active: set<ActivityId>, m: Shared, id: ActivityId, t: Topic, cell: Cell, th: Thread)
    requires SharedInv(p, active, m) && t in m.cells && GuardsOk(p, active, cell, t)
    requires ThreadOk(p, active, m.cells[t := cell], id, th)
    requires forall u :: u in m.threads && u != id ==> ThreadOk(p, active, m.cells[t := cell], u, m.threads[u])
    ensures SharedInv(p, active, m.(cells := m.cells[t := cell], threads := m.threads[id := th]))
  {
  }

  lemma LockKeeps(p: Program, active: set<ActivityId>, m: Shared, id: ActivityId, a: Action)
    requires LockStep(p, active, m, id, a)
    ensures SharedInv(p, active, Act(p, m, id))
  {
    var th := m.threads[id];
    var r := Atomic(m.cells[a.topic], id, LockOp(a).value, th.pc);
    if !r.Panic? { GuardsAfter(p, active, m, id, a, r.cell); }
    if r.Continue? {
      ThreadContinues(p, active, m, id, a);
      SharedAfter(p, active, m, id, a.topic, r.cell, th.(pc := r.pc));
    } else if r.Complete? {
      SharedAfter(p, active, m, id, a.topic, r.cell, Completed(p, id, th, []));
    }
  }

  /** A data access changes no guard. */
  lemma DataKeeps(p: Program, active: set<ActivityId>, m: Shared, id: ActivityId)
    requires SharedInv(p, active, m) && id in active && CanAct(p, m, id)
    requires LockOp(p.next(id, m.threads[id].local)).None?
    ensures SharedInv(p, active, Act(p, m, id))
  {
  }

  lemma ActKeeps(p: Program, active: set<ActivityId>, m: Shared, id: ActivityId)
    requires SharedInv(p, active, m) && id in active && CanAct(p, m, id)
    ensures SharedInv(p, active, Act(p, m, id))
  {
    var a := p.next(id, m.threads[id].local);
    if LockOp(a).Some? { LockKeeps(p, active, m, id, a); } else { DataKeeps(p, active, m, id); }
  }

  lemma EnterKeeps(p: Program, active: set<ActivityId>, m: Shared, id: ActivityId)
    requires SharedInv(p, active, m)
    ensures SharedInv(p, active + {id}, Enter(p, m, id))
  {
    forall u | u in m.threads ensures ThreadOk(p, active + {id}, m.cells, u, m.threads[u]) {
      assert ThreadOk(p, active, m.cells, u, m.threads[u]);
    }
  }

  lemma FinishKeeps(p: Program, active: set<ActivityId>, m: Shared, id: ActivityId, ok: bool)
    requires SharedInv(p, active, m) && CanFinish(p, m, id, ok)
    ensures SharedInv(p, active - {id}, m)
  {
    forall t | t in m.cells ensures GuardsOk(p, active - {id}, m.cells[t], t) {
      assert GuardsOk(p, active, m.cells[t], t) && !HoldsGuard(m, id, t);
    }
    forall u | u in m.threads ensures ThreadOk(p, active - {id}, m.cells, u, m.threads[u]) {
      assert ThreadOk(p, active, m.cells, u, m.threads[u]);
    }
  }

  /** Among activities that keep readers and writers of a topic apart, only the limit on read
      guards can make an access panic. */
  lemma LockPanics(p: Program, active: set<ActivityId>, m: Shared, id: ActivityId, a: Action)
    requires LockStep(p, active, m, id, a)
    requires var cell := m.cells[a.topic];
             && (Writes(p, id, a.topic) ==> cell.readers == multiset{} && (cell.writer == None || cell.writer == Some(id)))
             && (Reads(p, id, a.topic) ==> cell.writer == None)
    ensures Atomic(m.cells[a.topic], id, LockOp(a).value, m.threads[id].pc).Panic? <==>
              a.OpenRead? && |m.cells[a.topic].readers| == MAX - 1
  {
    LockPre(p, active, m, id);
    assert ThreadOk(p, active, m.cells, id, m.threads[id]);
    match a
    case OpenRead(t) => assert Reads(p, id, t);
    case OpenWrite(t) => assert IsWrite(a, t) && Writes(p, id, t);
    case CloseRead(t) => NonEmpty(m.cells[t].readers, id);
    case _ =>
  }

  /** A thread panics when its lock operation does. */
  lemma ActPanics(p: Program, m: Shared, id: ActivityId)
    requires CanAct(p, m, id)
    ensures var a := p.next(id, m.threads[id].local);
            Act(p, m, id).panicked != m.panicked <==>
              LockOp(a).Some? && Atomic(m.cells[a.topic], id, LockOp(a).value, m.threads[id].pc).Panic?
  {
  }
}
