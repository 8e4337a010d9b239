/** However workers and signals interleave, a failure-free cycle leaves the topics and the
    activities as running the steps one by one in any legal order does. */
module Determinism {
  import opened Signals
  import opened AccessWord
  import opened Bodies
  import opened Graphs
  import opened Lanes
  import opened Protocol
  import opened Invariants
  import opened Preservation
  import opened Reach
  import opened ExecutionOrder
  import opened Guards
  import opened TopicSafety
  import opened Sequential
  import opened Progress

  function MemoryOf(m: Shared): Memory {
    Memory(map id | id in m.threads :: m.threads[id].local, m.values)
  }

  function LocalOf(m: Shared, id: ActivityId): Local { if id in m.threads then m.threads[id].local else [] }

  function ActsOf(m: Shared, id: ActivityId): nat { if id in m.threads then m.threads[id].acts else 0 }

  function ActsIn(m: Shared): Lengths { map id | id in m.threads :: m.threads[id].acts }

  /** The step of id has begun in this cycle; it has finished in this cycle. */
  predicate Began(c: Config, s: State, id: ActivityId) {
    Reaches(c, s, id) && s.lanes[c.owner[id]].Valid() && StepsBegun(c, s, id) >= s.cycle
  }

  predicate Over(c: Config, s: State, id: ActivityId) {
    Reaches(c, s, id) && s.lanes[c.owner[id]].Valid() && StepsDone(c, s, id) >= s.cycle
  }

  /** Activity a agrees with the sequential run: before its step nothing of it has changed, and
      during and after it is where the same number of actions takes it alone, starting from the
      memory its predecessors leave. */
  ghost predicate Row(p: Program, m0: Memory, before: Memory, a: ActivityId, began: bool, over: bool, m: Shared) {
    if !began then
      LocalOf(m, a) == LocalIn(m0, a)
      && forall t :: t in m.values && t in m0.values && Writes(p, a, t) ==> m.values[t] == m0.values[t]
    else
      a in m.threads
      && var d := DataRun(p, a, StartData(p, a, before), m.threads[a].acts);
         && m.threads[a].local == d.local
         && (forall t :: t in m.values && t in d.values && Writes(p, a, t) ==> m.values[t] == d.values[t])
         && (over ==> p.next(a, d.local) == Finish(true))
  }

  ghost predicate Agrees(c: Config, order: seq<ActivityId>, n: Lengths, m0: Memory, s: State) {
    && s.shared.values.Keys == m0.values.Keys
    && (forall i :: 0 <= i < |order| ==>
          Row(c.program, m0, InOrder(c.program, order[..i], m0, n), order[i],
              Began(c, s, order[i]), Over(c, s, order[i]), s.shared))
    && (forall t :: t in m0.values && (forall a :: a in order ==> !Writes(c.program, a, t)) ==>
          s.shared.values[t] == m0.values[t])
  }

  ghost predicate SoleWriter(p: Program, order: seq<ActivityId>) {
    forall t, i, j :: 0 <= i < |order| && 0 <= j < |order| && Writes(p, order[i], t) && Writes(p, order[j], t) ==>
                        order[i] == order[j]
  }

  // ----- one access -----

  lemma ActSelf(p: Program, m0: Memory, before: Memory, a: ActivityId, m: Shared)
    requires Row(p, m0, before, a, true, false, m) && CanAct(p, m, a)
    requires before.values.Keys == m.values.Keys
    requires var d := DataRun(p, a, StartData(p, a, before), m.threads[a].acts);
             p.next(a, m.threads[a].local).Load? ==>
               var t := p.next(a, m.threads[a].local).topic; t in d.values && m.values[t] == d.values[t]
    ensures Row(p, m0, before, a, true, false, Act(p, m, a))
  {
    var d := DataRun(p, a, StartData(p, a, before), m.threads[a].acts);
    var x := p.next(a, d.local);
    if x.Store? {
      assert IsWrite(x, x.topic);
      DataRunFrame(p, a, StartData(p, a, before), m.threads[a].acts, x.topic);
    }
  }

  lemma ActOther(p: Program, m0: Memory, before: Memory, a: ActivityId, b: ActivityId, began: bool, over: bool, m: Shared)
    requires Row(p, m0, before, b, began, over, m) && CanAct(p, m, a) && a != b
    requires forall t :: Writes(p, a, t) ==> !Writes(p, b, t)
    ensures Row(p, m0, before, b, began, over, Act(p, m, a))
  {
    var x := p.next(a, m.threads[a].local);
    if x.Store? { assert IsWrite(x, x.topic) && Writes(p, a, x.topic); }
  }

  /** A topic keeps its value from the step of its writer on. */
  lemma {:induction false} ValueKept(p: Program, order: seq<ActivityId>, j: nat, i: nat, m0: Memory, n: Lengths, t: Topic)
    requires j < i <= |order| && t in m0.values
    requires forall k :: j < k < i ==> !Writes(p, order[k], t)
    ensures InOrder(p, order[..i], m0, n).values.Keys == m0.values.Keys
    ensures InOrder(p, order[..j + 1], m0, n).values.Keys == m0.values.Keys
    ensures InOrder(p, order[..i], m0, n).values[t] == InOrder(p, order[..j + 1], m0, n).values[t]
    decreases i
  {
    InOrderKeys(p, order[..i], m0, n);
    InOrderKeys(p, order[..j + 1], m0, n);
    if j + 1 < i {
      var k := i - 1;
      ValueKept(p, order, j, k, m0, n, t);
      assert order[..i][..k] == order[..k];
      DataRunFrame(p, order[k], StartData(p, order[k], InOrder(p, order[..k], m0, n)), LengthOf(n, order[k]), t);
    }
  }

  /** What the writer's finished step left in topic t, seen from a later place in the order. */
  lemma WriterValue(p: Program, order: seq<ActivityId>, j: nat, i: nat, m0: Memory, n: Lengths, m: Shared, t: Topic)
    requires j < i <= |order| && t in m0.values && t in m.values
    requires forall k :: j < k < i ==> !Writes(p, order[k], t)
    requires Writes(p, order[j], t) && ActsOf(m, order[j]) == LengthOf(n, order[j])
    requires Row(p, m0, InOrder(p, order[..j], m0, n), order[j], true, true, m)
    ensures t in InOrder(p, order[..i], m0, n).values
    ensures m.values[t] == InOrder(p, order[..i], m0, n).values[t]
  {
    ValueKept(p, order, j, i, m0, n, t);
    assert order[..j + 1][..j] == order[..j];
    InOrderFrame(p, order[..j], m0, n, t);
    DataRunFrame(p, order[j], StartData(p, order[j], InOrder(p, order[..j], m0, n)), LengthOf(n, order[j]), t);
  }

  // ----- moves that are no accesses -----

  lemma EnterSelf(p: Program, m0: Memory, before: Memory, a: ActivityId, m: Shared)
    requires Row(p, m0, before, a, false, false, m)
    requires LocalIn(before, a) == LocalIn(m0, a) && before.values.Keys == m0.values.Keys
    requires forall t :: t in m0.values && Writes(p, a, t) ==> before.values[t] == m0.values[t]
    ensures Row(p, m0, before, a, true, false, Enter(p, m, a))
  {
  }

  lemma EnterOther(p: Program, m0: Memory, before: Memory, a: ActivityId, b: ActivityId, began: bool, over: bool, m: Shared)
    requires Row(p, m0, before, b, began, over, m) && a != b
    ensures Row(p, m0, before, b, began, over, Enter(p, m, a))
  {
  }

  lemma SameCallCounts(l: Lane, l': Lane, id: ActivityId)
    requires l.Valid() && SameCall(l, l')
    ensures l'.Begun(id) == l.Begun(id) && l'.Succeeded(id) == l.Succeeded(id)
  {
    assert l'.sent[..l.taken] == l.sent[..l.taken];
    assert l'.sent[..|l.answers|] == l.sent[..|l.answers|];
  }

  lemma SchedulerCounts(c: Config, s: State, x: Move, id: ActivityId)
    requires Enabled(c, s, x) && !IsWorkerMove(x) && x != BeginCycle
    requires forall w :: w in s.lanes ==> s.lanes[w].Valid()
    ensures var s' := Do(c, s, x);
            && s'.shared == s.shared && s'.cycle == s.cycle
            && Began(c, s', id) == Began(c, s, id) && Over(c, s', id) == Over(c, s, id)
  {
    SchedulerMove(c, s, x);
    if Reaches(c, s, id) {
      SameCallCounts(s.lanes[c.owner[id]], Do(c, s, x).lanes[c.owner[id]], id);
    }
  }

  lemma SchedulerAgrees(c: Config, order: seq<ActivityId>, n: Lengths, m0: Memory, s: State, x: Move)
    requires Agrees(c, order, n, m0, s)
    requires Enabled(c, s, x) && !IsWorkerMove(x) && x != BeginCycle
    requires forall w :: w in s.lanes ==> s.lanes[w].Valid()
    ensures Agrees(c, order, n, m0, Do(c, s, x))
  {
    var s' := Do(c, s, x);
    SchedulerMove(c, s, x);
    forall i | 0 <= i < |order|
      ensures Row(c.program, m0, InOrder(c.program, order[..i], m0, n), order[i],
                  Began(c, s', order[i]), Over(c, s', order[i]), s'.shared)
    {
      SchedulerCounts(c, s, x, order[i]);
    }
  }

  /** Where an activity stands in a cycle, by the numbers. */
  lemma InCycleCounts(c: Config, s: State, id: ActivityId)
    requires Inv(c, s) && s.phase.Stepping? && id in c.deps
    ensures Known(c, s, id)
    ensures s.cycle - 1 <= StepsDone(c, s, id) <= StepsBegun(c, s, id) <= s.cycle
    ensures id in Active(c, s) ==> Began(c, s, id) && !Over(c, s, id)
  {
    AllKnown(c, s, id);
    StepBounds(c, s, id);
    if id in Active(c, s) { StepInProgress(c, s, id); }
  }

  lemma TakeCounts(c: Config, s: State, w: WorkerId, id: ActivityId)
    requires Known(c, s, id) && CanTake(s, w)
    ensures var r := s.lanes[w].sent[s.lanes[w].taken];
            var s' := AfterTake(c, s, w);
            && Known(c, s', id)
            && StepsDone(c, s', id) == StepsDone(c, s, id)
            && StepsBegun(c, s', id)
               == StepsBegun(c, s, id) + if r.Step? && r.id == id && c.owner[id] == w then 1 else 0
  {
    if c.owner[id] == w {
      var l := s.lanes[w];
      TakeView(l, id);
      StepsConcat(l.Begun(id), Mine(l.sent[l.taken], id));
    }
  }

  lemma AnswerCounts(c: Config, s: State, w: WorkerId, ok: bool, error: ActivityError, id: ActivityId)
    requires Known(c, s, id) && CanAnswer(c, s, w, ok)
    ensures var r := s.lanes[w].Current();
            var s' := AfterAnswer(c, s, w, ok, error);
            && Known(c, s', id)
            && StepsBegun(c, s', id) == StepsBegun(c, s, id)
            && StepsDone(c, s', id)
               == StepsDone(c, s, id) + if r.Step? && ok && r.id == id && c.owner[id] == w then 1 else 0
  {
    if c.owner[id] == w {
      var l := s.lanes[w];
      var x := AnswerTo(l.Current(), c.agentOf[w], ok, error);
      AnswerView(l, x, id);
      StepsConcat(l.Succeeded(id), if x.Ready? then Mine(l.Current(), id) else []);
    }
  }

  lemma NoEarlierWriter(p: Program, order: seq<ActivityId>, i: nat, t: Topic)
    requires i < |order| && SoleWriter(p, order) && Writes(p, order[i], t)
    requires forall j, k :: 0 <= j < k < |order| ==> order[j] != order[k]
    ensures forall b :: b in order[..i] ==> !Writes(p, b, t)
  {
    forall b | b in order[..i] ensures !Writes(p, b, t) {
      var j :| 0 <= j < i && order[j] == b;
      assert order[j] != order[i];
    }
  }

  lemma EnterRow(c: Config, order: seq<ActivityId>, n: Lengths, m0: Memory, i: nat, m: Shared)
    requires i < |order| && Topological(c.deps, order) && SoleWriter(c.program, order)
    requires Row(c.program, m0, InOrder(c.program, order[..i], m0, n), order[i], false, false, m)
    ensures Row(c.program, m0, InOrder(c.program, order[..i], m0, n), order[i], true, false, Enter(c.program, m, order[i]))
  {
    var a, before := order[i], InOrder(c.program, order[..i], m0, n);
    InOrderLocals(c.program, order[..i], m0, n, a);
    InOrderKeys(c.program, order[..i], m0, n);
    forall t | t in m0.values && Writes(c.program, a, t) ensures before.values[t] == m0.values[t] {
      NoEarlierWriter(c.program, order, i, t);
      InOrderFrame(c.program, order[..i], m0, n, t);
    }
    EnterSelf(c.program, m0, before, a, m);
  }

  /** The new call's place in the cycle. */
  lemma TakenStep(c: Config, s: State, w: WorkerId, a: ActivityId)
    requires Inv(c, s) && s.phase.Stepping? && CanTake(s, w) && a in c.deps
    ensures var r := s.lanes[w].sent[s.lanes[w].taken];
            var s' := AfterTake(c, s, w);
            && (r.Step? && r.id == a ==> !Began(c, s, a) && !Over(c, s, a) && Began(c, s', a) && !Over(c, s', a))
            && (!(r.Step? && r.id == a) ==> Began(c, s', a) == Began(c, s, a) && Over(c, s', a) == Over(c, s, a))
  {
    assert LaneOk(c, w, s.lanes[w]);
    var r := s.lanes[w].sent[s.lanes[w].taken];
    assert IsRequest(r) ==> Addressed(c, w, r);
    InCycleCounts(c, s, a);
    TakeCounts(c, s, w, a);
    TakeKeeps(c, s, w);
    InCycleCounts(c, AfterTake(c, s, w), a);
  }

  lemma TakeAgrees(c: Config, order: seq<ActivityId>, n: Lengths, m0: Memory, s: State, w: WorkerId)
    requires Inv(c, s) && s.phase.Stepping? && CanTake(s, w)
    requires Topological(c.deps, order) && SoleWriter(c.program, order) && Agrees(c, order, n, m0, s)
    ensures Agrees(c, order, n, m0, AfterTake(c, s, w))
  {
    var s' := AfterTake(c, s, w);
    var r := s.lanes[w].sent[s.lanes[w].taken];
    forall i | 0 <= i < |order|
      ensures Row(c.program, m0, InOrder(c.program, order[..i], m0, n), order[i],
                  Began(c, s', order[i]), Over(c, s', order[i]), s'.shared)
    {
      TakenStep(c, s, w, order[i]);
      if r.Step? {
        if r.id == order[i] {
          EnterRow(c, order, n, m0, i, s.shared);
        } else {
          EnterOther(c.program, m0, InOrder(c.program, order[..i], m0, n), r.id, order[i],
                     Began(c, s, order[i]), Over(c, s, order[i]), s.shared);
        }
      }
    }
  }

  lemma Underway(c: Config, s: State, w: WorkerId, a: ActivityId)
    requires Inv(c, s) && s.phase.Stepping? && a in c.deps
    ensures Known(c, s, a) && (InStep(s, w, a) && c.owner[a] == w ==> Began(c, s, a))
  {
    AllKnown(c, s, a);
    if InStep(s, w, a) && c.owner[a] == w {
      assert a in Active(c, s);
      InCycleCounts(c, s, a);
    }
  }

  lemma AnsweredCounts(c: Config, s: State, w: WorkerId, ok: bool, error: ActivityError, a: ActivityId)
    requires Known(c, s, a) && CanAnswer(c, s, w, ok)
    requires InStep(s, w, a) && c.owner[a] == w ==> Began(c, s, a)
    ensures var s' := AfterAnswer(c, s, w, ok, error);
            && Began(c, s', a) == Began(c, s, a)
            && (Over(c, s', a) && !Over(c, s, a) ==>
                  InStep(s, w, a) && Began(c, s, a) && CanFinish(c.program, s.shared, a, true))
            && (Over(c, s, a) ==> Over(c, s', a))
  {
    AnswerCounts(c, s, w, ok, error, a);
  }

  lemma AnswerAgrees(c: Config, order: seq<ActivityId>, n: Lengths, m0: Memory, s: State, w: WorkerId, ok: bool,
                     error: ActivityError)
    requires Inv(c, s) && s.phase.Stepping? && CanAnswer(c, s, w, ok)
    requires Topological(c.deps, order) && Agrees(c, order, n, m0, s)
    ensures Agrees(c, order, n, m0, AfterAnswer(c, s, w, ok, error))
  {
    var s' := AfterAnswer(c, s, w, ok, error);
    forall i | 0 <= i < |order|
      ensures Row(c.program, m0, InOrder(c.program, order[..i], m0, n), order[i],
                  Began(c, s', order[i]), Over(c, s', order[i]), s'.shared)
    {
      Underway(c, s, w, order[i]);
      AnsweredCounts(c, s, w, ok, error, order[i]);
    }
  }

  // ----- accesses -----

  /** Finished steps have taken as many actions as the sequential run gives them. */
  ghost predicate Settled(c: Config, order: seq<ActivityId>, n: Lengths, s: State) {
    forall a :: a in order && Over(c, s, a) ==> ActsOf(s.shared, a) == LengthOf(n, a)
  }

  lemma WriterIsOver(c: Config, s: State, a: ActivityId, b: ActivityId)
    requires Valid(c) && Reachable(c, s) && s.phase.Stepping? && a in Active(c, s) && DependsOn(c.deps, a, b)
    ensures Began(c, s, b) && Over(c, s, b)
  {
    ReachableInv(c, s);
    InCycleCounts(c, s, a);
    TransitiveOrder(c, s, a, b);
    InCycleCounts(c, s, b);
  }

  /** A value read from another activity's topic is the one the sequential run reads. */
  lemma ReadsWritten(c: Config, order: seq<ActivityId>, n: Lengths, m0: Memory, s: State, i: nat, b: ActivityId, t: Topic)
    requires Valid(c) && Reachable(c, s) && Disciplined(c) && s.phase.Stepping?
    requires Topological(c.deps, order) && SoleWriter(c.program, order)
    requires Agrees(c, order, n, m0, s) && Settled(c, order, n, s)
    requires i < |order| && order[i] in Active(c, s) && t in m0.values
    requires b in order && Writes(c.program, b, t) && DependsOn(c.deps, order[i], b)
    ensures var d := InOrder(c.program, order[..i], m0, n).values; t in d && s.shared.values[t] == d[t]
  {
    WriterIsOver(c, s, order[i], b);
    DependencyBefore(c.deps, order, i, b);
    var j :| 0 <= j < i && order[j] == b;
    WriterValue(c.program, order, j, i, m0, n, s.shared, t);
  }

  lemma ReadsUnwritten(c: Config, order: seq<ActivityId>, n: Lengths, m0: Memory, s: State, i: nat, t: Topic)
    requires Agrees(c, order, n, m0, s) && i <= |order| && t in m0.values
    requires forall a :: a in order ==> !Writes(c.program, a, t)
    ensures var d := InOrder(c.program, order[..i], m0, n).values; t in d && s.shared.values[t] == d[t]
  {
    InOrderFrame(c.program, order[..i], m0, n, t);
  }

  /** Whatever the active activity loads, the sequential run loads the same. */
  lemma LoadSees(c: Config, order: seq<ActivityId>, n: Lengths, m0: Memory, s: State, i: nat, t: Topic)
    requires Valid(c) && Reachable(c, s) && Disciplined(c) && s.phase.Stepping?
    requires Topological(c.deps, order) && SoleWriter(c.program, order)
    requires Agrees(c, order, n, m0, s) && Settled(c, order, n, s)
    requires i < |order| && order[i] in Active(c, s) && Began(c, s, order[i]) && GuardInv(c, s)
    requires HoldsGuard(s.shared, order[i], t) && t in m0.values
    ensures var before := InOrder(c.program, order[..i], m0, n);
            var d := DataRun(c.program, order[i], StartData(c.program, order[i], before), s.shared.threads[order[i]].acts);
            t in d.values && s.shared.values[t] == d.values[t]
  {
    var a, before := order[i], InOrder(c.program, order[..i], m0, n);
    InOrderKeys(c.program, order[..i], m0, n);
    DataRunFrame(c.program, a, StartData(c.program, a, before), s.shared.threads[a].acts, t);
    if !Writes(c.program, a, t) {
      assert GuardsOk(c.program, Active(c, s), s.shared.cells[t], t);
      assert Reads(c.program, a, t);
      if b :| b in order && Writes(c.program, b, t) {
        ReadsWritten(c, order, n, m0, s, i, b, t);
      } else {
        ReadsUnwritten(c, order, n, m0, s, i, t);
      }
    }
  }

  lemma AccessRow(c: Config, order: seq<ActivityId>, n: Lengths, m0: Memory, s: State, w: WorkerId, i: nat)
    requires Valid(c) && Reachable(c, s) && Disciplined(c) && s.phase.Stepping?
    requires Topological(c.deps, order) && SoleWriter(c.program, order)
    requires Agrees(c, order, n, m0, s) && Settled(c, order, n, s)
    requires CanAccess(c, s, w) && i < |order| && order[i] == s.lanes[w].Current().id
    requires GuardInv(c, s) && order[i] in Active(c, s) && Began(c, s, order[i]) && !Over(c, s, order[i])
    ensures Row(c.program, m0, InOrder(c.program, order[..i], m0, n), order[i], true, false,
                Act(c.program, s.shared, order[i]))
  {
    var a := order[i];
    InOrderKeys(c.program, order[..i], m0, n);
    var x := c.program.next(a, s.shared.threads[a].local);
    if x.Load? { LoadSees(c, order, n, m0, s, i, x.topic); }
    ActSelf(c.program, m0, InOrder(c.program, order[..i], m0, n), a, s.shared);
  }

  lemma ActUnwritten(p: Program, order: seq<ActivityId>, a: ActivityId, m: Shared, t: Topic)
    requires CanAct(p, m, a) && a in order && t in m.values && forall b :: b in order ==> !Writes(p, b, t)
    ensures Act(p, m, a).values.Keys == m.values.Keys && Act(p, m, a).values[t] == m.values[t]
  {
    var x := p.next(a, m.threads[a].local);
    if x.Store? { assert IsWrite(x, x.topic) && Writes(p, a, x.topic); }
  }

  lemma ActKeys(p: Program, a: ActivityId, m: Shared)
    requires CanAct(p, m, a)
    ensures Act(p, m, a).values.Keys == m.values.Keys
  {
  }

  lemma AccessRows(c: Config, order: seq<ActivityId>, n: Lengths, m0: Memory, s: State, w: WorkerId, i: nat)
    requires Valid(c) && Reachable(c, s) && Disciplined(c) && s.phase.Stepping?
    requires Topological(c.deps, order) && SoleWriter(c.program, order)
    requires Agrees(c, order, n, m0, s) && Settled(c, order, n, s) && CanAccess(c, s, w) && i < |order|
    requires GuardInv(c, s) && s.lanes[w].Current().id in Active(c, s) && s.lanes[w].Current().id in order
    ensures Row(c.program, m0, InOrder(c.program, order[..i], m0, n), order[i],
                Began(c, s, order[i]), Over(c, s, order[i]), Act(c.program, s.shared, s.lanes[w].Current().id))
  {
    var a := s.lanes[w].Current().id;
    if order[i] == a {
      ActiveCounts(c, s, a);
      AccessRow(c, order, n, m0, s, w, i);
    } else {
      OtherTopics(c.program, order, a, order[i]);
      ActOther(c.program, m0, InOrder(c.program, order[..i], m0, n), a, order[i],
               Began(c, s, order[i]), Over(c, s, order[i]), s.shared);
    }
  }

  lemma AccessUnwritten(c: Config, order: seq<ActivityId>, n: Lengths, m0: Memory, s: State, a: ActivityId)
    requires Agrees(c, order, n, m0, s) && CanAct(c.program, s.shared, a) && a in order
    ensures var m := Act(c.program, s.shared, a);
            m.values.Keys == m0.values.Keys
            && forall t :: t in m0.values && (forall b :: b in order ==> !Writes(c.program, b, t)) ==>
                 m.values[t] == m0.values[t]
  {
    ActKeys(c.program, a, s.shared);
    forall t | t in m0.values && (forall b :: b in order ==> !Writes(c.program, b, t))
      ensures Act(c.program, s.shared, a).values[t] == m0.values[t]
    {
      ActUnwritten(c.program, order, a, s.shared, t);
    }
  }

  lemma AgreesShared(c: Config, order: seq<ActivityId>, n: Lengths, m0: Memory, s: State, m: Shared)
    requires m.values.Keys == m0.values.Keys
    requires forall i :: 0 <= i < |order| ==>
      Row(c.program, m0, InOrder(c.program, order[..i], m0, n), order[i], Began(c, s, order[i]), Over(c, s, order[i]), m)
    requires forall t :: t in m0.values && (forall a :: a in order ==> !Writes(c.program, a, t)) ==>
      m.values[t] == m0.values[t]
    ensures Agrees(c, order, n, m0, s.(shared := m))
  {
    var s' := s.(shared := m);
    forall a ensures Began(c, s', a) == Began(c, s, a) && Over(c, s', a) == Over(c, s, a) {}
  }

  lemma AccessAgrees(c: Config, order: seq<ActivityId>, n: Lengths, m0: Memory, s: State, w: WorkerId)
    requires Valid(c) && Reachable(c, s) && Disciplined(c) && s.phase.Stepping?
    requires Topological(c.deps, order) && SoleWriter(c.program, order)
    requires Agrees(c, order, n, m0, s) && Settled(c, order, n, s) && CanAccess(c, s, w)
    ensures Agrees(c, order, n, m0, AfterAccess(c, s, w))
  {
    ReachableParts(c, s);
    StepOwner(c, s, w);
    var a := s.lanes[w].Current().id;
    AccessUnwritten(c, order, n, m0, s, a);
    forall i | 0 <= i < |order| { AccessRows(c, order, n, m0, s, w, i); }
    AgreesShared(c, order, n, m0, s, Act(c.program, s.shared, a));
  }

  lemma ActiveCounts(c: Config, s: State, a: ActivityId)
    requires Valid(c) && Reachable(c, s) && s.phase.Stepping? && a in Active(c, s)
    ensures Began(c, s, a) && !Over(c, s, a)
  {
    ReachableInv(c, s);
    InCycleCounts(c, s, a);
  }

  lemma OtherTopics(p: Program, order: seq<ActivityId>, a: ActivityId, b: ActivityId)
    requires SoleWriter(p, order) && a in order && b in order && a != b
    ensures forall t :: Writes(p, a, t) ==> !Writes(p, b, t)
  {
  }

  // ----- whole cycles -----

  lemma ActOthers(p: Program, m: Shared, id: ActivityId, a: ActivityId)
    requires CanAct(p, m, id) && a != id
    ensures ActsOf(Act(p, m, id), a) == ActsOf(m, a)
  {
  }

  lemma OverTake(c: Config, s: State, w: WorkerId, a: ActivityId)
    requires Inv(c, s) && s.phase.Stepping? && CanTake(s, w) && a in c.deps && Over(c, s, a)
    ensures Over(c, AfterTake(c, s, w), a)
    ensures var r := s.lanes[w].sent[s.lanes[w].taken]; !(r.Step? && r.id == a)
  {
    TakenStep(c, s, w, a);
  }

  lemma TakeOthers(c: Config, s: State, w: WorkerId, a: ActivityId)
    requires CanTake(s, w)
    requires var r := s.lanes[w].sent[s.lanes[w].taken]; !(r.Step? && r.id == a)
    ensures ActsOf(AfterTake(c, s, w).shared, a) == ActsOf(s.shared, a)
  {
  }

  lemma OverAccess(c: Config, s: State, w: WorkerId, a: ActivityId)
    requires Inv(c, s) && s.phase.Stepping? && CanAccess(c, s, w) && a in c.deps && Over(c, s, a)
    ensures ActsOf(AfterAccess(c, s, w).shared, a) == ActsOf(s.shared, a)
  {
    InCycleCounts(c, s, a);
    StepOwner(c, s, w);
    ActOthers(c.program, s.shared, s.lanes[w].Current().id, a);
  }

  lemma OverWorker(c: Config, s: State, x: Move, a: ActivityId)
    requires Inv(c, s) && s.phase.Stepping? && Enabled(c, s, x) && IsWorkerMove(x) && a in c.deps && Over(c, s, a)
    ensures Over(c, Do(c, s, x), a) && ActsOf(Do(c, s, x).shared, a) == ActsOf(s.shared, a)
  {
    match x
    case Take(w) =>
      OverTake(c, s, w, a);
      TakeOthers(c, s, w, a);
    case Access(w) => OverAccess(c, s, w, a);
    case Answer(w, ok, error) =>
      Underway(c, s, w, a);
      AnsweredCounts(c, s, w, ok, error, a);
  }

  /** Once a step is over, its activity is left alone until the next cycle. */
  lemma OverStays(c: Config, s: State, x: Move, a: ActivityId)
    requires Inv(c, s) && s.phase.Stepping? && Enabled(c, s, x) && x != BeginCycle && a in c.deps && Over(c, s, a)
    ensures Over(c, Do(c, s, x), a) && ActsOf(Do(c, s, x).shared, a) == ActsOf(s.shared, a)
  {
    if IsWorkerMove(x) { OverWorker(c, s, x, a); } else { OverScheduler(c, s, x, a); }
  }

  lemma OverScheduler(c: Config, s: State, x: Move, a: ActivityId)
    requires LanesOk(c, s) && Enabled(c, s, x) && x != BeginCycle && !IsWorkerMove(x) && Over(c, s, a)
    ensures Over(c, Do(c, s, x), a) && ActsOf(Do(c, s, x).shared, a) == ActsOf(s.shared, a)
  {
    LanesValid(c, s);
    SchedulerCounts(c, s, x, a);
  }

  lemma {:induction false} OverUntilEnd(c: Config, s: State, moves: seq<Move>, s': State, a: ActivityId)
    requires Inv(c, s) && Run(c, s, moves, s') && InCycle(moves) && s'.phase.Stepping?
    requires a in c.deps && Over(c, s, a)
    ensures ActsOf(s'.shared, a) == ActsOf(s.shared, a)
    decreases |moves|
  {
    if moves != [] {
      ReadyAdvances(c, s, moves, s');
      OverStays(c, s, moves[0], a);
      MoveKeepsInv(c, s, moves[0]);
      OverUntilEnd(c, Do(c, s, moves[0]), moves[1..], s', a);
    }
  }

  lemma WorkerAgrees(c: Config, order: seq<ActivityId>, n: Lengths, m0: Memory, s: State, x: Move)
    requires Valid(c) && Reachable(c, s) && Inv(c, s) && Disciplined(c) && s.phase.Stepping?
    requires Topological(c.deps, order) && SoleWriter(c.program, order)
    requires Agrees(c, order, n, m0, s) && Settled(c, order, n, s) && Enabled(c, s, x) && IsWorkerMove(x)
    ensures Agrees(c, order, n, m0, Do(c, s, x))
  {
    match x
    case Take(w) => TakeAgrees(c, order, n, m0, s, w);
    case Access(w) => AccessAgrees(c, order, n, m0, s, w);
    case Answer(w, ok, error) => AnswerAgrees(c, order, n, m0, s, w, ok, error);
  }

  lemma LanesValid(c: Config, s: State)
    requires LanesOk(c, s)
    ensures forall w :: w in s.lanes ==> s.lanes[w].Valid()
  {
    forall w | w in s.lanes ensures s.lanes[w].Valid() { assert LaneOk(c, w, s.lanes[w]); }
  }

  lemma MoveAgrees(c: Config, order: seq<ActivityId>, n: Lengths, m0: Memory, s: State, x: Move)
    requires Valid(c) && Reachable(c, s) && Inv(c, s) && Disciplined(c) && s.phase.Stepping?
    requires Topological(c.deps, order) && SoleWriter(c.program, order)
    requires Agrees(c, order, n, m0, s) && Settled(c, order, n, s) && Enabled(c, s, x) && x != BeginCycle
    ensures Agrees(c, order, n, m0, Do(c, s, x))
  {
    if IsWorkerMove(x) {
      WorkerAgrees(c, order, n, m0, s, x);
    } else {
      LanesValid(c, s);
      SchedulerAgrees(c, order, n, m0, s, x);
    }
  }

  lemma SettledBefore(c: Config, order: seq<ActivityId>, s: State, moves: seq<Move>, s': State)
    requires Inv(c, s) && Run(c, s, moves, s') && InCycle(moves) && s'.phase.Stepping?
    requires forall a :: a in order ==> a in c.deps
    ensures Settled(c, order, ActsIn(s'.shared), s)
  {
    forall a | a in order && Over(c, s, a) ensures ActsOf(s.shared, a) == LengthOf(ActsIn(s'.shared), a) {
      OverUntilEnd(c, s, moves, s', a);
    }
  }

  lemma {:induction false} RunAgrees(c: Config, order: seq<ActivityId>, m0: Memory, s: State, moves: seq<Move>, s': State)
    requires Valid(c) && Reachable(c, s) && Disciplined(c)
    requires Topological(c.deps, order) && SoleWriter(c.program, order)
    requires Run(c, s, moves, s') && InCycle(moves) && s'.phase.Stepping?
    requires Agrees(c, order, ActsIn(s'.shared), m0, s)
    ensures Agrees(c, order, ActsIn(s'.shared), m0, s')
    decreases |moves|
  {
    if moves != [] {
      ReachableInv(c, s);
      ReadyAdvances(c, s, moves, s');
      SettledBefore(c, order, s, moves, s');
      MoveAgrees(c, order, ActsIn(s'.shared), m0, s, moves[0]);
      NextReachable(c, s, moves[0]);
      RunAgrees(c, order, m0, Do(c, s, moves[0]), moves[1..], s');
    }
  }

  lemma NotBegun(c: Config, s: State, a: ActivityId)
    requires Inv(c, s) && CanBeginCycle(s) && a in c.deps
    ensures !Began(c, AfterBeginCycle(s), a)
  {
    AllKnown(c, s, a);
    StepBounds(c, s, a);
  }

  /** At the beginning of a cycle nothing has happened yet. */
  lemma BeginAgrees(c: Config, order: seq<ActivityId>, n: Lengths, s: State)
    requires Inv(c, s) && CanBeginCycle(s) && forall a :: a in order ==> a in c.deps
    ensures Agrees(c, order, n, MemoryOf(s.shared), AfterBeginCycle(s))
  {
    forall i | 0 <= i < |order| { NotBegun(c, s, order[i]); }
  }

  lemma FinalValue(c: Config, order: seq<ActivityId>, n: Lengths, m0: Memory, s: State, t: Topic)
    requires Agrees(c, order, n, m0, s) && SoleWriter(c.program, order) && t in m0.values
    requires Topological(c.deps, order)
    requires forall a :: a in order ==> Began(c, s, a) && Over(c, s, a) && ActsOf(s.shared, a) == LengthOf(n, a)
    ensures t in InOrder(c.program, order, m0, n).values
    ensures s.shared.values[t] == InOrder(c.program, order, m0, n).values[t]
  {
    assert order[..|order|] == order;
    if a :| a in order && Writes(c.program, a, t) {
      var j :| 0 <= j < |order| && order[j] == a;
      WriterValue(c.program, order, j, |order|, m0, n, s.shared, t);
    } else {
      ReadsUnwritten(c, order, n, m0, s, |order|, t);
    }
  }

  /** A single writer per topic makes the writers in the order unique. */
  lemma DisciplineSole(c: Config, order: seq<ActivityId>)
    requires Disciplined(c) && forall i :: 0 <= i < |order| ==> order[i] in c.deps
    ensures SoleWriter(c.program, order)
  {
  }

  lemma AllOver(c: Config, s: State, a: ActivityId)
    requires Inv(c, s) && s.phase.Stepping? && AllReady(s.flags) && a in c.deps
    ensures Began(c, s, a) && Over(c, s, a)
  {
    AllKnown(c, s, a);
    StepBounds(c, s, a);
    assert s.flags[a].ready;
  }

  lemma FinalLocal(c: Config, order: seq<ActivityId>, n: Lengths, m0: Memory, s: State, a: ActivityId)
    requires Agrees(c, order, n, m0, s) && Topological(c.deps, order) && a in c.deps
    requires Began(c, s, a) && Over(c, s, a) && ActsOf(s.shared, a) == LengthOf(n, a)
    ensures var m := InOrder(c.program, order, m0, n);
            LocalOf(s.shared, a) == LocalIn(m, a) && c.program.next(a, LocalIn(m, a)) == Finish(true)
  {
    var i :| 0 <= i < |order| && order[i] == a;
    EachPlace(c.program, order, m0, n, i);
  }

  lemma CycleAgrees(c: Config, s: State, moves: seq<Move>, s': State, order: seq<ActivityId>)
    requires Valid(c) && Reachable(c, s) && Disciplined(c) && CanBeginCycle(s)
    requires Run(c, AfterBeginCycle(s), moves, s') && InCycle(moves) && s'.phase.Stepping?
    requires Topological(c.deps, order)
    ensures SoleWriter(c.program, order) && Inv(c, s')
    ensures Agrees(c, order, ActsIn(s'.shared), MemoryOf(s.shared), s')
  {
    DisciplineSole(c, order);
    ReachableInv(c, s);
    BeginAgrees(c, order, ActsIn(s'.shared), s);
    NextReachable(c, s, BeginCycle);
    RunAgrees(c, order, MemoryOf(s.shared), AfterBeginCycle(s), moves, s');
    BeginCycleKeeps(c, s);
    RunKeepsInv(c, AfterBeginCycle(s), moves, s');
  }

  lemma EndAgrees(c: Config, order: seq<ActivityId>, m0: Memory, s: State)
    requires Inv(c, s) && s.phase.Stepping? && AllReady(s.flags)
    requires Topological(c.deps, order) && SoleWriter(c.program, order)
    requires Agrees(c, order, ActsIn(s.shared), m0, s)
    ensures var m := InOrder(c.program, order, m0, ActsIn(s.shared));
            && m.values == s.shared.values
            && forall a :: a in c.deps ==>
                 LocalOf(s.shared, a) == LocalIn(m, a) && c.program.next(a, LocalIn(m, a)) == Finish(true)
  {
    var n := ActsIn(s.shared);
    var m := InOrder(c.program, order, m0, n);
    forall a | a in c.deps ensures Began(c, s, a) && Over(c, s, a) { AllOver(c, s, a); }
    forall a | a in c.deps
      ensures LocalOf(s.shared, a) == LocalIn(m, a) && c.program.next(a, LocalIn(m, a)) == Finish(true)
    {
      FinalLocal(c, order, n, m0, s, a);
    }
    InOrderKeys(c.program, order, m0, n);
    forall t | t in m0.values ensures s.shared.values[t] == m.values[t] { FinalValue(c, order, n, m0, s, t); }
  }

  /** A cycle run from state s to the point where all activities are ready. */
  ghost predicate CompleteCycle(c: Config, s: State, moves: seq<Move>, s': State) {
    CanBeginCycle(s) && Run(c, AfterBeginCycle(s), moves, s') && InCycle(moves) && s'.phase.Stepping? && AllReady(s'.flags)
  }

  /** Determinism: under single-writer topics whose readers depend on the writer, take any run of
      a whole cycle without failures, whatever the interleaving of workers, accesses and
      signals. For every legal order the steps run one by one, with as many actions as they took,
      all finish and leave exactly the topic values and activity states of the run. */
  lemma CycleIsSequential(c: Config, s: State, moves: seq<Move>, s': State, order: seq<ActivityId>)
    requires Valid(c) && Reachable(c, s) && Disciplined(c) && CompleteCycle(c, s, moves, s')
    requires Legal(c.deps, {}, order)
    ensures var m := InOrder(c.program, order, MemoryOf(s.shared), ActsIn(s'.shared));
            && m.values == s'.shared.values
            && forall a :: a in c.deps ==>
                 && LocalOf(s'.shared, a) == LocalIn(m, a)
                 && c.program.next(a, LocalIn(m, a)) == Finish(true)
  {
    LegalIsTopological(c.deps, order);
    CycleAgrees(c, s, moves, s', order);
    EndAgrees(c, order, MemoryOf(s.shared), s');
  }

  lemma AllFinish(c: Config, order: seq<ActivityId>, m0: Memory, n: Lengths)
    requires Topological(c.deps, order)
    requires forall a :: a in c.deps ==> c.program.next(a, LocalIn(InOrder(c.program, order, m0, n), a)) == Finish(true)
    ensures Finishes(c.program, order, m0, n)
  {
    forall i | 0 <= i < |order| ensures FinishesAt(c.program, order, m0, n, i) {
      EachPlace(c.program, order, m0, n, i);
    }
  }

  lemma SequentialAgree(c: Config, order: seq<ActivityId>, m0: Memory, n1: Lengths, n2: Lengths)
    requires Legal(c.deps, {}, order)
    requires forall a :: a in c.deps ==> c.program.next(a, LocalIn(InOrder(c.program, order, m0, n1), a)) == Finish(true)
    requires forall a :: a in c.deps ==> c.program.next(a, LocalIn(InOrder(c.program, order, m0, n2), a)) == Finish(true)
    ensures InOrder(c.program, order, m0, n1) == InOrder(c.program, order, m0, n2)
  {
    LegalIsTopological(c.deps, order);
    AllFinish(c, order, m0, n1);
    AllFinish(c, order, m0, n2);
    assert order[..|order|] == order;
    SameResult(c.program, order, m0, n1, n2, |order|);
  }

  /** Only an acyclic graph lets a cycle complete. */
  lemma CompleteMeansAcyclic(c: Config, s: State, moves: seq<Move>, s': State)
    requires Valid(c) && Reachable(c, s) && CompleteCycle(c, s, moves, s')
    ensures Acyclic(c.deps)
  {
    CycleBegun(c, s);
    RunReachable(c, AfterBeginCycle(s), moves, s');
    Shape(c, s');
    CycleBegun(c, s');
    OnlyAcyclicCompletes(c, AfterBeginCycle(s'));
  }

  /** So all complete runs of a cycle from one state agree, whichever way they interleave. */
  lemma RunsAgree(c: Config, s: State, moves1: seq<Move>, s1: State, moves2: seq<Move>, s2: State)
    requires Valid(c) && Reachable(c, s) && Disciplined(c)
    requires CompleteCycle(c, s, moves1, s1) && CompleteCycle(c, s, moves2, s2)
    ensures s1.shared.values == s2.shared.values
    ensures forall a :: a in c.deps ==> LocalOf(s1.shared, a) == LocalOf(s2.shared, a)
  {
    CompleteMeansAcyclic(c, s, moves1, s1);
    var order := OrderExists(c.deps);
    CycleIsSequential(c, s, moves1, s1, order);
    CycleIsSequential(c, s, moves2, s2, order);
    SequentialAgree(c, order, MemoryOf(s.shared), ActsIn(s1.shared), ActsIn(s2.shared));
  }
}
