/** The task chain synchronises topic access: under one writer per topic, and readers that
    depend on it, no reader step ever overlaps a writer step and no lock assertion fires. */
module TopicSafety {
  import opened Signals
  import opened AccessWord
  import opened Guards
  import opened Bodies
  import opened Graphs
  import opened Lanes
  import opened Protocol
  import opened Invariants
  import opened Preservation
  import opened ExecutionOrder

  /** The topic configuration the shared-memory backend relies on. */
  ghost predicate Disciplined(c: Config) {
    && (forall t, a, b :: a in c.deps && b in c.deps && Writes(c.program, a, t) && Writes(c.program, b, t) ==> a == b)
    && (forall t, a, b :: a in c.deps && b in c.deps && Reads(c.program, a, t) && Writes(c.program, b, t) ==>
          DependsOn(c.deps, a, b))
  }

  /** The activities whose `step()` is in progress. */
  function Active(c: Config, s: State): set<ActivityId> {
    set id | id in c.deps && id in c.owner && InStep(s, c.owner[id], id)
  }

  // ----- no overlap -----

  lemma BegunNotDone(l: Lane, id: ActivityId)
    requires l.Valid() && l.Busy() && l.Current().Step? && l.Current().id == id
    ensures StepsIn(l.Succeeded(id)) < StepsIn(l.Begun(id))
  {
    ViewOrder(l, id);
    OfNext(l.sent, |l.answers|, id);
    StepsConcat(Of(l.sent[..|l.answers|], id), [l.Current()]);
  }

  lemma StepInProgress(c: Config, s: State, id: ActivityId)
    requires Known(c, s, id) && id in Active(c, s)
    ensures StepsDone(c, s, id) < StepsBegun(c, s, id)
  {
    BegunNotDone(s.lanes[c.owner[id]], id);
  }

  /** Two steps in progress at the same time belong to activities neither of which depends on the other. */
  lemma NoOverlap(c: Config, s: State, a: ActivityId, b: ActivityId)
    requires Valid(c) && Reachable(c, s) && a in Active(c, s) && b in Active(c, s)
    ensures !DependsOn(c.deps, a, b)
  {
    if DependsOn(c.deps, a, b) {
      TransitiveOrder(c, s, a, b);
      CycleBarrier(c, s, b, a);
      StepInProgress(c, s, a);
      StepInProgress(c, s, b);
    }
  }

  ghost predicate Separate(c: Config, active: set<ActivityId>) {
    forall a, b :: a in active && b in active ==> !DependsOn(c.deps, a, b)
  }

  // ----- every reachable state -----

  lemma ActiveOwner(c: Config, s: State, w: WorkerId, id: ActivityId)
    requires Valid(c) && LanesOk(c, s) && InStep(s, w, id)
    ensures id in c.deps && c.owner[id] == w && id in Active(c, s)
  {
    assert LaneOk(c, w, s.lanes[w]);
    assert Addressed(c, w, s.lanes[w].Current());
  }

  lemma StepOwner(c: Config, s: State, w: WorkerId)
    requires Valid(c) && LanesOk(c, s) && CanAccess(c, s, w)
    ensures var id := s.lanes[w].Current().id; id in c.deps && c.owner[id] == w && id in Active(c, s)
  {
    ActiveOwner(c, s, w, s.lanes[w].Current().id);
  }

  /** The worker end of the lane is where it was. */
  predicate SameCall(l: Lane, l': Lane) {
    l'.Valid() == l.Valid() && l'.taken == l.taken && l'.answers == l.answers && l.sent <= l'.sent
  }

  lemma ActiveUnchanged(c: Config, s: State, s': State)
    requires s'.lanes.Keys == s.lanes.Keys
    requires forall w :: w in s.lanes ==> SameCall(s.lanes[w], s'.lanes[w])
    ensures Active(c, s') == Active(c, s)
  {
    forall id | id in c.deps && id in c.owner
      ensures InStep(s', c.owner[id], id) <==> InStep(s, c.owner[id], id)
    {
      if c.owner[id] in s.lanes { assert SameCall(s.lanes[c.owner[id]], s'.lanes[c.owner[id]]); }
    }
  }

  lemma SchedulerMove(c: Config, s: State, x: Move)
    requires Enabled(c, s, x) && !IsWorkerMove(x)
    requires forall w :: w in s.lanes ==> s.lanes[w].Valid()
    ensures var s' := Do(c, s, x);
            && s'.shared == s.shared && s'.lanes.Keys == s.lanes.Keys
            && forall w :: w in s.lanes ==> SameCall(s.lanes[w], s'.lanes[w])
  {
    match x
    case SendStartup(id) => SentLane(s.lanes[c.owner[id]], Startup(id, ()));
    case Trigger(id) => SentLane(s.lanes[c.owner[id]], Step(id, ()));
    case SendShutdown(id) => SentLane(s.lanes[c.owner[id]], Shutdown(id, ()));
    case SendTerminate(w) => SentLane(s.lanes[w], Terminate(()));
    case ReceiveReady(w) => ReceivedLane(s.lanes[w]);
    case ReceiveFailed(w) => ReceivedLane(s.lanes[w]);
    case Confirm(w) => ReceivedLane(s.lanes[w]);
    case ReceiveAck(w) => ReceivedLane(s.lanes[w]);
    case _ =>
  }

  lemma SentLane(l: Lane, x: Sig)
    requires l.Valid()
    ensures SameCall(l, l.Send(x))
  {
  }

  lemma ReceivedLane(l: Lane)
    requires l.Valid() && l.received < |l.answers|
    ensures SameCall(l, l.Receive())
  {
  }

  lemma ActiveAfterTake(c: Config, s: State, w: WorkerId)
    requires Valid(c) && LanesOk(c, s) && CanTake(s, w)
    ensures var r := s.lanes[w].sent[s.lanes[w].taken];
            Active(c, AfterTake(c, s, w)) == Active(c, s) + if r.Step? then {r.id} else {}
  {
    var s' := AfterTake(c, s, w);
    var r := s.lanes[w].sent[s.lanes[w].taken];
    assert LaneOk(c, w, s.lanes[w]);
    assert s'.lanes[w].Valid() && s'.lanes[w].Busy() && s'.lanes[w].Current() == r;
    assert IsRequest(r) ==> Addressed(c, w, r);
    forall id | id in c.deps && id in c.owner
      ensures InStep(s', c.owner[id], id) <==> InStep(s, c.owner[id], id) || (r.Step? && id == r.id)
    {
    }
  }

  lemma ActiveAfterAnswer(c: Config, s: State, w: WorkerId, ok: bool, error: ActivityError)
    requires Valid(c) && LanesOk(c, s) && CanAnswer(c, s, w, ok)
    ensures var r := s.lanes[w].Current();
            Active(c, AfterAnswer(c, s, w, ok, error)) == Active(c, s) - if r.Step? then {r.id} else {}
  {
    var s' := AfterAnswer(c, s, w, ok, error);
    var r := s.lanes[w].Current();
    assert LaneOk(c, w, s.lanes[w]);
    assert s'.lanes[w].Valid() && !s'.lanes[w].Busy();
    forall id | id in c.deps && id in c.owner
      ensures InStep(s', c.owner[id], id) <==> InStep(s, c.owner[id], id) && !(r.Step? && id == r.id)
    {
    }
  }

  ghost predicate GuardInv(c: Config, s: State) { SharedInv(c.program, Active(c, s), s.shared) }

  lemma SchedulerKeepsGuards(c: Config, s: State, x: Move)
    requires LanesOk(c, s) && GuardInv(c, s) && Enabled(c, s, x) && !IsWorkerMove(x)
    ensures GuardInv(c, Do(c, s, x))
  {
    assert forall w :: w in s.lanes ==> LaneOk(c, w, s.lanes[w]);
    SchedulerMove(c, s, x);
    ActiveUnchanged(c, s, Do(c, s, x));
  }

  lemma TakeKeepsGuards(c: Config, s: State, w: WorkerId)
    requires Valid(c) && LanesOk(c, s) && GuardInv(c, s) && CanTake(s, w)
    ensures GuardInv(c, AfterTake(c, s, w))
  {
    var r := s.lanes[w].sent[s.lanes[w].taken];
    ActiveAfterTake(c, s, w);
    if r.Step? {
      EnterKeeps(c.program, Active(c, s), s.shared, r.id);
    } else {
      assert Active(c, s) + {} == Active(c, s);
    }
  }

  lemma AccessKeepsGuards(c: Config, s: State, w: WorkerId)
    requires Valid(c) && LanesOk(c, s) && GuardInv(c, s) && CanAccess(c, s, w)
    ensures GuardInv(c, AfterAccess(c, s, w))
  {
    StepOwner(c, s, w);
    ActKeeps(c.program, Active(c, s), s.shared, s.lanes[w].Current().id);
    assert Active(c, AfterAccess(c, s, w)) == Active(c, s);
  }

  lemma AnswerKeepsGuards(c: Config, s: State, w: WorkerId, ok: bool, error: ActivityError)
    requires Valid(c) && LanesOk(c, s) && GuardInv(c, s) && CanAnswer(c, s, w, ok)
    ensures GuardInv(c, AfterAnswer(c, s, w, ok, error))
  {
    var r := s.lanes[w].Current();
    ActiveAfterAnswer(c, s, w, ok, error);
    if r.Step? {
      FinishKeeps(c.program, Active(c, s), s.shared, r.id, ok);
    } else {
      assert Active(c, s) - {} == Active(c, s);
    }
  }

  lemma WorkerKeepsGuards(c: Config, s: State, x: Move)
    requires Valid(c) && LanesOk(c, s) && GuardInv(c, s) && Enabled(c, s, x) && IsWorkerMove(x)
    ensures GuardInv(c, Do(c, s, x))
  {
    match x
    case Take(w) => TakeKeepsGuards(c, s, w);
    case Access(w) => AccessKeepsGuards(c, s, w);
    case Answer(w, ok, error) => AnswerKeepsGuards(c, s, w, ok, error);
  }

  lemma MoveKeepsGuards(c: Config, s: State, x: Move)
    requires Valid(c) && LanesOk(c, s) && GuardInv(c, s) && Enabled(c, s, x)
    ensures GuardInv(c, Do(c, s, x))
  {
    if IsWorkerMove(x) { WorkerKeepsGuards(c, s, x); } else { SchedulerKeepsGuards(c, s, x); }
  }

  lemma InitialGuards(c: Config, s: State)
    requires Initial(c, s)
    ensures GuardInv(c, s)
  {
    assert Active(c, s) == {};
  }

  lemma {:induction false} RunKeepsGuards(c: Config, s: State, moves: seq<Move>, s': State)
    requires Inv(c, s) && GuardInv(c, s) && Run(c, s, moves, s')
    ensures GuardInv(c, s')
    decreases |moves|
  {
    if moves != [] {
      MoveKeepsGuards(c, s, moves[0]);
      MoveKeepsInv(c, s, moves[0]);
      RunKeepsGuards(c, Do(c, s, moves[0]), moves[1..], s');
    }
  }

  lemma ReachableGuards(c: Config, s: State)
    requires Valid(c) && Reachable(c, s)
    ensures GuardInv(c, s)
  {
    var s0, moves :| Initial(c, s0) && Run(c, s0, moves, s);
    InitialInv(c, s0);
    InitialGuards(c, s0);
    RunKeepsGuards(c, s0, moves, s);
  }

  lemma ReachableParts(c: Config, s: State)
    requires Valid(c) && Reachable(c, s)
    ensures LanesOk(c, s) && GuardInv(c, s)
  {
    ReachableInv(c, s);
    ReachableGuards(c, s);
  }

  // ----- the theorems -----

  /** In no reachable state does a step that reads a topic overlap a step that writes it,
      nor do two different writers overlap. */
  lemma TopicExclusion(c: Config, s: State, a: ActivityId, b: ActivityId, t: Topic)
    requires Valid(c) && Reachable(c, s) && Disciplined(c)
    requires a in Active(c, s) && b in Active(c, s) && Writes(c.program, b, t)
    ensures !Reads(c.program, a, t)
    ensures Writes(c.program, a, t) ==> a == b
  {
    NoOverlap(c, s, a, b);
  }

  lemma NobodyElse(c: Config, s: State, id: ActivityId, t: Topic)
    requires Valid(c) && Reachable(c, s) && Disciplined(c) && GuardInv(c, s)
    requires id in Active(c, s) && t in s.shared.cells
    ensures Writes(c.program, id, t) ==> s.shared.cells[t].readers == multiset{}
    ensures Writes(c.program, id, t) && s.shared.cells[t].writer != Some(id) ==> s.shared.cells[t].writer == None
    ensures Reads(c.program, id, t) ==> s.shared.cells[t].writer == None
  {
    var cell := s.shared.cells[t];
    assert GuardsOk(c.program, Active(c, s), cell, t);
    if Writes(c.program, id, t) {
      forall u | u in cell.readers ensures false { TopicExclusion(c, s, u, id, t); }
      if cell.writer.Some? { TopicExclusion(c, s, cell.writer.value, id, t); }
    }
    if Reads(c.program, id, t) && cell.writer.Some? { TopicExclusion(c, s, id, cell.writer.value, t); }
  }

  lemma LockStepHere(c: Config, s: State, w: WorkerId)
    requires Valid(c) && LanesOk(c, s) && GuardInv(c, s) && CanAccess(c, s, w)
    ensures var id := s.lanes[w].Current().id;
            var a := c.program.next(id, s.shared.threads[id].local);
            && id in Active(c, s)
            && (LockOp(a).Some? ==> LockStep(c.program, Active(c, s), s.shared, id, a) && a.topic in s.shared.cells)
  {
    StepOwner(c, s, w);
    var id := s.lanes[w].Current().id;
    if LockOp(c.program.next(id, s.shared.threads[id].local)).Some? {
      LockPre(c.program, Active(c, s), s.shared, id);
    }
  }

  lemma PanicsExactly(c: Config, s: State, w: WorkerId)
    requires Valid(c) && Reachable(c, s) && Disciplined(c) && CanAccess(c, s, w)
    requires LanesOk(c, s) && GuardInv(c, s)
    ensures var id := s.lanes[w].Current().id;
            var a := c.program.next(id, s.shared.threads[id].local);
            LockOp(a).Some? ==>
              && a.topic in s.shared.cells
              && (Atomic(s.shared.cells[a.topic], id, LockOp(a).value, s.shared.threads[id].pc).Panic? <==>
                    a.OpenRead? && |s.shared.cells[a.topic].readers| == MAX - 1)
  {
    LockStepHere(c, s, w);
    var id := s.lanes[w].Current().id;
    var a := c.program.next(id, s.shared.threads[id].local);
    if LockOp(a).Some? {
      NobodyElse(c, s, id, a.topic);
      LockPanics(c.program, Active(c, s), s.shared, id, a);
    }
  }

  /** Under the task chain, the only assertion of the lock that can fire at all is the limit on
      readers, and it fires exactly when 65534 read guards of the topic are held. In particular
      the drop check of a sent write guard always passes. */
  lemma OnlyTooManyReaders(c: Config, s: State, w: WorkerId)
    requires Valid(c) && Reachable(c, s) && Disciplined(c) && CanAccess(c, s, w)
    ensures var id := s.lanes[w].Current().id;
            var a := c.program.next(id, s.shared.threads[id].local);
            AfterAccess(c, s, w).shared.panicked != s.shared.panicked <==>
              a.OpenRead? && |s.shared.cells[a.topic].readers| == MAX - 1
  {
    ReachableParts(c, s);
    PanicsExactly(c, s, w);
    ActPanics(c.program, s.shared, s.lanes[w].Current().id);
  }

  /** Fewer than 65534 read guards on every topic. */
  ghost predicate FewReaders(s: State) {
    forall t :: t in s.shared.cells ==> |s.shared.cells[t].readers| < MAX - 1
  }

  ghost predicate FewThroughout(c: Config, s: State, moves: seq<Move>)
    decreases |moves|
  {
    FewReaders(s) && (moves != [] ==> FewThroughout(c, Do(c, s, moves[0]), moves[1..]))
  }

  lemma QuietShared(c: Config, s: State, x: Move)
    requires Enabled(c, s, x) && !x.Access?
    ensures Do(c, s, x).shared.panicked == s.shared.panicked
  {
  }

  /** Topic safety of whole runs: no thread ever panics. */
  lemma {:induction false} NobodyPanics(c: Config, s: State, moves: seq<Move>, s': State)
    requires Valid(c) && Reachable(c, s) && Disciplined(c) && s.shared.panicked == {}
    requires Run(c, s, moves, s') && FewThroughout(c, s, moves)
    ensures s'.shared.panicked == {}
    decreases |moves|
  {
    if moves != [] {
      var x := moves[0];
      if x.Access? {
        ReachableParts(c, s);
        LockStepHere(c, s, x.worker);
        OnlyTooManyReaders(c, s, x.worker);
      } else {
        QuietShared(c, s, x);
      }
      NextReachable(c, s, x);
      NobodyPanics(c, Do(c, s, x), moves[1..], s');
    }
  }
}
