/** When a cycle makes progress, when it ends, and which activities never run. */
module Progress {
  import opened Signals
  import opened Graphs
  import opened Lanes
  import opened Protocol
  import opened Invariants
  import opened Preservation
  import opened ExecutionOrder

  function ReadySet(flags: map<ActivityId, Flags>): set<ActivityId> {
    set id | id in flags && flags[id].ready
  }

  /** The flags after every activity whose dependencies are ready has been triggered. */
  function Stepped(c: Config, flags: map<ActivityId, Flags>): map<ActivityId, Flags>
    requires flags.Keys == c.deps.Keys
  {
    map id | id in flags ::
      flags[id].(triggered := flags[id].triggered || DepsReady(c, flags, id))
  }

  /** On an acyclic graph stepping never stalls: while some activity is not ready, there is one
      that is triggered and has not answered yet. */
  lemma AlwaysWorking(c: Config, flags: map<ActivityId, Flags>) returns (id: ActivityId)
    requires flags.Keys == c.deps.Keys && Acyclic(c.deps) && !AllReady(flags)
    ensures id in flags && Stepped(c, flags)[id].triggered && !flags[id].ready
  {
    var unready := set a | a in flags && !flags[a].ready;
    var x :| x in flags && !flags[x].ready;
    assert x in unready;
    id := Least(c.deps, unready);
    assert DepsReady(c, flags, id);
  }

  lemma NotReadyYet(phase: Phase, cycle: nat, id: ActivityId, f: Flags, v: View)
    requires (phase == Starting({}) || phase.Stepping?) && ViewOk(phase, cycle, id, f, v) && v.open != []
    ensures !f.ready
  {
  }

  lemma HeadNotReady(c: Config, s: State, w: WorkerId)
    requires CanReceiveReady(s, w) && LaneOk(c, w, s.lanes[w]) && LanePhaseOk(s.phase, w, s.lanes[w])
    requires ActivityOk(c, s, Head(s, w).id)
    ensures !s.flags[Head(s, w).id].ready
  {
    var id := Head(s, w).id;
    HeadOwned(c, s, w);
    ViewAfterReceive(c, s, w, id);
    NotReadyYet(s.phase, s.cycle, id, s.flags[id], ViewOf(s.lanes[c.owner[id]], id));
  }

  lemma ReadySetGrows(flags: map<ActivityId, Flags>, id: ActivityId)
    requires id in flags && !flags[id].ready
    ensures var r := ReadySet(flags[id := flags[id].(ready := true, everReady := true)]);
            r == ReadySet(flags) + {id} && |r| == |ReadySet(flags)| + 1
  {
    assert ReadySet(flags[id := flags[id].(ready := true, everReady := true)]) == ReadySet(flags) + {id};
  }

  /** Every Ready received in the loops is news: its activity was not ready yet. */
  lemma ReadyIsNews(c: Config, s: State, w: WorkerId)
    requires Inv(c, s) && CanReceiveReady(s, w)
    ensures !s.flags[Head(s, w).id].ready
    ensures |ReadySet(AfterReceiveReady(s, w).flags)| == |ReadySet(s.flags)| + 1
  {
    assert LaneOk(c, w, s.lanes[w]) && LanePhaseOk(s.phase, w, s.lanes[w]);
    assert ActivityOk(c, s, Head(s, w).id);
    HeadNotReady(c, s, w);
    ReadySetGrows(s.flags, Head(s, w).id);
  }

  function ReadyCount(moves: seq<Move>): nat {
    if moves == [] then 0 else (if moves[0].ReceiveReady? then 1 else 0) + ReadyCount(moves[1..])
  }

  predicate InCycle(moves: seq<Move>) { BeginCycle !in moves }

  /** Apart from Ready signals only the beginning of a cycle touches the ready flags, and
      stepping cannot be resumed once it has been left. */
  lemma QuietMove(c: Config, s: State, x: Move)
    requires Enabled(c, s, x) && x != BeginCycle && !x.ReceiveReady?
    ensures ReadySet(Do(c, s, x).flags) == ReadySet(s.flags)
    ensures Do(c, s, x).phase.Stepping? ==> s.phase.Stepping?
  {
  }

  lemma MoveAdvances(c: Config, s: State, x: Move)
    requires Inv(c, s) && Enabled(c, s, x) && x != BeginCycle
    ensures |ReadySet(Do(c, s, x).flags)| == |ReadySet(s.flags)| + ReadyCount([x])
    ensures Do(c, s, x).phase.Stepping? ==> s.phase.Stepping?
  {
    assert [x][1..] == [];
    if x.ReceiveReady? { ReadyIsNews(c, s, x.worker); } else { QuietMove(c, s, x); }
  }

  lemma {:induction false} ReadyAdvances(c: Config, s: State, moves: seq<Move>, s': State)
    requires Inv(c, s) && Run(c, s, moves, s') && InCycle(moves) && s'.phase.Stepping?
    ensures s.phase.Stepping? && |ReadySet(s'.flags)| == |ReadySet(s.flags)| + ReadyCount(moves)
    decreases |moves|
  {
    if moves != [] {
      MoveKeepsInv(c, s, moves[0]);
      ReadyAdvances(c, Do(c, s, moves[0]), moves[1..], s');
      MoveAdvances(c, s, moves[0]);
      assert [moves[0]][1..] == [];
    }
  }

  lemma AllReadyByCount(flags: map<ActivityId, Flags>)
    ensures AllReady(flags) <==> |ReadySet(flags)| == |flags|
  {
    assert |flags| == |flags.Keys|;
    if AllReady(flags) {
      assert ReadySet(flags) == flags.Keys;
    } else {
      assert ReadySet(flags) < flags.Keys;
      SmallerSet(ReadySet(flags), flags.Keys);
    }
  }

  lemma ClearedSet(flags: map<ActivityId, Flags>)
    ensures ReadySet(Cleared(flags)) == {}
  {
  }

  lemma CountFromCleared(c: Config, s: State, moves: seq<Move>, s': State)
    requires Inv(c, s) && ReadySet(s.flags) == {}
    requires Run(c, s, moves, s') && InCycle(moves) && s'.phase.Stepping?
    ensures AllReady(s'.flags) <==> ReadyCount(moves) == |c.deps|
  {
    ReadyAdvances(c, s, moves, s');
    RunKeepsInv(c, s, moves, s');
    AllReadyByCount(s'.flags);
    assert |s'.flags| == |s'.flags.Keys| == |c.deps.Keys|;
  }

  /** A failure-free cycle ends after exactly as many Ready signals as there are activities. */
  lemma CycleLength(c: Config, s: State, moves: seq<Move>, s': State)
    requires Valid(c) && Reachable(c, s) && CanBeginCycle(s)
    requires Run(c, AfterBeginCycle(s), moves, s') && InCycle(moves) && s'.phase.Stepping?
    ensures AllReady(s'.flags) <==> ReadyCount(moves) == |c.deps|
  {
    ReachableInv(c, s);
    BeginCycleKeeps(c, s);
    ClearedSet(s.flags);
    CountFromCleared(c, AfterBeginCycle(s), moves, s');
  }

  // ----- cyclic graphs -----

  /** On or downstream of a dependency cycle: every member depends on another member. */
  ghost predicate Stuck(deps: Dependencies, among: set<ActivityId>) {
    among <= deps.Keys && forall a :: a in among ==> DependsInto(deps, among, a)
  }

  /** Members of a stuck set have not moved in the first cycle, and there is no second. */
  ghost predicate Untouched(s: State, among: set<ActivityId>) {
    s.cycle <= 1 && (s.cycle == 1 ==>
      forall a :: a in among ==> a in s.flags && !s.flags[a].triggered && !s.flags[a].ready)
  }

  lemma HeadTriggered(c: Config, s: State, w: WorkerId)
    requires CanReceiveReady(s, w) && LaneOk(c, w, s.lanes[w]) && LanePhaseOk(s.phase, w, s.lanes[w])
    requires ActivityOk(c, s, Head(s, w).id) && s.phase.Stepping?
    ensures s.flags[Head(s, w).id].triggered
  {
    HeadOwned(c, s, w);
    ViewAfterReceive(c, s, w, Head(s, w).id);
  }

  lemma UntouchedAfterReady(c: Config, s: State, w: WorkerId, among: set<ActivityId>)
    requires CanReceiveReady(s, w) && Untouched(s, among)
    requires s.cycle == 1 ==> s.flags[Head(s, w).id].triggered
    ensures Untouched(AfterReceiveReady(s, w), among)
  {
  }

  lemma NewsIsTriggered(c: Config, s: State, w: WorkerId)
    requires Inv(c, s) && CanReceiveReady(s, w) && s.cycle > 0
    ensures s.flags[Head(s, w).id].triggered
  {
    assert LaneOk(c, w, s.lanes[w]) && LanePhaseOk(s.phase, w, s.lanes[w]);
    assert ActivityOk(c, s, Head(s, w).id);
    HeadTriggered(c, s, w);
  }

  lemma UntouchedAfterTrigger(c: Config, s: State, id: ActivityId, among: set<ActivityId>)
    requires CanTrigger(c, s, id) && Untouched(s, among) && Stuck(c.deps, among)
    ensures Untouched(AfterTrigger(c, s, id), among)
  {
    assert id in among ==> DependsInto(c.deps, among, id);
  }

  lemma UntouchedAfterBegin(c: Config, s: State, among: set<ActivityId>)
    requires PhaseOk(c, s) && CanBeginCycle(s) && Untouched(s, among) && Stuck(c.deps, among) && among != {}
    ensures Untouched(AfterBeginCycle(s), among)
  {
    var a :| a in among;
    assert a in s.flags;
  }

  lemma UntouchedMove(c: Config, s: State, x: Move, among: set<ActivityId>)
    requires Inv(c, s) && Enabled(c, s, x) && Untouched(s, among) && Stuck(c.deps, among) && among != {}
    ensures Untouched(Do(c, s, x), among)
  {
    match x
    case ReceiveReady(w) =>
      if s.cycle > 0 { NewsIsTriggered(c, s, w); }
      UntouchedAfterReady(c, s, w, among);
    case Trigger(id) => UntouchedAfterTrigger(c, s, id, among);
    case BeginCycle => UntouchedAfterBegin(c, s, among);
    case _ =>
  }

  lemma {:induction false} UntouchedRun(c: Config, s: State, moves: seq<Move>, s': State, among: set<ActivityId>)
    requires Inv(c, s) && Run(c, s, moves, s') && Untouched(s, among) && Stuck(c.deps, among) && among != {}
    ensures Untouched(s', among)
    decreases |moves|
  {
    if moves != [] {
      UntouchedMove(c, s, moves[0], among);
      MoveKeepsInv(c, s, moves[0]);
      UntouchedRun(c, Do(c, s, moves[0]), moves[1..], s', among);
    }
  }

  /** An activity on or downstream of a dependency cycle is never asked to step, and the first
      cycle never ends. */
  lemma CyclesNeverRun(c: Config, s: State, among: set<ActivityId>, a: ActivityId)
    requires Valid(c) && Reachable(c, s) && Stuck(c.deps, among) && a in among
    ensures s.cycle <= 1 && Known(c, s, a)
    ensures StepsIn(s.lanes[c.owner[a]].Asked(a)) == 0
  {
    UntouchedReachable(c, s, among);
    ReachableInv(c, s);
    AllKnown(c, s, a);
    LifeSteps(a, StepsAsked(s.cycle, s.flags[a]), Ended(s.phase, a, s.flags[a]));
  }

  lemma UntouchedReachable(c: Config, s: State, among: set<ActivityId>)
    requires Valid(c) && Reachable(c, s) && Stuck(c.deps, among) && among != {}
    ensures Untouched(s, among)
  {
    var s0, moves :| Initial(c, s0) && Run(c, s0, moves, s);
    InitialInv(c, s0);
    UntouchedRun(c, s0, moves, s, among);
  }

  /** On a dependency cycle, or depending on one. */
  ghost predicate BehindCycle(deps: Dependencies, a: ActivityId) {
    exists b :: DependsOn(deps, b, b) && (a == b || DependsOn(deps, a, b))
  }

  ghost function AllBehind(deps: Dependencies): set<ActivityId> {
    set a | a in deps && BehindCycle(deps, a)
  }

  lemma FirstHop(deps: Dependencies, a: ActivityId, b: ActivityId) returns (d: ActivityId)
    requires DependsOn(deps, a, b)
    ensures a in deps && d in deps && d in deps[a] && (d == b || DependsOn(deps, d, b))
  {
    var path :| PathFrom(deps, path, a, b) && |path| > 1;
    d := path[1];
    if |path| > 2 { SuffixPath(deps, path, 1); }
  }

  /** Whoever is behind a cycle depends on another activity behind a cycle. */
  lemma BehindIsStuck(deps: Dependencies)
    ensures Stuck(deps, AllBehind(deps))
  {
    forall a | a in AllBehind(deps) ensures DependsInto(deps, AllBehind(deps), a) {
      var b :| DependsOn(deps, b, b) && (a == b || DependsOn(deps, a, b));
      var d := FirstHop(deps, a, b);
      assert BehindCycle(deps, d);
    }
  }

  /** An activity on or downstream of a dependency cycle is never asked to step. */
  lemma NeverTriggered(c: Config, s: State, a: ActivityId)
    requires Valid(c) && Reachable(c, s) && BehindCycle(c.deps, a)
    ensures Known(c, s, a) && StepsIn(s.lanes[c.owner[a]].Asked(a)) == 0
  {
    var b :| DependsOn(c.deps, b, b) && (a == b || DependsOn(c.deps, a, b));
    var d := FirstHop(c.deps, a, b);
    BehindIsStuck(c.deps);
    CyclesNeverRun(c, s, AllBehind(c.deps), a);
  }

  /** A second cycle begins only on acyclic graphs. */
  lemma OnlyAcyclicCompletes(c: Config, s: State)
    requires Valid(c) && Reachable(c, s) && s.cycle >= 2
    ensures Acyclic(c.deps)
  {
    if a :| DependsOn(c.deps, a, a) {
      var d := FirstHop(c.deps, a, a);
      BehindIsStuck(c.deps);
      assert BehindCycle(c.deps, a);
      CyclesNeverRun(c, s, AllBehind(c.deps), a);
    }
  }
}
