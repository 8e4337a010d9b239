/** The benchmark's configuration and its optimisation: chains become composite activities. */
module Configuration {
  import opened Signals
  import opened Graphs
  import opened Composites
  import opened Optimizer

  datatype ApplicationConfig = ApplicationConfig(
    primaryAgent: AgentId,
    agentAssignments: map<AgentId, set<WorkerId>>,
    workerAssignments: map<WorkerId, set<ActivityId>>,
    activityDeps: Dependencies,
    compositeActivities: map<ActivityId, Chain>)

  function Assigned(assignments: map<WorkerId, set<ActivityId>>): set<ActivityId> {
    set w, a | w in assignments && a in assignments[w] :: a
  }

  /** What `check_consistency` demands. */
  ghost predicate Consistent(c: ApplicationConfig) {
    && c.primaryAgent in c.agentAssignments
    && (set g, w | g in c.agentAssignments && w in c.agentAssignments[g] :: w) == c.workerAssignments.Keys
    && Assigned(c.workerAssignments) == c.activityDeps.Keys
    && forall a, d :: a in c.activityDeps && d in c.activityDeps[a] ==> d in c.activityDeps
  }

  /** Each assigned activity with a worker it is assigned to. */
  ghost predicate IsWorkerMap(assignments: map<WorkerId, set<ActivityId>>, workers: map<ActivityId, WorkerId>) {
    && workers.Keys == Assigned(assignments)
    && forall a :: a in workers ==> workers[a] in assignments && a in assignments[workers[a]]
  }

  /** Should an activity be assigned to several workers, the one visited last wins. */
  method ActivityWorkerMap(assignments: map<WorkerId, set<ActivityId>>) returns (workers: map<ActivityId, WorkerId>)
    ensures IsWorkerMap(assignments, workers)
  {
    workers := map[];
    var todo := assignments.Keys;
    while todo != {}
      invariant todo <= assignments.Keys
      invariant forall w, a :: w in assignments && w !in todo && a in assignments[w] ==> a in workers
      invariant forall a :: a in workers ==> workers[a] in assignments && a in assignments[workers[a]]
      decreases todo
    {
      var w :| w in todo;
      todo := todo - {w};
      workers := workers + map a | a in assignments[w] :: w;
    }
    assert forall a :: a in workers ==> a in Assigned(assignments);
  }

  // ----- one chain at a time -----

  /** A dependency list without the inner activities of the chain, the last one renamed to the first. */
  function AdaptDeps(chain: Chain, ds: seq<ActivityId>): seq<ActivityId>
    requires |chain| >= 2
  {
    if ds == [] then []
    else
      var rest := AdaptDeps(chain, ds[1..]);
      if ds[0] in chain[..|chain| - 1] then rest
      else [if ds[0] == chain[|chain| - 1] then chain[0] else ds[0]] + rest
  }

  function ReplaceInDeps(chain: Chain, deps: Dependencies): Dependencies
    requires |chain| >= 2
  {
    map k | k in deps && k !in chain[1..] :: AdaptDeps(chain, deps[k])
  }

  function ReplaceInAssignments(chain: Chain, assignments: map<WorkerId, set<ActivityId>>): map<WorkerId, set<ActivityId>>
    requires |chain| >= 2
  {
    map w | w in assignments :: set a | a in assignments[w] && a !in chain[1..]
  }

  /** The chains of cs replaced one after the other. */
  function ReplaceAll(cs: seq<Chain>, deps: Dependencies): Dependencies
    requires forall c :: c in cs ==> |c| >= 2
  {
    if cs == [] then deps else ReplaceInDeps(cs[|cs| - 1], ReplaceAll(cs[..|cs| - 1], deps))
  }

  lemma ChainedPrefix(deps: Dependencies, workers: map<ActivityId, WorkerId>, cs: seq<Chain>, n: nat)
    requires Chained(deps, workers, cs) && n <= |cs|
    ensures Chained(deps, workers, cs[..n])
  {
  }

  lemma AbsorbedSnoc(cs: seq<Chain>, c: Chain, a: ActivityId)
    requires |c| > 0
    ensures Absorbed(cs + [c], a) <==> Absorbed(cs, a) || a in c[1..]
  {
    assert c in cs + [c];
    assert forall e :: e in cs ==> e in cs + [c];
  }

  lemma RepSnoc(cs: seq<Chain>, c: Chain, a: ActivityId)
    requires |c| > 0
    ensures Rep(cs + [c], a) == if a in c then c[0] else Rep(cs, a)
  {
    assert (cs + [c])[..|cs|] == cs;
  }

  /** The chains before c have left the activities of c alone. */
  lemma RepBefore(deps: Dependencies, workers: map<ActivityId, WorkerId>, cs: seq<Chain>, c: Chain, d: ActivityId)
    requires Chained(deps, workers, cs + [c])
    ensures Chained(deps, workers, cs)
    ensures if d in c then Rep(cs, d) == d else Rep(cs, d) !in c
  {
    ChainedPrefix(deps, workers, cs + [c], |cs|);
    assert (cs + [c])[..|cs|] == cs;
    RepCases(deps, workers, cs, d);
    if e :| e in cs && d in e {
      var i :| 0 <= i < |cs| && cs[i] == e;
      assert (cs + [c])[i] == e && (cs + [c])[|cs|] == c;
      RepIn(deps, workers, cs, e, d);
      if e[0] in c { ChainsDisjoint(deps, workers, e, c, e[0]); }
      if d in c { ChainsDisjoint(deps, workers, e, c, d); }
    } else {
      RepOut(cs, d);
    }
  }

  /** Adapting a list of representatives to one more chain gives the new representatives: nothing
      is lost, because a dependency of a remaining activity is never inside the chain. */
  lemma {:induction false} AdaptsTo(deps: Dependencies, workers: map<ActivityId, WorkerId>, cs: seq<Chain>, c: Chain,
                                    k: ActivityId, ds: seq<ActivityId>)
    requires Chained(deps, workers, cs + [c]) && c in cs + [c] && |c| >= 2 && k in deps && k !in c[1..]
    requires forall d :: d in ds ==> d in deps[k]
    ensures AdaptDeps(c, MapRep(cs, ds)) == MapRep(cs + [c], ds)
    decreases |ds|
  {
    if ds != [] {
      var d := ds[0];
      AdaptsTo(deps, workers, cs, c, k, ds[1..]);
      assert MapRep(cs, ds)[1..] == MapRep(cs, ds[1..]);
      assert MapRep(cs + [c], ds)[1..] == MapRep(cs + [c], ds[1..]);
      RepBefore(deps, workers, cs, c, d);
      RepSnoc(cs, c, d);
      if d in c { EntryEdge(deps, workers, c, k, d); LastApart(deps, workers, c); }
      assert MapRep(cs + [c], ds) == [Rep(cs + [c], d)] + MapRep(cs + [c], ds[1..]);
    }
  }

  lemma LastApart(deps: Dependencies, workers: map<ActivityId, WorkerId>, c: Chain)
    requires Maximal(deps, workers, c)
    ensures c[|c| - 1] !in c[..|c| - 1]
  {
    NoRepeats(deps, workers, c);
  }

  /** Replacing one more chain turns the quotient by the chains so far into the quotient by all. */
  lemma ReplaceStep(deps: Dependencies, workers: map<ActivityId, WorkerId>, cs: seq<Chain>, c: Chain)
    requires Chained(deps, workers, cs + [c]) && |c| >= 2
    ensures ReplaceInDeps(c, Quotient(cs, deps)) == Quotient(cs + [c], deps)
  {
    assert c in cs + [c];
    forall k ensures Absorbed(cs + [c], k) <==> Absorbed(cs, k) || k in c[1..] { AbsorbedSnoc(cs, c, k); }
    forall k | k in deps && !Absorbed(cs, k) && k !in c[1..]
      ensures AdaptDeps(c, MapRep(cs, deps[k])) == MapRep(cs + [c], deps[k])
    {
      AdaptsTo(deps, workers, cs, c, k, deps[k]);
    }
  }

  lemma EmptyQuotient(deps: Dependencies)
    ensures Quotient([], deps) == deps
  {
    forall k | k in deps ensures MapRep([], deps[k]) == deps[k] {
    }
  }

  lemma {:induction false} ReplaceAllIsQuotient(deps: Dependencies, workers: map<ActivityId, WorkerId>, cs: seq<Chain>)
    requires Chained(deps, workers, cs)
    ensures ReplaceAll(cs, deps) == Quotient(cs, deps)
    decreases |cs|
  {
    if cs == [] {
      EmptyQuotient(deps);
    } else {
      var n := |cs| - 1;
      ChainedPrefix(deps, workers, cs, n);
      ReplaceAllIsQuotient(deps, workers, cs[..n]);
      assert cs == cs[..n] + [cs[n]];
      assert cs[n] in cs;
      ReplaceStep(deps, workers, cs[..n], cs[n]);
    }
  }

  lemma SameReps(deps: Dependencies, workers: map<ActivityId, WorkerId>, cs: seq<Chain>, es: seq<Chain>, a: ActivityId)
    requires Chained(deps, workers, cs) && Chained(deps, workers, es) && forall c :: c in cs <==> c in es
    ensures Rep(cs, a) == Rep(es, a)
  {
    if c :| c in cs && a in c {
      RepIn(deps, workers, cs, c, a);
      RepIn(deps, workers, es, c, a);
    } else {
      RepOut(cs, a);
      RepOut(es, a);
    }
  }

  /** The order in which the chains are processed does not matter. */
  lemma Confluent(deps: Dependencies, workers: map<ActivityId, WorkerId>, cs: seq<Chain>, es: seq<Chain>)
    requires Chained(deps, workers, cs) && Chained(deps, workers, es) && forall c :: c in cs <==> c in es
    ensures ReplaceAll(cs, deps) == ReplaceAll(es, deps)
  {
    ReplaceAllIsQuotient(deps, workers, cs);
    ReplaceAllIsQuotient(deps, workers, es);
    forall a ensures Absorbed(cs, a) <==> Absorbed(es, a) {
      RepCases(deps, workers, cs, a);
      RepCases(deps, workers, es, a);
      SameReps(deps, workers, cs, es, a);
    }
    forall k | k in deps && !Absorbed(cs, k) ensures MapRep(cs, deps[k]) == MapRep(es, deps[k]) {
      forall d { SameReps(deps, workers, cs, es, d); }
    }
  }

  // ----- the whole configuration -----

  /** The workers keep every activity that was not absorbed into a composite. */
  function Remaining(cs: seq<Chain>, assignments: map<WorkerId, set<ActivityId>>): map<WorkerId, set<ActivityId>> {
    map w | w in assignments :: set a | a in assignments[w] && !Absorbed(cs, a)
  }

  function CompositesOf(cs: seq<Chain>, composites: map<ActivityId, Chain>): map<ActivityId, Chain>
    requires forall c :: c in cs ==> |c| >= 2
  {
    if cs == [] then composites
    else CompositesOf(cs[..|cs| - 1], composites)[cs[|cs| - 1][0] := cs[|cs| - 1]]
  }

  /** Every chain is found under the id of its first activity. */
  lemma {:induction false} CompositesKeyed(deps: Dependencies, workers: map<ActivityId, WorkerId>, cs: seq<Chain>, c: Chain,
                                           composites: map<ActivityId, Chain>)
    requires Chained(deps, workers, cs) && c in cs && forall e :: e in cs ==> |e| >= 2
    ensures c[0] in CompositesOf(cs, composites) && CompositesOf(cs, composites)[c[0]] == c
    decreases |cs|
  {
    var n := |cs| - 1;
    if c != cs[n] {
      assert cs[n] in cs;
      if c[0] == cs[n][0] { ChainsDisjoint(deps, workers, c, cs[n], c[0]); }
      CompositesKeyed(deps, workers, cs[..n], c, composites);
    }
  }

  lemma RemainingSnoc(cs: seq<Chain>, c: Chain, assignments: map<WorkerId, set<ActivityId>>)
    requires |c| >= 2
    ensures ReplaceInAssignments(c, Remaining(cs, assignments)) == Remaining(cs + [c], assignments)
  {
    forall a ensures Absorbed(cs + [c], a) <==> Absorbed(cs, a) || a in c[1..] { AbsorbedSnoc(cs, c, a); }
    var one, all := ReplaceInAssignments(c, Remaining(cs, assignments)), Remaining(cs + [c], assignments);
    forall w | w in assignments ensures one[w] == all[w] {
      assert forall a :: a in one[w] <==> a in assignments[w] && !Absorbed(cs, a) && a !in c[1..];
    }
  }

  lemma NothingReplaced(c: ApplicationConfig)
    ensures Quotient([], c.activityDeps) == c.activityDeps
    ensures Remaining([], c.workerAssignments) == c.workerAssignments
  {
    EmptyQuotient(c.activityDeps);
    forall w | w in c.workerAssignments ensures Remaining([], c.workerAssignments)[w] == c.workerAssignments[w] {
    }
  }

  lemma ConsistentPlaced(c: ApplicationConfig, workers: map<ActivityId, WorkerId>)
    requires Consistent(c) && IsWorkerMap(c.workerAssignments, workers)
    ensures Placed(c.activityDeps, workers)
  {
  }

  /** What the optimised configuration is, whatever the order in which chains are found and worked off. */
  ghost predicate Optimized(c: ApplicationConfig, workers: map<ActivityId, WorkerId>, cs: seq<Chain>, o: ApplicationConfig) {
    && IsWorkerMap(c.workerAssignments, workers)
    && Chained(c.activityDeps, workers, cs)
    && (forall chain :: Maximal(c.activityDeps, workers, chain) ==> chain in cs)
    && o.primaryAgent == c.primaryAgent && o.agentAssignments == c.agentAssignments
    && o.activityDeps == Quotient(cs, c.activityDeps)
    && o.workerAssignments == Remaining(cs, c.workerAssignments)
    && o.compositeActivities == CompositesOf(cs, c.compositeActivities)
  }

  /** Every worker has exactly those of its activities that are still scheduled. */
  ghost predicate SameButScheduled(c: ApplicationConfig, o: ApplicationConfig) {
    && o.workerAssignments.Keys == c.workerAssignments.Keys
    && forall w, a :: w in c.workerAssignments ==>
         (a in o.workerAssignments[w] <==> a in c.workerAssignments[w] && a in o.activityDeps)
  }

  lemma OneMore(c: ApplicationConfig, workers: map<ActivityId, WorkerId>, chains: seq<Chain>, i: nat)
    requires Chained(c.activityDeps, workers, chains) && i < |chains|
    ensures |chains[i]| >= 2 && forall chain :: chain in chains[..i + 1] ==> |chain| >= 2
    ensures ReplaceInDeps(chains[i], Quotient(chains[..i], c.activityDeps)) == Quotient(chains[..i + 1], c.activityDeps)
    ensures ReplaceInAssignments(chains[i], Remaining(chains[..i], c.workerAssignments))
            == Remaining(chains[..i + 1], c.workerAssignments)
    ensures CompositesOf(chains[..i], c.compositeActivities)[chains[i][0] := chains[i]]
            == CompositesOf(chains[..i + 1], c.compositeActivities)
  {
    var chain := chains[i];
    assert chain in chains;
    ChainedPrefix(c.activityDeps, workers, chains, i + 1);
    assert chains[..i + 1] == chains[..i] + [chain];
    assert chains[..i + 1][..i] == chains[..i];
    ReplaceStep(c.activityDeps, workers, chains[..i], chain);
    RemainingSnoc(chains[..i], chain, c.workerAssignments);
    assert forall e :: e in chains[..i + 1] ==> Maximal(c.activityDeps, workers, e);
  }

  method OptimizeComposite(c: ApplicationConfig)
    returns (o: ApplicationConfig, ghost workers: map<ActivityId, WorkerId>, ghost cs: seq<Chain>)
    requires Consistent(c)
    ensures Optimized(c, workers, cs, o) && Consistent(o) && SameButScheduled(c, o)
  {
    var placed := ActivityWorkerMap(c.workerAssignments);
    ConsistentPlaced(c, placed);
    var chains := FindComposites(c.activityDeps, placed);
    workers, cs := placed, chains;
    var dependencies, assignments, composites := c.activityDeps, c.workerAssignments, c.compositeActivities;
    NothingReplaced(c);
    assert chains[..0] == [];
    for i := 0 to |chains|
      invariant forall chain :: chain in chains[..i] ==> |chain| >= 2
      invariant dependencies == Quotient(chains[..i], c.activityDeps)
      invariant assignments == Remaining(chains[..i], c.workerAssignments)
      invariant composites == CompositesOf(chains[..i], c.compositeActivities)
    {
      var chain := chains[i];
      OneMore(c, placed, chains, i);
      dependencies := ReplaceInDeps(chain, dependencies);
      assignments := ReplaceInAssignments(chain, assignments);
      composites := composites[chain[0] := chain];
    }
    assert chains[..|chains|] == chains;
    o := ApplicationConfig(c.primaryAgent, c.agentAssignments, assignments, dependencies, composites);
    ConsistencyKept(c, placed, chains, o);
    AssignmentsExact(c, placed, chains, o);
  }

  /** Every worker keeps exactly those of its activities that are still scheduled, and gets no other. */
  lemma AssignmentsExact(c: ApplicationConfig, workers: map<ActivityId, WorkerId>, cs: seq<Chain>, o: ApplicationConfig)
    requires Consistent(c) && Optimized(c, workers, cs, o)
    ensures SameButScheduled(c, o)
  {
    forall w, a | w in c.workerAssignments
      ensures a in o.workerAssignments[w] <==> a in c.workerAssignments[w] && a in o.activityDeps
    {
      if a in c.workerAssignments[w] { assert a in Assigned(c.workerAssignments); }
    }
  }

  lemma AssignedKept(assignments: map<WorkerId, set<ActivityId>>, cs: seq<Chain>, a: ActivityId)
    ensures a in Assigned(Remaining(cs, assignments)) <==> a in Assigned(assignments) && !Absorbed(cs, a)
  {
    if a in Assigned(assignments) && !Absorbed(cs, a) {
      var w :| w in assignments && a in assignments[w];
      assert a in Remaining(cs, assignments)[w];
    }
  }

  lemma AllAssignedKept(assignments: map<WorkerId, set<ActivityId>>, deps: Dependencies, cs: seq<Chain>)
    requires Assigned(assignments) == deps.Keys
    ensures Assigned(Remaining(cs, assignments)) == Quotient(cs, deps).Keys
  {
    forall a { AssignedKept(assignments, cs, a); }
    assert forall a :: a in Quotient(cs, deps) <==> a in deps && !Absorbed(cs, a);
  }

  lemma DepsKept(deps: Dependencies, workers: map<ActivityId, WorkerId>, cs: seq<Chain>, a: ActivityId, d: ActivityId)
    requires Chained(deps, workers, cs) && a in Quotient(cs, deps) && d in Quotient(cs, deps)[a]
    requires forall x :: x in deps[a] ==> x in deps
    ensures d in Quotient(cs, deps)
  {
    var i :| 0 <= i < |deps[a]| && d == Rep(cs, deps[a][i]);
    RepKey(deps, workers, cs, deps[a][i]);
  }

  /** The optimised configuration passes the consistency check again. */
  lemma ConsistencyKept(c: ApplicationConfig, workers: map<ActivityId, WorkerId>, cs: seq<Chain>, o: ApplicationConfig)
    requires Consistent(c) && Optimized(c, workers, cs, o)
    ensures Consistent(o)
  {
    AllAssignedKept(c.workerAssignments, c.activityDeps, cs);
    assert o.workerAssignments.Keys == c.workerAssignments.Keys;
    forall a, d | a in o.activityDeps && d in o.activityDeps[a] ensures d in o.activityDeps {
      DepsKept(c.activityDeps, workers, cs, a, d);
    }
  }

  // ----- what the composites run -----

  /** The activities that run when k is stepped. */
  function Members(cs: seq<Chain>, k: ActivityId): Chain {
    if cs == [] then [k]
    else if cs[|cs| - 1] != [] && cs[|cs| - 1][0] == k then cs[|cs| - 1]
    else Members(cs[..|cs| - 1], k)
  }

  lemma {:induction false} MembersAre(cs: seq<Chain>, k: ActivityId)
    requires forall c :: c in cs ==> |c| > 0
    ensures var m := Members(cs, k);
            if m in cs then m[0] == k else m == [k] && forall c :: c in cs ==> c[0] != k
    decreases |cs|
  {
    if cs != [] {
      var n := |cs| - 1;
      assert cs[n] in cs;
      if cs[n][0] != k {
        MembersAre(cs[..n], k);
        assert forall c :: c in cs ==> c in cs[..n] || c == cs[n];
      }
    }
  }

  lemma MembersShape(deps: Dependencies, workers: map<ActivityId, WorkerId>, cs: seq<Chain>, k: ActivityId)
    requires Chained(deps, workers, cs)
    ensures var m := Members(cs, k);
            if m in cs then Maximal(deps, workers, m) && m[0] == k else m == [k] && forall c :: c in cs ==> c[0] != k
  {
    assert forall c :: c in cs ==> Maximal(deps, workers, c);
    MembersAre(cs, k);
  }

  /** Exactly the activities represented by k run when k is stepped. */
  lemma MembersExact(deps: Dependencies, workers: map<ActivityId, WorkerId>, cs: seq<Chain>, k: ActivityId, a: ActivityId)
    requires Chained(deps, workers, cs) && !Absorbed(cs, k)
    ensures a in Members(cs, k) <==> Rep(cs, a) == k
  {
    var m := Members(cs, k);
    MembersShape(deps, workers, cs, k);
    if m in cs {
      if a in m { RepIn(deps, workers, cs, m, a); }
      if Rep(cs, a) == k { SameChain(deps, workers, cs, m, a); }
    } else {
      RepCases(deps, workers, cs, k);
      RepCases(deps, workers, cs, a);
    }
  }

  /** Each of them runs once, and all on the worker of k. */
  lemma MembersOnce(deps: Dependencies, workers: map<ActivityId, WorkerId>, cs: seq<Chain>, k: ActivityId)
    requires Chained(deps, workers, cs) && k in workers
    ensures var m := Members(cs, k);
            && (forall i, j :: 0 <= i < j < |m| ==> m[i] != m[j])
            && (forall i :: 0 <= i < |m| ==> m[i] in workers && workers[m[i]] == workers[k])
  {
    var m := Members(cs, k);
    MembersShape(deps, workers, cs, k);
    MembersDistinct(deps, workers, cs, k);
    if m in cs {
      forall i | 0 <= i < |m| { OneWorker(deps, workers, m, i); }
    }
  }

  /** An order of the optimised graph with each composite replaced by its chain. */
  function Expand(cs: seq<Chain>, order: seq<ActivityId>): seq<ActivityId> {
    if order == [] then [] else Members(cs, order[0]) + Expand(cs, order[1..])
  }

  function Elements(m: seq<ActivityId>): set<ActivityId> { set a | a in m }

  /** The j-th of m is new and allowed once `done` and those before it have run. */
  ghost predicate InTurn(deps: Dependencies, done: set<ActivityId>, m: seq<ActivityId>, j: nat)
    requires j < |m|
  {
    && m[j] in deps && m[j] !in done + Elements(m[..j])
    && forall d :: d in deps[m[j]] && d in deps ==> d in done + Elements(m[..j])
  }

  /** A run of new activities, each allowed after the previous ones. */
  lemma {:induction false} RunMembers(deps: Dependencies, done: set<ActivityId>, m: seq<ActivityId>, i: nat,
                                      rest: seq<ActivityId>)
    requires i <= |m| && Legal(deps, done + Elements(m), rest)
    requires forall j :: 0 <= j < |m| ==> InTurn(deps, done, m, j)
    ensures Legal(deps, done + Elements(m[..i]), m[i..] + rest)
    decreases |m| - i
  {
    if i == |m| {
      assert m[..i] == m && m[i..] + rest == rest;
    } else {
      RunMembers(deps, done, m, i + 1, rest);
      NextElement(done, m, i);
      assert m[i..] + rest == [m[i]] + (m[i + 1..] + rest);
      assert InTurn(deps, done, m, i);
      LegalCons(deps, done + Elements(m[..i]), m[i], m[i + 1..] + rest);
    }
  }

  lemma NextElement(done: set<ActivityId>, m: seq<ActivityId>, i: nat)
    requires i < |m|
    ensures done + Elements(m[..i + 1]) == done + Elements(m[..i]) + {m[i]}
  {
    assert m[..i + 1] == m[..i] + [m[i]];
  }

  lemma LegalCons(deps: Dependencies, done: set<ActivityId>, a: ActivityId, rest: seq<ActivityId>)
    requires a in deps && a !in done && Legal(deps, done + {a}, rest)
    requires forall d :: d in deps[a] && d in deps ==> d in done
    ensures Legal(deps, done, [a] + rest)
  {
    assert ([a] + rest)[1..] == rest;
  }

  /** done and done' say the same of the original and of the optimised graph. */
  ghost predicate SameProgress(cs: seq<Chain>, deps: Dependencies, done: set<ActivityId>, done': set<ActivityId>) {
    done <= deps.Keys && forall a :: a in deps ==> (a in done <==> Rep(cs, a) in done')
  }

  /** k may run in the optimised graph. */
  ghost predicate Enabled(cs: seq<Chain>, deps: Dependencies, done': set<ActivityId>, k: ActivityId) {
    && k in Quotient(cs, deps) && k !in done'
    && forall d :: d in Quotient(cs, deps)[k] && d in Quotient(cs, deps) ==> d in done'
  }

  lemma MemberInGraph(deps: Dependencies, workers: map<ActivityId, WorkerId>, cs: seq<Chain>, k: ActivityId, j: nat)
    requires Chained(deps, workers, cs) && k in deps && j < |Members(cs, k)|
    ensures Members(cs, k)[j] in deps
  {
    MembersShape(deps, workers, cs, k);
    if Members(cs, k) in cs { ChainInGraph(deps, workers, Members(cs, k), j); }
  }

  /** A member depends on its predecessor only, and the first one on what the composite depends on. */
  lemma MemberMayRun(deps: Dependencies, workers: map<ActivityId, WorkerId>, cs: seq<Chain>, k: ActivityId,
                     done: set<ActivityId>, done': set<ActivityId>, j: nat, d: ActivityId)
    requires Chained(deps, workers, cs) && SameProgress(cs, deps, done, done') && Enabled(cs, deps, done', k)
    requires j < |Members(cs, k)| && Members(cs, k)[j] in deps && d in deps[Members(cs, k)[j]] && d in deps
    ensures d in done || d in Members(cs, k)[..j]
  {
    var m := Members(cs, k);
    MembersShape(deps, workers, cs, k);
    if j > 0 {
      assert Link(deps, workers, m[j - 1], m[j]);
      assert m[..j][j - 1] == d;
    } else {
      OuterEdge(cs, deps, k, d);
      RepKey(deps, workers, cs, d);
    }
  }

  lemma RunComposite(deps: Dependencies, workers: map<ActivityId, WorkerId>, cs: seq<Chain>, k: ActivityId,
                     done: set<ActivityId>, done': set<ActivityId>, rest: seq<ActivityId>)
    requires Chained(deps, workers, cs) && SameProgress(cs, deps, done, done') && Enabled(cs, deps, done', k)
    requires Legal(deps, done + Elements(Members(cs, k)), rest)
    ensures Legal(deps, done, Members(cs, k) + rest)
  {
    var m := Members(cs, k);
    MembersDistinct(deps, workers, cs, k);
    forall j | 0 <= j < |m| ensures InTurn(deps, done, m, j) {
      MemberInGraph(deps, workers, cs, k, j);
      MembersExact(deps, workers, cs, k, m[j]);
      forall d | d in deps[m[j]] && d in deps ensures d in done + Elements(m[..j]) {
        MemberMayRun(deps, workers, cs, k, done, done', j, d);
      }
    }
    RunMembers(deps, done, m, 0, rest);
    assert m[0..] == m && done + Elements(m[..0]) == done;
  }

  lemma MembersDistinct(deps: Dependencies, workers: map<ActivityId, WorkerId>, cs: seq<Chain>, k: ActivityId)
    requires Chained(deps, workers, cs)
    ensures forall i, j :: 0 <= i < j < |Members(cs, k)| ==> Members(cs, k)[i] != Members(cs, k)[j]
  {
    MembersShape(deps, workers, cs, k);
    if Members(cs, k) in cs { NoRepeats(deps, workers, Members(cs, k)); }
  }

  lemma ProgressKept(deps: Dependencies, workers: map<ActivityId, WorkerId>, cs: seq<Chain>, k: ActivityId,
                     done: set<ActivityId>, done': set<ActivityId>)
    requires Chained(deps, workers, cs) && SameProgress(cs, deps, done, done') && k in Quotient(cs, deps)
    ensures SameProgress(cs, deps, done + Elements(Members(cs, k)), done' + {k})
  {
    forall a { MembersExact(deps, workers, cs, k, a); }
    forall j | 0 <= j < |Members(cs, k)| { MemberInGraph(deps, workers, cs, k, j); }
  }

  lemma {:induction false} ExpandLegal(deps: Dependencies, workers: map<ActivityId, WorkerId>, cs: seq<Chain>,
                                       order: seq<ActivityId>, done: set<ActivityId>, done': set<ActivityId>)
    requires Chained(deps, workers, cs) && SameProgress(cs, deps, done, done')
    requires Legal(Quotient(cs, deps), done', order)
    ensures Legal(deps, done, Expand(cs, order))
    decreases |order|
  {
    if order == [] {
      forall a | a in deps ensures a in done { RepKey(deps, workers, cs, a); }
      assert done == deps.Keys;
    } else {
      var k := order[0];
      ProgressKept(deps, workers, cs, k, done, done');
      ExpandLegal(deps, workers, cs, order[1..], done + Elements(Members(cs, k)), done' + {k});
      RunComposite(deps, workers, cs, k, done, done', Expand(cs, order[1..]));
    }
  }

  /** The optimisation preserves meaning: a legal order of the optimised graph, with every composite
      run as its chain, is a legal order of the original graph. */
  lemma OrderPreserved(deps: Dependencies, workers: map<ActivityId, WorkerId>, cs: seq<Chain>, order: seq<ActivityId>)
    requires Chained(deps, workers, cs) && Legal(Quotient(cs, deps), {}, order)
    ensures Legal(deps, {}, Expand(cs, order))
  {
    ExpandLegal(deps, workers, cs, order, {}, {});
  }
}
