/** Where activities run before and after the optimisation. */
module Placement {
  import opened Signals
  import opened Graphs
  import opened Composites
  import opened Optimizer
  import opened Configuration

  /** The activities built for the entry k of a worker's list. */
  function Components(c: ApplicationConfig, k: ActivityId): Chain {
    if k in c.compositeActivities then c.compositeActivities[k] else [k]
  }

  /** The activities whose code a worker runs. */
  function RunsOn(c: ApplicationConfig, w: WorkerId): set<ActivityId>
    requires w in c.workerAssignments
  {
    set k, a | k in c.workerAssignments[w] && a in Components(c, k) :: a
  }

  lemma {:induction false} ComponentsAreMembers(cs: seq<Chain>, k: ActivityId)
    requires forall e :: e in cs ==> |e| >= 2
    ensures var all := CompositesOf(cs, map[]); (if k in all then all[k] else [k]) == Members(cs, k)
    decreases |cs|
  {
    if cs != [] {
      assert cs[|cs| - 1] in cs;
      ComponentsAreMembers(cs[..|cs| - 1], k);
    }
  }

  /** An activity runs on the workers of the activity that represents it, and on no others. */
  lemma RunsWhere(c: ApplicationConfig, workers: map<ActivityId, WorkerId>, cs: seq<Chain>, o: ApplicationConfig,
                  w: WorkerId, a: ActivityId)
    requires Consistent(c) && c.compositeActivities == map[] && Optimized(c, workers, cs, o) && w in c.workerAssignments
    ensures w in o.workerAssignments && (a in RunsOn(o, w) <==> Rep(cs, a) in c.workerAssignments[w])
  {
    AssignmentsExact(c, workers, cs, o);
    assert forall e :: e in cs ==> Maximal(c.activityDeps, workers, e);
    forall k | k in o.workerAssignments[w] ensures a in Components(o, k) <==> k == Rep(cs, a) {
      ComponentsAreMembers(cs, k);
      MembersExact(c.activityDeps, workers, cs, k, a);
    }
    RunsOnce(o, w, a, Rep(cs, a));
    if Rep(cs, a) in c.workerAssignments[w] { RepScheduled(c, workers, cs, w, a); }
  }

  lemma RunsOnce(o: ApplicationConfig, w: WorkerId, a: ActivityId, r: ActivityId)
    requires w in o.workerAssignments
    requires forall k :: k in o.workerAssignments[w] ==> (a in Components(o, k) <==> k == r)
    ensures a in RunsOn(o, w) <==> r in o.workerAssignments[w]
  {
  }

  lemma RepScheduled(c: ApplicationConfig, workers: map<ActivityId, WorkerId>, cs: seq<Chain>, w: WorkerId, a: ActivityId)
    requires Consistent(c) && Chained(c.activityDeps, workers, cs)
    requires w in c.workerAssignments && Rep(cs, a) in c.workerAssignments[w]
    ensures Rep(cs, a) in Quotient(cs, c.activityDeps)
  {
    assert Rep(cs, a) in Assigned(c.workerAssignments);
    RepCases(c.activityDeps, workers, cs, a);
    if a !in c.activityDeps {
      forall e | e in cs && a in e ensures false {
        var i :| 0 <= i < |e| && e[i] == a;
        ChainInGraph(c.activityDeps, workers, e, i);
      }
    } else {
      RepKey(c.activityDeps, workers, cs, a);
    }
  }

  /** No activity is lost: each runs on the worker that the optimisation takes it to be on. */
  lemma StillRuns(c: ApplicationConfig, workers: map<ActivityId, WorkerId>, cs: seq<Chain>, o: ApplicationConfig, a: ActivityId)
    requires Consistent(c) && c.compositeActivities == map[] && Optimized(c, workers, cs, o) && a in c.activityDeps
    ensures a in workers && workers[a] in o.workerAssignments && a in RunsOn(o, workers[a])
  {
    RepCases(c.activityDeps, workers, cs, a);
    if e :| e in cs && a in e {
      var i :| 0 <= i < |e| && e[i] == a;
      OneWorker(c.activityDeps, workers, e, i);
    }
    RunsWhere(c, workers, cs, o, workers[a], a);
  }

  /** The activities of a chain are assigned to the same workers. */
  ghost predicate AssignedAlike(c: ApplicationConfig, chain: Chain) {
    forall w, a :: w in c.workerAssignments && a in chain ==>
      (a in c.workerAssignments[w] <==> chain[0] in c.workerAssignments[w])
  }

  /** Every worker runs what it ran before exactly if each chain is assigned as a whole. */
  lemma RunsAsBefore(c: ApplicationConfig, workers: map<ActivityId, WorkerId>, cs: seq<Chain>, o: ApplicationConfig)
    requires Consistent(c) && c.compositeActivities == map[] && Optimized(c, workers, cs, o)
    ensures (forall w :: w in c.workerAssignments ==> w in o.workerAssignments && RunsOn(o, w) == c.workerAssignments[w])
            <==> forall chain :: Maximal(c.activityDeps, workers, chain) ==> AssignedAlike(c, chain)
  {
    forall w, a | w in c.workerAssignments { RunsWhere(c, workers, cs, o, w, a); }
    if forall w :: w in c.workerAssignments ==> RunsOn(o, w) == c.workerAssignments[w] {
      forall chain, w, a | Maximal(c.activityDeps, workers, chain) && w in c.workerAssignments && a in chain
        ensures a in c.workerAssignments[w] <==> chain[0] in c.workerAssignments[w]
      {
        RepIn(c.activityDeps, workers, cs, chain, a);
        assert a in RunsOn(o, w) <==> Rep(cs, a) in c.workerAssignments[w];
      }
    }
    if forall chain :: Maximal(c.activityDeps, workers, chain) ==> AssignedAlike(c, chain) {
      forall w | w in c.workerAssignments ensures RunsOn(o, w) == c.workerAssignments[w] {
        forall a ensures a in RunsOn(o, w) <==> a in c.workerAssignments[w] {
          RepCases(c.activityDeps, workers, cs, a);
          assert forall chain :: chain in cs ==> AssignedAlike(c, chain);
          assert a in RunsOn(o, w) <==> Rep(cs, a) in c.workerAssignments[w];
        }
      }
    }
  }

  /** No activity is assigned to two workers. */
  ghost predicate OneWorkerEach(c: ApplicationConfig) {
    forall v, w, a :: v in c.workerAssignments && w in c.workerAssignments ==>
      a in c.workerAssignments[v] && a in c.workerAssignments[w] ==> v == w
  }

  /** In particular it is enough that no activity is assigned to two workers. */
  lemma UniqueRunsAsBefore(c: ApplicationConfig, workers: map<ActivityId, WorkerId>, cs: seq<Chain>, o: ApplicationConfig,
                           w: WorkerId)
    requires Consistent(c) && c.compositeActivities == map[] && Optimized(c, workers, cs, o)
    requires OneWorkerEach(c) && w in c.workerAssignments
    ensures w in o.workerAssignments && RunsOn(o, w) == c.workerAssignments[w]
  {
    forall chain | Maximal(c.activityDeps, workers, chain) ensures AssignedAlike(c, chain) {
      forall v, a | v in c.workerAssignments && a in chain
        ensures a in c.workerAssignments[v] <==> chain[0] in c.workerAssignments[v]
      {
        var i :| 0 <= i < |chain| && chain[i] == a;
        OneWorker(c.activityDeps, workers, chain, i);
      }
    }
    RunsAsBefore(c, workers, cs, o);
  }

  // ----- an activity on two workers -----

  /** Two activities in a row, the second on two workers. */
  const Twice := ApplicationConfig(100, map[100 := {10, 20}], map[10 := {1, 2}, 20 := {2}], map[1 := [], 2 := [1]], map[])
  const OnTen: map<ActivityId, WorkerId> := map[1 := 10, 2 := 10]

  lemma TwiceConsistent()
    ensures Consistent(Twice) && IsWorkerMap(Twice.workerAssignments, OnTen)
  {
    var all := Assigned(Twice.workerAssignments);
    assert 1 in Twice.workerAssignments[10] && 2 in Twice.workerAssignments[10];
    assert all == {1, 2};
    var agents := set g, w | g in Twice.agentAssignments && w in Twice.agentAssignments[g] :: w;
    assert 10 in Twice.agentAssignments[100] && 20 in Twice.agentAssignments[100];
    assert agents == {10, 20};
  }

  lemma OnlyChain()
    ensures Maximal(Twice.activityDeps, OnTen, [1, 2])
    ensures forall chain :: Maximal(Twice.activityDeps, OnTen, chain) ==> chain == [1, 2]
  {
    var deps := Twice.activityDeps;
    assert Dependants(deps, 1) == {2} && Dependants(deps, 2) == {};
    assert Link(deps, OnTen, 1, 2);
    forall chain | Maximal(deps, OnTen, chain) ensures chain == [1, 2] {
      assert Link(deps, OnTen, chain[0], chain[1]);
      ChainsDisjoint(deps, OnTen, chain, [1, 2], 1);
    }
  }

  /** Such a configuration passes the consistency check, but once it is optimised the second worker
      has nothing left to run. */
  lemma SecondWorkerLoses(o: ApplicationConfig)
    requires o == ApplicationConfig(100, Twice.agentAssignments, Remaining([[1, 2]], Twice.workerAssignments),
                                    Quotient([[1, 2]], Twice.activityDeps), CompositesOf([[1, 2]], map[]))
    ensures Consistent(Twice) && Optimized(Twice, OnTen, [[1, 2]], o)
    ensures 2 in RunsOn(Twice, 20) && 2 !in RunsOn(o, 20) && !OneWorkerEach(Twice)
  {
    TwiceConsistent();
    OnlyChain();
    RunsWhere(Twice, OnTen, [[1, 2]], o, 20, 2);
    RepIn(Twice.activityDeps, OnTen, [[1, 2]], [1, 2], 2);
    assert 2 in Components(Twice, 2);
    assert 2 in Twice.workerAssignments[10] && 2 in Twice.workerAssignments[20];
  }
}
