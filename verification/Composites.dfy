/** Straight chains of activities on one worker that could run as one composite activity. */
module Composites {
  import opened Signals
  import opened Graphs

  type Chain = seq<ActivityId>

  /** Every activity mentioned anywhere has a worker. */
  ghost predicate Placed(deps: Dependencies, workers: map<ActivityId, WorkerId>) {
    forall a :: a in deps ==> a in workers && forall d :: d in deps[a] ==> d in workers
  }

  function Dependants(deps: Dependencies, a: ActivityId): set<ActivityId> {
    set b | b in deps && a in deps[b]
  }

  /** b is all that depends on a, a is all that b depends on, and both run on one worker. */
  ghost predicate Link(deps: Dependencies, workers: map<ActivityId, WorkerId>, a: ActivityId, b: ActivityId) {
    && a in deps && b in deps && a in workers && b in workers
    && Dependants(deps, a) == {b} && deps[b] == [a] && workers[a] == workers[b]
  }

  ghost predicate Linked(deps: Dependencies, workers: map<ActivityId, WorkerId>, chain: Chain) {
    forall i :: 0 <= i < |chain| - 1 ==> Link(deps, workers, chain[i], chain[i + 1])
  }

  /** No link leads into the first activity of the chain. */
  ghost predicate Starts(deps: Dependencies, workers: map<ActivityId, WorkerId>, a: ActivityId) {
    forall d :: d in deps ==> !Link(deps, workers, d, a)
  }

  ghost predicate Stops(deps: Dependencies, workers: map<ActivityId, WorkerId>, a: ActivityId) {
    forall b :: b in deps ==> !Link(deps, workers, a, b)
  }

  /** A chain of links that cannot be made longer at either end. */
  ghost predicate Maximal(deps: Dependencies, workers: map<ActivityId, WorkerId>, chain: Chain) {
    && |chain| >= 2 && Linked(deps, workers, chain)
    && Starts(deps, workers, chain[0]) && Stops(deps, workers, chain[|chain| - 1])
  }

  lemma LinkUnique(deps: Dependencies, workers: map<ActivityId, WorkerId>, a: ActivityId, b: ActivityId, c: ActivityId)
    ensures Link(deps, workers, a, b) && Link(deps, workers, a, c) ==> b == c
    ensures Link(deps, workers, b, a) && Link(deps, workers, c, a) ==> b == c
  {
    if Link(deps, workers, a, b) && Link(deps, workers, a, c) {
      assert b in Dependants(deps, a) && Dependants(deps, a) == {c};
    }
    if Link(deps, workers, b, a) && Link(deps, workers, c, a) {
      assert [b] == [c];
      assert [b][0] == [c][0];
    }
  }

  lemma NotFirst(deps: Dependencies, workers: map<ActivityId, WorkerId>, p: Chain, i: nat, a: ActivityId)
    requires Linked(deps, workers, p) && i < |p| && Starts(deps, workers, a)
    ensures p[i] == a ==> i == 0
  {
    if i > 0 { assert Link(deps, workers, p[i - 1], p[i]); }
  }

  /** Two chains that meet agree on everything before the meeting point, so two chains with a
      start never run side by side. */
  lemma {:induction false} MeetBack(deps: Dependencies, workers: map<ActivityId, WorkerId>, p: Chain, q: Chain, i: nat, j: nat)
    requires Linked(deps, workers, p) && Linked(deps, workers, q)
    requires i < |p| && j < |q| && p[i] == q[j]
    requires Starts(deps, workers, p[0]) && Starts(deps, workers, q[0])
    ensures i == j && p[..i + 1] == q[..j + 1]
    decreases i
  {
    NotFirst(deps, workers, p, i, q[0]);
    NotFirst(deps, workers, q, j, p[0]);
    if i > 0 {
      if j > 0 {
        assert Link(deps, workers, p[i - 1], p[i]) && Link(deps, workers, q[j - 1], q[j]);
        LinkUnique(deps, workers, p[i], p[i - 1], q[j - 1]);
        MeetBack(deps, workers, p, q, i - 1, j - 1);
        assert p[..i + 1] == p[..i] + [p[i]];
        assert q[..j + 1] == q[..j] + [q[j]];
      }
    }
  }

  lemma NotLast(deps: Dependencies, workers: map<ActivityId, WorkerId>, p: Chain, i: nat, a: ActivityId)
    requires Linked(deps, workers, p) && i < |p| && Stops(deps, workers, a)
    ensures p[i] == a ==> i == |p| - 1
  {
    if i < |p| - 1 { assert Link(deps, workers, p[i], p[i + 1]); }
  }

  lemma {:induction false} MeetForward(deps: Dependencies, workers: map<ActivityId, WorkerId>, p: Chain, q: Chain, i: nat)
    requires Linked(deps, workers, p) && Linked(deps, workers, q)
    requires i < |p| && i < |q| && p[..i + 1] == q[..i + 1]
    requires Stops(deps, workers, p[|p| - 1]) && Stops(deps, workers, q[|q| - 1])
    ensures p == q
    decreases |p| - i
  {
    assert p[i] == p[..i + 1][i] == q[i];
    NotLast(deps, workers, p, i, q[|q| - 1]);
    NotLast(deps, workers, q, i, p[|p| - 1]);
    if i + 1 < |p| && i + 1 < |q| {
      assert Link(deps, workers, p[i], p[i + 1]) && Link(deps, workers, q[i], q[i + 1]);
      LinkUnique(deps, workers, p[i], p[i + 1], q[i + 1]);
      assert p[..i + 2] == p[..i + 1] + [p[i + 1]];
      assert q[..i + 2] == q[..i + 1] + [q[i + 1]];
      MeetForward(deps, workers, p, q, i + 1);
    } else {
      assert p == p[..i + 1] && q == q[..i + 1];
    }
  }

  /** Maximal chains are pairwise disjoint: chains that share an activity are the same chain. */
  lemma ChainsDisjoint(deps: Dependencies, workers: map<ActivityId, WorkerId>, p: Chain, q: Chain, a: ActivityId)
    requires Maximal(deps, workers, p) && Maximal(deps, workers, q) && a in p && a in q
    ensures p == q
  {
    var i, j :| 0 <= i < |p| && 0 <= j < |q| && p[i] == a && q[j] == a;
    MeetBack(deps, workers, p, q, i, j);
    MeetForward(deps, workers, p, q, i);
  }

  /** No activity occurs twice in a chain that has a start, on cyclic graphs too. */
  lemma NoRepeats(deps: Dependencies, workers: map<ActivityId, WorkerId>, p: Chain)
    requires Linked(deps, workers, p) && |p| > 0 && Starts(deps, workers, p[0])
    ensures forall i, j :: 0 <= i < j < |p| ==> p[i] != p[j]
  {
    forall i, j | 0 <= i < j < |p| ensures p[i] != p[j] {
      if p[i] == p[j] { MeetBack(deps, workers, p, p, i, j); }
    }
  }

  /** All activities of a chain run on the worker of the first one. */
  lemma {:induction false} OneWorker(deps: Dependencies, workers: map<ActivityId, WorkerId>, p: Chain, i: nat)
    requires Linked(deps, workers, p) && |p| > 1 && i < |p|
    ensures p[0] in workers && p[i] in workers && workers[p[i]] == workers[p[0]]
    decreases i
  {
    assert Link(deps, workers, p[0], p[1]);
    if i > 0 {
      OneWorker(deps, workers, p, i - 1);
      assert Link(deps, workers, p[i - 1], p[i]);
    }
  }

  // ----- links covered -----

  ghost predicate Covers(chain: Chain, a: ActivityId, b: ActivityId) {
    exists i :: 0 <= i < |chain| - 1 && chain[i] == a && chain[i + 1] == b
  }

  /** Read backwards a chain is a path of dependencies. */
  lemma ChainIsPath(deps: Dependencies, workers: map<ActivityId, WorkerId>, p: Chain, i: nat, j: nat)
    requires Linked(deps, workers, p) && i < j < |p|
    ensures DependsOn(deps, p[j], p[i])
    decreases j - i
  {
    assert Link(deps, workers, p[j - 1], p[j]);
    assert PathFrom(deps, [p[j], p[j - 1]], p[j], p[j - 1]);
    if i < j - 1 {
      ChainIsPath(deps, workers, p, i, j - 1);
      DependsTransitive(deps, p[j], p[j - 1], p[i]);
    }
  }

  lemma DependsTransitive(deps: Dependencies, a: ActivityId, b: ActivityId, c: ActivityId)
    requires DependsOn(deps, a, b) && DependsOn(deps, b, c)
    ensures DependsOn(deps, a, c)
  {
    var p :| PathFrom(deps, p, a, b) && |p| > 1;
    var q :| PathFrom(deps, q, b, c) && |q| > 1;
    JoinPaths(deps, p, q);
  }

  lemma ChainInGraph(deps: Dependencies, workers: map<ActivityId, WorkerId>, p: Chain, i: nat)
    requires Linked(deps, workers, p) && |p| > 1 && i < |p|
    ensures p[i] in deps
  {
    if i > 0 { assert Link(deps, workers, p[i - 1], p[i]); } else { assert Link(deps, workers, p[0], p[1]); }
  }

  /** The other activities a chain of links could still be extended with. */
  ghost function Outside(deps: Dependencies, p: Chain): set<ActivityId> {
    set a | a in deps && a !in p
  }

  /** On a graph without cycles a chain of links can be extended to a maximal one. */
  lemma {:induction false} ExtendBack(deps: Dependencies, workers: map<ActivityId, WorkerId>, p: Chain) returns (q: Chain)
    requires Acyclic(deps) && Linked(deps, workers, p) && |p| > 1
    ensures Linked(deps, workers, q) && |q| >= |p| && q[|q| - |p|..] == p && Starts(deps, workers, q[0])
    decreases |Outside(deps, p)|
  {
    if Starts(deps, workers, p[0]) {
      q := p;
    } else {
      var d :| d in deps && Link(deps, workers, d, p[0]);
      var longer := [d] + p;
      assert Linked(deps, workers, longer);
      if d in p {
        var i :| 0 <= i < |p| && p[i] == d;
        ChainIsPath(deps, workers, longer, 0, i + 1);
      }
      assert d in Outside(deps, p) && d !in Outside(deps, longer);
      SmallerSet(Outside(deps, longer), Outside(deps, p));
      q := ExtendBack(deps, workers, longer);
      assert q[|q| - |p|..] == q[|q| - |longer|..][1..] == p;
    }
  }

  lemma {:induction false} ExtendForward(deps: Dependencies, workers: map<ActivityId, WorkerId>, p: Chain) returns (q: Chain)
    requires Linked(deps, workers, p) && |p| > 1 && Starts(deps, workers, p[0])
    ensures Maximal(deps, workers, q) && p <= q
    decreases |Outside(deps, p)|
  {
    if Stops(deps, workers, p[|p| - 1]) {
      q := p;
    } else {
      var b :| b in deps && Link(deps, workers, p[|p| - 1], b);
      var longer := p + [b];
      NoRepeats(deps, workers, longer);
      assert forall i :: 0 <= i < |p| ==> p[i] == longer[i] && longer[i] != longer[|p|];
      assert b in Outside(deps, p) && b !in Outside(deps, longer);
      SmallerSet(Outside(deps, longer), Outside(deps, p));
      q := ExtendForward(deps, workers, longer);
    }
  }

  /** On an acyclic graph every link is part of a maximal chain. */
  lemma LinksCovered(deps: Dependencies, workers: map<ActivityId, WorkerId>, a: ActivityId, b: ActivityId)
    returns (chain: Chain)
    requires Acyclic(deps) && Link(deps, workers, a, b)
    ensures Maximal(deps, workers, chain) && Covers(chain, a, b)
  {
    var p := ExtendBack(deps, workers, [a, b]);
    chain := ExtendForward(deps, workers, p);
    var i := |p| - 2;
    assert p[i..] == [a, b];
    assert chain[i] == p[i] == p[i..][0] && chain[i + 1] == p[i + 1] == p[i..][1];
  }

  // ----- the search -----

  function Only(s: set<ActivityId>): (x: ActivityId)
    requires exists y :: s == {y}
    ensures s == {x}
  {
    var x :| s == {x};
    assert forall y | s == {y} :: y == x by {
      forall y | s == {y} ensures y == x { assert y in s; }
    }
    x
  }

  /** Activities with a single dependant, on the same worker, with that dependant. */
  function SingleDependants(deps: Dependencies, workers: map<ActivityId, WorkerId>): map<ActivityId, ActivityId>
    requires Placed(deps, workers)
  {
    map a | a in deps && (exists b :: b in deps && Dependants(deps, a) == {b} && workers[a] == workers[b])
      :: Only(Dependants(deps, a))
  }

  /** Activities with a single dependency, on the same worker. */
  function SingleDependencies(deps: Dependencies, workers: map<ActivityId, WorkerId>): set<ActivityId>
    requires Placed(deps, workers)
  {
    set b | b in deps && |deps[b]| == 1 && workers[b] == workers[deps[b][0]]
  }

  /** The two collected relations together are the links. */
  lemma LinkByMaps(deps: Dependencies, workers: map<ActivityId, WorkerId>, a: ActivityId, b: ActivityId)
    requires Placed(deps, workers)
    ensures var next := SingleDependants(deps, workers);
            Link(deps, workers, a, b) <==> a in next && next[a] == b && b in SingleDependencies(deps, workers)
  {
    var next := SingleDependants(deps, workers);
    if Link(deps, workers, a, b) {
      assert a in next;
      assert b in Dependants(deps, a) && Dependants(deps, a) == {next[a]};
    }
    if a in next && next[a] == b && b in SingleDependencies(deps, workers) {
      assert b in Dependants(deps, a);
      assert a in deps[b] && |deps[b]| == 1;
      assert deps[b] == [a];
    }
  }

  /** The test that skips activities in the middle of a chain. */
  lemma SkipTest(deps: Dependencies, workers: map<ActivityId, WorkerId>, a: ActivityId)
    requires Placed(deps, workers) && a in deps
    ensures a in SingleDependencies(deps, workers) && deps[a][0] in SingleDependants(deps, workers)
            <==> !Starts(deps, workers, a)
  {
    if a in SingleDependencies(deps, workers) && deps[a][0] in SingleDependants(deps, workers) {
      var d := deps[a][0];
      assert a in Dependants(deps, d);
      LinkByMaps(deps, workers, d, a);
      assert Link(deps, workers, d, a);
    }
    if !Starts(deps, workers, a) {
      var d :| d in deps && Link(deps, workers, d, a);
      LinkByMaps(deps, workers, d, a);
    }
  }

  /** Finds all maximal chains and nothing else, each once, and terminates on every graph. */
  method FindComposites(deps: Dependencies, workers: map<ActivityId, WorkerId>) returns (chains: seq<Chain>)
    requires Placed(deps, workers)
    ensures forall chain :: chain in chains <==> Maximal(deps, workers, chain)
    ensures forall i, j :: 0 <= i < j < |chains| ==> chains[i] != chains[j]
  {
    var haveSingleDependant := SingleDependants(deps, workers);
    var haveSingleDependency := SingleDependencies(deps, workers);
    chains := [];
    var starts := haveSingleDependant.Keys;
    LinksByMaps(deps, workers);
    forall chain | Maximal(deps, workers, chain) { StartsAreKeys(deps, workers, chain); }
    while starts != {}
      invariant starts <= haveSingleDependant.Keys
      invariant forall chain :: chain in chains ==> Maximal(deps, workers, chain) && chain[0] !in starts
      invariant forall chain :: Maximal(deps, workers, chain) ==> chain in chains || chain[0] in starts
      invariant forall i, j :: 0 <= i < j < |chains| ==> chains[i] != chains[j]
      decreases starts
    {
      var start :| start in starts;
      starts := starts - {start};
      SkipTest(deps, workers, start);
      if start in haveSingleDependency && deps[start][0] in haveSingleDependant {
        NothingStartsHere(deps, workers, start);
        continue;
      }
      var chain := Walk(deps, workers, haveSingleDependant, haveSingleDependency, start);
      NothingElseStartsHere(deps, workers, start, chain);
      if |chain| > 1 {
        chains := chains + [chain];
      }
    }
  }

  lemma NothingStartsHere(deps: Dependencies, workers: map<ActivityId, WorkerId>, start: ActivityId)
    requires !Starts(deps, workers, start)
    ensures forall chain :: Maximal(deps, workers, chain) ==> chain[0] != start
  {
  }

  lemma NothingElseStartsHere(deps: Dependencies, workers: map<ActivityId, WorkerId>, start: ActivityId, walk: Chain)
    requires |walk| > 0 && walk[0] == start && Linked(deps, workers, walk)
    requires Starts(deps, workers, start) && Stops(deps, workers, walk[|walk| - 1])
    ensures forall chain :: Maximal(deps, workers, chain) && chain[0] == start ==> chain == walk
  {
    forall chain | Maximal(deps, workers, chain) && chain[0] == start ensures chain == walk {
      assert chain[..1] == walk[..1];
      MeetForward(deps, workers, chain, walk, 0);
    }
  }

  lemma StartsAreKeys(deps: Dependencies, workers: map<ActivityId, WorkerId>, chain: Chain)
    requires Placed(deps, workers) && Maximal(deps, workers, chain)
    ensures chain[0] in SingleDependants(deps, workers)
  {
    LinkByMaps(deps, workers, chain[0], chain[1]);
  }

  ghost predicate AreLinks(deps: Dependencies, workers: map<ActivityId, WorkerId>, next: map<ActivityId, ActivityId>,
                           single: set<ActivityId>)
  {
    forall a, b :: Link(deps, workers, a, b) <==> a in next && next[a] == b && b in single
  }

  lemma LinksByMaps(deps: Dependencies, workers: map<ActivityId, WorkerId>)
    requires Placed(deps, workers)
    ensures AreLinks(deps, workers, SingleDependants(deps, workers), SingleDependencies(deps, workers))
  {
    forall a, b { LinkByMaps(deps, workers, a, b); }
  }

  /** The walk has reached a new activity. */
  lemma Advance(deps: Dependencies, workers: map<ActivityId, WorkerId>, chain: Chain, current: ActivityId)
    requires current in deps && Linked(deps, workers, chain + [current])
    requires Starts(deps, workers, (chain + [current])[0])
    ensures |Outside(deps, chain + [current])| < |Outside(deps, chain)|
  {
    var longer := chain + [current];
    NoRepeats(deps, workers, longer);
    assert forall i :: 0 <= i < |chain| ==> chain[i] == longer[i] && longer[i] != longer[|chain|];
    assert current in Outside(deps, chain) && current !in Outside(deps, longer);
    SmallerSet(Outside(deps, longer), Outside(deps, chain));
  }

  /** Follows the links from `start` to the end. It cannot come back to where it was, because no
      activity has two predecessors and `start` has none. */
  method Walk(deps: Dependencies, workers: map<ActivityId, WorkerId>, next: map<ActivityId, ActivityId>,
              single: set<ActivityId>, start: ActivityId) returns (chain: Chain)
    requires start in deps && Starts(deps, workers, start) && AreLinks(deps, workers, next, single)
    ensures |chain| > 0 && chain[0] == start && Linked(deps, workers, chain)
    ensures Stops(deps, workers, chain[|chain| - 1])
  {
    var current := start;
    chain := [];
    while true
      invariant current in deps && Linked(deps, workers, chain + [current]) && (chain + [current])[0] == start
      decreases |Outside(deps, chain)|
    {
      Advance(deps, workers, chain, current);
      chain := chain + [current];
      if current !in next {
        break;
      }
      var dependant := next[current];
      if dependant !in single {
        break;
      }
      assert Link(deps, workers, current, dependant);
      current := dependant;
    }
  }
}
