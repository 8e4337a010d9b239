/** Replacing chains of activities by composite activities, as a transformation of dependency graphs. */
module Optimizer {
  import opened Signals
  import opened Graphs
  import opened Composites

  // ----- the closed form -----

  /** Maximal chains of the graph, each at most once. */
  ghost predicate Chained(deps: Dependencies, workers: map<ActivityId, WorkerId>, cs: seq<Chain>) {
    && (forall c :: c in cs ==> Maximal(deps, workers, c))
    && (forall i, j :: 0 <= i < j < |cs| ==> cs[i] != cs[j])
  }

  /** The activity that stands for a once the chains cs are composites. */
  function Rep(cs: seq<Chain>, a: ActivityId): ActivityId {
    if cs == [] then a
    else
      var c := cs[|cs| - 1];
      if a in c && c != [] then c[0] else Rep(cs[..|cs| - 1], a)
  }

  /** a has become part of a composite with another name. */
  predicate Absorbed(cs: seq<Chain>, a: ActivityId) {
    exists c :: c in cs && |c| > 0 && a in c[1..]
  }

  function MapRep(cs: seq<Chain>, ds: seq<ActivityId>): (r: seq<ActivityId>)
    ensures |r| == |ds| && forall i :: 0 <= i < |ds| ==> r[i] == Rep(cs, ds[i])
  {
    seq(|ds|, i requires 0 <= i < |ds| => Rep(cs, ds[i]))
  }

  /** The graph of the representatives. */
  function Quotient(cs: seq<Chain>, deps: Dependencies): Dependencies {
    map k | k in deps && !Absorbed(cs, k) :: MapRep(cs, deps[k])
  }

  lemma {:induction false} RepIn(deps: Dependencies, workers: map<ActivityId, WorkerId>, cs: seq<Chain>, c: Chain, a: ActivityId)
    requires Chained(deps, workers, cs) && c in cs && a in c
    ensures Rep(cs, a) == c[0]
    decreases |cs|
  {
    var k := |cs| - 1;
    if a in cs[k] {
      ChainsDisjoint(deps, workers, c, cs[k], a);
    } else {
      RepIn(deps, workers, cs[..k], c, a);
    }
  }

  lemma {:induction false} RepOut(cs: seq<Chain>, a: ActivityId)
    requires forall c :: c in cs ==> a !in c
    ensures Rep(cs, a) == a
    decreases |cs|
  {
    if cs != [] { RepOut(cs[..|cs| - 1], a); }
  }

  /** An activity either is in exactly one of the chains, whose first activity represents it,
      or represents itself. */
  lemma RepCases(deps: Dependencies, workers: map<ActivityId, WorkerId>, cs: seq<Chain>, a: ActivityId)
    requires Chained(deps, workers, cs)
    ensures Rep(cs, a) == a || exists c :: c in cs && a in c && Rep(cs, a) == c[0]
    ensures forall c :: c in cs && a in c ==> Rep(cs, a) == c[0]
    ensures Rep(cs, a) != a <==> Absorbed(cs, a)
  {
    if c :| c in cs && a in c {
      RepIn(deps, workers, cs, c, a);
      forall e | e in cs && a in e ensures e == c { ChainsDisjoint(deps, workers, e, c, a); }
      NoRepeats(deps, workers, c);
      var i :| 0 <= i < |c| && c[i] == a;
      if i > 0 { assert c[1..][i - 1] == a; }
    } else {
      RepOut(cs, a);
    }
  }

  /** Inside a chain the only dependency is the predecessor, which has the same representative. */
  lemma InnerEdge(deps: Dependencies, workers: map<ActivityId, WorkerId>, cs: seq<Chain>, a: ActivityId)
    requires Chained(deps, workers, cs) && Absorbed(cs, a)
    ensures a in deps && |deps[a]| == 1 && Rep(cs, deps[a][0]) == Rep(cs, a)
  {
    var c :| c in cs && |c| > 0 && a in c[1..];
    var i :| 0 <= i < |c| - 1 && c[1..][i] == a;
    assert Link(deps, workers, c[i], c[i + 1]);
    RepIn(deps, workers, cs, c, a);
    RepIn(deps, workers, cs, c, c[i]);
  }

  lemma OnlyNext(deps: Dependencies, workers: map<ActivityId, WorkerId>, c: Chain, i: nat, k: ActivityId)
    requires Linked(deps, workers, c) && i < |c| - 1 && k in deps && c[i] in deps[k]
    ensures k in c[1..]
  {
    assert Link(deps, workers, c[i], c[i + 1]);
    assert k in Dependants(deps, c[i]);
    assert c[1..][i] == k;
  }

  /** From outside a chain can only be entered at its last activity. */
  lemma EntryEdge(deps: Dependencies, workers: map<ActivityId, WorkerId>, c: Chain, k: ActivityId, d: ActivityId)
    requires Maximal(deps, workers, c) && k in deps && d in deps[k] && d in c && k !in c[1..]
    ensures d == c[|c| - 1]
  {
    var i :| 0 <= i < |c| && c[i] == d;
    if i < |c| - 1 { OnlyNext(deps, workers, c, i, k); }
  }

  lemma RepKey(deps: Dependencies, workers: map<ActivityId, WorkerId>, cs: seq<Chain>, a: ActivityId)
    requires Chained(deps, workers, cs) && a in deps
    ensures Rep(cs, a) in Quotient(cs, deps) && Rep(cs, Rep(cs, a)) == Rep(cs, a)
  {
    RepCases(deps, workers, cs, a);
    if c :| c in cs && a in c {
      assert c[0] in c && Rep(cs, a) == c[0];
      RepCases(deps, workers, cs, c[0]);
      ChainInGraph(deps, workers, c, 0);
    }
  }

  // ----- dependencies between composites -----

  lemma OuterEdge(cs: seq<Chain>, deps: Dependencies, k: ActivityId, d: ActivityId)
    requires k in deps && !Absorbed(cs, k) && d in deps[k]
    ensures Rep(cs, d) in Quotient(cs, deps)[k]
  {
    var j :| 0 <= j < |deps[k]| && deps[k][j] == d;
    assert Quotient(cs, deps)[k][j] == Rep(cs, d);
  }

  lemma Prepend(deps: Dependencies, k: ActivityId, path: seq<ActivityId>)
    requires Path(deps, path) && k in deps && path[0] in deps[k]
    ensures PathFrom(deps, [k] + path, k, path[|path| - 1])
  {
  }

  /** One dependency of the original graph, in front of a path of the optimised one. */
  lemma MapStep(deps: Dependencies, workers: map<ActivityId, WorkerId>, cs: seq<Chain>, a: ActivityId, d: ActivityId,
                rest: seq<ActivityId>) returns (q: seq<ActivityId>)
    requires Chained(deps, workers, cs) && a in deps && d in deps[a]
    requires Path(Quotient(cs, deps), rest) && rest[0] == Rep(cs, d)
    ensures PathFrom(Quotient(cs, deps), q, Rep(cs, a), rest[|rest| - 1])
    ensures |q| == |rest| + if Absorbed(cs, a) then 0 else 1
  {
    RepCases(deps, workers, cs, a);
    if Absorbed(cs, a) {
      InnerEdge(deps, workers, cs, a);
      q := rest;
    } else {
      OuterEdge(cs, deps, a, d);
      q := [a] + rest;
      Prepend(Quotient(cs, deps), a, rest);
    }
  }

  /** A path of the original graph runs through the composites of its activities. */
  lemma {:induction false} MapPath(deps: Dependencies, workers: map<ActivityId, WorkerId>, cs: seq<Chain>, p: seq<ActivityId>)
    returns (q: seq<ActivityId>)
    requires Chained(deps, workers, cs) && Path(deps, p)
    ensures PathFrom(Quotient(cs, deps), q, Rep(cs, p[0]), Rep(cs, p[|p| - 1]))
    ensures |q| == 1 ==> forall i :: 0 <= i < |p| - 1 ==> Absorbed(cs, p[i])
    decreases |p|
  {
    if |p| == 1 {
      RepKey(deps, workers, cs, p[0]);
      q := [Rep(cs, p[0])];
    } else {
      var rest := MapPath(deps, workers, cs, p[1..]);
      q := MapStep(deps, workers, cs, p[0], p[1], rest);
      assert forall i :: 1 <= i < |p| - 1 ==> p[1..][i - 1] == p[i];
    }
  }

  /** The last activity of a chain depends on all others of the chain. */
  lemma FromLast(deps: Dependencies, workers: map<ActivityId, WorkerId>, c: Chain, k: ActivityId, b: ActivityId)
    requires Maximal(deps, workers, c) && b in c && k in deps && c[|c| - 1] in deps[k]
    ensures DependsOn(deps, k, b)
  {
    var d, i :| d == c[|c| - 1] && 0 <= i < |c| && c[i] == b;
    ChainInGraph(deps, workers, c, |c| - 1);
    assert PathFrom(deps, [k, d], k, d);
    if i < |c| - 1 {
      ChainIsPath(deps, workers, c, i, |c| - 1);
      DependsTransitive(deps, k, d, b);
    }
  }

  /** Two activities with one representative are one activity or members of one chain. */
  lemma SameRep(deps: Dependencies, workers: map<ActivityId, WorkerId>, cs: seq<Chain>, a: ActivityId, b: ActivityId)
    requires Chained(deps, workers, cs) && Rep(cs, a) == Rep(cs, b)
    ensures a == b || exists c :: c in cs && a in c && b in c
  {
    if c :| c in cs && a in c {
      RepIn(deps, workers, cs, c, a);
      SameChain(deps, workers, cs, c, b);
    } else if c :| c in cs && b in c {
      RepIn(deps, workers, cs, c, b);
      SameChain(deps, workers, cs, c, a);
    } else {
      RepOut(cs, a);
      RepOut(cs, b);
    }
  }

  /** A dependency on a composite is a dependency on every activity in it. */
  lemma Entry(deps: Dependencies, workers: map<ActivityId, WorkerId>, cs: seq<Chain>, k: ActivityId, b: ActivityId)
    requires Chained(deps, workers, cs) && b in deps
    requires k in Quotient(cs, deps) && Rep(cs, b) in Quotient(cs, deps)[k]
    ensures DependsOn(deps, k, b)
  {
    var j :| 0 <= j < |deps[k]| && Rep(cs, deps[k][j]) == Rep(cs, b);
    var d := deps[k][j];
    SameRep(deps, workers, cs, d, b);
    if c :| c in cs && d in c && b in c {
      EntryEdge(deps, workers, c, k, d);
      FromLast(deps, workers, c, k, b);
    } else {
      assert PathFrom(deps, [k, b], k, b);
    }
  }

  lemma SameChain(deps: Dependencies, workers: map<ActivityId, WorkerId>, cs: seq<Chain>, c: Chain, b: ActivityId)
    requires Chained(deps, workers, cs) && c in cs && Rep(cs, b) == c[0]
    ensures b in c
  {
    RepCases(deps, workers, cs, b);
    if e :| e in cs && b in e {
      assert c[0] in c && e[0] in e;
      ChainsDisjoint(deps, workers, c, e, c[0]);
    } else {
      RepOut(cs, b);
      assert c[0] in c;
    }
  }

  /** Inside a composite everything depends on the first activity. */
  lemma ToFirst(deps: Dependencies, workers: map<ActivityId, WorkerId>, cs: seq<Chain>, a: ActivityId)
    requires Chained(deps, workers, cs)
    ensures Rep(cs, a) == a || DependsOn(deps, a, Rep(cs, a))
  {
    RepCases(deps, workers, cs, a);
    if Rep(cs, a) != a {
      var c :| c in cs && a in c && Rep(cs, a) == c[0];
      var i :| 0 <= i < |c| && c[i] == a;
      ChainIsPath(deps, workers, c, 0, i);
    }
  }

  lemma {:induction false} LiftPath(deps: Dependencies, workers: map<ActivityId, WorkerId>, cs: seq<Chain>,
                                    q: seq<ActivityId>, b: ActivityId)
    requires Chained(deps, workers, cs) && Path(Quotient(cs, deps), q) && |q| > 1
    requires b in deps && Rep(cs, b) == q[|q| - 1]
    ensures DependsOn(deps, q[0], b)
    decreases |q|
  {
    if |q| == 2 {
      Entry(deps, workers, cs, q[0], b);
    } else {
      RepCases(deps, workers, cs, q[1]);
      Entry(deps, workers, cs, q[0], q[1]);
      LiftPath(deps, workers, cs, q[1..], b);
      DependsTransitive(deps, q[0], q[1], b);
    }
  }

  lemma LiftDependency(deps: Dependencies, workers: map<ActivityId, WorkerId>, cs: seq<Chain>, a: ActivityId, b: ActivityId)
    requires Chained(deps, workers, cs) && a in deps && b in deps
    requires DependsOn(Quotient(cs, deps), Rep(cs, a), Rep(cs, b))
    ensures DependsOn(deps, a, b)
  {
    var q :| PathFrom(Quotient(cs, deps), q, Rep(cs, a), Rep(cs, b)) && |q| > 1;
    LiftPath(deps, workers, cs, q, b);
    ToFirst(deps, workers, cs, a);
    if Rep(cs, a) != a { DependsTransitive(deps, a, Rep(cs, a), b); }
  }

  /** The optimised graph is an exact quotient: between activities of different composites, a
      depends on b in the original graph if and only if the composite of a depends on that of b.
      No acyclicity is needed. */
  lemma ExactQuotient(deps: Dependencies, workers: map<ActivityId, WorkerId>, cs: seq<Chain>, a: ActivityId, b: ActivityId)
    requires Chained(deps, workers, cs) && a in deps && b in deps && Rep(cs, a) != Rep(cs, b)
    ensures DependsOn(deps, a, b) <==> DependsOn(Quotient(cs, deps), Rep(cs, a), Rep(cs, b))
  {
    if DependsOn(deps, a, b) {
      var p :| PathFrom(deps, p, a, b) && |p| > 1;
      var q := MapPath(deps, workers, cs, p);
    }
    if DependsOn(Quotient(cs, deps), Rep(cs, a), Rep(cs, b)) { LiftDependency(deps, workers, cs, a, b); }
  }

  /** A path that stays absorbed goes down one chain. */
  lemma {:induction false} DownTheChain(deps: Dependencies, workers: map<ActivityId, WorkerId>, cs: seq<Chain>,
                                        c: Chain, j: nat, p: seq<ActivityId>)
    requires Chained(deps, workers, cs) && c in cs && j < |c| && Path(deps, p) && p[0] == c[j]
    requires forall i :: 0 <= i < |p| - 1 ==> Absorbed(cs, p[i])
    ensures |p| - 1 <= j && p[|p| - 1] == c[j - (|p| - 1)]
    decreases |p|
  {
    if |p| > 1 {
      RepCases(deps, workers, cs, p[0]);
      RepIn(deps, workers, cs, c, p[0]);
      assert j > 0;
      assert Link(deps, workers, c[j - 1], c[j]);
      assert p[1] in deps[p[0]];
      DownTheChain(deps, workers, cs, c, j - 1, p[1..]);
    }
  }

  /** Replacing chains neither creates nor hides a dependency cycle. */
  lemma AcyclicityKept(deps: Dependencies, workers: map<ActivityId, WorkerId>, cs: seq<Chain>)
    requires Chained(deps, workers, cs)
    ensures Acyclic(Quotient(cs, deps)) <==> Acyclic(deps)
  {
    if a :| DependsOn(deps, a, a) {
      CycleMapped(deps, workers, cs, a);
    }
    if a :| DependsOn(Quotient(cs, deps), a, a) {
      var q :| PathFrom(Quotient(cs, deps), q, a, a) && |q| > 1;
      RepCases(deps, workers, cs, a);
      LiftDependency(deps, workers, cs, a, a);
    }
  }

  lemma CycleMapped(deps: Dependencies, workers: map<ActivityId, WorkerId>, cs: seq<Chain>, a: ActivityId)
    requires Chained(deps, workers, cs) && DependsOn(deps, a, a)
    ensures DependsOn(Quotient(cs, deps), Rep(cs, a), Rep(cs, a))
  {
    var p :| PathFrom(deps, p, a, a) && |p| > 1;
    var q := MapPath(deps, workers, cs, p);
    if |q| == 1 {
      assert Absorbed(cs, p[0]);
      var c :| c in cs && |c| > 0 && a in c[1..];
      var j :| 0 <= j < |c| - 1 && c[1..][j] == a;
      DownTheChain(deps, workers, cs, c, j + 1, p);
      NoRepeats(deps, workers, c);
    }
  }
}
