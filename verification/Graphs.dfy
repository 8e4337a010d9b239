/** Dependency graphs: for each activity the list of activities it depends on. */
module Graphs {
  import opened Signals

  type Dependencies = map<ActivityId, seq<ActivityId>>

  /** A chain of dependencies, all of them keys of the map: path[0] depends on path[1] and so on. */
  ghost predicate Path(deps: Dependencies, path: seq<ActivityId>) {
    && |path| > 0
    && (forall i :: 0 <= i < |path| ==> path[i] in deps)
    && (forall i :: 0 <= i < |path| - 1 ==> path[i + 1] in deps[path[i]])
  }

  ghost predicate PathFrom(deps: Dependencies, path: seq<ActivityId>, a: ActivityId, b: ActivityId) {
    Path(deps, path) && path[0] == a && path[|path| - 1] == b
  }

  /** a depends on b, directly or through others. */
  ghost predicate DependsOn(deps: Dependencies, a: ActivityId, b: ActivityId) {
    exists path :: PathFrom(deps, path, a, b) && |path| > 1
  }

  ghost predicate Acyclic(deps: Dependencies) {
    forall a :: !DependsOn(deps, a, a)
  }

  lemma JoinPaths(deps: Dependencies, p: seq<ActivityId>, q: seq<ActivityId>)
    requires Path(deps, p) && Path(deps, q) && p[|p| - 1] == q[0]
    ensures PathFrom(deps, p + q[1..], p[0], q[|q| - 1])
    ensures |p + q[1..]| == |p| + |q| - 1
  {
    var r := p + q[1..];
    forall i | 0 <= i < |r| - 1 ensures r[i + 1] in deps[r[i]] {
      if i >= |p| - 1 { assert r[i] == q[i - |p| + 1] && r[i + 1] == q[i - |p| + 2]; }
    }
  }

  /** A list running every activity whose turn comes only after its dependencies: `done` is
      what ran before, and dependencies that are not keys are ignored. */
  ghost predicate Legal(deps: Dependencies, done: set<ActivityId>, order: seq<ActivityId>)
    decreases |order|
  {
    if order == [] then done == deps.Keys
    else
      && order[0] in deps && order[0] !in done
      && (forall d :: d in deps[order[0]] && d in deps ==> d in done)
      && Legal(deps, done + {order[0]}, order[1..])
  }

  ghost predicate DependsInto(deps: Dependencies, among: set<ActivityId>, a: ActivityId) {
    a in deps && exists d :: d in deps[a] && d in among
  }

  lemma LongerPath(deps: Dependencies, path: seq<ActivityId>, d: ActivityId)
    requires Path(deps, path) && d in deps && d in deps[path[|path| - 1]]
    ensures Path(deps, path + [d])
  {
    var longer := path + [d];
    forall i | 0 <= i < |longer| - 1 ensures longer[i + 1] in deps[longer[i]] {
      if i == |path| - 1 { assert longer[i] == path[|path| - 1]; }
    }
  }

  lemma SuffixPath(deps: Dependencies, path: seq<ActivityId>, i: nat)
    requires Path(deps, path) && i < |path|
    ensures PathFrom(deps, path[i..], path[i], path[|path| - 1])
  {
  }

  /** A non-empty set each of whose members depends on another contains a cycle. */
  lemma {:induction false} FindCycle(deps: Dependencies, stuck: set<ActivityId>, path: seq<ActivityId>)
    requires stuck <= deps.Keys
    requires forall a :: a in stuck ==> DependsInto(deps, stuck, a)
    requires Path(deps, path) && (forall i :: 0 <= i < |path| ==> path[i] in stuck)
    ensures !Acyclic(deps)
    decreases |Unvisited(stuck, path)|
  {
    var last := path[|path| - 1];
    assert DependsInto(deps, stuck, last);
    var d :| d in deps[last] && d in stuck;
    LongerPath(deps, path, d);
    if d in path {
      BackOnPath(deps, path, d);
    } else {
      FewerLeft(stuck, path, d);
      FindCycle(deps, stuck, path + [d]);
    }
  }

  lemma BackOnPath(deps: Dependencies, path: seq<ActivityId>, d: ActivityId)
    requires Path(deps, path + [d]) && d in path
    ensures DependsOn(deps, d, d)
  {
    var i :| 0 <= i < |path| && path[i] == d;
    SuffixPath(deps, path + [d], i);
  }

  lemma FewerLeft(stuck: set<ActivityId>, path: seq<ActivityId>, d: ActivityId)
    requires d in stuck && d !in path
    ensures |Unvisited(stuck, path + [d])| < |Unvisited(stuck, path)|
  {
    assert d in Unvisited(stuck, path) && d !in Unvisited(stuck, path + [d]);
    SmallerSet(Unvisited(stuck, path + [d]), Unvisited(stuck, path));
  }

  ghost function Unvisited(stuck: set<ActivityId>, path: seq<ActivityId>): set<ActivityId> {
    set x | x in stuck && x !in path
  }

  lemma SmallerSet<T>(a: set<T>, b: set<T>)
    requires a < b
    ensures |a| < |b|
  {
    var x :| x in b && x !in a;
    SubsetSize(a, b - {x});
  }

  lemma {:induction false} SubsetSize<T>(a: set<T>, b: set<T>)
    requires a <= b
    ensures |a| <= |b|
    decreases |a|
  {
    if a != {} {
      var x :| x in a;
      SubsetSize(a - {x}, b - {x});
    }
  }

  /** In an acyclic graph some member of every non-empty set has no dependency in the set. */
  lemma Least(deps: Dependencies, among: set<ActivityId>) returns (a: ActivityId)
    requires Acyclic(deps) && among != {} && among <= deps.Keys
    ensures a in among && !DependsInto(deps, among, a)
  {
    if x :| x in among && !DependsInto(deps, among, x) {
      a := x;
    } else {
      a :| a in among;
      FindCycle(deps, among, [a]);
    }
  }

  lemma {:induction false} CompleteOrder(deps: Dependencies, done: set<ActivityId>) returns (order: seq<ActivityId>)
    requires Acyclic(deps) && done <= deps.Keys
    ensures Legal(deps, done, order)
    decreases |deps.Keys - done|
  {
    if done == deps.Keys {
      order := [];
    } else {
      assert exists a :: a in deps.Keys && a !in done;
      var b :| b in deps.Keys && b !in done;
      assert b in deps.Keys - done;
      var a := Least(deps, deps.Keys - done);
      SmallerSet(deps.Keys - (done + {a}), deps.Keys - done);
      var rest := CompleteOrder(deps, done + {a});
      order := [a] + rest;
      forall d | d in deps[a] && d in deps ensures d in done {
        assert !DependsInto(deps, deps.Keys - done, a);
      }
    }
  }

  /** An acyclic graph has a legal order. */
  lemma OrderExists(deps: Dependencies) returns (order: seq<ActivityId>)
    requires Acyclic(deps)
    ensures Legal(deps, {}, order)
  {
    order := CompleteOrder(deps, {});
  }
}
