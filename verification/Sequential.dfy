/** Running steps one by one: the reference meaning of a cycle. */
module Sequential {
  import opened Signals
  import opened Bodies
  import opened Guards
  import opened Graphs

  /** What one activity works on when nobody interferes. */
  datatype Data = Data(local: Local, values: map<Topic, Value>)

  /** One complete action; the guards only order accesses, so here they do nothing. */
  function DataAct(p: Program, id: ActivityId, d: Data): Data {
    match p.next(id, d.local)
    case Finish(_) => d
    case Load(t) => d.(local := p.resume(id, d.local, if t in d.values then d.values[t] else []))
    case Store(t, v) => Data(p.resume(id, d.local, []), if t in d.values then d.values[t := v] else d.values)
    case _ => d.(local := p.resume(id, d.local, []))
  }

  function DataRun(p: Program, id: ActivityId, d: Data, n: nat): Data {
    if n == 0 then d else DataAct(p, id, DataRun(p, id, d, n - 1))
  }

  datatype Memory = Memory(locals: map<ActivityId, Local>, values: map<Topic, Value>)

  function LocalIn(m: Memory, id: ActivityId): Local { if id in m.locals then m.locals[id] else [] }

  /** The data with which id's step starts. */
  function StartData(p: Program, id: ActivityId, m: Memory): Data {
    Data(p.enter(id, LocalIn(m, id)), m.values)
  }

  /** The step of id alone, its first n actions. */
  function StepAlone(p: Program, id: ActivityId, m: Memory, n: nat): Memory {
    var d := DataRun(p, id, StartData(p, id, m), n);
    Memory(m.locals[id := d.local], d.values)
  }

  /** How many actions each activity's step is given. */
  type Lengths = map<ActivityId, nat>

  function LengthOf(n: Lengths, id: ActivityId): nat { if id in n then n[id] else 0 }

  /** The steps of `order`, one after the other. */
  function InOrder(p: Program, order: seq<ActivityId>, m: Memory, n: Lengths): Memory {
    if order == [] then m
    else
      var k := |order| - 1;
      StepAlone(p, order[k], InOrder(p, order[..k], m, n), LengthOf(n, order[k]))
  }

  // ----- frames -----

  lemma {:induction false} DataRunFrame(p: Program, id: ActivityId, d: Data, n: nat, t: Topic)
    ensures var e := DataRun(p, id, d, n);
            e.values.Keys == d.values.Keys
            && (t in d.values && !Writes(p, id, t) ==> e.values[t] == d.values[t])
    decreases n
  {
    if n > 0 {
      DataRunFrame(p, id, d, n - 1, t);
      var a := p.next(id, DataRun(p, id, d, n - 1).local);
      if a.Store? { assert IsWrite(a, a.topic) && Writes(p, id, a.topic); }
    }
  }

  /** A topic none of the activities writes, and the data of other activities, stay as they were. */
  lemma {:induction false} InOrderFrame(p: Program, order: seq<ActivityId>, m: Memory, n: Lengths, t: Topic)
    requires t in m.values
    ensures t in InOrder(p, order, m, n).values
    ensures (forall a :: a in order ==> !Writes(p, a, t)) ==> InOrder(p, order, m, n).values[t] == m.values[t]
    decreases |order|
  {
    if order != [] {
      var k := |order| - 1;
      InOrderFrame(p, order[..k], m, n, t);
      var before := InOrder(p, order[..k], m, n);
      DataRunFrame(p, order[k], StartData(p, order[k], before), LengthOf(n, order[k]), t);
    }
  }

  lemma {:induction false} InOrderKeys(p: Program, order: seq<ActivityId>, m: Memory, n: Lengths)
    ensures InOrder(p, order, m, n).values.Keys == m.values.Keys
    decreases |order|
  {
    if order != [] {
      var k := |order| - 1;
      InOrderKeys(p, order[..k], m, n);
      DataRunFrame(p, order[k], StartData(p, order[k], InOrder(p, order[..k], m, n)), LengthOf(n, order[k]), "");
    }
  }

  lemma {:induction false} InOrderLocals(p: Program, order: seq<ActivityId>, m: Memory, n: Lengths, id: ActivityId)
    requires id !in order
    ensures LocalIn(InOrder(p, order, m, n), id) == LocalIn(m, id)
    decreases |order|
  {
    if order != [] { InOrderLocals(p, order[..|order| - 1], m, n, id); }
  }

  lemma {:induction false} InOrderConcat(p: Program, xs: seq<ActivityId>, ys: seq<ActivityId>, m: Memory, n: Lengths)
    ensures InOrder(p, xs + ys, m, n) == InOrder(p, ys, InOrder(p, xs, m, n), n)
    decreases |ys|
  {
    if ys == [] {
      assert xs + ys == xs;
    } else {
      var k := |ys| - 1;
      assert (xs + ys)[..|xs + ys| - 1] == xs + ys[..k];
      InOrderConcat(p, xs, ys[..k], m, n);
    }
  }

  lemma {:induction false} EachPlace(p: Program, order: seq<ActivityId>, m0: Memory, n: Lengths, i: nat)
    requires i < |order| && forall j, k :: 0 <= j < k < |order| ==> order[j] != order[k]
    ensures var all := InOrder(p, order, m0, n);
            var d := DataRun(p, order[i], StartData(p, order[i], InOrder(p, order[..i], m0, n)), LengthOf(n, order[i]));
            LocalIn(all, order[i]) == d.local
    decreases |order|
  {
    var k := |order| - 1;
    if i < k {
      EachPlace(p, order[..k], m0, n, i);
      assert order[..k][..i] == order[..i];
    }
  }

  /** The step of order[i] has returned after its n actions. */
  ghost predicate FinishesAt(p: Program, order: seq<ActivityId>, m0: Memory, n: Lengths, i: nat)
    requires i < |order|
  {
    var a := order[i];
    p.next(a, DataRun(p, a, StartData(p, a, InOrder(p, order[..i], m0, n)), LengthOf(n, a)).local).Finish?
  }

  ghost predicate Finishes(p: Program, order: seq<ActivityId>, m0: Memory, n: Lengths) {
    forall i :: 0 <= i < |order| ==> FinishesAt(p, order, m0, n, i)
  }

  lemma {:induction false} FinishAbsorbs(p: Program, a: ActivityId, d: Data, k: nat, n: nat)
    requires k <= n && p.next(a, DataRun(p, a, d, k).local).Finish?
    ensures DataRun(p, a, d, n) == DataRun(p, a, d, k)
    decreases n
  {
    if k < n { FinishAbsorbs(p, a, d, k, n - 1); }
  }

  /** How many actions the steps are given does not matter once they all finish. */
  lemma {:induction false} SameResult(p: Program, order: seq<ActivityId>, m0: Memory, n1: Lengths, n2: Lengths, i: nat)
    requires Finishes(p, order, m0, n1) && Finishes(p, order, m0, n2) && i <= |order|
    ensures InOrder(p, order[..i], m0, n1) == InOrder(p, order[..i], m0, n2)
    decreases i
  {
    if i > 0 {
      var k := i - 1;
      SameResult(p, order, m0, n1, n2, k);
      assert order[..i][..k] == order[..k];
      var a := order[k];
      var d := StartData(p, a, InOrder(p, order[..k], m0, n1));
      assert FinishesAt(p, order, m0, n1, k) && FinishesAt(p, order, m0, n2, k);
      if LengthOf(n1, a) <= LengthOf(n2, a) {
        FinishAbsorbs(p, a, d, LengthOf(n1, a), LengthOf(n2, a));
      } else {
        FinishAbsorbs(p, a, d, LengthOf(n2, a), LengthOf(n1, a));
      }
    }
  }

  // ----- legal orders by position -----

  /** Every scheduled activity once, after its scheduled dependencies. */
  ghost predicate Topological(deps: Dependencies, order: seq<ActivityId>) {
    && (forall i :: 0 <= i < |order| ==> order[i] in deps)
    && (forall i, j :: 0 <= i < j < |order| ==> order[i] != order[j])
    && (forall a :: a in deps ==> a in order)
    && (forall i, d :: 0 <= i < |order| && d in deps[order[i]] && d in deps ==> d in order[..i])
  }

  lemma {:induction false} LegalShape(deps: Dependencies, done: set<ActivityId>, order: seq<ActivityId>)
    requires Legal(deps, done, order)
    ensures forall i :: 0 <= i < |order| ==> order[i] in deps && order[i] !in done
    ensures forall i, j :: 0 <= i < j < |order| ==> order[i] != order[j]
    ensures forall a :: a in deps ==> a in done || a in order
    ensures forall i, d :: 0 <= i < |order| && d in deps[order[i]] && d in deps ==> d in done || d in order[..i]
    decreases |order|
  {
    if order != [] {
      var rest := order[1..];
      LegalShape(deps, done + {order[0]}, rest);
      forall i, d | 0 <= i < |order| && d in deps[order[i]] && d in deps ensures d in done || d in order[..i] {
        if i > 0 {
          assert order[i] == rest[i - 1];
          assert d in done + {order[0]} || d in rest[..i - 1];
          assert order[..i] == [order[0]] + rest[..i - 1];
        }
      }
      assert order == [order[0]] + rest;
    }
  }

  lemma LegalIsTopological(deps: Dependencies, order: seq<ActivityId>)
    requires Legal(deps, {}, order)
    ensures Topological(deps, order)
  {
    LegalShape(deps, {}, order);
  }

  lemma {:induction false} PathBefore(deps: Dependencies, order: seq<ActivityId>, i: nat, path: seq<ActivityId>)
    requires Topological(deps, order) && i < |order| && Path(deps, path) && |path| > 1 && path[0] == order[i]
    ensures path[|path| - 1] in order[..i]
    decreases |path|
  {
    assert path[1] in order[..i];
    var j :| 0 <= j < i && order[j] == path[1];
    if |path| > 2 {
      PathBefore(deps, order, j, path[1..]);
      assert path[1..][|path| - 2] == path[|path| - 1];
    }
  }

  lemma DependencyBefore(deps: Dependencies, order: seq<ActivityId>, i: nat, b: ActivityId)
    requires Topological(deps, order) && i < |order| && DependsOn(deps, order[i], b)
    ensures b in order[..i]
  {
    var path :| PathFrom(deps, path, order[i], b) && |path| > 1;
    PathBefore(deps, order, i, path);
  }

  ghost predicate Schedulable(deps: Dependencies) { exists order :: Legal(deps, {}, order) }

  /** Legal orders exist exactly for acyclic graphs. */
  lemma OrderIffAcyclic(deps: Dependencies)
    ensures Acyclic(deps) <==> Schedulable(deps)
  {
    if Acyclic(deps) {
      var order := OrderExists(deps);
    }
    if order :| Legal(deps, {}, order) { LegalAcyclic(deps, order); }
  }

  lemma LegalAcyclic(deps: Dependencies, order: seq<ActivityId>)
    requires Legal(deps, {}, order)
    ensures Acyclic(deps)
  {
    LegalIsTopological(deps, order);
    forall a { NotOnCycle(deps, order, a); }
  }

  lemma NotOnCycle(deps: Dependencies, order: seq<ActivityId>, a: ActivityId)
    requires Topological(deps, order)
    ensures !DependsOn(deps, a, a)
  {
    if DependsOn(deps, a, a) {
      var path :| PathFrom(deps, path, a, a) && |path| > 1;
      var i :| 0 <= i < |order| && order[i] == a;
      DependencyBefore(deps, order, i, a);
    }
  }
}
