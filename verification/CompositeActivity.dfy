/** An activity made of several, and what a schedule of such activities computes. */
module CompositeActivities {
  import opened Signals
  import opened Graphs
  import opened Composites
  import opened Optimizer
  import opened Configuration
  import opened Bodies
  import opened Protocol
  import opened Sequential
  import opened TopicSafety
  import opened Determinism

  datatype Method = StartupMethod | StepMethod | ShutdownMethod

  datatype Call = Call(method_: Method, id: ActivityId)

  function Calls(m: Method, ids: seq<ActivityId>): (r: seq<Call>)
    ensures |r| == |ids| && forall i :: 0 <= i < |ids| ==> r[i] == Call(m, ids[i])
  {
    seq(|ids|, i requires 0 <= i < |ids| => Call(m, ids[i]))
  }

  /** Which components fail, and how. */
  type Failures = map<ActivityId, ActivityError>

  /** The components were called in order up to the first failure, which is the result. */
  ghost predicate UpToFirstFailure(m: Method, ids: seq<ActivityId>, failures: Failures, made: seq<Call>,
                                   r: Option<ActivityError>)
  {
    && |made| <= |ids| && made == Calls(m, ids[..|made|])
    && (forall i :: 0 <= i < |made| - 1 ==> ids[i] !in failures)
    && match r
       case None => |made| == |ids| && forall i :: 0 <= i < |ids| ==> ids[i] !in failures
       case Some(e) => |made| > 0 && ids[|made| - 1] in failures && failures[ids[|made| - 1]] == e
  }

  class CompositeActivity {
    const id: ActivityId
    const activities: seq<ActivityId>
    /** The method calls on the components, in order. */
    var calls: seq<Call>

    constructor (id: ActivityId, activities: seq<ActivityId>)
      ensures this.id == id && this.activities == activities && calls == []
    {
      this.id, this.activities, calls := id, activities, [];
    }

    method Startup(failures: Failures) returns (r: Option<ActivityError>)
      modifies this`calls
      ensures exists made :: calls == old(calls) + made && UpToFirstFailure(StartupMethod, activities, failures, made, r)
    {
      r := Each(StartupMethod, failures);
    }

    method Step(failures: Failures) returns (r: Option<ActivityError>)
      modifies this`calls
      ensures exists made :: calls == old(calls) + made && UpToFirstFailure(StepMethod, activities, failures, made, r)
    {
      r := Each(StepMethod, failures);
    }

    method Shutdown(failures: Failures) returns (r: Option<ActivityError>)
      modifies this`calls
      ensures exists made :: calls == old(calls) + made && UpToFirstFailure(ShutdownMethod, activities, failures, made, r)
    {
      r := Each(ShutdownMethod, failures);
    }

    /** The loop the three methods share. */
    method Each(m: Method, failures: Failures) returns (r: Option<ActivityError>)
      modifies this`calls
      ensures exists made :: calls == old(calls) + made && UpToFirstFailure(m, activities, failures, made, r)
    {
      ghost var made := [];
      for i := 0 to |activities|
        invariant |made| == i && calls == old(calls) + made && made == Calls(m, activities[..i])
        invariant forall k :: 0 <= k < i ==> activities[k] !in failures
      {
        calls := calls + [Call(m, activities[i])];
        made := made + [Call(m, activities[i])];
        assert made == Calls(m, activities[..i + 1]);
        if activities[i] in failures {
          assert UpToFirstFailure(m, activities, failures, made, Some(failures[activities[i]]));
          return Some(failures[activities[i]]);
        }
      }
      assert activities[..|activities|] == activities;
      assert UpToFirstFailure(m, activities, failures, made, None);
      return None;
    }
  }

  // ----- meaning -----

  /** The composites of `order` stepped one after the other, each stepping its components. */
  function StepComposites(p: Program, cs: seq<Chain>, order: seq<ActivityId>, m: Memory, n: Lengths): Memory
    decreases |order|
  {
    if order == [] then m
    else StepComposites(p, cs, order[1..], InOrder(p, Members(cs, order[0]), m, n), n)
  }

  lemma {:induction false} StepExpanded(p: Program, cs: seq<Chain>, order: seq<ActivityId>, m: Memory, n: Lengths)
    ensures StepComposites(p, cs, order, m, n) == InOrder(p, Expand(cs, order), m, n)
    decreases |order|
  {
    if order != [] {
      StepExpanded(p, cs, order[1..], InOrder(p, Members(cs, order[0]), m, n), n);
      InOrderConcat(p, Members(cs, order[0]), Expand(cs, order[1..]), m, n);
    }
  }

  /** The optimised schedule computes the same as the original system: take any complete cycle of
      the unoptimised system, whatever the interleaving. Stepping the composites one by one in any
      legal order of the optimised graph leaves the same topic values and activity states. */
  lemma OptimisedCycle(c: Config, s: State, moves: seq<Move>, s': State,
                       workers: map<ActivityId, WorkerId>, cs: seq<Chain>, order: seq<ActivityId>)
    requires Valid(c) && Reachable(c, s) && Disciplined(c) && CompleteCycle(c, s, moves, s')
    requires Chained(c.deps, workers, cs) && Legal(Quotient(cs, c.deps), {}, order)
    ensures var m := StepComposites(c.program, cs, order, MemoryOf(s.shared), ActsIn(s'.shared));
            && m.values == s'.shared.values
            && forall a :: a in c.deps ==> LocalOf(s'.shared, a) == LocalIn(m, a)
  {
    OrderPreserved(c.deps, workers, cs, order);
    CycleIsSequential(c, s, moves, s', Expand(cs, order));
    StepExpanded(c.program, cs, order, MemoryOf(s.shared), ActsIn(s'.shared));
  }

  /** Such an order exists whenever the original graph is acyclic, and it steps every original
      activity exactly once, after its dependencies. */
  lemma OptimisedOrder(deps: Dependencies, workers: map<ActivityId, WorkerId>, cs: seq<Chain>)
    returns (order: seq<ActivityId>)
    requires Chained(deps, workers, cs) && Acyclic(deps)
    ensures Legal(Quotient(cs, deps), {}, order) && Topological(deps, Expand(cs, order))
  {
    AcyclicityKept(deps, workers, cs);
    order := OrderExists(Quotient(cs, deps));
    OrderPreserved(deps, workers, cs, order);
    LegalIsTopological(deps, Expand(cs, order));
  }
}
