/** What the schedule guarantees about the calls at the workers. */
module ExecutionOrder {
  import opened Signals
  import opened Graphs
  import opened Lanes
  import opened Protocol
  import opened Invariants
  import opened Preservation

  /** How often `step()` of id has been called. */
  function StepsBegun(c: Config, s: State, id: ActivityId): nat
    requires Reaches(c, s, id) && s.lanes[c.owner[id]].Valid()
  {
    StepsIn(s.lanes[c.owner[id]].Begun(id))
  }

  /** How often `step()` of id has returned without an error. */
  function StepsDone(c: Config, s: State, id: ActivityId): nat
    requires Reaches(c, s, id) && s.lanes[c.owner[id]].Valid()
  {
    StepsIn(s.lanes[c.owner[id]].Succeeded(id))
  }

  /** The method calls of id so far, by the requests that caused them. */
  function Calls(c: Config, s: State, id: ActivityId): seq<Sig>
    requires Reaches(c, s, id) && s.lanes[c.owner[id]].Valid()
  {
    s.lanes[c.owner[id]].Begun(id)
  }

  ghost predicate Known(c: Config, s: State, id: ActivityId) {
    id in c.deps && Reaches(c, s, id) && s.lanes[c.owner[id]].Valid()
  }

  lemma AllKnown(c: Config, s: State, id: ActivityId)
    requires Inv(c, s) && id in c.deps
    ensures Known(c, s, id) && id in s.flags && ActivityOk(c, s, id)
  {
  }

  /** The scheduler's flags bound what the worker has done. */
  lemma StepBounds(c: Config, s: State, id: ActivityId)
    requires Known(c, s, id) && ActivityOk(c, s, id)
    ensures StepsConfirmed(s.cycle, s.flags[id]) <= StepsDone(c, s, id) <= StepsBegun(c, s, id)
    ensures StepsBegun(c, s, id) <= StepsAsked(s.cycle, s.flags[id])
  {
    ViewOrder(s.lanes[c.owner[id]], id);
    LifeSteps(id, StepsAsked(s.cycle, s.flags[id]), Ended(s.phase, id, s.flags[id]));
  }

  lemma FlagOrder(c: Config, s: State, a: ActivityId, d: ActivityId)
    requires s.flags.Keys == c.deps.Keys && FlagsOk(c, s.cycle, s.flags)
    requires a in c.deps && d in c.deps[a] && d in c.deps
    ensures StepsAsked(s.cycle, s.flags[a]) <= StepsConfirmed(s.cycle, s.flags[d])
  {
    if s.cycle > 0 && s.flags[a].triggered {
      assert DepsReady(c, s.flags, a);
    }
  }

  /** An activity's k-th step begins only after every dependency that is itself scheduled has
      finished its k-th step successfully. */
  lemma DependencyOrder(c: Config, s: State, a: ActivityId, d: ActivityId)
    requires Valid(c) && Reachable(c, s)
    requires a in c.deps && d in c.deps[a] && d in c.deps
    ensures Known(c, s, a) && Known(c, s, d)
    ensures StepsBegun(c, s, a) <= StepsDone(c, s, d)
  {
    ReachableInv(c, s);
    AllKnown(c, s, a);
    AllKnown(c, s, d);
    StepBounds(c, s, a);
    StepBounds(c, s, d);
    FlagOrder(c, s, a, d);
  }

  /** The same along any chain of dependencies. */
  lemma {:induction false} PathOrder(c: Config, s: State, path: seq<ActivityId>)
    requires Valid(c) && Reachable(c, s) && Path(c.deps, path) && |path| > 1
    ensures Known(c, s, path[0]) && Known(c, s, path[|path| - 1])
    ensures StepsBegun(c, s, path[0]) <= StepsDone(c, s, path[|path| - 1])
    decreases |path|
  {
    DependencyOrder(c, s, path[0], path[1]);
    if |path| > 2 {
      PathOrder(c, s, path[1..]);
      assert path[1..][|path| - 2] == path[|path| - 1];
      ReachableInv(c, s);
      AllKnown(c, s, path[1]);
      StepBounds(c, s, path[1]);
    }
  }

  lemma TransitiveOrder(c: Config, s: State, a: ActivityId, b: ActivityId)
    requires Valid(c) && Reachable(c, s) && DependsOn(c.deps, a, b)
    ensures Known(c, s, a) && Known(c, s, b)
    ensures StepsBegun(c, s, a) <= StepsDone(c, s, b)
  {
    var path :| PathFrom(c.deps, path, a, b) && |path| > 1;
    PathOrder(c, s, path);
  }

  /** No activity begins step k + 1 before all have finished step k, so the numbers of finished
      steps never differ by more than one. */
  lemma CycleBarrier(c: Config, s: State, a: ActivityId, b: ActivityId)
    requires Valid(c) && Reachable(c, s) && a in c.deps && b in c.deps
    ensures Known(c, s, a) && Known(c, s, b)
    ensures StepsBegun(c, s, a) <= StepsDone(c, s, b) + 1
    ensures -1 <= StepsDone(c, s, a) - StepsDone(c, s, b) <= 1
  {
    ReachableInv(c, s);
    AllKnown(c, s, a);
    AllKnown(c, s, b);
    StepBounds(c, s, a);
    StepBounds(c, s, b);
  }

  /** No step of any activity begins before the startup of every activity has succeeded. */
  lemma StartupsFirst(c: Config, s: State, a: ActivityId, b: ActivityId)
    requires Valid(c) && Reachable(c, s) && a in c.deps && b in c.deps
    ensures Known(c, s, a) && Known(c, s, b)
    ensures StepsBegun(c, s, a) > 0 ==> Startup(b, ()) in s.lanes[c.owner[b]].Succeeded(b)
  {
    ReachableInv(c, s);
    AllKnown(c, s, a);
    AllKnown(c, s, b);
    StepBounds(c, s, a);
  }

  /** Lifecycle language: the calls of an activity are always the beginning of one startup,
      some steps and one shutdown. */
  lemma LifecycleLanguage(c: Config, s: State, id: ActivityId)
    requires Valid(c) && Reachable(c, s) && id in c.deps
    ensures Known(c, s, id)
    ensures exists n :: Calls(c, s, id) <= Life(id, n, true)
  {
    ReachableInv(c, s);
    AllKnown(c, s, id);
    var l := s.lanes[c.owner[id]];
    var n, ended := StepsAsked(s.cycle, s.flags[id]), Ended(s.phase, id, s.flags[id]);
    ViewOrder(l, id);
    assert l.Asked(id) <= Life(id, n, true);
    assert Calls(c, s, id) <= Life(id, n, true);
  }
}
