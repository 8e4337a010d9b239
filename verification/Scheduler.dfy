/** The scheduler's code, running against everything the rest of the system may do. */
module Schedulers {
  import opened Signals
  import opened Graphs
  import opened Lanes
  import opened Bodies
  import opened Protocol
  import opened Invariants
  import opened Preservation
  import opened Reach
  import opened ExecutionOrder
  import opened Progress
  import opened Shutdown
  import opened Surroundings

  /** The channels and, behind them, the workers. */
  datatype Connector = Connector(lanes: map<WorkerId, Lane>, shared: Shared)

  function NewStep(f: Flags, f': Flags, id: ActivityId): seq<Sig> {
    if !f.triggered && f'.triggered then [Step(id, ())] else []
  }

  /** Between s and s' the activity got one Step if it was triggered in between, else nothing. */
  ghost predicate StepSent(c: Config, s: State, s': State, id: ActivityId) {
    && Known(c, s, id) && Known(c, s', id) && id in s.flags && id in s'.flags
    && s'.lanes[c.owner[id]].Asked(id) == s.lanes[c.owner[id]].Asked(id) + NewStep(s.flags[id], s'.flags[id], id)
  }

  lemma SentByFlags(phase: Phase, cycle: nat, id: ActivityId, f: Flags, v: View, f': Flags, v': View)
    requires phase.Stepping? && cycle > 0 && ViewOk(phase, cycle, id, f, v) && ViewOk(phase, cycle, id, f', v')
    requires f.triggered ==> f'.triggered
    ensures v'.asked == v.asked + NewStep(f, f', id)
  {
  }

  /** The channels agree with the flags: whatever happened between two reachable states of one
      cycle, exactly the activities triggered in between got a Step, and each got one. */
  lemma StepsSent(c: Config, s: State, s': State, id: ActivityId)
    requires Protocol.Valid(c) && Reachable(c, s) && Reachable(c, s') && id in c.deps
    requires s.phase.Stepping? && s'.phase.Stepping? && s'.cycle == s.cycle
    requires id in s.flags && id in s'.flags && (s.flags[id].triggered ==> s'.flags[id].triggered)
    ensures StepSent(c, s, s', id)
  {
    InCycleView(c, s, id);
    InCycleView(c, s', id);
    SentByFlags(Stepping, s.cycle, id, s.flags[id], ViewOf(s.lanes[c.owner[id]], id),
                s'.flags[id], ViewOf(s'.lanes[c.owner[id]], id));
  }

  ghost predicate StepsSentBetween(c: Config, s: State, s': State) {
    forall id :: id in c.deps ==> StepSent(c, s, s', id)
  }

  lemma AllStepsSent(c: Config, s: State, s': State)
    requires Protocol.Valid(c) && Reachable(c, s) && Reachable(c, s')
    requires s.phase.Stepping? && s'.phase.Stepping? && s'.cycle == s.cycle
    requires s.flags.Keys == c.deps.Keys && s'.flags == Stepped(c, s.flags)
    ensures StepsSentBetween(c, s, s')
  {
    forall id | id in c.deps { StepsSent(c, s, s', id); }
  }

  /** The map iteration has still to visit `todo`. */
  ghost predicate PartlyStepped(c: Config, before: map<ActivityId, Flags>, now: map<ActivityId, Flags>,
                                todo: set<ActivityId>)
  {
    && before.Keys == c.deps.Keys && now.Keys == c.deps.Keys && todo <= c.deps.Keys
    && forall id :: id in before ==> now[id] == if id in todo then before[id] else Stepped(c, before)[id]
  }

  function TriggerIfReady(c: Config, flags: map<ActivityId, Flags>, id: ActivityId): map<ActivityId, Flags>
    requires id in c.deps && id in flags
  {
    flags[id := flags[id].(triggered := flags[id].triggered || DepsReady(c, flags, id))]
  }

  /** Triggering touches no ready flag, so the order of the iteration does not matter. */
  lemma Visited(c: Config, before: map<ActivityId, Flags>, now: map<ActivityId, Flags>, todo: set<ActivityId>,
                id: ActivityId)
    requires PartlyStepped(c, before, now, todo) && id in todo
    ensures PartlyStepped(c, before, TriggerIfReady(c, now, id), todo - {id})
  {
    SameReadiness(c, before, now, id);
    var f := now[id].(triggered := now[id].triggered || DepsReady(c, now, id));
    assert f == Stepped(c, before)[id];
    OneVisited(c, before, now, todo, id, f);
  }

  lemma SameReadiness(c: Config, before: map<ActivityId, Flags>, now: map<ActivityId, Flags>, id: ActivityId)
    requires before.Keys == now.Keys && id in c.deps
    requires forall a :: a in before ==> now[a].ready == before[a].ready
    ensures DepsReady(c, now, id) == DepsReady(c, before, id)
  {
  }

  lemma OneVisited(c: Config, before: map<ActivityId, Flags>, now: map<ActivityId, Flags>, todo: set<ActivityId>,
                   id: ActivityId, f: Flags)
    requires PartlyStepped(c, before, now, todo) && id in todo && f == Stepped(c, before)[id]
    ensures PartlyStepped(c, before, now[id := f], todo - {id})
  {
  }

  lemma AllVisited(c: Config, before: map<ActivityId, Flags>, now: map<ActivityId, Flags>)
    requires PartlyStepped(c, before, now, {})
    ensures now == Stepped(c, before)
  {
  }

  lemma InCycleView(c: Config, s: State, id: ActivityId)
    requires Protocol.Valid(c) && Reachable(c, s) && id in c.deps && s.phase.Stepping?
    ensures s.cycle > 0 && ActivityOk(c, s, id) && Known(c, s, id)
  {
    ReachableInv(c, s);
    AllKnown(c, s, id);
  }

  /** The next id in ascending order. */
  method Smallest(ids: set<ActivityId>) returns (id: ActivityId)
    requires ids != {}
    ensures id in ids && forall x :: x in ids ==> id <= x
  {
    id :| id in ids;
    var rest := ids - {id};
    while rest != {}
      invariant id in ids && rest <= ids && forall x :: x in ids ==> x in rest || id <= x
      decreases rest
    {
      var y :| y in rest;
      rest := rest - {y};
      if y < id { id := y; }
    }
  }

  /** Only activities that are not ready yet are heard of. */
  lemma News(c: Config, s: State, w: WorkerId)
    requires Protocol.Valid(c) && Reachable(c, s) && CanReceiveReady(s, w)
    ensures !s.flags[Head(s, w).id].ready
  {
    ReachableInv(c, s);
    ReadyIsNews(c, s, w);
  }

  ghost predicate WellAsked(c: Config, s: State, id: ActivityId) {
    && Known(c, s, id) && id in s.flags
    && s.lanes[c.owner[id]].Asked(id) ==
         if s.flags[id].everReady then Life(id, StepsAsked(s.cycle, s.flags[id]), true) else [Startup(id, ())]
  }

  /** How every run of the scheduler ends: each activity has been asked for its whole life, with a
      shutdown exactly if it had ever been ready, and Terminate is the last thing any worker gets. */
  ghost predicate WellEnded(c: Config, s: State) {
    && (forall id :: id in c.deps ==> WellAsked(c, s, id))
    && forall w :: w in c.agentOf ==> w in s.lanes && EndsInTerminate(s.lanes[w])
  }

  lemma EndsWell(c: Config, s: State)
    requires Protocol.Valid(c) && Reachable(c, s) && s.phase == Done
    ensures WellEnded(c, s)
  {
    ReachableInv(c, s);
    forall id | id in c.deps ensures WellAsked(c, s, id) {
      AllKnown(c, s, id);
      AskedWell(c, s, id);
    }
    forall w | w in c.agentOf ensures w in s.lanes && EndsInTerminate(s.lanes[w]) {
      assert LanePhaseOk(s.phase, w, s.lanes[w]);
    }
  }

  lemma AskedWell(c: Config, s: State, id: ActivityId)
    requires PhaseOk(c, s) && FlagsOk(c, s.cycle, s.flags) && ActivityOk(c, s, id) && Known(c, s, id) && s.phase == Done
    ensures WellAsked(c, s, id)
  {
    WholeLife(c, s, id);
  }

  lemma StillWaiting(c: Config, flags: map<ActivityId, Flags>)
    requires flags.Keys == c.deps.Keys
    ensures Protocol.AllReady(Stepped(c, flags)) == Protocol.AllReady(flags)
  {
    assert forall id :: id in flags ==> Stepped(c, flags)[id].ready == flags[id].ready;
  }

  // ----- the order of startup -----

  ghost predicate Ascending(ids: seq<ActivityId>) {
    forall i, j :: 0 <= i < j < |ids| ==> ids[i] < ids[j]
  }

  lemma AscendingSnoc(ids: seq<ActivityId>, id: ActivityId)
    requires Ascending(ids) && forall a :: a in ids ==> a < id
    ensures Ascending(ids + [id])
  {
    forall i, j | 0 <= i < j < |ids + [id]| ensures (ids + [id])[i] < (ids + [id])[j] {
      if j == |ids| { assert ids[i] in ids; }
    }
  }

  /** `ids` are the activities outside `unsent`, in ascending order and before all of those. */
  ghost predicate SentSoFar(c: Config, ids: seq<ActivityId>, unsent: set<ActivityId>) {
    && unsent <= c.deps.Keys && Ascending(ids)
    && (forall id :: id in ids <==> id in c.deps && id !in unsent)
    && (forall a, b :: a in ids && b in unsent ==> a < b)
  }

  lemma SendsNext(c: Config, ids: seq<ActivityId>, unsent: set<ActivityId>, id: ActivityId)
    requires SentSoFar(c, ids, unsent) && id in unsent && forall x :: x in unsent ==> id <= x
    ensures id in c.deps && SentSoFar(c, ids + [id], unsent - {id})
  {
    AscendingSnoc(ids, id);
  }

  function StartupsFor(c: Config, w: WorkerId, ids: seq<ActivityId>): seq<Sig> {
    if ids == [] then []
    else
      var id := ids[|ids| - 1];
      StartupsFor(c, w, ids[..|ids| - 1]) + if id in c.owner && c.owner[id] == w then [Startup(id, ())] else []
  }

  /** Each worker was sent the startups of its activities among ids, in that order. */
  ghost predicate StartupsSent(c: Config, before: map<WorkerId, Lane>, after: map<WorkerId, Lane>, ids: seq<ActivityId>) {
    && after.Keys == before.Keys
    && forall w :: w in before ==> after[w].sent == before[w].sent + StartupsFor(c, w, ids)
  }

  lemma NothingStarted(c: Config, lanes: map<WorkerId, Lane>)
    ensures StartupsSent(c, lanes, lanes, [])
  {
  }

  lemma OneMoreStarted(c: Config, before: map<WorkerId, Lane>, lanes: map<WorkerId, Lane>, lanes': map<WorkerId, Lane>,
                       ids: seq<ActivityId>, id: ActivityId)
    requires StartupsSent(c, before, lanes, ids) && SameEnds(lanes, lanes')
    requires id in c.owner && c.owner[id] in lanes'
    ensures StartupsSent(c, before, SendTo(lanes', c.owner[id], Startup(id, ())), ids + [id])
  {
    assert (ids + [id])[..|ids|] == ids;
    forall w | w in before
      ensures SendTo(lanes', c.owner[id], Startup(id, ()))[w].sent == before[w].sent + StartupsFor(c, w, ids + [id])
    {
      if w == c.owner[id] {
        assert (before[w].sent + StartupsFor(c, w, ids)) + [Startup(id, ())] ==
               before[w].sent + (StartupsFor(c, w, ids) + [Startup(id, ())]);
      }
    }
  }

  // ----- how waiting ends -----

  /** Why the scheduler stopped: the startup or a cycle was given up, the stop flag was set after a
      cycle, or there were no more events. */
  datatype Cause = StartupFailed | CycleFailed | StopAsked | NothingLeft

  /** How a run went and ended: the events from the beginning of each cycle on; the cause of the stop with the state in which the scheduler waited then and
      the events from then on, the state in which it stopped waiting for confirmations and the events
      from then on, and the state in which it stopped waiting for acknowledgements. */
  datatype Ending = Ending(starts: seq<seq<Event>>, cause: Cause, at: State, seen: seq<Event>, shutdown: State,
                           between: seq<Event>, last: State)

  /** Each cycle but the first began after a pause in which the stop flag was not set. */
  ghost predicate EachResumed(starts: seq<seq<Event>>) {
    forall k :: 0 < k < |starts| ==> Resumed(starts[k - 1], starts[k])
  }

  /** Enough events for n activities to start and to run through k cycles: one for each signal sent or
      received, and one for the pause after each cycle. */
  ghost function EventsFor(n: nat, k: nat): nat {
    if k == 0 then 2 * n else EventsFor(n, k - 1) + 2 * n + 1
  }

  lemma {:induction false} MoreCycles(n: nat, j: nat, k: nat)
    requires j <= k
    ensures EventsFor(n, j) <= EventsFor(n, k)
    decreases k
  {
    if j < k { MoreCycles(n, j, k - 1); }
  }

  /** With enough events for k cycles, more than k were begun by the time the events were too few. */
  lemma EnoughFor(n: nat, available: nat, cycle: nat)
    requires available < EventsFor(n, cycle)
    ensures forall k: nat :: available >= EventsFor(n, k) ==> cycle > k
  {
    forall k: nat | k >= cycle { MoreCycles(n, cycle, k); }
  }

  function TriggeredSet(flags: map<ActivityId, Flags>): set<ActivityId> {
    set id | id in flags && flags[id].triggered
  }

  lemma TriggeredGrows(flags: map<ActivityId, Flags>, id: ActivityId)
    requires id in flags && !flags[id].triggered
    ensures |TriggeredSet(flags[id := flags[id].(triggered := true)])| == |TriggeredSet(flags)| + 1
  {
    assert TriggeredSet(flags[id := flags[id].(triggered := true)]) == TriggeredSet(flags) + {id};
  }

  /** Whatever could run has been asked to. */
  ghost predicate AllAsked(c: Config, flags: map<ActivityId, Flags>) {
    forall id :: id in c.deps && id in flags && DepsReady(c, flags, id) ==> flags[id].triggered
  }

  /** Whatever can run in state s has been asked to; on an acyclic graph somebody is at work then. */
  ghost predicate FullyAsked(c: Config, s: State) {
    AllAsked(c, s.flags) && (Acyclic(c.deps) ==> SomebodyWorks(s))
  }

  lemma SteppedAsksAll(c: Config, flags: map<ActivityId, Flags>)
    requires flags.Keys == c.deps.Keys
    ensures AllAsked(c, Stepped(c, flags))
  {
    forall id | id in c.deps { SameReadiness(c, flags, Stepped(c, flags), id); }
  }

  /** The scheduler waited in state s and the first event did not bring a Ready. */
  ghost predicate GaveUp(c: Config, s: State, events: seq<Event>) {
    Reachable(c, s) && Waiting(s) && !Outcome(Arrived(c, s, events)).Became?
  }

  /** Prompt events give no reason to stop waiting for somebody who works, unless an activity fails. */
  lemma NoReason(c: Config, s: State, before: seq<Event>, events: seq<Event>)
    requires Protocol.Valid(c) && GaveUp(c, s, events) && SomebodyWorks(s) && IsRest(before, events)
    requires AllPrompt(c, before) && Healthy(s.lanes) && AllFaultless(events)
    ensures events == []
  {
    RestPrompt(c, before, events);
    if events != [] { ReadyArrives(c, s, events); }
  }

  /** On an acyclic graph there is somebody to wait for. */
  lemma SteppedWorks(c: Config, s: State, flags: map<ActivityId, Flags>)
    requires flags.Keys == c.deps.Keys && Acyclic(c.deps) && !Protocol.AllReady(flags) && s.flags == Stepped(c, flags)
    ensures SomebodyWorks(s)
  {
    var id := AlwaysWorking(c, flags);
    assert id in s.flags;
  }

  lemma SteppedFully(c: Config, s: State, flags: map<ActivityId, Flags>)
    requires flags.Keys == c.deps.Keys && !Protocol.AllReady(flags) && s.flags == Stepped(c, flags)
    ensures FullyAsked(c, s) && !Protocol.AllReady(s.flags) && ReadySet(s.flags) == ReadySet(flags)
    ensures s.flags.Keys == c.deps.Keys
  {
    StillWaiting(c, flags);
    SteppedAsksAll(c, flags);
    if Acyclic(c.deps) { SteppedWorks(c, s, flags); }
    SameReady(flags, s.flags);
  }

  lemma NothingFlagged(flags: map<ActivityId, Flags>)
    ensures TriggeredSet(Cleared(flags)) == {} && ReadySet(Cleared(flags)) == {}
  {
  }

  lemma OneMoreReady(flags: map<ActivityId, Flags>, id: ActivityId)
    requires id in flags && !flags[id].ready
    ensures var flags' := flags[id := flags[id].(ready := true, everReady := true)];
            |ReadySet(flags')| == |ReadySet(flags)| + 1 && |TriggeredSet(flags')| == |TriggeredSet(flags)|
  {
    ReadySetGrows(flags, id);
    SameTriggered(flags, id);
  }

  lemma SameTriggered(flags: map<ActivityId, Flags>, id: ActivityId)
    requires id in flags
    ensures TriggeredSet(flags[id := flags[id].(ready := true, everReady := true)]) == TriggeredSet(flags)
  {
  }

  lemma SameReady(flags: map<ActivityId, Flags>, flags': map<ActivityId, Flags>)
    requires flags.Keys == flags'.Keys && forall id :: id in flags ==> flags'[id].ready == flags[id].ready
    ensures ReadySet(flags') == ReadySet(flags)
  {
  }

  lemma FlagCounts(c: Config, flags: map<ActivityId, Flags>)
    requires flags.Keys == c.deps.Keys
    ensures |TriggeredSet(flags)| <= |c.deps| && |ReadySet(flags)| <= |c.deps|
    ensures !Protocol.AllReady(flags) ==> |ReadySet(flags)| < |c.deps|
  {
    assert |c.deps| == |c.deps.Keys| && |flags| == |flags.Keys|;
    SubsetSize(TriggeredSet(flags), c.deps.Keys);
    SubsetSize(ReadySet(flags), c.deps.Keys);
    AllReadyByCount(flags);
  }

  lemma OneTerminate(c: Config, s: State, w: WorkerId)
    requires Protocol.Valid(c) && Reachable(c, s) && CanSendTerminate(s, w)
    ensures Reachable(c, AfterSendTerminate(s, w)) && Backlog(AfterSendTerminate(s, w).lanes) == Backlog(s.lanes) + 1
    ensures AcksDue(c, s) ==> AcksDue(c, AfterSendTerminate(s, w))
    ensures Healthy(s.lanes) ==> Healthy(AfterSendTerminate(s, w).lanes)
  {
    SendBacklog(c, s, w, Terminate(()));
    if AcksDue(c, s) { TerminateKeepsDue(c, s, w); }
    TerminateSent(c, s, w);
    SendHealthy(s.lanes, w, Terminate(()));
  }

  class Scheduler {
    const config: Config
    /** No activity fails in this run. */
    ghost const calm: bool
    var states: map<ActivityId, Flags>
    var connector: Connector
    var environment: seq<Event>
    /** Where in `run` the scheduler is. */
    var phase: Phase
    var cycle: nat

    function World(): State
      reads this
    {
      State(phase, cycle, states, connector.lanes, connector.shared)
    }

    /** The scheduler together with its surroundings is in a state the protocol can reach. */
    ghost predicate Valid()
      reads this
    {
      Protocol.Valid(config) && Reachable(config, World()) && Calm(connector.lanes, environment)
    }

    ghost predicate Calm(lanes: map<WorkerId, Lane>, events: seq<Event>) {
      calm ==> Healthy(lanes) && AllFaultless(events)
    }

    constructor (c: Config, connector: Connector, environment: seq<Event>)
      requires Protocol.Valid(c)
      requires Initial(c, State(Starting(c.deps.Keys), 0, map id | id in c.deps :: Flags(false, false, false),
                                connector.lanes, connector.shared))
      ensures Valid() && config == c && phase == Starting(c.deps.Keys) && this.environment == environment
      ensures calm == AllFaultless(environment)
    {
      config := c;
      calm := AllFaultless(environment);
      this.connector := connector;
      this.environment := environment;
      states := map id | id in c.deps :: Flags(false, false, false);
      phase := Starting(c.deps.Keys);
      cycle := 0;
      new;
      assert Protocol.Run(c, World(), [], World());
    }

    /** Other threads make progress. */
    method LetOthersRun(work: seq<Move>)
      requires Valid() && (calm ==> Faultless(work))
      modifies this`connector
      ensures Valid() && World() == AfterWork(config, old(World()), work)
      ensures SameEnds(old(connector).lanes, connector.lanes)
    {
      WorkReachable(config, World(), work);
      for i := 0 to |work|
        invariant Valid() && AfterWork(config, World(), work[i..]) == AfterWork(config, old(World()), work)
      {
        if IsWorkerMove(work[i]) {
          OneWork(config, World(), work[i]);
          if calm { AnswerHealthy(config, World(), work[i]); }
          var s := Do(config, World(), work[i]);
          connector := Connector(s.lanes, s.shared);
          assert World() == s;
        }
        assert work[i..][1..] == work[i + 1..];
      }
    }

    method NextEvent() returns (e: Event)
      requires Valid() && environment != []
      modifies this`connector, this`environment
      ensures Valid() && environment == old(environment)[1..] && e == old(environment)[0]
      ensures World() == AfterWork(config, old(World()), e.work)
      ensures SameEnds(old(connector).lanes, connector.lanes)
    {
      e := environment[0];
      environment := environment[1..];
      LetOthersRun(e.work);
    }

    /** Other threads may run between any two statements. */
    method Yield()
      requires Valid()
      modifies this`connector, this`environment
      ensures Valid() && NextOrSame(old(environment), environment) && SameEnds(old(connector).lanes, connector.lanes)
    {
      if environment != [] {
        var e := NextEvent();
      }
    }

    predicate AllReady()
      reads this
    {
      Protocol.AllReady(states)
    }

    /** Exactly the activities whose dependencies are ready get a Step, each one Step, whatever
        the order in which the map is iterated. */
    method StepReadyActivities()
      requires Valid() && phase.Stepping?
      modifies this`states, this`connector, this`environment
      ensures Valid() && IsRest(old(environment), environment)
      ensures old(states).Keys == config.deps.Keys && states == Stepped(config, old(states))
      ensures StepsSentBetween(config, old(World()), World())
      ensures |environment| + |TriggeredSet(states)| >= |old(environment)| + |TriggeredSet(old(states))|
    {
      ghost var before, start := states, World();
      Shape(config, World());
      VisitActivities();
      AllVisited(config, before, states);
      AllStepsSent(config, start, World());
    }

    method VisitActivities()
      requires Valid() && phase.Stepping? && states.Keys == config.deps.Keys
      modifies this`states, this`connector, this`environment
      ensures Valid() && IsRest(old(environment), environment) && PartlyStepped(config, old(states), states, {})
      ensures |environment| + |TriggeredSet(states)| >= |old(environment)| + |TriggeredSet(old(states))|
    {
      ghost var before, events := states, environment;
      var todo := config.deps.Keys;
      while todo != {}
        invariant Valid() && IsRest(events, environment) && PartlyStepped(config, before, states, todo)
        invariant |environment| + |TriggeredSet(states)| >= |events| + |TriggeredSet(before)|
      {
        var id :| id in todo;
        VisitActivity(id, before, todo, events);
        todo := todo - {id};
      }
    }

    method VisitActivity(id: ActivityId, ghost before: map<ActivityId, Flags>, ghost todo: set<ActivityId>,
                         ghost start: seq<Event>)
      requires Valid() && phase.Stepping? && PartlyStepped(config, before, states, todo) && id in todo
      requires IsRest(start, environment)
      modifies this`states, this`connector, this`environment
      ensures Valid() && PartlyStepped(config, before, states, todo - {id}) && IsRest(start, environment)
      ensures |environment| + |TriggeredSet(states)| >= |old(environment)| + |TriggeredSet(old(states))|
    {
      ghost var now, events := states, environment;
      StepIfReady(id);
      RestStep(start, events, environment);
      Visited(config, before, now, todo, id);
    }

    method StepIfReady(id: ActivityId)
      requires Valid() && phase.Stepping? && id in config.deps && id in states
      modifies this`states, this`connector, this`environment
      ensures Valid() && NextOrSame(old(environment), environment)
      ensures states == TriggerIfReady(config, old(states), id)
      ensures |environment| + |TriggeredSet(states)| >= |old(environment)| + |TriggeredSet(old(states))|
    {
      if !states[id].triggered && DepsReady(config, states, id) {
        TriggeredGrows(states, id);
        Yield();
        StepActivity(id);
      }
    }

    method StepActivity(id: ActivityId)
      requires Valid() && phase.Stepping? && id in config.deps && id in states
      requires !states[id].triggered && DepsReady(config, states, id)
      modifies this`states, this`connector
      ensures Valid() && states == old(states)[id := old(states)[id].(triggered := true)]
    {
      Shape(config, World());
      Triggered(config, World(), id);
      SendHealthy(connector.lanes, config.owner[id], Step(id, ()));
      ghost var next := AfterTrigger(config, World(), id);
      connector := connector.(lanes := SendTo(connector.lanes, config.owner[id], Step(id, ())));
      states := states[id := states[id].(triggered := true)];
      assert World() == next;
    }

    /** Startup goes to every activity once, in ascending order of the ids. */
    method StartActivities() returns (ghost order: seq<ActivityId>)
      requires Valid() && phase == Starting(config.deps.Keys)
      modifies this`phase, this`connector, this`environment
      ensures Valid() && phase == Starting({}) && IsRest(old(environment), environment)
      ensures |environment| + |config.deps| >= |old(environment)|
      ensures SentSoFar(config, order, {})
      ensures StartupsSent(config, old(connector).lanes, connector.lanes, order)
    {
      order := [];
      ghost var start := environment;
      NothingStarted(config, connector.lanes);
      assert |config.deps.Keys| == |config.deps|;
      while phase.unsent != {}
        invariant Valid() && phase.Starting? && IsRest(start, environment)
        invariant |environment| + |config.deps| >= |start| + |phase.unsent|
        invariant SentSoFar(config, order, phase.unsent)
        invariant StartupsSent(config, old(connector).lanes, connector.lanes, order)
        decreases phase.unsent
      {
        var id := Smallest(phase.unsent);
        SendsNext(config, order, phase.unsent, id);
        ghost var events := environment;
        StartNext(id, old(connector).lanes, order);
        RestStep(start, events, environment);
        order := order + [id];
      }
    }

    method StartNext(id: ActivityId, ghost before: map<WorkerId, Lane>, ghost order: seq<ActivityId>)
      requires Valid() && phase.Starting? && id in phase.unsent && id in config.deps
      requires StartupsSent(config, before, connector.lanes, order)
      modifies this`phase, this`connector, this`environment
      ensures Valid() && phase == Starting(old(phase).unsent - {id}) && NextOrSame(old(environment), environment)
      ensures StartupsSent(config, before, connector.lanes, order + [id])
    {
      ghost var lanes := connector.lanes;
      Yield();
      ghost var lanes' := connector.lanes;
      StartActivity(id);
      OneMoreStarted(config, before, lanes, lanes', order, id);
    }

    method StartActivity(id: ActivityId)
      requires Valid() && phase.Starting? && id in phase.unsent && id in config.deps
      modifies this`phase, this`connector
      ensures Valid() && phase == Starting(old(phase).unsent - {id})
      ensures id in config.owner && config.owner[id] in old(connector).lanes
      ensures connector.lanes == SendTo(old(connector).lanes, config.owner[id], Startup(id, ()))
    {
      Shape(config, World());
      StartupSent(config, World(), id);
      SendHealthy(connector.lanes, config.owner[id], Startup(id, ()));
      ghost var next := AfterSendStartup(config, World(), id);
      connector := connector.(lanes := SendTo(connector.lanes, config.owner[id], Startup(id, ())));
      phase := Starting(phase.unsent - {id});
      assert World() == next;
    }

    /** Waits for the next Ready. The other outcomes are the entry to the shutdown. */
    method WaitNextReady() returns (r: Waited)
      requires Valid() && Waiting(World())
      modifies this`states, this`connector, this`environment, this`phase
      ensures Valid() && environment == Tail(old(environment))
      ensures r == Outcome(Arrived(config, old(World()), old(environment)))
      ensures r.Became? ==> |environment| + 1 == |old(environment)|
      ensures r.Became? ==> phase == old(phase) && r.id in old(states) && !old(states)[r.id].ready
                            && states == old(states)[r.id := old(states)[r.id].(ready := true, everReady := true)]
      ensures !r.Became? ==> states == old(states) && phase.Stopping? && phase.todo == phase.pending == Started(states)
    {
      if environment != [] {
        var e := NextEvent();
        var w := Deliverable(World(), e.from);
        if w.Some? {
          OnlyNewsArrives(config, World(), w.value);
          match Head(World(), w.value) {
            case Ready(id, _) =>
              ReceiveReady(w.value);
              return Became(id);
            case ActivityFailed(id, error) =>
              ReceiveFailure(w.value);
              return Failed(id, error);
            case _ =>
              assert false;
          }
        }
      }
      EnterShutdown();
      return TimedOut;
    }

    method ReceiveReady(w: WorkerId)
      requires Valid() && CanReceiveReady(World(), w)
      modifies this`states, this`connector
      ensures Valid() && connector.lanes == ReceiveFrom(old(connector).lanes, w)
      ensures var id := Head(old(World()), w).id;
              id in old(states) && !old(states)[id].ready
              && states == old(states)[id := old(states)[id].(ready := true, everReady := true)]
    {
      News(config, World(), w);
      ReadyReceived(config, World(), w);
      ReceiveHealthy(connector.lanes, w);
      ghost var next := AfterReceiveReady(World(), w);
      var id := Head(World(), w).id;
      connector := connector.(lanes := ReceiveFrom(connector.lanes, w));
      states := states[id := states[id].(ready := true, everReady := true)];
      assert World() == next;
    }

    method ReceiveFailure(w: WorkerId)
      requires Valid() && CanReceiveFailed(World(), w)
      modifies this`connector, this`phase
      ensures Valid() && connector.lanes == ReceiveFrom(old(connector).lanes, w)
      ensures phase.Stopping? && phase.todo == phase.pending == Started(states)
    {
      FailureReceived(config, World(), w);
      ReceiveHealthy(connector.lanes, w);
      ghost var next := AfterReceiveFailed(config, World(), w);
      connector := connector.(lanes := ReceiveFrom(connector.lanes, w));
      phase := AfterGiveUp(config, World()).phase;
      assert World() == next;
    }

    /** The set of started activities is taken once, on entry to the shutdown. */
    method EnterShutdown()
      requires Valid() && (Waiting(World()) || (phase.Stepping? && AllReady()))
      modifies this`phase
      ensures Valid() && phase.Stopping? && phase.todo == phase.pending == Started(states)
    {
      GivenUp(config, World());
      phase := AfterGiveUp(config, World()).phase;
    }

    /** Shuts down what has started, waits for confirmations, then terminates all workers. Each wait
        ends only when nothing is missing, late, or when nothing more ever happens; with surroundings
        that answer, nothing is missing at the end. */
    method ShutdownGracefully() returns (ghost shutdown: State, ghost between: seq<Event>, ghost last: State)
      requires Valid() && phase.Stopping? && phase.todo == phase.pending == Started(states)
      modifies this`phase, this`connector, this`environment
      ensures Valid() && phase == Done && IsRest(old(environment), between) && IsRest(between, environment)
      ensures ShutDown(shutdown) && (shutdown.phase.pending == {} || between == [] || EndedLate(old(environment), between))
      ensures Ended(last) && (last.phase.acks == {} || environment == [] || EndedLate(between, environment))
      ensures (AllPrompt(config, old(environment)) && old(Spare()) >= 2 * |Started(states)| + 2 * |config.agentOf|) ==>
                shutdown.phase.pending == {} && (AllConnectedWork() ==> last.phase.acks == {})
    {
      ghost var start := environment;
      SendShutdowns();
      RestPrompt(config, start, environment);
      ghost var middle := environment;
      WaitForConfirmations();
      shutdown, between := World(), environment;
      RestTrans(start, middle, between);
      RestPrompt(config, start, between);
      WaitingStopped(config, World());
      phase := AfterStopWaiting(config, World()).phase;
      last := TerminateAllAgents();
    }

    /** All shutdowns had been sent in state s, and the run went on from there with the same flags. */
    ghost predicate ShutDown(s: State)
      reads this
    {
      Reachable(config, s) && s.phase.Stopping? && s.phase.todo == {} && s.flags == states && s.cycle == cycle
    }

    /** Every worker had been sent its Terminate in state s, and nothing happened since. */
    ghost predicate Ended(s: State)
      reads this
    {
      Reachable(config, s) && s.phase.Terminating? && s.phase.notify == {} && World() == s.(phase := Done)
    }

    /** Every remote agent has a worker. */
    predicate AllConnectedWork() {
      config.connected - {config.primary} <= config.agentOf.Values
    }

    /** How many events there are in excess of the answers due. */
    ghost function Spare(): int
      reads this
    {
      |environment| - Backlog(connector.lanes)
    }

    method SendShutdowns()
      requires Valid() && phase.Stopping?
      modifies this`phase, this`connector, this`environment
      ensures Valid() && phase == old(phase).(todo := {}) && IsRest(old(environment), environment)
      ensures Spare() >= old(Spare()) - 2 * |old(phase).todo|
    {
      ghost var start := environment;
      while phase.todo != {}
        invariant Valid() && phase.Stopping? && phase == old(phase).(todo := phase.todo) && IsRest(start, environment)
        invariant Spare() - 2 * |phase.todo| >= old(Spare()) - 2 * |old(phase).todo|
        decreases phase.todo
      {
        var id := Smallest(phase.todo);
        ghost var events := environment;
        ShutdownNext(id);
        RestStep(start, events, environment);
      }
    }

    method ShutdownNext(id: ActivityId)
      requires Valid() && phase.Stopping? && id in phase.todo
      modifies this`phase, this`connector, this`environment
      ensures Valid() && phase == old(phase).(todo := old(phase).todo - {id})
      ensures NextOrSame(old(environment), environment) && Spare() >= old(Spare()) - 2
    {
      ghost var lanes := connector.lanes;
      Yield();
      BacklogSame(lanes, connector.lanes);
      ShutdownActivity(id);
    }

    /** Ends only when nothing is pending any more, or late, or when nothing more ever happens. */
    method WaitForConfirmations()
      requires Valid() && phase.Stopping? && phase.todo == {}
      modifies this`phase, this`connector, this`environment
      ensures Valid() && phase.Stopping? && phase.todo == {} && phase.pending <= old(phase).pending
      ensures phase.pending == {} || environment == [] || EndedLate(old(environment), environment)
      ensures IsRest(old(environment), environment) && InTimeButLast(old(environment), environment)
      ensures AllPrompt(config, old(environment)) ==> Spare() == old(Spare()) && (old(Spare()) >= 0 ==> phase.pending == {})
    {
      ghost var start := environment;
      var late := false;
      while phase.pending != {} && environment != [] && !late
        invariant Valid() && phase.Stopping? && phase.todo == {} && phase.pending <= old(phase).pending
        invariant IsRest(start, environment) && (late ==> EndedLate(start, environment))
        invariant InTimeButLast(start, environment) && (!late ==> InTime(start, environment))
        invariant AllPrompt(config, start) ==> !late && Spare() == old(Spare())
        decreases |environment|
      {
        RestIsRest(start, environment);
        InTimeNext(start, environment);
        late := ConfirmNext();
      }
      if phase.pending != {} && environment == [] {
        PendingExpects(config, World());
        ExpectingBacklog(World());
      }
    }

    /** Receives what the next event delivers, unless it is late. */
    method ConfirmNext() returns (late: bool)
      requires Valid() && phase.Stopping? && phase.todo == {} && phase.pending != {} && environment != []
      modifies this`phase, this`connector, this`environment
      ensures Valid() && World() == ConfirmEvent(config, old(World()), old(environment)[0])
      ensures phase.Stopping? && phase.todo == {} && phase.pending <= old(phase).pending
      ensures environment == old(environment)[1..] && late == old(environment)[0].late
      ensures Prompt(config, old(environment)[0]) ==> Spare() == old(Spare())
    {
      if Prompt(config, environment[0]) { ConfirmProgress(config, World(), environment[0]); }
      var e := NextEvent();
      var w := Deliverable(World(), e.from);
      if !e.late && w.Some? {
        ReceiveConfirmation(w.value);
      }
      return e.late;
    }

    method ShutdownActivity(id: ActivityId)
      requires Valid() && phase.Stopping? && id in phase.todo
      modifies this`phase, this`connector
      ensures Valid() && phase == old(phase).(todo := old(phase).todo - {id})
      ensures Backlog(connector.lanes) == Backlog(old(connector).lanes) + 1
    {
      Shape(config, World());
      SendBacklog(config, World(), config.owner[id], Shutdown(id, ()));
      ShutdownSent(config, World(), id);
      SendHealthy(connector.lanes, config.owner[id], Shutdown(id, ()));
      ghost var next := AfterSendShutdown(config, World(), id);
      connector := connector.(lanes := SendTo(connector.lanes, config.owner[id], Shutdown(id, ())));
      phase := phase.(todo := phase.todo - {id});
      assert World() == next;
    }

    /** A Ready or ActivityFailed takes its activity off the pending set, any other signal is
        ignored. */
    method ReceiveConfirmation(w: WorkerId)
      requires Valid() && CanConfirm(World(), w)
      modifies this`phase, this`connector
      ensures Valid() && World() == AfterConfirm(old(World()), w)
      ensures phase == old(phase).(pending := old(phase).pending - Confirmed(Head(old(World()), w)))
    {
      ConfirmationReceived(config, World(), w);
      ReceiveHealthy(connector.lanes, w);
      ghost var next := AfterConfirm(World(), w);
      var x := Head(World(), w);
      connector := connector.(lanes := ReceiveFrom(connector.lanes, w));
      if x.Ready? || x.ActivityFailed? {
        phase := phase.(pending := phase.pending - {x.id});
      }
      assert World() == next;
    }

    /** Terminate goes to every worker, then the remote agents are waited for. */
    method TerminateAllAgents() returns (ghost last: State)
      requires Valid() && phase == Terminating(config.agentOf.Keys, config.connected - {config.primary})
      modifies this`phase, this`connector, this`environment
      ensures Valid() && phase == Done && IsRest(old(environment), environment)
      ensures Ended(last) && (last.phase.acks == {} || environment == [] || EndedLate(old(environment), environment))
      ensures (AllPrompt(config, old(environment)) && old(Spare()) >= 2 * |config.agentOf| && AllConnectedWork()) ==>
                last.phase.acks == {}
    {
      ghost var start := environment;
      SendTerminates();
      ghost var middle := environment;
      RestPrompt(config, start, middle);
      WaitForAcknowledgements();
      last := World();
      RestTrans(start, middle, environment);
      AllDone(config, World());
      phase := Done;
    }

    method SendTerminates()
      requires Valid() && phase.Terminating? && phase.notify == config.agentOf.Keys
      modifies this`phase, this`connector, this`environment
      ensures Valid() && phase == old(phase).(notify := {}) && IsRest(old(environment), environment)
      ensures Spare() >= old(Spare()) - 2 * |config.agentOf| && AcksDue(config, World())
    {
      ghost var start := environment;
      assert |config.agentOf.Keys| == |config.agentOf|;
      while phase.notify != {}
        invariant Valid() && phase.Terminating? && phase == old(phase).(notify := phase.notify) && IsRest(start, environment)
        invariant phase.notify <= config.agentOf.Keys && AcksDue(config, World())
        invariant Spare() - 2 * |phase.notify| >= old(Spare()) - 2 * |config.agentOf|
        decreases phase.notify
      {
        var w :| w in phase.notify;
        ghost var events := environment;
        TerminateNext(w);
        RestStep(start, events, environment);
      }
    }

    method TerminateNext(w: WorkerId)
      requires Valid() && phase.Terminating? && w in phase.notify && w in config.agentOf && AcksDue(config, World())
      modifies this`phase, this`connector, this`environment
      ensures Valid() && phase == old(phase).(notify := old(phase).notify - {w}) && AcksDue(config, World())
      ensures NextOrSame(old(environment), environment) && Spare() >= old(Spare()) - 2
    {
      ghost var before := World();
      Yield();
      AcksDueLater(config, before, World());
      BacklogSame(before.lanes, connector.lanes);
      TerminateWorker(w);
    }

    method WaitForAcknowledgements()
      requires Valid() && phase.Terminating? && phase.notify == {} && AcksDue(config, World())
      modifies this`phase, this`connector, this`environment
      ensures Valid() && phase.Terminating? && phase.notify == {} && IsRest(old(environment), environment)
      ensures phase.acks == {} || environment == [] || EndedLate(old(environment), environment)
      ensures InTimeButLast(old(environment), environment)
      ensures (AllPrompt(config, old(environment)) && old(Spare()) >= 0 && old(phase).acks <= config.agentOf.Values) ==>
                phase.acks == {}
    {
      ghost var start := environment;
      var late := false;
      while phase.acks != {} && environment != [] && !late
        invariant Valid() && phase.Terminating? && phase.notify == {} && AcksDue(config, World())
        invariant IsRest(start, environment) && (late ==> EndedLate(start, environment)) && phase.acks <= old(phase).acks
        invariant InTimeButLast(start, environment) && (!late ==> InTime(start, environment))
        invariant AllPrompt(config, start) && old(phase).acks <= config.agentOf.Values ==> !late && Spare() == old(Spare())
        decreases |environment|
      {
        RestIsRest(start, environment);
        InTimeNext(start, environment);
        late := AcknowledgeNext();
      }
      if phase.acks != {} && environment == [] && old(phase).acks <= config.agentOf.Values {
        AcksExpected(config, World());
        ExpectingBacklog(World());
      }
    }

    /** Receives what the next event delivers, unless it is late. */
    method AcknowledgeNext() returns (late: bool)
      requires Valid() && phase.Terminating? && phase.notify == {} && phase.acks != {} && environment != []
      requires AcksDue(config, World())
      modifies this`phase, this`connector, this`environment
      ensures Valid() && World() == AckEvent(config, old(World()), old(environment)[0]) && AcksDue(config, World())
      ensures phase.Terminating? && phase.notify == {} && phase.acks <= old(phase).acks
      ensures environment == old(environment)[1..] && late == old(environment)[0].late
      ensures Prompt(config, old(environment)[0]) && old(phase).acks <= config.agentOf.Values ==> Spare() == old(Spare())
    {
      AckEventKeepsDue(config, World(), environment[0]);
      if Prompt(config, environment[0]) && phase.acks <= config.agentOf.Values {
        AckProgress(config, World(), environment[0]);
      }
      var e := NextEvent();
      var w := Deliverable(World(), e.from);
      if !e.late && w.Some? {
        ReceiveAcknowledgement(w.value);
      }
      return e.late;
    }

    method TerminateWorker(w: WorkerId)
      requires Valid() && phase.Terminating? && w in phase.notify && w in config.agentOf
      modifies this`phase, this`connector
      ensures Valid() && phase == old(phase).(notify := old(phase).notify - {w})
      ensures Backlog(connector.lanes) == Backlog(old(connector).lanes) + 1
      ensures AcksDue(config, old(World())) ==> AcksDue(config, World())
    {
      Shape(config, World());
      OneTerminate(config, World(), w);
      ghost var next := AfterSendTerminate(World(), w);
      connector := connector.(lanes := SendTo(connector.lanes, w, Terminate(())));
      phase := phase.(notify := phase.notify - {w});
      assert World() == next;
    }

    method ReceiveAcknowledgement(w: WorkerId)
      requires Valid() && CanReceiveAck(World(), w)
      modifies this`phase, this`connector
      ensures Valid() && World() == AfterReceiveAck(old(World()), w)
      ensures phase == old(phase).(acks := old(phase).acks - Acknowledged(Head(old(World()), w)))
    {
      AckReceived(config, World(), w);
      ReceiveHealthy(connector.lanes, w);
      ghost var next := AfterReceiveAck(World(), w);
      var x := Head(World(), w);
      connector := connector.(lanes := ReceiveFrom(connector.lanes, w));
      if x.TerminateAck? {
        phase := phase.(acks := phase.acks - {x.agent});
      }
      assert World() == next;
    }

    /** Waits until every activity has answered its Startup. It gives up only past the deadline, or
        when an event brings something else than a Ready. */
    method WaitForStartup() returns (ok: bool, ghost at: State, ghost seen: seq<Event>)
      requires Valid() && phase == Starting({})
      modifies this`states, this`connector, this`environment, this`phase
      ensures Valid() && IsRest(old(environment), environment)
      ensures if ok then phase == Starting({}) && AllReady() else StartupGivenUp(at, seen)
      ensures !ok ==> IsRest(old(environment), seen)
      ensures InTime(old(environment), if ok then environment else seen)
      ensures AllPrompt(config, old(environment)) && calm && |old(environment)| >= |config.deps| ==> ok
      ensures |environment| + |config.deps| >= |old(environment)| || !ok
    {
      ghost var start := environment;
      Shape(config, World());
      FlagCounts(config, states);
      ok, at, seen := true, World(), environment;
      while ok && !AllReady()
        invariant Valid() && IsRest(start, environment) && states.Keys == config.deps.Keys
        invariant if ok then phase == Starting({}) else StartupGivenUp(at, seen) && IsRest(start, seen) && !AllReady()
        invariant InTime(start, if ok then environment else seen)
        invariant (if ok then |environment| else |seen|) + |ReadySet(states)| >= |start|
        decreases ok, |environment|
      {
        ok, at, seen := AwaitStarted(start);
      }
      FlagCounts(config, states);
      if !ok { NotPromptAtStart(at, seen, start); }
    }

    /** At the front of `seen` the startup deadline had passed, or the event did not bring a Ready. */
    ghost predicate StartupGivenUp(at: State, seen: seq<Event>)
      reads this
    {
      && phase.Stopping? && phase.todo == phase.pending == Started(states)
      && at.phase == Starting({}) && at.flags == states && Calm(at.lanes, seen)
      && if seen != [] && seen[0].late then Reachable(config, at) && Waiting(at) && environment == seen
         else GaveUp(config, at, seen) && environment == Tail(seen)
    }

    lemma NotPromptAtStart(at: State, seen: seq<Event>, start: seq<Event>)
      requires Valid() && StartupGivenUp(at, seen) && IsRest(start, seen) && !AllReady()
      ensures AllPrompt(config, start) && calm ==> seen == []
    {
      var id :| id in states && !states[id].ready;
      assert SomebodyWorks(at);
      if AllPrompt(config, start) && calm {
        RestPrompt(config, start, seen);
        if seen != [] { assert seen[0] in seen; }
        NoReason(config, at, start, seen);
      }
    }

    method AwaitStarted(ghost start: seq<Event>) returns (ok: bool, ghost at: State, ghost seen: seq<Event>)
      requires Valid() && phase == Starting({}) && !AllReady() && IsRest(start, environment) && InTime(start, environment)
      requires states.Keys == config.deps.Keys
      modifies this`states, this`connector, this`environment, this`phase
      ensures Valid() && IsRest(start, environment) && states.Keys == config.deps.Keys
      ensures if ok then phase == Starting({}) else StartupGivenUp(at, seen) && IsRest(start, seen) && !AllReady()
      ensures InTime(start, if ok then environment else seen)
      ensures ok ==> |environment| < |old(environment)|
      ensures (if ok then |environment| else |seen|) + |ReadySet(states)| >= |old(environment)| + |ReadySet(old(states))|
    {
      at, seen := World(), environment;
      RestIsRest(start, environment);
      InTimeNext(start, environment);
      if environment != [] && environment[0].late {
        EnterShutdown();
        return false, at, seen;
      }
      var r := WaitNextReady();
      if r.Became? { ReadySetGrows(at.flags, r.id); }
      RestStep(start, seen, environment);
      return r.Became?, at, seen;
    }

    method ClearFlags()
      requires Valid() && CanBeginCycle(World())
      modifies this`states, this`phase, this`cycle
      ensures Valid() && phase == Stepping && cycle == old(cycle) + 1 && states == Cleared(old(states))
    {
      CycleBegun(config, World());
      ghost var next := AfterBeginCycle(World());
      states := Cleared(states);
      phase, cycle := Stepping, cycle + 1;
      assert World() == next;
    }

    /** One pass of the task chain. It gives up only when an event brings something else than a
        Ready, and by then everything that could run has been asked to. */
    method RunCycle() returns (ok: bool, ghost at: State, ghost seen: seq<Event>)
      requires Valid() && CanBeginCycle(World())
      modifies this`states, this`connector, this`environment, this`phase, this`cycle
      ensures Valid() && IsRest(old(environment), environment) && cycle == old(cycle) + 1
      ensures if ok then phase.Stepping? && AllReady() else CycleGivenUp(at, seen)
      ensures !ok ==> IsRest(old(environment), seen)
      ensures !ok ==> forall id :: id in config.deps && id in states && DepsReady(config, states, id) ==> states[id].triggered
      ensures Answering(old(environment)) && |old(environment)| >= 2 * |config.deps| ==> ok
      ensures |environment| + 2 * |config.deps| >= |old(environment)| || !ok
    {
      Shape(config, World());
      ClearFlags();
      NothingFlagged(old(states));
      ok, at, seen := StepUntilReady();
      FlagCounts(config, states);
      if !ok { NotPromptInCycle(at, seen, old(environment)); }
    }

    method StepUntilReady() returns (ok: bool, ghost at: State, ghost seen: seq<Event>)
      requires Valid() && phase == Stepping && states.Keys == config.deps.Keys
      modifies this`states, this`connector, this`environment, this`phase
      ensures Valid() && IsRest(old(environment), environment) && states.Keys == config.deps.Keys
      ensures if ok then phase == Stepping && AllReady()
              else CycleGivenUp(at, seen) && IsRest(old(environment), seen) && !AllReady()
      ensures (if ok then |environment| else |seen|) + |TriggeredSet(states)| + |ReadySet(states)|
              >= |old(environment)| + |TriggeredSet(old(states))| + |ReadySet(old(states))|
    {
      ghost var start := environment;
      ok, at, seen := true, World(), environment;
      while ok && !AllReady()
        invariant Valid() && IsRest(start, environment) && states.Keys == config.deps.Keys
        invariant if ok then phase == Stepping else CycleGivenUp(at, seen) && IsRest(start, seen) && !AllReady()
        invariant (if ok then |environment| else |seen|) + |TriggeredSet(states)| + |ReadySet(states)|
                  >= |start| + |TriggeredSet(old(states))| + |ReadySet(old(states))|
        decreases ok, |environment|
      {
        ghost var events := environment;
        ok, at, seen := StepAndWait();
        RestTrans(start, events, environment);
        if !ok { RestTrans(start, events, seen); }
      }
    }

    /** Everything that could run had been asked to, and on an acyclic graph somebody was at work,
        but the event at the front of `seen` did not bring a Ready. */
    ghost predicate CycleGivenUp(at: State, seen: seq<Event>)
      reads this
    {
      && phase.Stopping? && phase.todo == phase.pending == Started(states)
      && at.phase == Stepping && at.cycle == cycle && at.flags == states && Calm(at.lanes, seen)
      && GaveUp(config, at, seen) && environment == Tail(seen) && FullyAsked(config, at)
    }

    lemma NotPromptInCycle(at: State, seen: seq<Event>, start: seq<Event>)
      requires Valid() && CycleGivenUp(at, seen) && IsRest(start, seen)
      ensures Answering(start) ==> seen == []
    {
      if Answering(start) {
        NoReason(config, at, start, seen);
      }
    }

    method StepAndWait() returns (ok: bool, ghost at: State, ghost seen: seq<Event>)
      requires Valid() && phase == Stepping && !AllReady() && states.Keys == config.deps.Keys
      modifies this`states, this`connector, this`environment, this`phase
      ensures Valid() && IsRest(old(environment), environment) && states.Keys == config.deps.Keys
      ensures if ok then phase == Stepping else CycleGivenUp(at, seen) && IsRest(old(environment), seen) && !AllReady()
      ensures ok ==> |environment| < |old(environment)|
      ensures (if ok then |environment| else |seen|) + |TriggeredSet(states)| + |ReadySet(states)|
              >= |old(environment)| + |TriggeredSet(old(states))| + |ReadySet(old(states))|
    {
      AskAll();
      ghost var events := environment;
      ok, at, seen := WaitInCycle();
      RestStep(old(environment), events, environment);
    }

    method WaitInCycle() returns (ok: bool, ghost at: State, ghost seen: seq<Event>)
      requires Valid() && phase == Stepping && !AllReady() && states.Keys == config.deps.Keys
      requires FullyAsked(config, World())
      modifies this`states, this`connector, this`environment, this`phase
      ensures Valid() && environment == Tail(old(environment)) && states.Keys == config.deps.Keys
      ensures if ok then phase == Stepping else CycleGivenUp(at, seen) && seen == old(environment) && !AllReady()
      ensures ok ==> |environment| + 1 == |old(environment)| && |ReadySet(states)| == |ReadySet(old(states))| + 1
      ensures |TriggeredSet(states)| == |TriggeredSet(old(states))| && (!ok ==> states == old(states))
    {
      at, seen := World(), environment;
      var r := WaitNextReady();
      if r.Became? { OneMoreReady(at.flags, r.id); }
      return r.Became?, at, seen;
    }

    /** Everything that can run is asked to; on an acyclic graph somebody is at work then. */
    method AskAll()
      requires Valid() && phase == Stepping && !AllReady() && states.Keys == config.deps.Keys
      modifies this`states, this`connector, this`environment
      ensures Valid() && IsRest(old(environment), environment) && states.Keys == config.deps.Keys && !AllReady()
      ensures FullyAsked(config, World()) && |ReadySet(states)| == |ReadySet(old(states))|
      ensures |environment| + |TriggeredSet(states)| >= |old(environment)| + |TriggeredSet(old(states))|
    {
      ghost var before := states;
      StepReadyActivities();
      SteppedFully(config, World(), before);
    }

    /** What is known of the stop, once the shutdown is over. */
    ghost predicate Stopped(cause: Cause, at: State, seen: seq<Event>)
      reads this
    {
      match cause
      case StartupFailed =>
        && cycle == 0 && at.phase == Starting({}) && at.flags == states && Reachable(config, at) && Waiting(at)
        && ((seen != [] && seen[0].late) || GaveUp(config, at, seen))
      case CycleFailed =>
        && cycle > 0 && at.phase == Stepping && at.cycle == cycle && at.flags == states
        && GaveUp(config, at, seen) && FullyAsked(config, at)
      case StopAsked => cycle > 0 && AllReady() && seen != [] && seen[0].late
      case NothingLeft => cycle > 0 && AllReady() && seen == []
    }

    /** Startup, up to the first cycle or the entry of the shutdown. */
    method Begin() returns (ok: bool, ghost at: State, ghost seen: seq<Event>)
      requires Valid() && phase == Starting(config.deps.Keys) && cycle == 0
      modifies this`states, this`connector, this`environment, this`phase
      ensures Valid() && IsRest(old(environment), environment)
      ensures if ok then CanBeginCycle(World()) else EnteredShutdown(StartupFailed, at, seen)
      ensures !ok ==> IsRest(old(environment), seen)
      ensures ok ==> |environment| + EventsFor(|config.deps|, 0) >= |old(environment)|
      ensures Answering(old(environment)) && !ok ==> |old(environment)| < EventsFor(|config.deps|, 0)
    {
      ghost var start := environment;
      ghost var order := StartActivities();
      ghost var middle := environment;
      RestPrompt(config, start, middle);
      ok, at, seen := WaitForStartup();
      RestTrans(start, middle, environment);
      if !ok { RestTrans(start, middle, seen); }
    }

    /** The shutdown has been entered for the given cause. */
    ghost predicate EnteredShutdown(cause: Cause, at: State, seen: seq<Event>)
      reads this
    {
      && phase.Stopping? && phase.todo == phase.pending == Started(states)
      && Stopped(cause, at, seen) && IsRest(seen, environment)
    }

    /** Whatever can be answered is answered in time, and no activity fails. */
    ghost predicate Answering(events: seq<Event>) {
      Acyclic(config.deps) && AllPrompt(config, events) && calm
    }

    /** One pass, and then the pause at whose end the stop flag is looked at. */
    method NextCycle() returns (ok: bool, ghost cause: Cause, ghost at: State, ghost seen: seq<Event>)
      requires Valid() && CanBeginCycle(World())
      modifies this`states, this`connector, this`environment, this`phase, this`cycle
      ensures Valid() && IsRest(old(environment), environment) && cycle == old(cycle) + 1
      ensures if ok then CanBeginCycle(World()) else EnteredShutdown(cause, at, seen)
      ensures !ok ==> IsRest(old(environment), seen)
      ensures ok ==> |environment| + 2 * |config.deps| + 1 >= |old(environment)| && Resumed(old(environment), environment)
      ensures Answering(old(environment)) && !ok ==> |old(environment)| < 2 * |config.deps| + 1
    {
      ghost var start := environment;
      ok, at, seen := RunCycle();
      cause := CycleFailed;
      if ok {
        ghost var events := environment;
        ok, cause, at, seen := Pause();
        RestPrompt(config, start, events);
        RestTrans(start, events, environment);
        if ok { ResumesNext(start, events); }
      }
    }

    /** The pause after a complete cycle: the next one follows unless the stop flag is set. */
    method Pause() returns (ok: bool, ghost cause: Cause, ghost at: State, ghost seen: seq<Event>)
      requires Valid() && phase.Stepping? && AllReady() && cycle > 0
      modifies this`connector, this`environment, this`phase
      ensures Valid() && IsRest(old(environment), environment)
      ensures ok == (old(environment) != [] && !old(environment)[0].late)
      ensures if ok then CanBeginCycle(World()) && environment == old(environment)[1..]
              else EnteredShutdown(cause, at, seen) && seen == old(environment)
      ensures AllPrompt(config, old(environment)) && !ok ==> old(environment) == []
    {
      at, seen := World(), environment;
      cause := if environment == [] then NothingLeft else StopAsked;
      RestIsRest(seen, seen);
      if environment == [] || environment[0].late {
        EnterShutdown();
        return false, cause, at, seen;
      }
      var e := NextEvent();
      return true, cause, at, seen;
    }

    method CycleFrom(ghost start: seq<Event>) returns (ok: bool, ghost cause: Cause, ghost at: State, ghost seen: seq<Event>)
      requires Valid() && CanBeginCycle(World()) && IsRest(start, environment)
      modifies this`states, this`connector, this`environment, this`phase, this`cycle
      ensures Valid() && IsRest(start, environment) && cycle == old(cycle) + 1
      ensures if ok then CanBeginCycle(World()) else EnteredShutdown(cause, at, seen) && IsRest(start, seen)
      ensures ok ==> Resumed(old(environment), environment)
      ensures !ok ==> IsRest(old(environment), seen)
      ensures ok ==> |environment| + EventsFor(|config.deps|, cycle) >= |old(environment)| + EventsFor(|config.deps|, old(cycle))
      ensures !ok && Answering(start) ==>
                |old(environment)| + EventsFor(|config.deps|, old(cycle)) < EventsFor(|config.deps|, cycle)
    {
      ghost var events := environment;
      RestPrompt(config, start, events);
      ok, cause, at, seen := NextCycle();
      RestTrans(start, events, environment);
      if !ok { RestTrans(start, events, seen); }
    }

    /** The cycles, until the entry of the shutdown. */
    method RunCycles() returns (ghost starts: seq<seq<Event>>, ghost cause: Cause, ghost at: State, ghost seen: seq<Event>)
      requires Valid() && CanBeginCycle(World())
      modifies this`states, this`connector, this`environment, this`phase, this`cycle
      ensures Valid() && EnteredShutdown(cause, at, seen) && IsRest(old(environment), seen)
      ensures |starts| == cycle - old(cycle) > 0 && starts[0] == old(environment) && EachResumed(starts)
      ensures IsRest(starts[|starts| - 1], seen)
      ensures Answering(old(environment)) ==> |old(environment)| + EventsFor(|config.deps|, old(cycle)) < EventsFor(|config.deps|, cycle)
    {
      ghost var start := environment;
      var ok := true;
      starts, cause, at, seen := [], NothingLeft, World(), environment;
      while ok
        invariant Valid() && IsRest(start, environment) && |starts| == cycle - old(cycle)
        invariant starts != [] ==> starts[0] == start && EachResumed(starts)
        invariant if starts == [] then ok && environment == start
                  else if ok then Resumed(starts[|starts| - 1], environment) else IsRest(starts[|starts| - 1], seen)
        invariant if ok then CanBeginCycle(World()) else EnteredShutdown(cause, at, seen) && IsRest(start, seen)
        invariant ok ==> |environment| + EventsFor(|config.deps|, cycle) >= |start| + EventsFor(|config.deps|, old(cycle))
        invariant !ok && Answering(start) ==> |start| + EventsFor(|config.deps|, old(cycle)) < EventsFor(|config.deps|, cycle)
        decreases ok, |environment|
      {
        starts := starts + [environment];
        ok, cause, at, seen := CycleFrom(start);
      }
    }

    /** Startup and all cycles. */
    method UntilShutdown() returns (ghost starts: seq<seq<Event>>, ghost cause: Cause, ghost at: State, ghost seen: seq<Event>)
      requires Valid() && phase == Starting(config.deps.Keys) && cycle == 0
      modifies this`states, this`connector, this`environment, this`phase, this`cycle
      ensures Valid() && EnteredShutdown(cause, at, seen) && IsRest(old(environment), seen)
      ensures |starts| == cycle && EachResumed(starts)
      ensures cycle > 0 ==> IsRest(old(environment), starts[0]) && IsRest(starts[cycle - 1], seen)
      ensures Answering(old(environment)) ==> |old(environment)| < EventsFor(|config.deps|, cycle)
    {
      ghost var start := environment;
      var ok;
      ok, at, seen := Begin();
      starts, cause := [], StartupFailed;
      if ok {
        ghost var middle := environment;
        RestPrompt(config, start, middle);
        starts, cause, at, seen := RunCycles();
        RestTrans(start, middle, seen);
      }
    }

    /** The whole life of the scheduler, for every behaviour of its surroundings: why it stopped, why
        it did not wait longer in the shutdown, and how many cycles surroundings that answer get out
        of it. */
    method Run() returns (ghost end: Ending)
      requires Valid() && phase == Starting(config.deps.Keys) && cycle == 0
      modifies this`states, this`connector, this`environment, this`phase, this`cycle
      ensures Valid() && phase == Done && WellEnded(config, World())
      ensures Stopped(end.cause, end.at, end.seen) && IsRest(old(environment), end.seen)
      ensures |end.starts| == cycle && EachResumed(end.starts)
      ensures cycle > 0 ==> IsRest(old(environment), end.starts[0]) && IsRest(end.starts[cycle - 1], end.seen)
      ensures ShutDown(end.shutdown)
      ensures end.shutdown.phase.pending == {} || end.between == [] || EndedLate(end.seen, end.between)
      ensures Ended(end.last) && (end.last.phase.acks == {} || environment == [] || EndedLate(end.between, environment))
      ensures Answering(old(environment)) ==> |old(environment)| < EventsFor(|config.deps|, cycle)
    {
      ghost var starts, cause, at, seen := UntilShutdown();
      ghost var rest := environment;
      ghost var shutdown, between, last := ShutdownGracefully();
      RestTrans(seen, rest, between);
      EndsWell(config, World());
      end := Ending(starts, cause, at, seen, shutdown, between, last);
    }
  }
}
