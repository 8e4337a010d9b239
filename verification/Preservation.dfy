/** Every move of the protocol keeps the invariant. */
module Preservation {
  import opened Signals
  import opened Lanes
  import opened Bodies
  import opened Protocol
  import opened Invariants

  lemma InitialInv(c: Config, s: State)
    requires Valid(c) && Initial(c, s)
    ensures Inv(c, s)
  {
    forall id | id in c.deps ensures ActivityOk(c, s, id) {
      var l := s.lanes[c.owner[id]];
      assert l.sent[l.received..] == [];
    }
  }

  // ----- sends -----

  lemma LaneAfterSend(c: Config, w: WorkerId, l: Lane, x: Sig)
    requires LaneOk(c, w, l) && OnlyRequests(l) && (Addressed(c, w, x) || x.Terminate?)
    ensures LaneOk(c, w, l.Send(x))
    ensures IsRequest(x) ==> OnlyRequests(l.Send(x))
    ensures x.Terminate? ==> EndsInTerminate(l.Send(x))
    ensures ReceivedReady(l) ==> ReceivedReady(l.Send(x))
  {
  }

  /** Lanes stay consistent when one of them changes and the phase asks no more of the others. */
  lemma LanesAfter(c: Config, s: State, phase: Phase, w: WorkerId, l: Lane, s': State)
    requires LanesOk(c, s) && s'.phase == phase && s'.lanes == s.lanes[w := l]
    requires LaneOk(c, w, l) && LanePhaseOk(phase, w, l)
    requires forall v :: v in s.lanes && v != w && LanePhaseOk(s.phase, v, s.lanes[v]) ==>
                           LanePhaseOk(phase, v, s.lanes[v])
    ensures LanesOk(c, s')
  {
    forall v | v in s'.lanes ensures LaneOk(c, v, s'.lanes[v]) && LanePhaseOk(s'.phase, v, s'.lanes[v]) {
      if v != w { assert LaneOk(c, v, s.lanes[v]); }
    }
  }

  lemma FlagsAfterTrigger(c: Config, cycle: nat, flags: map<ActivityId, Flags>, id: ActivityId)
    requires cycle > 0 && FlagsOk(c, cycle, flags) && id in flags && id in c.deps && DepsReady(c, flags, id)
    ensures FlagsOk(c, cycle, flags[id := flags[id].(triggered := true)])
  {
    var flags' := flags[id := flags[id].(triggered := true)];
    forall a | a in flags' && flags'[a].triggered && a in c.deps ensures DepsReady(c, flags', a) {
      assert DepsReady(c, flags, a);
    }
  }

  function Grown(v: View, more: seq<Sig>): View { View(v.asked + more, v.open + more, v.succeeded) }

  lemma NotGrown(v: View)
    ensures Grown(v, []) == v
  {
    assert v.asked + [] == v.asked && v.open + [] == v.open;
  }

  /** Activity a's view after x went to worker w. */
  lemma ViewAfterSend(c: Config, s: State, w: WorkerId, x: Sig, a: ActivityId)
    requires ActivityOk(c, s, a) && w in s.lanes
    requires IsRequest(x) && x.id in c.owner ==> c.owner[x.id] == w
    ensures var l := s.lanes[c.owner[a]];
            var l' := SendTo(s.lanes, w, x)[c.owner[a]];
            l'.Valid() && ViewOf(l', a) == Grown(ViewOf(l, a), Mine(x, a))
  {
    if c.owner[a] == w {
      SendView(s.lanes[w], x, a);
    } else {
      NotGrown(ViewOf(s.lanes[c.owner[a]], a));
    }
  }

  lemma StartupView(unsent: set<ActivityId>, id: ActivityId, a: ActivityId, f: Flags, v: View)
    requires id in unsent && ViewOk(Starting(unsent), 0, a, f, v)
    ensures ViewOk(Starting(unsent - {id}), 0, a, f, Grown(v, Mine(Startup(id, ()), a)))
  {
    if a != id { NotGrown(v); }
  }

  lemma SendStartupPhase(c: Config, s: State, id: ActivityId)
    requires PhaseOk(c, s) && CanSendStartup(c, s, id)
    ensures PhaseOk(c, AfterSendStartup(c, s, id))
  {
  }

  lemma SendStartupLanes(c: Config, s: State, id: ActivityId)
    requires Inv(c, s) && CanSendStartup(c, s, id)
    ensures LanesOk(c, AfterSendStartup(c, s, id))
  {
    var w := c.owner[id];
    LaneAfterSend(c, w, s.lanes[w], Startup(id, ()));
    LanesAfter(c, s, Starting(s.phase.unsent - {id}), w, s.lanes[w].Send(Startup(id, ())), AfterSendStartup(c, s, id));
  }

  lemma SendStartupActivity(c: Config, s: State, id: ActivityId, a: ActivityId)
    requires PhaseOk(c, s) && ActivityOk(c, s, a) && CanSendStartup(c, s, id)
    ensures ActivityOk(c, AfterSendStartup(c, s, id), a)
  {
    ViewAfterSend(c, s, c.owner[id], Startup(id, ()), a);
    StartupView(s.phase.unsent, id, a, s.flags[a], ViewOf(s.lanes[c.owner[a]], a));
  }

  lemma SendStartupKeeps(c: Config, s: State, id: ActivityId)
    requires Inv(c, s) && CanSendStartup(c, s, id)
    ensures Inv(c, AfterSendStartup(c, s, id))
  {
    SendStartupPhase(c, s, id);
    SendStartupLanes(c, s, id);
    forall a | a in c.deps { SendStartupActivity(c, s, id, a); }
  }

  lemma TriggerView(cycle: nat, id: ActivityId, a: ActivityId, f: Flags, v: View)
    requires cycle > 0 && ViewOk(Stepping, cycle, a, f, v) && (a == id ==> !f.triggered)
    ensures var f' := if a == id then f.(triggered := true) else f;
            ViewOk(Stepping, cycle, a, f', Grown(v, Mine(Step(id, ()), a)))
  {
    if a != id { NotGrown(v); }
  }

  lemma TriggerPhase(c: Config, s: State, id: ActivityId)
    requires PhaseOk(c, s) && CanTrigger(c, s, id)
    ensures PhaseOk(c, AfterTrigger(c, s, id))
  {
  }

  lemma TriggerLanes(c: Config, s: State, id: ActivityId)
    requires Inv(c, s) && CanTrigger(c, s, id)
    ensures LanesOk(c, AfterTrigger(c, s, id))
  {
    var w := c.owner[id];
    LaneAfterSend(c, w, s.lanes[w], Step(id, ()));
    LanesAfter(c, s, s.phase, w, s.lanes[w].Send(Step(id, ())), AfterTrigger(c, s, id));
  }

  lemma TriggerActivity(c: Config, s: State, id: ActivityId, a: ActivityId)
    requires PhaseOk(c, s) && ActivityOk(c, s, a) && CanTrigger(c, s, id)
    ensures ActivityOk(c, AfterTrigger(c, s, id), a)
  {
    ViewAfterSend(c, s, c.owner[id], Step(id, ()), a);
    TriggerView(s.cycle, id, a, s.flags[a], ViewOf(s.lanes[c.owner[a]], a));
  }

  lemma TriggerKeeps(c: Config, s: State, id: ActivityId)
    requires Inv(c, s) && CanTrigger(c, s, id)
    ensures Inv(c, AfterTrigger(c, s, id))
  {
    TriggerPhase(c, s, id);
    FlagsAfterTrigger(c, s.cycle, s.flags, id);
    TriggerLanes(c, s, id);
    forall a | a in c.deps { TriggerActivity(c, s, id, a); }
  }

  lemma ShutdownView(p: Phase, cycle: nat, id: ActivityId, a: ActivityId, f: Flags, v: View)
    requires p.Stopping? && id in p.todo && p.todo <= p.pending && ViewOk(p, cycle, a, f, v)
    ensures ViewOk(p.(todo := p.todo - {id}), cycle, a, f, Grown(v, Mine(Shutdown(id, ()), a)))
  {
    if a != id {
      NotGrown(v);
    } else if id in p.stale {
      var x: Sig :| !x.Shutdown? && v.open == [x] + [];
      assert v.open + [Shutdown(id, ())] == [x] + [Shutdown(id, ())];
    }
  }

  lemma SendShutdownLanes(c: Config, s: State, id: ActivityId)
    requires Inv(c, s) && CanSendShutdown(c, s, id)
    ensures LanesOk(c, AfterSendShutdown(c, s, id))
  {
    var w := c.owner[id];
    LaneAfterSend(c, w, s.lanes[w], Shutdown(id, ()));
    var s' := AfterSendShutdown(c, s, id);
    LanesAfter(c, s, s'.phase, w, s.lanes[w].Send(Shutdown(id, ())), s');
  }

  lemma SendShutdownActivity(c: Config, s: State, id: ActivityId, a: ActivityId)
    requires PhaseOk(c, s) && ActivityOk(c, s, a) && CanSendShutdown(c, s, id)
    ensures ActivityOk(c, AfterSendShutdown(c, s, id), a)
  {
    ViewAfterSend(c, s, c.owner[id], Shutdown(id, ()), a);
    ShutdownView(s.phase, s.cycle, id, a, s.flags[a], ViewOf(s.lanes[c.owner[a]], a));
  }

  lemma SendShutdownPhase(c: Config, s: State, id: ActivityId)
    requires PhaseOk(c, s) && CanSendShutdown(c, s, id)
    ensures PhaseOk(c, AfterSendShutdown(c, s, id))
  {
  }

  lemma SendShutdownKeeps(c: Config, s: State, id: ActivityId)
    requires Inv(c, s) && CanSendShutdown(c, s, id)
    ensures Inv(c, AfterSendShutdown(c, s, id))
  {
    SendShutdownPhase(c, s, id);
    SendShutdownLanes(c, s, id);
    forall a | a in c.deps { SendShutdownActivity(c, s, id, a); }
  }

  lemma SendTerminateLanes(c: Config, s: State, w: WorkerId)
    requires Inv(c, s) && CanSendTerminate(s, w)
    ensures LanesOk(c, AfterSendTerminate(s, w))
  {
    LaneAfterSend(c, w, s.lanes[w], Terminate(()));
    var s' := AfterSendTerminate(s, w);
    LanesAfter(c, s, s'.phase, w, s.lanes[w].Send(Terminate(())), s');
  }

  lemma SendTerminateActivity(c: Config, s: State, w: WorkerId, a: ActivityId)
    requires ActivityOk(c, s, a) && CanSendTerminate(s, w)
    ensures ActivityOk(c, AfterSendTerminate(s, w), a)
  {
    ViewAfterSend(c, s, w, Terminate(()), a);
    NotGrown(ViewOf(s.lanes[c.owner[a]], a));
  }

  lemma SendTerminateKeeps(c: Config, s: State, w: WorkerId)
    requires Inv(c, s) && CanSendTerminate(s, w)
    ensures Inv(c, AfterSendTerminate(s, w))
  {
    SendTerminateLanes(c, s, w);
    forall a | a in c.deps { SendTerminateActivity(c, s, w, a); }
  }

  // ----- receives -----

  lemma LaneAfterReceive(c: Config, w: WorkerId, l: Lane)
    requires LaneOk(c, w, l) && l.received < |l.answers|
    ensures LaneOk(c, w, l.Receive())
    ensures OnlyRequests(l) ==> OnlyRequests(l.Receive())
    ensures EndsInTerminate(l) ==> EndsInTerminate(l.Receive())
    ensures ReceivedReady(l) && l.answers[l.received].Ready? ==> ReceivedReady(l.Receive())
  {
  }

  /** What the next answer of worker w answers. */
  function Answered(s: State, w: WorkerId): Sig
    requires HasAnswer(s, w) && s.lanes[w].Valid()
  {
    s.lanes[w].sent[s.lanes[w].received]
  }

  /** The part of the next answer of worker w that concerns activity a. */
  function Settled(c: Config, s: State, w: WorkerId, a: ActivityId): seq<Sig>
    requires HasAnswer(s, w) && s.lanes[w].Valid() && Reaches(c, s, a)
  {
    if c.owner[a] == w then Mine(Answered(s, w), a) else []
  }

  lemma ViewAfterReceive(c: Config, s: State, w: WorkerId, a: ActivityId)
    requires ActivityOk(c, s, a) && HasAnswer(s, w) && s.lanes[w].Valid()
    ensures var l := s.lanes[c.owner[a]];
            var l' := ReceiveFrom(s.lanes, w)[c.owner[a]];
            && l'.Valid()
            && ViewOf(l, a) == ViewOf(l', a).(open := Settled(c, s, w, a) + l'.Open(a))
  {
    if c.owner[a] == w {
      ReceiveView(s.lanes[w], a);
    } else {
      var o := s.lanes[c.owner[a]].Open(a);
      assert [] + o == o;
    }
  }

  /** When nothing of a is open any more and all answers were Ready, all that was asked succeeded. */
  lemma AskedSucceeded(l: Lane, a: ActivityId)
    requires ReceivedReady(l) && l.Open(a) == []
    ensures l.Asked(a) <= l.Succeeded(a)
  {
    ConfirmedSucceeded(l, a);
  }

  lemma ReadyView(phase: Phase, cycle: nat, id: ActivityId, f: Flags, v: View, r: Sig, v': View)
    requires (phase == Starting({}) && cycle == 0) || (phase.Stepping? && cycle > 0)
    requires ViewOk(phase, cycle, id, f, v) && v == v'.(open := [r] + v'.open)
    requires v'.open == [] ==> v'.asked <= v'.succeeded
    ensures ViewOk(phase, cycle, id, f.(ready := true, everReady := true), v')
  {
    assert v'.open == ([r] + v'.open)[1..] == v.open[1..] == [];
    LifeSteps(id, StepsAsked(cycle, f), false);
    LifeStarts(id, StepsAsked(cycle, f), false);
    StepsPrefix(v'.asked, v'.succeeded);
    assert v'.succeeded == v'.asked + v'.succeeded[|v'.asked|..];
  }

  /** The next answer of a worker tells of an activity of that worker. */
  lemma HeadOwned(c: Config, s: State, w: WorkerId)
    requires HasAnswer(s, w) && LaneOk(c, w, s.lanes[w]) && OnlyRequests(s.lanes[w])
    ensures Addressed(c, w, Answered(s, w))
    ensures Head(s, w).Ready? || Head(s, w).ActivityFailed?
    ensures Head(s, w).id == Answered(s, w).id
  {
  }

  /** A step that leaves an activity's flags and view alone keeps what is known of it. */
  lemma SameView(c: Config, s: State, s': State, a: ActivityId)
    requires ActivityOk(c, s, a) && s'.phase == s.phase && s'.cycle == s.cycle
    requires a in s'.flags && s'.flags[a] == s.flags[a] && Reaches(c, s', a) && s'.lanes[c.owner[a]].Valid()
    requires ViewOf(s'.lanes[c.owner[a]], a) == ViewOf(s.lanes[c.owner[a]], a)
    ensures ActivityOk(c, s', a)
  {
  }

  /** An answer that is not about activity a leaves its view alone. */
  lemma OtherSettled(c: Config, s: State, w: WorkerId, a: ActivityId)
    requires ActivityOk(c, s, a) && HasAnswer(s, w) && s.lanes[w].Valid() && Settled(c, s, w, a) == []
    ensures ReceiveFrom(s.lanes, w)[c.owner[a]].Valid()
    ensures ViewOf(ReceiveFrom(s.lanes, w)[c.owner[a]], a) == ViewOf(s.lanes[c.owner[a]], a)
  {
    ViewAfterReceive(c, s, w, a);
    var o := ReceiveFrom(s.lanes, w)[c.owner[a]].Open(a);
    assert [] + o == o;
  }

  lemma ReceiveReadyOther(c: Config, s: State, w: WorkerId, a: ActivityId)
    requires ActivityOk(c, s, a) && CanReceiveReady(s, w) && a != Head(s, w).id
    requires LaneOk(c, w, s.lanes[w]) && OnlyRequests(s.lanes[w])
    ensures ActivityOk(c, AfterReceiveReady(s, w), a)
  {
    HeadOwned(c, s, w);
    OtherSettled(c, s, w, a);
    SameView(c, s, AfterReceiveReady(s, w), a);
  }

  lemma ReceiveReadySelf(c: Config, s: State, w: WorkerId)
    requires CanReceiveReady(s, w) && LaneOk(c, w, s.lanes[w]) && OnlyRequests(s.lanes[w]) && ReceivedReady(s.lanes[w])
    requires ActivityOk(c, s, Head(s, w).id)
    requires (s.phase == Starting({}) && s.cycle == 0) || (s.phase.Stepping? && s.cycle > 0)
    ensures ActivityOk(c, AfterReceiveReady(s, w), Head(s, w).id)
  {
    var a := Head(s, w).id;
    ViewAfterReceive(c, s, w, a);
    HeadOwned(c, s, w);
    var l' := s.lanes[w].Receive();
    if l'.Open(a) == [] {
      LaneAfterReceive(c, w, s.lanes[w]);
      AskedSucceeded(l', a);
    }
    ReadyView(s.phase, s.cycle, a, s.flags[a], ViewOf(s.lanes[w], a), Answered(s, w), ViewOf(l', a));
  }

  lemma ReceiveReadyActivity(c: Config, s: State, w: WorkerId, a: ActivityId)
    requires PhaseOk(c, s) && ActivityOk(c, s, a) && CanReceiveReady(s, w)
    requires LaneOk(c, w, s.lanes[w]) && LanePhaseOk(s.phase, w, s.lanes[w])
    ensures ActivityOk(c, AfterReceiveReady(s, w), a)
  {
    if a == Head(s, w).id { ReceiveReadySelf(c, s, w); } else { ReceiveReadyOther(c, s, w, a); }
  }

  lemma ReceiveReadyPhase(c: Config, s: State, w: WorkerId)
    requires PhaseOk(c, s) && CanReceiveReady(s, w)
    ensures PhaseOk(c, AfterReceiveReady(s, w))
  {
  }

  lemma FlagsAfterReady(c: Config, cycle: nat, flags: map<ActivityId, Flags>, id: ActivityId)
    requires FlagsOk(c, cycle, flags) && id in flags
    ensures FlagsOk(c, cycle, flags[id := flags[id].(ready := true, everReady := true)])
  {
    var flags' := flags[id := flags[id].(ready := true, everReady := true)];
    if cycle > 0 {
      forall a | a in flags' && flags'[a].triggered && a in c.deps ensures DepsReady(c, flags', a) {
        assert flags[a].triggered && DepsReady(c, flags, a);
      }
    }
  }

  lemma ReceiveReadyLanes(c: Config, s: State, w: WorkerId)
    requires Inv(c, s) && CanReceiveReady(s, w)
    ensures LanesOk(c, AfterReceiveReady(s, w))
  {
    LaneAfterReceive(c, w, s.lanes[w]);
    LanesAfter(c, s, s.phase, w, s.lanes[w].Receive(), AfterReceiveReady(s, w));
  }

  lemma ReceiveReadyKeeps(c: Config, s: State, w: WorkerId)
    requires Inv(c, s) && CanReceiveReady(s, w)
    ensures Inv(c, AfterReceiveReady(s, w))
  {
    ReceiveReadyPhase(c, s, w);
    FlagsAfterReady(c, s.cycle, s.flags, Head(s, w).id);
    ReceiveReadyLanes(c, s, w);
    forall a | a in c.deps { ReceiveReadyActivity(c, s, w, a); }
  }

  // ----- a new cycle, and the entries of the shutdown -----

  /** Several lanes or the phase alone may change, as long as the phase asks no more of any lane. */
  lemma LanesUnderPhase(c: Config, s: State, s': State)
    requires LanesOk(c, s) && s'.lanes == s.lanes
    requires forall v :: v in s.lanes && LanePhaseOk(s.phase, v, s.lanes[v]) ==>
                           LanePhaseOk(s'.phase, v, s.lanes[v])
    ensures LanesOk(c, s')
  {
  }

  lemma BeginCycleView(phase: Phase, cycle: nat, a: ActivityId, f: Flags, v: View)
    requires (phase == Starting({}) && cycle == 0) || (phase.Stepping? && cycle > 0)
    requires ViewOk(phase, cycle, a, f, v) && f.ready
    ensures f.everReady && ViewOk(Stepping, cycle + 1, a, Flags(false, false, f.everReady), v)
  {
  }

  lemma ClearedFlags(c: Config, cycle: nat, flags: map<ActivityId, Flags>)
    requires forall a :: a in flags ==> flags[a].everReady
    ensures FlagsOk(c, cycle, Cleared(flags))
  {
  }

  lemma BeginCyclePhase(c: Config, s: State)
    requires PhaseOk(c, s) && forall a :: a in s.flags ==> s.flags[a].everReady
    ensures PhaseOk(c, AfterBeginCycle(s)) && FlagsOk(c, s.cycle + 1, Cleared(s.flags))
  {
    ClearedFlags(c, s.cycle + 1, s.flags);
  }

  lemma EverReady(c: Config, s: State, a: ActivityId)
    requires PhaseOk(c, s) && CanBeginCycle(s) && ActivityOk(c, s, a)
    ensures s.flags[a].everReady
  {
    BeginCycleView(s.phase, s.cycle, a, s.flags[a], ViewOf(s.lanes[c.owner[a]], a));
  }

  lemma BeginCycleActivity(c: Config, s: State, a: ActivityId)
    requires PhaseOk(c, s) && ActivityOk(c, s, a) && CanBeginCycle(s)
    ensures ActivityOk(c, AfterBeginCycle(s), a)
  {
    BeginCycleView(s.phase, s.cycle, a, s.flags[a], ViewOf(s.lanes[c.owner[a]], a));
  }

  lemma BeginCycleKeeps(c: Config, s: State)
    requires Inv(c, s) && CanBeginCycle(s)
    ensures Inv(c, AfterBeginCycle(s))
  {
    forall a | a in s.flags ensures s.flags[a].everReady { EverReady(c, s, a); }
    BeginCyclePhase(c, s);
    LanesUnderPhase(c, s, AfterBeginCycle(s));
    forall a | a in c.deps { BeginCycleActivity(c, s, a); }
  }

  predicate InLoop(s: State) { s.phase.Stepping? || s.phase == Starting({}) }

  lemma GiveUpView(phase: Phase, cycle: nat, a: ActivityId, f: Flags, v: View, v': View, stop: Phase)
    requires (phase == Starting({}) && cycle == 0) || (phase.Stepping? && cycle > 0)
    requires ViewOk(phase, cycle, a, f, v)
    requires v' == v || (v' == v.(open := []) && v.open != [])
    requires stop.Stopping? && stop.todo == stop.pending
    requires a in stop.pending <==> f.everReady
    requires a in stop.stale <==> v'.open != []
    ensures ViewOk(stop, cycle, a, f, v')
  {
    if v'.open != [] {
      var x := v'.open[0];
      assert v'.open == [x] + [];
    }
  }

  lemma GiveUpActivity(c: Config, s: State, s1: State, a: ActivityId)
    requires PhaseOk(c, s) && ActivityOk(c, s, a) && InLoop(s)
    requires s1 == s.(lanes := s1.lanes) && Reaches(c, s1, a) && s1.lanes[c.owner[a]].Valid()
    requires var v, v' := ViewOf(s.lanes[c.owner[a]], a), ViewOf(s1.lanes[c.owner[a]], a);
             v' == v || (v' == v.(open := []) && v.open != [])
    ensures ActivityOk(c, AfterGiveUp(c, s1), a)
  {
    GiveUpView(s.phase, s.cycle, a, s.flags[a], ViewOf(s.lanes[c.owner[a]], a),
               ViewOf(s1.lanes[c.owner[a]], a), AfterGiveUp(c, s1).phase);
  }

  lemma GiveUpPhase(c: Config, s: State)
    requires PhaseOk(c, s)
    ensures PhaseOk(c, AfterGiveUp(c, s))
  {
  }

  lemma GiveUpKeeps(c: Config, s: State)
    requires Inv(c, s) && InLoop(s)
    ensures Inv(c, AfterGiveUp(c, s))
  {
    GiveUpPhase(c, s);
    LanesUnderPhase(c, s, AfterGiveUp(c, s));
    forall a | a in c.deps ensures ActivityOk(c, AfterGiveUp(c, s), a) { GiveUpActivity(c, s, s, a); }
  }

  lemma ReceiveFailedLanes(c: Config, s: State, w: WorkerId)
    requires LanesOk(c, s) && CanReceiveFailed(s, w)
    ensures LanesOk(c, AfterReceiveFailed(c, s, w))
  {
    LaneAfterReceive(c, w, s.lanes[w]);
    var s' := AfterReceiveFailed(c, s, w);
    LanesAfter(c, s, s'.phase, w, s.lanes[w].Receive(), s');
  }

  /** In the loops an activity has at most one request open. */
  lemma OneOpen(phase: Phase, cycle: nat, a: ActivityId, f: Flags, v: View, r: Sig, rest: seq<Sig>)
    requires phase == Starting({}) || phase.Stepping?
    requires ViewOk(phase, cycle, a, f, v) && v.open == [r] + rest
    ensures rest == []
  {
    assert rest == v.open[1..];
  }

  lemma ReceiveFailedActivity(c: Config, s: State, w: WorkerId, a: ActivityId)
    requires PhaseOk(c, s) && ActivityOk(c, s, a) && CanReceiveFailed(s, w)
    requires LaneOk(c, w, s.lanes[w]) && LanePhaseOk(s.phase, w, s.lanes[w])
    ensures ActivityOk(c, AfterReceiveFailed(c, s, w), a)
  {
    ReceiveFailedView(c, s, w, a);
    GiveUpActivity(c, s, s.(lanes := ReceiveFrom(s.lanes, w)), a);
  }

  /** The failure settles the one open request of its activity and nothing else. */
  lemma ReceiveFailedView(c: Config, s: State, w: WorkerId, a: ActivityId)
    requires ActivityOk(c, s, a) && CanReceiveFailed(s, w) && LaneOk(c, w, s.lanes[w]) && OnlyRequests(s.lanes[w])
    ensures ReceiveFrom(s.lanes, w)[c.owner[a]].Valid()
    ensures var v, v' := ViewOf(s.lanes[c.owner[a]], a), ViewOf(ReceiveFrom(s.lanes, w)[c.owner[a]], a);
            v' == v || (v' == v.(open := []) && v.open != [])
  {
    HeadOwned(c, s, w);
    if a == Head(s, w).id {
      ViewAfterReceive(c, s, w, a);
      var o := ReceiveFrom(s.lanes, w)[c.owner[a]].Open(a);
      OneOpen(s.phase, s.cycle, a, s.flags[a], ViewOf(s.lanes[w], a), Answered(s, w), o);
    } else {
      OtherSettled(c, s, w, a);
    }
  }

  lemma ReceiveFailedPhase(c: Config, s: State, w: WorkerId)
    requires PhaseOk(c, s) && CanReceiveFailed(s, w)
    ensures PhaseOk(c, AfterReceiveFailed(c, s, w))
  {
    GiveUpPhase(c, s.(lanes := ReceiveFrom(s.lanes, w)));
  }

  lemma ReceiveFailedKeeps(c: Config, s: State, w: WorkerId)
    requires Inv(c, s) && CanReceiveFailed(s, w)
    ensures Inv(c, AfterReceiveFailed(c, s, w))
  {
    ReceiveFailedPhase(c, s, w);
    ReceiveFailedLanes(c, s, w);
    forall a | a in c.deps { ReceiveFailedActivity(c, s, w, a); }
  }

  // ----- shutdown and termination -----

  lemma ConfirmLanes(c: Config, s: State, w: WorkerId)
    requires LanesOk(c, s) && CanConfirm(s, w)
    ensures LanesOk(c, AfterConfirm(s, w))
  {
    LaneAfterReceive(c, w, s.lanes[w]);
    var s' := AfterConfirm(s, w);
    LanesAfter(c, s, s'.phase, w, s.lanes[w].Receive(), s');
  }

  lemma ConfirmPhase(c: Config, s: State, w: WorkerId)
    requires PhaseOk(c, s) && CanConfirm(s, w)
    ensures PhaseOk(c, AfterConfirm(s, w))
  {
  }

  lemma ConfirmView(p: Phase, p': Phase, cycle: nat, a: ActivityId, f: Flags, v: View, v': View)
    requires p.Stopping? && p'.Stopping? && p' == p.(pending := p'.pending) && p'.pending <= p.pending
    requires ViewOk(p, cycle, a, f, v) && v'.asked == v.asked && v'.succeeded == v.succeeded
    requires a in p'.pending ==> v'.open == v.open
    ensures ViewOk(p', cycle, a, f, v')
  {
  }

  lemma ConfirmActivity(c: Config, s: State, w: WorkerId, a: ActivityId)
    requires ActivityOk(c, s, a) && CanConfirm(s, w)
    requires LaneOk(c, w, s.lanes[w]) && OnlyRequests(s.lanes[w])
    ensures ActivityOk(c, AfterConfirm(s, w), a)
  {
    ViewAfterReceive(c, s, w, a);
    HeadOwned(c, s, w);
    if a != Head(s, w).id { OtherSettled(c, s, w, a); }
    var l' := ReceiveFrom(s.lanes, w)[c.owner[a]];
    ConfirmView(s.phase, AfterConfirm(s, w).phase, s.cycle, a, s.flags[a], ViewOf(s.lanes[c.owner[a]], a), ViewOf(l', a));
  }

  lemma ConfirmKeeps(c: Config, s: State, w: WorkerId)
    requires Inv(c, s) && CanConfirm(s, w)
    ensures Inv(c, AfterConfirm(s, w))
  {
    ConfirmPhase(c, s, w);
    ConfirmLanes(c, s, w);
    assert LaneOk(c, w, s.lanes[w]) && LanePhaseOk(s.phase, w, s.lanes[w]);
    forall a | a in c.deps { ConfirmActivity(c, s, w, a); }
  }

  lemma StopWaitingActivity(c: Config, s: State, a: ActivityId)
    requires ActivityOk(c, s, a) && CanStopWaiting(s)
    ensures ActivityOk(c, AfterStopWaiting(c, s), a)
  {
  }

  lemma StopWaitingKeeps(c: Config, s: State)
    requires Inv(c, s) && CanStopWaiting(s)
    ensures Inv(c, AfterStopWaiting(c, s))
  {
    var s' := AfterStopWaiting(c, s);
    assert PhaseOk(c, s');
    assert forall w :: w in s.lanes ==> w in s'.phase.notify;
    LanesUnderPhase(c, s, s');
    forall a | a in c.deps { StopWaitingActivity(c, s, a); }
  }

  lemma ReceiveAckLanes(c: Config, s: State, w: WorkerId)
    requires LanesOk(c, s) && CanReceiveAck(s, w)
    ensures LanesOk(c, AfterReceiveAck(s, w))
  {
    LaneAfterReceive(c, w, s.lanes[w]);
    var s' := AfterReceiveAck(s, w);
    LanesAfter(c, s, s'.phase, w, s.lanes[w].Receive(), s');
  }

  lemma ReceiveAckActivity(c: Config, s: State, w: WorkerId, a: ActivityId)
    requires ActivityOk(c, s, a) && CanReceiveAck(s, w) && s.lanes[w].Valid()
    ensures ActivityOk(c, AfterReceiveAck(s, w), a)
  {
    ViewAfterReceive(c, s, w, a);
  }

  lemma ReceiveAckKeeps(c: Config, s: State, w: WorkerId)
    requires Inv(c, s) && CanReceiveAck(s, w)
    ensures Inv(c, AfterReceiveAck(s, w))
  {
    assert PhaseOk(c, AfterReceiveAck(s, w));
    ReceiveAckLanes(c, s, w);
    assert LaneOk(c, w, s.lanes[w]);
    forall a | a in c.deps { ReceiveAckActivity(c, s, w, a); }
  }

  lemma FinishedKeeps(c: Config, s: State)
    requires Inv(c, s) && s.phase.Terminating? && s.phase.notify == {}
    ensures Inv(c, s.(phase := Done))
  {
    var s' := s.(phase := Done);
    assert PhaseOk(c, s');
    LanesUnderPhase(c, s, s');
    forall a | a in c.deps ensures ActivityOk(c, s', a) { assert ActivityOk(c, s, a); }
  }

  // ----- workers -----

  lemma LaneAfterTake(c: Config, w: WorkerId, l: Lane)
    requires LaneOk(c, w, l) && !l.Busy() && l.taken < |l.sent|
    ensures LaneOk(c, w, l.Take())
    ensures OnlyRequests(l) ==> OnlyRequests(l.Take())
    ensures EndsInTerminate(l) ==> EndsInTerminate(l.Take())
    ensures ReceivedReady(l) ==> ReceivedReady(l.Take())
  {
  }

  lemma LaneAfterAnswer(c: Config, w: WorkerId, l: Lane, ok: bool, error: ActivityError)
    requires LaneOk(c, w, l) && l.Busy()
    ensures var m := l.Answer(AnswerTo(l.Current(), c.agentOf[w], ok, error));
            && LaneOk(c, w, m)
            && (OnlyRequests(l) ==> OnlyRequests(m))
            && (EndsInTerminate(l) ==> EndsInTerminate(m))
            && (ReceivedReady(l) ==> ReceivedReady(m))
  {
  }

  lemma WorkerPhase(c: Config, s: State, s': State)
    requires PhaseOk(c, s) && s'.phase == s.phase && s'.cycle == s.cycle && s'.flags == s.flags
    requires s'.lanes.Keys == s.lanes.Keys
    ensures PhaseOk(c, s')
  {
  }

  lemma TakeActivity(c: Config, s: State, w: WorkerId, a: ActivityId)
    requires ActivityOk(c, s, a) && CanTake(s, w)
    ensures ActivityOk(c, AfterTake(c, s, w), a)
  {
    if c.owner[a] == w { TakeView(s.lanes[w], a); }
    SameView(c, s, AfterTake(c, s, w), a);
  }

  lemma TakeKeeps(c: Config, s: State, w: WorkerId)
    requires Inv(c, s) && CanTake(s, w)
    ensures Inv(c, AfterTake(c, s, w))
  {
    var s' := AfterTake(c, s, w);
    WorkerPhase(c, s, s');
    LaneAfterTake(c, w, s.lanes[w]);
    LanesAfter(c, s, s.phase, w, s.lanes[w].Take(), s');
    forall a | a in c.deps { TakeActivity(c, s, w, a); }
  }

  lemma AccessKeeps(c: Config, s: State, w: WorkerId)
    requires Inv(c, s) && CanAccess(c, s, w)
    ensures Inv(c, AfterAccess(c, s, w))
  {
    var s' := AfterAccess(c, s, w);
    WorkerPhase(c, s, s');
    LanesUnderPhase(c, s, s');
    forall a | a in c.deps ensures ActivityOk(c, s', a) { assert ActivityOk(c, s, a); }
  }

  lemma AnswerSucceeds(phase: Phase, cycle: nat, a: ActivityId, f: Flags, v: View, more: seq<Sig>)
    requires ViewOk(phase, cycle, a, f, v)
    ensures ViewOk(phase, cycle, a, f, v.(succeeded := v.succeeded + more))
  {
    StepsPrefix(v.succeeded, v.succeeded + more);
  }

  lemma AnswerLane(phase: Phase, cycle: nat, a: ActivityId, f: Flags, l: Lane, x: Sig)
    requires l.Valid() && l.Busy() && ViewOk(phase, cycle, a, f, ViewOf(l, a))
    ensures l.Answer(x).Valid() && ViewOk(phase, cycle, a, f, ViewOf(l.Answer(x), a))
  {
    AnswerView(l, x, a);
    AnswerSucceeds(phase, cycle, a, f, ViewOf(l, a), if x.Ready? then Mine(l.Current(), a) else []);
  }

  lemma AnswerActivity(c: Config, s: State, w: WorkerId, ok: bool, error: ActivityError, a: ActivityId)
    requires ActivityOk(c, s, a) && CanAnswer(c, s, w, ok)
    ensures ActivityOk(c, AfterAnswer(c, s, w, ok, error), a)
  {
    if c.owner[a] == w {
      var x := AnswerTo(s.lanes[w].Current(), c.agentOf[w], ok, error);
      AnswerLane(s.phase, s.cycle, a, s.flags[a], s.lanes[w], x);
    }
  }

  lemma AnswerKeeps(c: Config, s: State, w: WorkerId, ok: bool, error: ActivityError)
    requires Inv(c, s) && CanAnswer(c, s, w, ok)
    ensures Inv(c, AfterAnswer(c, s, w, ok, error))
  {
    var s' := AfterAnswer(c, s, w, ok, error);
    WorkerPhase(c, s, s');
    LaneAfterAnswer(c, w, s.lanes[w], ok, error);
    LanesAfter(c, s, s.phase, w, s'.lanes[w], s');
    forall a | a in c.deps { AnswerActivity(c, s, w, ok, error, a); }
  }

  // ----- all moves, all runs -----

  lemma WorkerMoveKeepsInv(c: Config, s: State, x: Move)
    requires Inv(c, s) && Enabled(c, s, x) && IsWorkerMove(x)
    ensures Inv(c, Do(c, s, x))
  {
    match x
    case Take(w) => TakeKeeps(c, s, w);
    case Access(w) => AccessKeeps(c, s, w);
    case Answer(w, ok, error) => AnswerKeeps(c, s, w, ok, error);
  }

  /** The moves of startup and of the task chain. */
  predicate IsLoopMove(x: Move) {
    x.SendStartup? || x.BeginCycle? || x.Trigger? || x.ReceiveReady? || x.ReceiveFailed? || x.GiveUp? || x.StopRequested?
  }

  lemma LoopMoveKeepsInv(c: Config, s: State, x: Move)
    requires Inv(c, s) && Enabled(c, s, x) && IsLoopMove(x)
    ensures Inv(c, Do(c, s, x))
  {
    match x
    case SendStartup(id) => SendStartupKeeps(c, s, id);
    case BeginCycle => BeginCycleKeeps(c, s);
    case Trigger(id) => TriggerKeeps(c, s, id);
    case ReceiveReady(w) => ReceiveReadyKeeps(c, s, w);
    case ReceiveFailed(w) => ReceiveFailedKeeps(c, s, w);
    case GiveUp => GiveUpKeeps(c, s);
    case StopRequested => GiveUpKeeps(c, s);
  }

  /** The moves of the shutdown. */
  lemma EndMoveKeepsInv(c: Config, s: State, x: Move)
    requires Inv(c, s) && Enabled(c, s, x) && !IsWorkerMove(x) && !IsLoopMove(x)
    ensures Inv(c, Do(c, s, x))
  {
    match x
    case SendShutdown(id) => SendShutdownKeeps(c, s, id);
    case Confirm(w) => ConfirmKeeps(c, s, w);
    case StopWaiting => StopWaitingKeeps(c, s);
    case SendTerminate(w) => SendTerminateKeeps(c, s, w);
    case ReceiveAck(w) => ReceiveAckKeeps(c, s, w);
    case Finished => FinishedKeeps(c, s);
  }

  lemma MoveKeepsInv(c: Config, s: State, x: Move)
    requires Inv(c, s) && Enabled(c, s, x)
    ensures Inv(c, Do(c, s, x))
  {
    if IsWorkerMove(x) { WorkerMoveKeepsInv(c, s, x); }
    else if IsLoopMove(x) { LoopMoveKeepsInv(c, s, x); }
    else { EndMoveKeepsInv(c, s, x); }
  }

  lemma {:induction false} RunKeepsInv(c: Config, s: State, moves: seq<Move>, s': State)
    requires Inv(c, s) && Run(c, s, moves, s')
    ensures Inv(c, s')
    decreases |moves|
  {
    if moves != [] {
      MoveKeepsInv(c, s, moves[0]);
      RunKeepsInv(c, Do(c, s, moves[0]), moves[1..], s');
    }
  }

  lemma ReachableInv(c: Config, s: State)
    requires Valid(c) && Reachable(c, s)
    ensures Inv(c, s)
  {
    var s0, moves :| Initial(c, s0) && Run(c, s0, moves, s);
    InitialInv(c, s0);
    RunKeepsInv(c, s0, moves, s);
  }

  lemma {:induction false} RunSnoc(c: Config, s: State, moves: seq<Move>, s': State, x: Move)
    requires Run(c, s, moves, s') && Enabled(c, s', x)
    ensures Run(c, s, moves + [x], Do(c, s', x))
    decreases |moves|
  {
    if moves == [] {
      assert (moves + [x])[1..] == [];
    } else {
      RunSnoc(c, Do(c, s, moves[0]), moves[1..], s', x);
      assert (moves + [x])[1..] == moves[1..] + [x];
    }
  }

  lemma NextReachable(c: Config, s: State, x: Move)
    requires Reachable(c, s) && Enabled(c, s, x)
    ensures Reachable(c, Do(c, s, x))
  {
    var s0, moves :| Initial(c, s0) && Run(c, s0, moves, s);
    RunSnoc(c, s0, moves, s, x);
  }

  lemma {:induction false} RunReachable(c: Config, s: State, moves: seq<Move>, s': State)
    requires Reachable(c, s) && Run(c, s, moves, s')
    ensures Reachable(c, s')
    decreases |moves|
  {
    if moves != [] {
      NextReachable(c, s, moves[0]);
      RunReachable(c, Do(c, s, moves[0]), moves[1..], s');
    }
  }
}
