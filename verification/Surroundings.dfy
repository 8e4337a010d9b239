/** What the rest of the system does while the scheduler runs, event by event. */
module Surroundings {
  import opened Signals
  import opened Graphs
  import opened Lanes
  import opened Bodies
  import opened Protocol
  import opened Invariants
  import opened Preservation
  import opened Reach
  import opened ExecutionOrder
  import opened Progress

  /** While the scheduler waits once: the moves other threads make, whose answers may then be
      delivered (the first of `from` that has one; with none of them the receive times out), and
      whether the clock is past the deadline. */
  datatype Event = Event(work: seq<Move>, from: seq<WorkerId>, late: bool)

  datatype Waited = Became(id: ActivityId) | TimedOut | Failed(id: ActivityId, error: ActivityError)

  /** The moves of workers among `work`, those not enabled left out. */
  function AfterWork(c: Config, s: State, work: seq<Move>): State
    decreases |work|
  {
    if work == [] then s
    else AfterWork(c, if IsWorkerMove(work[0]) then Do(c, s, work[0]) else s, work[1..])
  }

  /** Every run of the workers is such work. */
  lemma {:induction false} WorkIsRun(c: Config, s: State, work: seq<Move>, s': State)
    requires Run(c, s, work, s') && forall k :: 0 <= k < |work| ==> IsWorkerMove(work[k])
    ensures AfterWork(c, s, work) == s'
    decreases |work|
  {
    if work != [] {
      assert IsWorkerMove(work[0]);
      assert forall k :: 0 <= k < |work[1..]| ==> work[1..][k] == work[k + 1];
      WorkIsRun(c, Do(c, s, work[0]), work[1..], s');
    }
  }

  ghost predicate SameScheduler(s: State, s': State) {
    s'.phase == s.phase && s'.cycle == s.cycle && s'.flags == s.flags && SameEnds(s.lanes, s'.lanes)
  }

  lemma OneWork(c: Config, s: State, x: Move)
    requires Reachable(c, s) && IsWorkerMove(x)
    ensures Reachable(c, Do(c, s, x)) && SameScheduler(s, Do(c, s, x))
  {
    if Enabled(c, s, x) { WorkerMoved(c, s, x); }
  }

  lemma {:induction false} WorkReachable(c: Config, s: State, work: seq<Move>)
    requires Reachable(c, s)
    ensures Reachable(c, AfterWork(c, s, work)) && SameScheduler(s, AfterWork(c, s, work))
    decreases |work|
  {
    if work != [] {
      var next := if IsWorkerMove(work[0]) then Do(c, s, work[0]) else s;
      if IsWorkerMove(work[0]) { OneWork(c, s, work[0]); }
      WorkReachable(c, next, work[1..]);
    }
  }

  function Deliverable(s: State, from: seq<WorkerId>): (w: Option<WorkerId>)
    ensures w.Some? ==> w.value in from && HasAnswer(s, w.value)
    ensures w.None? ==> forall v :: v in from ==> !HasAnswer(s, v)
  {
    if from == [] then None
    else if HasAnswer(s, from[0]) then Some(from[0])
    else Deliverable(s, from[1..])
  }

  /** The signal the first event delivers to a scheduler that waits in state s. */
  function Arrived(c: Config, s: State, events: seq<Event>): Option<Sig> {
    if events == [] then None
    else
      var s1 := AfterWork(c, s, events[0].work);
      var w := Deliverable(s1, events[0].from);
      if w.Some? then Some(Head(s1, w.value)) else None
  }

  function Outcome(a: Option<Sig>): Waited {
    if a.None? then TimedOut
    else if a.value.Ready? then Became(a.value.id)
    else if a.value.ActivityFailed? then Failed(a.value.id, a.value.error)
    else TimedOut
  }

  // ----- what is left of the events -----

  ghost predicate IsRest(before: seq<Event>, after: seq<Event>) {
    after == before || (before != [] && IsRest(before[1..], after))
  }

  /** The last event consumed came after the deadline. */
  ghost predicate EndedLate(before: seq<Event>, after: seq<Event>) {
    before != [] && if after == before[1..] then before[0].late else EndedLate(before[1..], after)
  }

  /** All events consumed came before the deadline. */
  ghost predicate InTime(before: seq<Event>, after: seq<Event>) {
    after == before || (before != [] && !before[0].late && InTime(before[1..], after))
  }

  /** All but perhaps the last one: nothing is waited for past the deadline. */
  ghost predicate InTimeButLast(before: seq<Event>, after: seq<Event>) {
    after == before || (before != [] && (after == before[1..] || (!before[0].late && InTimeButLast(before[1..], after))))
  }

  lemma {:induction false} InTimeNext(before: seq<Event>, now: seq<Event>)
    requires InTime(before, now)
    ensures InTimeButLast(before, now)
    ensures now != [] ==> InTimeButLast(before, now[1..]) && (!now[0].late ==> InTime(before, now[1..]))
    decreases before
  {
    if now != before {
      InTimeNext(before[1..], now);
    } else if now != [] {
      assert InTime(before[1..], now[1..]);
    }
  }

  /** Something happened, and the last of it came before the deadline. */
  ghost predicate Resumed(before: seq<Event>, after: seq<Event>) {
    IsRest(before, after) && |after| < |before| && !EndedLate(before, after)
  }

  lemma {:induction false} ResumesNext(before: seq<Event>, now: seq<Event>)
    requires IsRest(before, now) && now != [] && !now[0].late
    ensures Resumed(before, now[1..])
    decreases before
  {
    RestIsRest(before, now);
    if now != before {
      ResumesNext(before[1..], now);
      RestIsRest(before[1..], now);
    } else {
      assert !EndedLate(before, before[1..]);
    }
  }

  lemma {:induction false} RestIsRest(before: seq<Event>, now: seq<Event>)
    requires IsRest(before, now)
    ensures IsRest(before, before) && |now| <= |before|
    ensures now != [] ==> IsRest(before, now[1..]) && now[0] in before
    ensures now != [] && now[0].late ==> EndedLate(before, now[1..])
    decreases before
  {
    if now != before {
      RestIsRest(before[1..], now);
    } else if now != [] {
      assert now[0] == before[0] && IsRest(before[1..], now[1..]);
    }
  }

  function Tail(events: seq<Event>): seq<Event> { if events == [] then [] else events[1..] }

  ghost predicate NextOrSame(before: seq<Event>, after: seq<Event>) { after == before || after == Tail(before) }

  lemma RestStep(before: seq<Event>, now: seq<Event>, after: seq<Event>)
    requires IsRest(before, now) && NextOrSame(now, after)
    ensures IsRest(before, after) && |after| <= |now| <= |before|
  {
    RestIsRest(before, now);
    RestIsRest(before, after);
  }

  lemma {:induction false} RestTrans(before: seq<Event>, now: seq<Event>, after: seq<Event>)
    requires IsRest(before, now) && IsRest(now, after)
    ensures IsRest(before, after) && |after| <= |now| <= |before|
    ensures EndedLate(now, after) ==> EndedLate(before, after)
    decreases before
  {
    if now != before {
      RestTrans(before[1..], now, after);
      if EndedLate(now, after) { LateIsShorter(now, after); }
    } else {
      RestIsRest(now, after);
    }
  }

  lemma {:induction false} LateIsShorter(before: seq<Event>, after: seq<Event>)
    requires EndedLate(before, after)
    ensures |after| < |before|
    decreases before
  {
    if after != before[1..] { LateIsShorter(before[1..], after); }
  }

  // ----- surroundings that answer -----

  /** The scheduler has sent something it has no answer to. */
  ghost predicate Expecting(s: State) {
    exists w :: w in s.lanes && s.lanes[w].received < |s.lanes[w].sent|
  }

  /** In time, and delivering some answer whenever one is due. */
  ghost predicate Prompt(c: Config, e: Event) {
    !e.late && forall s :: Reachable(c, s) && Expecting(s) ==> Deliverable(AfterWork(c, s, e.work), e.from).Some?
  }

  ghost predicate AllPrompt(c: Config, events: seq<Event>) {
    forall e :: e in events ==> Prompt(c, e)
  }

  /** No method of an activity fails. */
  ghost predicate Faultless(work: seq<Move>) {
    forall x :: x in work && x.Answer? ==> x.ok
  }

  ghost predicate AllFaultless(events: seq<Event>) {
    forall e :: e in events ==> Faultless(e.work)
  }

  /** No activity has failed so far. */
  ghost predicate Healthy(lanes: map<WorkerId, Lane>) {
    forall w :: w in lanes ==> NoFailure(lanes[w].answers)
  }

  ghost predicate NoFailure(answers: seq<Sig>) {
    forall a :: a in answers ==> !a.ActivityFailed?
  }

  lemma AnswerHealthy(c: Config, s: State, x: Move)
    requires IsWorkerMove(x) && (x.Answer? ==> x.ok) && Healthy(s.lanes)
    ensures Healthy(Do(c, s, x).lanes)
  {
  }

  lemma {:induction false} WorkHealthy(c: Config, s: State, work: seq<Move>)
    requires Faultless(work) && Healthy(s.lanes)
    ensures Healthy(AfterWork(c, s, work).lanes)
    decreases |work|
  {
    if work != [] {
      assert work[0] in work;
      if IsWorkerMove(work[0]) { AnswerHealthy(c, s, work[0]); }
      WorkHealthy(c, if IsWorkerMove(work[0]) then Do(c, s, work[0]) else s, work[1..]);
    }
  }

  lemma SendHealthy(lanes: map<WorkerId, Lane>, w: WorkerId, x: Sig)
    requires w in lanes
    ensures Healthy(lanes) ==> Healthy(SendTo(lanes, w, x))
  {
  }

  lemma ReceiveHealthy(lanes: map<WorkerId, Lane>, w: WorkerId)
    requires w in lanes
    ensures Healthy(lanes) ==> Healthy(ReceiveFrom(lanes, w))
  {
  }

  lemma RestPrompt(c: Config, before: seq<Event>, after: seq<Event>)
    requires IsRest(before, after)
    ensures AllPrompt(c, before) ==> AllPrompt(c, after)
  {
    RestMembers(before, after);
  }

  lemma {:induction false} RestMembers(before: seq<Event>, after: seq<Event>)
    requires IsRest(before, after)
    ensures |after| <= |before| && forall e :: e in after ==> e in before
    decreases before
  {
    if after != before { RestMembers(before[1..], after); }
  }

  /** An activity with an open request makes the scheduler expect an answer. */
  lemma OpenExpects(c: Config, s: State, id: ActivityId)
    requires Known(c, s, id) && s.lanes[c.owner[id]].Open(id) != []
    ensures Expecting(s)
  {
    var l := s.lanes[c.owner[id]];
    assert l.sent[l.received..] != [];
    assert l.received < |l.sent|;
  }

  /** Some activity has been asked and has not answered. */
  ghost predicate SomebodyWorks(s: State) {
    exists id :: id in s.flags && !s.flags[id].ready && (s.phase.Stepping? ==> s.flags[id].triggered)
  }

  lemma WorkExpected(c: Config, s: State)
    requires Protocol.Valid(c) && Reachable(c, s) && Waiting(s) && SomebodyWorks(s)
    ensures Expecting(s)
  {
    var id :| id in s.flags && !s.flags[id].ready && (s.phase.Stepping? ==> s.flags[id].triggered);
    Shape(c, s);
    OpenWhileWaiting(c, s, id);
    OpenExpects(c, s, id);
  }

  lemma OpenWhileWaiting(c: Config, s: State, id: ActivityId)
    requires Protocol.Valid(c) && Reachable(c, s) && Waiting(s) && id in c.deps && id in s.flags
    requires !s.flags[id].ready && (s.phase.Stepping? ==> s.flags[id].triggered)
    ensures Known(c, s, id) && s.lanes[c.owner[id]].Open(id) != []
  {
    ReachableInv(c, s);
    AllKnown(c, s, id);
  }

  /** While somebody works and nobody fails, a prompt event delivers a Ready. */
  lemma ReadyArrives(c: Config, s: State, events: seq<Event>)
    requires Protocol.Valid(c) && Reachable(c, s) && Waiting(s) && SomebodyWorks(s) && events != []
    requires Prompt(c, events[0]) && Faultless(events[0].work) && Healthy(s.lanes)
    ensures Outcome(Arrived(c, s, events)).Became?
  {
    WorkExpected(c, s);
    var s1 := AfterWork(c, s, events[0].work);
    WorkReachable(c, s, events[0].work);
    var w := Deliverable(s1, events[0].from);
    assert w.Some?;
    OnlyNewsArrives(c, s1, w.value);
    WorkHealthy(c, s, events[0].work);
    assert Head(s1, w.value) in s1.lanes[w.value].answers;
  }

  /** While the scheduler waits for Ready signals nothing but Ready and ActivityFailed of scheduled
      activities can arrive, so neither the `continue` nor the error branch of the receive loop is
      ever taken and the lookup of the activity's state cannot fail. */
  lemma OnlyNewsArrives(c: Config, s: State, w: WorkerId)
    requires Protocol.Valid(c) && Reachable(c, s) && Waiting(s) && HasAnswer(s, w)
    ensures CanReceiveReady(s, w) || (CanReceiveFailed(s, w) && Head(s, w).id in s.flags)
  {
    ReachableInv(c, s);
    assert LaneOk(c, w, s.lanes[w]) && LanePhaseOk(s.phase, w, s.lanes[w]);
    WaitedHead(c, s, w);
  }

  lemma WaitedHead(c: Config, s: State, w: WorkerId)
    requires PhaseOk(c, s) && Waiting(s) && HasAnswer(s, w)
    requires LaneOk(c, w, s.lanes[w]) && LanePhaseOk(s.phase, w, s.lanes[w])
    ensures CanReceiveReady(s, w) || (CanReceiveFailed(s, w) && Head(s, w).id in s.flags)
  {
    var l := s.lanes[w];
    assert IsRequest(l.sent[l.received]);
    assert Addressed(c, w, l.sent[l.received]);
    assert Matches(l.sent[l.received], l.answers[l.received], c.agentOf[w]);
  }

  // ----- how much is still to be received -----

  function Due(l: Lane): nat { if l.received < |l.sent| then |l.sent| - l.received else 0 }

  /** All signals sent and not answered by one received. */
  ghost function Backlog(lanes: map<WorkerId, Lane>): nat
    decreases |lanes|
  {
    if lanes == map[] then 0
    else
      var w :| w in lanes;
      SmallerMap(lanes, w);
      Due(lanes[w]) + Backlog(lanes - {w})
  }

  lemma SmallerMap(lanes: map<WorkerId, Lane>, w: WorkerId)
    requires w in lanes
    ensures |lanes - {w}| < |lanes|
  {
    assert (lanes - {w}).Keys == lanes.Keys - {w};
    assert |(lanes - {w}).Keys| == |lanes - {w}| && |lanes.Keys| == |lanes|;
  }

  lemma {:induction false} BacklogAt(lanes: map<WorkerId, Lane>, w: WorkerId)
    requires w in lanes
    ensures Backlog(lanes) == Due(lanes[w]) + Backlog(lanes - {w})
    decreases |lanes|
  {
    var v :| v in lanes && Backlog(lanes) == Due(lanes[v]) + Backlog(lanes - {v});
    if v != w {
      SmallerMap(lanes, v);
      SmallerMap(lanes, w);
      BacklogAt(lanes - {v}, w);
      BacklogAt(lanes - {w}, v);
      assert lanes - {v} - {w} == lanes - {w} - {v};
    }
  }

  lemma BacklogChanged(lanes: map<WorkerId, Lane>, w: WorkerId, l: Lane)
    requires w in lanes
    ensures Backlog(lanes[w := l]) == Backlog(lanes) - Due(lanes[w]) + Due(l)
  {
    BacklogAt(lanes, w);
    BacklogAt(lanes[w := l], w);
    assert lanes[w := l] - {w} == lanes - {w};
  }

  lemma {:induction false} BacklogSame(a: map<WorkerId, Lane>, b: map<WorkerId, Lane>)
    requires SameEnds(a, b)
    ensures Backlog(a) == Backlog(b)
    decreases |a|
  {
    if a != map[] {
      var w :| w in a;
      BacklogAt(a, w);
      BacklogAt(b, w);
      SmallerMap(a, w);
      BacklogSame(a - {w}, b - {w});
    } else {
      assert b.Keys == {};
      assert b == map[];
    }
  }

  lemma ExpectingBacklog(s: State)
    requires Expecting(s)
    ensures Backlog(s.lanes) > 0
  {
    var w :| w in s.lanes && s.lanes[w].received < |s.lanes[w].sent|;
    BacklogAt(s.lanes, w);
  }

  // ----- waiting in the shutdown -----

  /** What one event does to a scheduler that waits for shutdown confirmations: past the deadline
      nothing is received, else whatever is delivered. */
  function ConfirmEvent(c: Config, s: State, e: Event): State {
    var s1 := AfterWork(c, s, e.work);
    var w := Deliverable(s1, e.from);
    if !e.late && w.Some? && CanConfirm(s1, w.value) then AfterConfirm(s1, w.value) else s1
  }

  /** The same for the acknowledgements of the agents. */
  function AckEvent(c: Config, s: State, e: Event): State {
    var s1 := AfterWork(c, s, e.work);
    var w := Deliverable(s1, e.from);
    if !e.late && w.Some? && CanReceiveAck(s1, w.value) then AfterReceiveAck(s1, w.value) else s1
  }

  lemma LanesValid(c: Config, s: State, w: WorkerId)
    requires Protocol.Valid(c) && Reachable(c, s) && w in s.lanes
    ensures LaneOk(c, w, s.lanes[w]) && LanePhaseOk(s.phase, w, s.lanes[w])
  {
    ReachableInv(c, s);
  }

  /** Receiving an answer takes one off the backlog. */
  lemma ReceiveBacklog(c: Config, s: State, w: WorkerId)
    requires Protocol.Valid(c) && Reachable(c, s) && HasAnswer(s, w)
    ensures Backlog(ReceiveFrom(s.lanes, w)) == Backlog(s.lanes) - 1
  {
    LanesValid(c, s, w);
    BacklogChanged(s.lanes, w, s.lanes[w].Receive());
  }

  /** Who has not confirmed its shutdown has an open request. */
  lemma PendingExpects(c: Config, s: State)
    requires Protocol.Valid(c) && Reachable(c, s) && s.phase.Stopping? && s.phase.todo == {} && s.phase.pending != {}
    ensures Expecting(s)
  {
    var id :| id in s.phase.pending;
    Shape(c, s);
    PendingOpen(c, s, id);
    OpenExpects(c, s, id);
  }

  lemma PendingOpen(c: Config, s: State, id: ActivityId)
    requires Protocol.Valid(c) && Reachable(c, s) && s.phase.Stopping? && s.phase.todo == {} && id in s.phase.pending
    requires id in c.deps
    ensures Known(c, s, id) && s.lanes[c.owner[id]].Open(id) != []
  {
    ReachableInv(c, s);
    AllKnown(c, s, id);
    OpenWhilePending(s.phase, id, s.flags[id], ViewOf(s.lanes[c.owner[id]], id));
  }

  lemma OpenWhilePending(phase: Phase, id: ActivityId, f: Flags, v: View)
    requires phase.Stopping? && phase.todo == {} && id in phase.pending && OpenOk(phase, id, f, v)
    ensures v.open != []
  {
  }

  /** A prompt event brings one of the answers due. */
  lemma ConfirmProgress(c: Config, s: State, e: Event)
    requires Protocol.Valid(c) && Reachable(c, s) && s.phase.Stopping? && s.phase.todo == {} && s.phase.pending != {}
    requires Prompt(c, e)
    ensures Backlog(ConfirmEvent(c, s, e).lanes) == Backlog(s.lanes) - 1
  {
    PendingExpects(c, s);
    WorkReachable(c, s, e.work);
    var s1 := AfterWork(c, s, e.work);
    BacklogSame(s.lanes, s1.lanes);
    ReceiveBacklog(c, s1, Deliverable(s1, e.from).value);
  }

  /** The answers to Terminate of agents not yet acknowledged are still due. */
  ghost predicate AcksDue(c: Config, s: State) {
    s.phase.Terminating? && forall w :: w in c.agentOf && w !in s.phase.notify && c.agentOf[w] in s.phase.acks ==>
      w in s.lanes && s.lanes[w].received < |s.lanes[w].sent|
  }

  lemma AcksExpected(c: Config, s: State)
    requires AcksDue(c, s) && s.phase.notify == {} && s.phase.acks != {} && s.phase.acks <= c.agentOf.Values
    ensures Expecting(s)
  {
    var g :| g in s.phase.acks;
    var w :| w in c.agentOf && c.agentOf[w] == g;
  }

  lemma AcksDueLater(c: Config, s: State, s': State)
    requires AcksDue(c, s) && s'.phase == s.phase && SameEnds(s.lanes, s'.lanes)
    ensures AcksDue(c, s')
  {
  }

  /** The last answer of a worker is its TerminateAck. */
  lemma LastIsAck(c: Config, s: State, w: WorkerId)
    requires Protocol.Valid(c) && Reachable(c, s) && CanReceiveAck(s, w)
    requires s.lanes[w].received + 1 >= |s.lanes[w].sent|
    ensures w in c.agentOf && Acknowledged(Head(s, w)) == {c.agentOf[w]}
  {
    LanesValid(c, s, w);
    var l := s.lanes[w];
    assert l.sent[l.received].Terminate?;
    assert Matches(l.sent[l.received], l.answers[l.received], c.agentOf[w]);
  }

  lemma AckKeepsDue(c: Config, s: State, w: WorkerId)
    requires Protocol.Valid(c) && Reachable(c, s) && CanReceiveAck(s, w) && AcksDue(c, s)
    ensures AcksDue(c, AfterReceiveAck(s, w))
  {
    if s.lanes[w].received + 1 >= |s.lanes[w].sent| { LastIsAck(c, s, w); }
  }

  lemma AckEventKeepsDue(c: Config, s: State, e: Event)
    requires Protocol.Valid(c) && Reachable(c, s) && AcksDue(c, s)
    ensures AcksDue(c, AckEvent(c, s, e))
  {
    WorkReachable(c, s, e.work);
    var s1 := AfterWork(c, s, e.work);
    AcksDueLater(c, s, s1);
    var w := Deliverable(s1, e.from);
    if !e.late && w.Some? && CanReceiveAck(s1, w.value) { AckKeepsDue(c, s1, w.value); }
  }

  /** A prompt event brings one of the answers due. */
  lemma AckProgress(c: Config, s: State, e: Event)
    requires Protocol.Valid(c) && Reachable(c, s) && AcksDue(c, s) && s.phase.notify == {} && s.phase.acks != {}
    requires s.phase.acks <= c.agentOf.Values && Prompt(c, e)
    ensures Backlog(AckEvent(c, s, e).lanes) == Backlog(s.lanes) - 1
  {
    AcksExpected(c, s);
    WorkReachable(c, s, e.work);
    var s1 := AfterWork(c, s, e.work);
    BacklogSame(s.lanes, s1.lanes);
    ReceiveBacklog(c, s1, Deliverable(s1, e.from).value);
  }

  /** A signal more to a worker is one more answer due. */
  lemma SendBacklog(c: Config, s: State, w: WorkerId, x: Sig)
    requires Protocol.Valid(c) && Reachable(c, s) && w in s.lanes
    ensures Backlog(SendTo(s.lanes, w, x)) == Backlog(s.lanes) + 1
  {
    LanesValid(c, s, w);
    BacklogChanged(s.lanes, w, s.lanes[w].Send(x));
  }

  lemma TerminateKeepsDue(c: Config, s: State, w: WorkerId)
    requires Protocol.Valid(c) && Reachable(c, s) && CanSendTerminate(s, w) && AcksDue(c, s)
    ensures AcksDue(c, AfterSendTerminate(s, w))
  {
    LanesValid(c, s, w);
  }
}
