/** What holds in every reachable state of the protocol. */
module Invariants {
  import opened Signals
  import opened Lanes
  import opened Bodies
  import opened Protocol

  ghost predicate Matches(r: Sig, a: Sig, agent: AgentId) {
    if IsRequest(r) then a == Ready(r.id, ()) || (a.ActivityFailed? && a.id == r.id)
    else a == TerminateAck(agent)
  }

  ghost predicate Addressed(c: Config, w: WorkerId, r: Sig) {
    IsRequest(r) && r.id in c.deps && r.id in c.owner && c.owner[r.id] == w
  }

  ghost predicate OnlyRequests(l: Lane) {
    forall k :: 0 <= k < |l.sent| ==> IsRequest(l.sent[k])
  }

  /** The k-th answer of a worker answers its k-th request, each worker gets requests for its
      own activities only, and Terminate is the last thing it gets. */
  ghost predicate LaneOk(c: Config, w: WorkerId, l: Lane) {
    && w in c.agentOf
    && l.Valid()
    && (forall k :: 0 <= k < |l.sent| ==>
          Addressed(c, w, l.sent[k]) || (l.sent[k].Terminate? && k == |l.sent| - 1))
    && (forall k :: 0 <= k < |l.answers| ==> Matches(l.sent[k], l.answers[k], c.agentOf[w]))
  }

  ghost predicate ReceivedReady(l: Lane) {
    l.Valid() && forall k :: 0 <= k < l.received ==> l.answers[k].Ready?
  }

  /** Step signals sent to an activity so far, read off the scheduler's own variables. */
  function StepsAsked(cycle: nat, f: Flags): nat {
    if cycle == 0 then 0 else cycle - 1 + if f.triggered then 1 else 0
  }

  /** Steps the scheduler has seen confirmed. */
  function StepsConfirmed(cycle: nat, f: Flags): nat {
    if cycle == 0 then 0 else cycle - 1 + if f.ready then 1 else 0
  }

  predicate Unstarted(phase: Phase, id: ActivityId) { phase.Starting? && id in phase.unsent }

  /** Whether the activity has been sent its Shutdown. */
  predicate Ended(phase: Phase, id: ActivityId, f: Flags) {
    && f.everReady && !phase.Starting? && !phase.Stepping?
    && (phase.Stopping? ==> id !in phase.todo)
  }

  /** Everything asked of an activity is one lifecycle, and what is marked confirmed succeeded. */
  ghost predicate AskedOk(phase: Phase, cycle: nat, id: ActivityId, f: Flags, v: View) {
    && v.asked == (if Unstarted(phase, id) then [] else Life(id, StepsAsked(cycle, f), Ended(phase, id, f)))
    && StepsIn(v.succeeded) >= StepsConfirmed(cycle, f)
    && (f.everReady ==> Startup(id, ()) in v.succeeded)
  }

  /** Conservation of outstanding work, phase by phase. */
  ghost predicate OpenOk(phase: Phase, id: ActivityId, f: Flags, v: View) {
    match phase
    case Starting(unsent) =>
      !f.triggered && f.ready == f.everReady && (id in unsent ==> !f.ready)
      && v.open == if id in unsent || f.ready then [] else [Startup(id, ())]
    case Stepping =>
      f.everReady && (f.ready ==> f.triggered)
      && v.open == if f.triggered && !f.ready then [Step(id, ())] else []
    case Stopping(todo, pending, stale) =>
      id in pending ==>
        var tail := if id in todo then [] else [Shutdown(id, ())];
        && f.everReady
        && if id in stale
           then exists x: Sig :: !x.Shutdown? && v.open == [x] + tail
           else v.open == tail
    case _ => true
  }

  ghost predicate ViewOk(phase: Phase, cycle: nat, id: ActivityId, f: Flags, v: View) {
    AskedOk(phase, cycle, id, f, v) && OpenOk(phase, id, f, v)
  }

  ghost predicate PhaseOk(c: Config, s: State) {
    && s.flags.Keys == c.deps.Keys
    && s.lanes.Keys == c.agentOf.Keys
    && (s.phase.Starting? ==> s.cycle == 0 && s.phase.unsent <= c.deps.Keys)
    && (s.phase.Stepping? ==> s.cycle > 0)
    && (s.phase.Stopping? ==> s.phase.todo <= s.phase.pending && s.phase.pending <= c.deps.Keys)
  }

  ghost predicate FlagsOk(c: Config, cycle: nat, flags: map<ActivityId, Flags>) {
    cycle > 0 ==> forall id :: id in flags ==>
      flags[id].everReady && (flags[id].triggered && id in c.deps ==> DepsReady(c, flags, id))
  }

  ghost predicate EndsInTerminate(l: Lane) { l.sent != [] && l.sent[|l.sent| - 1].Terminate? }

  /** Which kinds of signals a lane has seen in each phase. */
  ghost predicate LanePhaseOk(phase: Phase, w: WorkerId, l: Lane) {
    match phase
    case Starting(_) => OnlyRequests(l) && ReceivedReady(l)
    case Stepping => OnlyRequests(l) && ReceivedReady(l)
    case Stopping(_, _, _) => OnlyRequests(l)
    case Terminating(notify, _) => if w in notify then OnlyRequests(l) else EndsInTerminate(l)
    case Done => EndsInTerminate(l)
  }

  ghost predicate LanesOk(c: Config, s: State) {
    forall w :: w in s.lanes ==> LaneOk(c, w, s.lanes[w]) && LanePhaseOk(s.phase, w, s.lanes[w])
  }

  ghost predicate ActivityOk(c: Config, s: State, id: ActivityId) {
    && id in s.flags && Reaches(c, s, id) && s.lanes[c.owner[id]].Valid()
    && ViewOk(s.phase, s.cycle, id, s.flags[id], ViewOf(s.lanes[c.owner[id]], id))
  }

  ghost predicate Inv(c: Config, s: State) {
    && Valid(c) && PhaseOk(c, s) && FlagsOk(c, s.cycle, s.flags) && LanesOk(c, s)
    && forall id :: id in c.deps ==> ActivityOk(c, s, id)
  }
}
