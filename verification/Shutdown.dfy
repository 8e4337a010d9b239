/** The two-phase shutdown: every started activity is shut down once and in order, and which
    confirmations can be trusted. */
module Shutdown {
  import opened Signals
  import opened Lanes
  import opened Bodies
  import opened Protocol
  import opened Invariants
  import opened Preservation
  import opened ExecutionOrder

  /** Before the first Terminate. */
  predicate Talking(p: Phase) { p.Starting? || p.Stepping? || p.Stopping? }

  /** Worker w has received Terminate. */
  ghost predicate HandlesTerminate(s: State, w: WorkerId) {
    w in s.lanes && exists k :: 0 <= k < s.lanes[w].taken <= |s.lanes[w].sent| && s.lanes[w].sent[k].Terminate?
  }

  lemma TerminateIsLast(c: Config, s: State, w: WorkerId)
    requires PhaseOk(c, s) && LanesOk(c, s) && HandlesTerminate(s, w)
    ensures !Talking(s.phase)
    ensures s.lanes[w].taken == |s.lanes[w].sent|
  {
    assert LaneOk(c, w, s.lanes[w]) && LanePhaseOk(s.phase, w, s.lanes[w]);
  }

  /** Once Terminate is on its way, everything ever asked of an activity is known. */
  lemma WholeLife(c: Config, s: State, id: ActivityId)
    requires PhaseOk(c, s) && FlagsOk(c, s.cycle, s.flags) && ActivityOk(c, s, id) && !Talking(s.phase)
    ensures var f, l := s.flags[id], s.lanes[c.owner[id]];
            l.Asked(id) == if f.everReady then Life(id, StepsAsked(s.cycle, f), true) else [Startup(id, ())]
  {
    assert Life(id, 0, false) == [Startup(id, ())];
  }

  lemma AllBegun(l: Lane, id: ActivityId)
    requires l.Valid() && l.taken == |l.sent|
    ensures l.Inbox() == [] && l.Begun(id) == l.Asked(id)
  {
    assert l.sent[..l.taken] == l.sent;
  }

  /** Shutdown survives everything that can happen before it, timeouts, failures and stale Ready
      signals included: once a worker has received Terminate, each of its activities that had
      ever been ready has gone through its whole life, one shutdown at the end, and an activity
      that never became ready has only had its startup. Nothing is called afterwards, because
      nothing is left in the channel. */
  lemma ShutdownRanOnce(c: Config, s: State, id: ActivityId)
    requires Valid(c) && Reachable(c, s) && id in c.deps && HandlesTerminate(s, c.owner[id])
    ensures Known(c, s, id) && id in s.flags && s.lanes[c.owner[id]].Inbox() == []
    ensures s.flags[id].everReady ==> exists n :: Calls(c, s, id) == Life(id, n, true)
    ensures !s.flags[id].everReady ==> Calls(c, s, id) == [Startup(id, ())]
  {
    AllTaken(c, s, id);
    AllBegun(s.lanes[c.owner[id]], id);
    WholeLife(c, s, id);
  }

  lemma AllTaken(c: Config, s: State, id: ActivityId)
    requires Valid(c) && Reachable(c, s) && id in c.deps && HandlesTerminate(s, c.owner[id])
    ensures PhaseOk(c, s) && FlagsOk(c, s.cycle, s.flags) && Known(c, s, id) && ActivityOk(c, s, id)
    ensures !Talking(s.phase) && s.lanes[c.owner[id]].taken == |s.lanes[c.owner[id]].sent|
  {
    Facts(c, s, id);
    TerminateIsLast(c, s, c.owner[id]);
  }

  /** What reachability says of one activity. */
  lemma Facts(c: Config, s: State, id: ActivityId)
    requires Valid(c) && Reachable(c, s) && id in c.deps
    ensures PhaseOk(c, s) && FlagsOk(c, s.cycle, s.flags) && LanesOk(c, s)
    ensures Known(c, s, id) && ActivityOk(c, s, id)
  {
    ReachableInv(c, s);
    AllKnown(c, s, id);
  }

  lemma {:induction false} ShutdownInLife(id: ActivityId, n: nat, ended: bool)
    ensures Shutdown(id, ()) in Life(id, n, ended) <==> ended
    decreases n, ended
  {
    if ended { ShutdownInLife(id, n, false); }
    else if n > 0 { ShutdownInLife(id, n - 1, false); }
  }

  /** A Terminate is sent only after the Shutdown of every started activity, and of no other,
      is in its worker's channel. */
  lemma ShutdownBeforeTerminate(c: Config, s: State, id: ActivityId)
    requires Valid(c) && Reachable(c, s) && id in c.deps && !Talking(s.phase)
    ensures Known(c, s, id) && id in s.flags
    ensures s.flags[id].everReady <==> Shutdown(id, ()) in s.lanes[c.owner[id]].Asked(id)
  {
    Facts(c, s, id);
    WholeLife(c, s, id);
    ShutdownInLife(id, StepsAsked(s.cycle, s.flags[id]), true);
  }

  // ----- truthful confirmations -----

  /** The next answer of worker w takes id off the pending set. */
  predicate Confirms(s: State, w: WorkerId, id: ActivityId) {
    CanConfirm(s, w) && id in Confirmed(Head(s, w)) && id in s.phase.pending
  }

  /** A confirmation is an answer to the activity's own Shutdown if and only if the activity had
      no unanswered request when the shutdown began. */
  lemma TruthfulConfirmation(c: Config, s: State, w: WorkerId, id: ActivityId)
    requires Valid(c) && Reachable(c, s) && Confirms(s, w, id)
    ensures s.lanes[w].Valid()
    ensures Answered(s, w) == Shutdown(id, ()) <==> id !in s.phase.stale
  {
    ReachableInv(c, s);
    assert LaneOk(c, w, s.lanes[w]) && LanePhaseOk(s.phase, w, s.lanes[w]);
    HeadOwned(c, s, w);
    AllKnown(c, s, id);
    ViewAfterReceive(c, s, w, id);
    assert s.lanes[w].Open(id)[0] == Answered(s, w);
  }

  /** The unanswered requests, read off the scheduler's own flags when the shutdown begins:
      after a completed cycle there are none; during startup none of a started activity; in the
      middle of a cycle those of the triggered activities that are not ready, except the one
      whose failure has just been received. */
  lemma StaleAtCycleEnd(c: Config, s: State)
    requires Valid(c) && Reachable(c, s) && s.phase.Stepping? && AllReady(s.flags)
    ensures AfterGiveUp(c, s).phase.stale == {}
  {
    ReachableInv(c, s);
    forall id | id in s.flags ensures s.lanes[c.owner[id]].Open(id) == [] {
      AllKnown(c, s, id);
    }
  }

  lemma OpenAfterFailure(c: Config, s: State, w: WorkerId, id: ActivityId)
    requires PhaseOk(c, s) && ActivityOk(c, s, id) && CanReceiveFailed(s, w)
    requires LaneOk(c, w, s.lanes[w]) && LanePhaseOk(s.phase, w, s.lanes[w])
    ensures var l := s.lanes[c.owner[id]];
            var l' := ReceiveFrom(s.lanes, w)[c.owner[id]];
            l'.Valid() && l'.Open(id) == if id == Head(s, w).id then [] else l.Open(id)
  {
    HeadOwned(c, s, w);
    ViewAfterReceive(c, s, w, id);
    var o := ReceiveFrom(s.lanes, w)[c.owner[id]].Open(id);
    if id == Head(s, w).id {
      OneOpen(s.phase, s.cycle, id, s.flags[id], ViewOf(s.lanes[w], id), Answered(s, w), o);
    } else {
      assert [] + o == o;
    }
  }

  lemma OpenFailed(c: Config, s: State, w: WorkerId, id: ActivityId)
    requires Valid(c) && Reachable(c, s) && CanReceiveFailed(s, w) && id in c.deps
    ensures PhaseOk(c, s) && ActivityOk(c, s, id)
    ensures id in AfterReceiveFailed(c, s, w).phase.stale <==>
              s.lanes[c.owner[id]].Open(id) != [] && id != Head(s, w).id
  {
    ReachableInv(c, s);
    AllKnown(c, s, id);
    assert LaneOk(c, w, s.lanes[w]) && LanePhaseOk(s.phase, w, s.lanes[w]);
    OpenAfterFailure(c, s, w, id);
  }

  lemma StaleAtStartup(c: Config, s: State, w: WorkerId, id: ActivityId)
    requires Valid(c) && Reachable(c, s) && s.phase == Starting({}) && id in c.deps
    ensures id in s.flags
    ensures Waiting(s) && s.flags[id].everReady ==> id !in AfterGiveUp(c, s).phase.stale
    ensures CanReceiveFailed(s, w) && s.flags[id].everReady ==>
              id !in AfterReceiveFailed(c, s, w).phase.stale
  {
    ReachableInv(c, s);
    AllKnown(c, s, id);
    if CanReceiveFailed(s, w) { OpenFailed(c, s, w, id); }
  }

  lemma StaleInCycle(c: Config, s: State, id: ActivityId)
    requires Valid(c) && Reachable(c, s) && s.phase.Stepping? && Waiting(s) && id in c.deps
    ensures id in s.flags
    ensures id in AfterGiveUp(c, s).phase.stale <==> s.flags[id].triggered && !s.flags[id].ready
  {
    ReachableInv(c, s);
    AllKnown(c, s, id);
  }

  lemma StaleAfterFailure(c: Config, s: State, w: WorkerId, id: ActivityId)
    requires Valid(c) && Reachable(c, s) && s.phase.Stepping? && CanReceiveFailed(s, w) && id in c.deps
    ensures id in s.flags
    ensures id in AfterReceiveFailed(c, s, w).phase.stale <==>
              s.flags[id].triggered && !s.flags[id].ready && id != Head(s, w).id
  {
    OpenFailed(c, s, w, id);
  }
}
