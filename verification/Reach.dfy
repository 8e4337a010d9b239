/** Each kind of move leads from reachable states to reachable states. */
module Reach {
  import opened Signals
  import opened Lanes
  import opened Protocol
  import opened Invariants
  import opened Preservation

  lemma StartupSent(c: Config, s: State, id: ActivityId)
    requires Reachable(c, s) && CanSendStartup(c, s, id)
    ensures Reachable(c, AfterSendStartup(c, s, id))
  {
    NextReachable(c, s, SendStartup(id));
  }

  lemma CycleBegun(c: Config, s: State)
    requires Reachable(c, s) && CanBeginCycle(s)
    ensures Reachable(c, AfterBeginCycle(s))
  {
    NextReachable(c, s, BeginCycle);
  }

  lemma Triggered(c: Config, s: State, id: ActivityId)
    requires Reachable(c, s) && CanTrigger(c, s, id)
    ensures Reachable(c, AfterTrigger(c, s, id))
  {
    NextReachable(c, s, Trigger(id));
  }

  lemma ReadyReceived(c: Config, s: State, w: WorkerId)
    requires Reachable(c, s) && CanReceiveReady(s, w)
    ensures Reachable(c, AfterReceiveReady(s, w))
  {
    NextReachable(c, s, ReceiveReady(w));
  }

  lemma FailureReceived(c: Config, s: State, w: WorkerId)
    requires Reachable(c, s) && CanReceiveFailed(s, w)
    ensures Reachable(c, AfterReceiveFailed(c, s, w))
  {
    NextReachable(c, s, ReceiveFailed(w));
  }

  lemma GivenUp(c: Config, s: State)
    requires Reachable(c, s) && (Waiting(s) || (s.phase.Stepping? && AllReady(s.flags)))
    ensures Reachable(c, AfterGiveUp(c, s))
  {
    if Waiting(s) { NextReachable(c, s, GiveUp); } else { NextReachable(c, s, StopRequested); }
  }

  lemma ShutdownSent(c: Config, s: State, id: ActivityId)
    requires Reachable(c, s) && CanSendShutdown(c, s, id)
    ensures Reachable(c, AfterSendShutdown(c, s, id))
  {
    NextReachable(c, s, SendShutdown(id));
  }

  lemma ConfirmationReceived(c: Config, s: State, w: WorkerId)
    requires Reachable(c, s) && CanConfirm(s, w)
    ensures Reachable(c, AfterConfirm(s, w))
  {
    NextReachable(c, s, Confirm(w));
  }

  lemma WaitingStopped(c: Config, s: State)
    requires Reachable(c, s) && CanStopWaiting(s)
    ensures Reachable(c, AfterStopWaiting(c, s))
  {
    NextReachable(c, s, StopWaiting);
  }

  lemma TerminateSent(c: Config, s: State, w: WorkerId)
    requires Reachable(c, s) && CanSendTerminate(s, w)
    ensures Reachable(c, AfterSendTerminate(s, w))
  {
    NextReachable(c, s, SendTerminate(w));
  }

  lemma AckReceived(c: Config, s: State, w: WorkerId)
    requires Reachable(c, s) && CanReceiveAck(s, w)
    ensures Reachable(c, AfterReceiveAck(s, w))
  {
    NextReachable(c, s, ReceiveAck(w));
  }

  lemma AllDone(c: Config, s: State)
    requires Reachable(c, s) && s.phase.Terminating? && s.phase.notify == {}
    ensures Reachable(c, s.(phase := Done))
  {
    NextReachable(c, s, Finished);
  }

  lemma Taken(c: Config, s: State, w: WorkerId)
    requires Reachable(c, s) && CanTake(s, w)
    ensures Reachable(c, AfterTake(c, s, w))
  {
    NextReachable(c, s, Take(w));
  }

  lemma WorkerAnswered(c: Config, s: State, w: WorkerId, ok: bool, error: ActivityError)
    requires Reachable(c, s) && CanAnswer(c, s, w, ok)
    ensures Reachable(c, AfterAnswer(c, s, w, ok, error))
  {
    NextReachable(c, s, Answer(w, ok, error));
  }

  lemma WorkerMoved(c: Config, s: State, x: Move)
    requires Reachable(c, s) && IsWorkerMove(x) && Enabled(c, s, x)
    ensures Reachable(c, Do(c, s, x))
    ensures var s' := Do(c, s, x); s'.phase == s.phase && s'.cycle == s.cycle && s'.flags == s.flags
    ensures SameEnds(s.lanes, Do(c, s, x).lanes)
  {
    NextReachable(c, s, x);
  }

  /** Nothing was sent to any worker, and no answer received. */
  ghost predicate SameEnds(before: map<WorkerId, Lane>, after: map<WorkerId, Lane>) {
    && after.Keys == before.Keys
    && forall w :: w in before ==> after[w].sent == before[w].sent && after[w].received == before[w].received
  }

  /** What reachability says about the scheduler's own variables. */
  lemma Shape(c: Config, s: State)
    requires Protocol.Valid(c) && Reachable(c, s)
    ensures PhaseOk(c, s) && forall id :: id in c.deps ==> Reaches(c, s, id)
  {
    ReachableInv(c, s);
  }
}
