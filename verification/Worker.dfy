/** The worker's code: one thread that serves the requests for its activities. */
module Workers {
  import opened Signals
  import opened Lanes
  import opened Protocol
  import opened Invariants

  /** One call of `receive`, together with what the activity's method would return and whether
      the reply can be sent. */
  datatype Arrival =
    | Delivered(failure: Option<ActivityError>, sendOk: bool)
    | NothingYet
    | ChannelClosed
    | Broken

  datatype Exit =
    | Running
    | Clean
    | NotFound(id: ActivityId)
    | Unexpected(signal: Sig)
    | Disconnected

  predicate Owes(x: Sig) { IsRequest(x) || x.Terminate? }

  /** The signals among xs that call for an answer. */
  function Owed(xs: seq<Sig>): seq<Sig> {
    if xs == [] then []
    else Owed(xs[..|xs| - 1]) + if Owes(xs[|xs| - 1]) then [xs[|xs| - 1]] else []
  }

  function Requests(xs: seq<Sig>): seq<Sig> {
    if xs == [] then []
    else Requests(xs[..|xs| - 1]) + if IsRequest(xs[|xs| - 1]) then [xs[|xs| - 1]] else []
  }

  lemma OwedSnoc(xs: seq<Sig>, x: Sig)
    ensures Owed(xs + [x]) == Owed(xs) + if Owes(x) then [x] else []
    ensures Requests(xs + [x]) == Requests(xs) + if IsRequest(x) then [x] else []
  {
    assert (xs + [x])[..|xs|] == xs;
  }

  lemma {:induction false} OwedAll(xs: seq<Sig>)
    requires forall k :: 0 <= k < |xs| ==> Owes(xs[k])
    ensures Owed(xs) == xs
    decreases |xs|
  {
    if xs != [] {
      OwedAll(xs[..|xs| - 1]);
      assert xs == xs[..|xs| - 1] + [xs[|xs| - 1]];
    }
  }

  /** The k-th answer belongs to the k-th request. */
  ghost predicate Paired(owed: seq<Sig>, answers: seq<Sig>, agent: AgentId) {
    |answers| == |owed| && forall k :: 0 <= k < |owed| ==> Matches(owed[k], answers[k], agent)
  }

  /** Every delivery succeeds in both directions. */
  predicate Reliable(arrivals: seq<Arrival>) {
    forall k :: 0 <= k < |arrivals| ==> Dependable(arrivals[k])
  }

  predicate Dependable(a: Arrival) { a.NothingYet? || (a.Delivered? && a.sendOk) }

  /** Nothing in the channel but requests for these activities, time synchronisation and Terminate. */
  predicate Expected(inbox: seq<Sig>, activities: set<ActivityId>) {
    forall k :: 0 <= k < |inbox| ==>
      inbox[k].StartupSync? || inbox[k].Terminate? || (IsRequest(inbox[k]) && inbox[k].id in activities)
  }

  // ----- what a worker makes of what it receives -----

  function Deliveries(arrivals: seq<Arrival>): nat {
    if arrivals == [] then 0
    else Deliveries(arrivals[..|arrivals| - 1]) + if arrivals[|arrivals| - 1].Delivered? then 1 else 0
  }

  /** How many signals have been received once `arrivals` followed after the first n. */
  function Position(inbox: seq<Sig>, n: nat, arrivals: seq<Arrival>): (p: nat)
    requires n <= |inbox|
    ensures n <= p <= |inbox|
  {
    if n + Deliveries(arrivals) <= |inbox| then n + Deliveries(arrivals) else |inbox|
  }

  /** The signal a receive finds there, if any is left. */
  function Offered(inbox: seq<Sig>, n: nat, arrivals: seq<Arrival>): Option<Sig>
    requires n <= |inbox|
  {
    var p := Position(inbox, n, arrivals);
    if p < |inbox| then Some(inbox[p]) else None
  }

  /** Whether a worker with these activities goes on after the signal, and how it leaves if not. */
  function AfterSignal(x: Sig, sendOk: bool, activities: set<ActivityId>): Exit {
    if IsRequest(x) then
      if x.id !in activities then NotFound(x.id) else if sendOk then Running else Disconnected
    else if x.StartupSync? then Running
    else if x.Terminate? then Clean
    else Unexpected(x)
  }

  function AfterArrival(a: Arrival, offered: Option<Sig>, activities: set<ActivityId>): Exit {
    match a
    case NothingYet => Running
    case ChannelClosed => Clean
    case Broken => Disconnected
    case Delivered(_, sendOk) => if offered.None? then Running else AfterSignal(offered.value, sendOk, activities)
  }

  /** What goes back to the scheduler. */
  function ReplyTo(a: Arrival, offered: Option<Sig>, activities: set<ActivityId>, agent: AgentId): seq<Sig> {
    if !a.Delivered? || !a.sendOk || offered.None? then []
    else
      var x := offered.value;
      if IsRequest(x) && x.id in activities then
        [if a.failure.None? then Ready(x.id, ()) else ActivityFailed(x.id, a.failure.value)]
      else if x.Terminate? then [TerminateAck(agent)]
      else []
  }

  function RepliesTo(inbox: seq<Sig>, n: nat, arrivals: seq<Arrival>, activities: set<ActivityId>, agent: AgentId): seq<Sig>
    requires n <= |inbox|
  {
    if arrivals == [] then []
    else
      var k := |arrivals| - 1;
      RepliesTo(inbox, n, arrivals[..k], activities, agent) +
      ReplyTo(arrivals[k], Offered(inbox, n, arrivals[..k]), activities, agent)
  }

  /** One more arrival moves the position on by at most one, and adds the reply to it. */
  lemma NextArrival(inbox: seq<Sig>, n: nat, arrivals: seq<Arrival>, k: nat, activities: set<ActivityId>, agent: AgentId,
                    given: seq<Sig>)
    requires n <= |inbox| && k < |arrivals|
    ensures var p := Position(inbox, n, arrivals[..k]);
            Position(inbox, n, arrivals[..k + 1]) == p + if arrivals[k].Delivered? && p < |inbox| then 1 else 0
    ensures given + RepliesTo(inbox, n, arrivals[..k + 1], activities, agent) ==
              given + RepliesTo(inbox, n, arrivals[..k], activities, agent) +
              ReplyTo(arrivals[k], Offered(inbox, n, arrivals[..k]), activities, agent)
  {
    assert arrivals[..k + 1][..k] == arrivals[..k];
  }

  lemma {:induction false} MoreDeliveries(arrivals: seq<Arrival>, k: nat)
    requires k <= |arrivals|
    ensures Deliveries(arrivals[..k]) <= Deliveries(arrivals)
    decreases |arrivals|
  {
    if k == |arrivals| {
      assert arrivals[..k] == arrivals;
    } else {
      assert arrivals[..|arrivals| - 1][..k] == arrivals[..k];
      MoreDeliveries(arrivals[..|arrivals| - 1], k);
    }
  }

  function AfterThe(k: nat, inbox: seq<Sig>, n: nat, arrivals: seq<Arrival>, activities: set<ActivityId>): Exit
    requires n <= |inbox| && k < |arrivals|
  {
    AfterArrival(arrivals[k], Offered(inbox, n, arrivals[..k]), activities)
  }

  ghost predicate GoesOn(seen: nat, inbox: seq<Sig>, n: nat, arrivals: seq<Arrival>, activities: set<ActivityId>)
    requires n <= |inbox| && seen <= |arrivals|
  {
    forall k :: 0 <= k < seen ==> AfterThe(k, inbox, n, arrivals, activities).Running?
  }

  ghost predicate NoTerminate(inbox: seq<Sig>, from: nat, to: nat) {
    to <= |inbox| && forall k :: from <= k < to ==> !inbox[k].Terminate?
  }

  lemma NoTerminateTrans(inbox: seq<Sig>, a: nat, b: nat, c: nat)
    requires NoTerminate(inbox, a, b) && NoTerminate(inbox, b, c)
    ensures NoTerminate(inbox, a, c)
  {
  }

  lemma OneMoreOn(seen: nat, inbox: seq<Sig>, n: nat, arrivals: seq<Arrival>, activities: set<ActivityId>)
    requires n <= |inbox| && seen < |arrivals| && GoesOn(seen, inbox, n, arrivals, activities)
    requires AfterThe(seen, inbox, n, arrivals, activities).Running?
    ensures GoesOn(seen + 1, inbox, n, arrivals, activities)
  {
  }

  /** The first arrival after which the worker does not go on is the last it sees, and makes it leave. */
  ghost predicate LeavesAfter(seen: nat, inbox: seq<Sig>, n: nat, arrivals: seq<Arrival>, activities: set<ActivityId>,
                              exit: Exit)
    requires n <= |inbox|
  {
    && seen <= |arrivals|
    && if exit.Running? then seen == |arrivals| && GoesOn(seen, inbox, n, arrivals, activities)
       else seen > 0 && GoesOn(seen - 1, inbox, n, arrivals, activities)
            && AfterThe(seen - 1, inbox, n, arrivals, activities) == exit
  }

  /** What a worker that has served n signals has in its channels satisfies the protocol's law
      for lanes. */
  lemma ServesLane(c: Config, w: WorkerId, inbox: seq<Sig>, n: nat, answers: seq<Sig>, received: nat)
    requires w in c.agentOf && n <= |inbox| && received <= |answers|
    requires forall k :: 0 <= k < |inbox| ==>
               Addressed(c, w, inbox[k]) || (inbox[k].Terminate? && k == |inbox| - 1)
    requires Paired(Owed(inbox[..n]), answers, c.agentOf[w])
    ensures LaneOk(c, w, Lane(inbox, n, answers, received)) && !Lane(inbox, n, answers, received).Busy()
  {
    OwedAll(inbox[..n]);
  }

  lemma PairedSnoc(owed: seq<Sig>, answers: seq<Sig>, agent: AgentId, x: Sig, a: Sig)
    requires Paired(owed, answers, agent) && Matches(x, a, agent)
    ensures Paired(owed + [x], answers + [a], agent)
  {
  }

  lemma NextSignal(inbox: seq<Sig>, n: nat)
    requires n < |inbox|
    ensures Owed(inbox[..n + 1]) == Owed(inbox[..n]) + if Owes(inbox[n]) then [inbox[n]] else []
    ensures Requests(inbox[..n + 1]) == Requests(inbox[..n]) + if IsRequest(inbox[n]) then [inbox[n]] else []
  {
    OwedSnoc(inbox[..n], inbox[n]);
    assert inbox[..n + 1] == inbox[..n] + [inbox[n]];
  }

  class Worker {
    const agent: AgentId
    const activities: set<ActivityId>
    /** Everything that is ever put into this worker's channel, and how much of it was received. */
    const inbox: seq<Sig>
    var taken: nat
    var answers: seq<Sig>
    /** The calls of activity methods, in order. */
    var calls: seq<Sig>

    ghost predicate Valid()
      reads this
    {
      taken <= |inbox|
    }

    /** The first n signals were answered one to one and in order. */
    ghost predicate AnsweredUpTo(n: nat)
      reads this
    {
      n <= |inbox| && Paired(Owed(inbox[..n]), answers, agent)
    }

    /** The first n signals were turned into calls, in order, and nothing else was called. */
    ghost predicate CalledUpTo(n: nat)
      reads this
    {
      n <= |inbox| && calls == Requests(inbox[..n])
    }

    ghost predicate Served()
      reads this
    {
      Valid() && AnsweredUpTo(taken) && CalledUpTo(taken)
    }

    constructor (agent: AgentId, activities: set<ActivityId>, inbox: seq<Sig>)
      ensures this.agent == agent && this.activities == activities && this.inbox == inbox
      ensures taken == 0 && Served()
    {
      this.agent, this.activities, this.inbox := agent, activities, inbox;
      taken, answers, calls := 0, [], [];
    }

    /** The signal received last. */
    ghost function Last(): Sig
      requires 0 < taken <= |inbox|
      reads this
    {
      inbox[taken - 1]
    }

    /** How things stand when the worker leaves, or (Running) goes on waiting. */
    ghost predicate Left(exit: Exit)
      reads this
    {
      && Valid() && (exit.NotFound? || exit.Unexpected? ==> taken > 0)
      && match exit
         case Running => Served()
         case Clean =>
           CalledUpTo(taken) && (AnsweredUpTo(taken) || (taken > 0 && Last().Terminate? && AnsweredUpTo(taken - 1)))
         case NotFound(id) =>
           && IsRequest(Last()) && Last().id == id && id !in activities
           && CalledUpTo(taken - 1) && AnsweredUpTo(taken - 1)
         case Unexpected(signal) =>
           Last() == signal && !Owes(signal) && !signal.StartupSync? && Served()
         case Disconnected =>
           CalledUpTo(taken) && (AnsweredUpTo(taken) || (taken > 0 && IsRequest(Last()) && AnsweredUpTo(taken - 1)))
    }

    /** Serves requests until the worker has to leave, or until `arrivals` are used up. It leaves after
        the first arrival that makes it leave, and has received one signal for each delivery until
        then, as long as there were any. */
    method Run(arrivals: seq<Arrival>) returns (exit: Exit, ghost seen: nat)
      requires Served()
      modifies this`taken, this`answers, this`calls
      ensures Left(exit) && old(taken) <= taken
      ensures LeavesAfter(seen, inbox, old(taken), arrivals, activities, exit)
      ensures taken == Position(inbox, old(taken), arrivals[..seen])
      ensures answers == old(answers) + RepliesTo(inbox, old(taken), arrivals[..seen], activities, agent)
      ensures Reliable(arrivals) && Expected(inbox, activities) ==>
                (exit.Clean? <==> exists k :: old(taken) <= k < Position(inbox, old(taken), arrivals) && inbox[k].Terminate?)
      ensures forall k :: old(taken) <= k < taken - 1 ==> !inbox[k].Terminate?
      ensures Reliable(arrivals) && Expected(inbox, activities) ==>
                Served() && (exit.Running? || (exit.Clean? && taken > 0 && Last().Terminate?))
    {
      exit, seen := ServeAll(arrivals);
      MoreDeliveries(arrivals, seen);
      assert arrivals[..|arrivals|] == arrivals;
    }

    method ServeAll(arrivals: seq<Arrival>) returns (exit: Exit, ghost seen: nat)
      requires Served()
      modifies this`taken, this`answers, this`calls
      ensures Left(exit) && old(taken) <= taken && NoTerminate(inbox, old(taken), if taken > 0 && !exit.Running? then taken - 1 else taken)
      ensures LeavesAfter(seen, inbox, old(taken), arrivals, activities, exit)
      ensures taken == Position(inbox, old(taken), arrivals[..seen])
      ensures answers == old(answers) + RepliesTo(inbox, old(taken), arrivals[..seen], activities, agent)
      ensures Reliable(arrivals) && Expected(inbox, activities) ==>
                Served() && (exit.Running? || (exit.Clean? && taken > old(taken) && Last().Terminate?))
    {
      for i := 0 to |arrivals|
        invariant Served() && old(taken) <= taken
        invariant NoTerminate(inbox, old(taken), taken)
        invariant GoesOn(i, inbox, old(taken), arrivals, activities)
        invariant taken == Position(inbox, old(taken), arrivals[..i])
        invariant answers == old(answers) + RepliesTo(inbox, old(taken), arrivals[..i], activities, agent)
      {
        NextArrival(inbox, old(taken), arrivals, i, activities, agent, old(answers));
        ghost var before := taken;
        exit := Accept(arrivals[i]);
        assert exit == AfterThe(i, inbox, old(taken), arrivals, activities);
        if !exit.Running? {
          return exit, i + 1;
        }
        NoTerminateTrans(inbox, old(taken), before, taken);
        OneMoreOn(i, inbox, old(taken), arrivals, activities);
      }
      assert arrivals[..|arrivals|] == arrivals;
      exit, seen := Running, |arrivals|;
    }

    /** One turn of the worker's loop. */
    method Accept(arrival: Arrival) returns (exit: Exit)
      requires Served()
      modifies this`taken, this`answers, this`calls
      ensures Left(exit)
      ensures var offered := if old(taken) < |inbox| then Some(inbox[old(taken)]) else None;
              && exit == AfterArrival(arrival, offered, activities)
              && answers == old(answers) + ReplyTo(arrival, offered, activities, agent)
      ensures taken == old(taken) + if arrival.Delivered? && old(taken) < |inbox| then 1 else 0
      ensures exit.Running? ==> Served()
      ensures exit.Running? ==> NoTerminate(inbox, old(taken), taken)
      ensures Dependable(arrival) && Expected(inbox, activities) ==>
                Served() && (exit.Running? || (exit.Clean? && taken > old(taken) && Last().Terminate?))
    {
      match arrival {
        case NothingYet =>
        case ChannelClosed => return Clean;
        case Broken => return Disconnected;
        case Delivered(failure, sendOk) =>
          if taken < |inbox| {
            exit := Serve(failure, sendOk);
            return exit;
          }
      }
      return Running;
    }

    /** Receives the next signal and does what it asks for. */
    method Serve(failure: Option<ActivityError>, sendOk: bool) returns (exit: Exit)
      requires Served() && taken < |inbox|
      modifies this`taken, this`answers, this`calls
      ensures Left(exit) && taken == old(taken) + 1
      ensures exit == AfterSignal(inbox[old(taken)], sendOk, activities)
      ensures answers == old(answers) + ReplyTo(Delivered(failure, sendOk), Some(inbox[old(taken)]), activities, agent)
      ensures exit.Running? ==> !inbox[old(taken)].Terminate?
      ensures sendOk && Expected(inbox, activities) ==>
                Served() && (exit.Running? || (exit.Clean? && inbox[old(taken)].Terminate?))
    {
      var signal := inbox[taken];
      NextSignal(inbox, taken);
      taken := taken + 1;
      match signal {
        case Startup(_, _) | Step(_, _) | Shutdown(_, _) =>
          exit := HandleActivitySignal(signal, failure, sendOk);
        case StartupSync(_) =>
          exit := Running;
        case Terminate(_) =>
          if sendOk {
            PairedSnoc(Owed(inbox[..taken - 1]), answers, agent, signal, TerminateAck(agent));
            answers := answers + [TerminateAck(agent)];
          }
          exit := Clean;
        case _ =>
          exit := Unexpected(signal);
      }
    }

    /** Calls the method of the addressed activity and sends what it returned. */
    method HandleActivitySignal(signal: Sig, failure: Option<ActivityError>, sendOk: bool) returns (exit: Exit)
      requires IsRequest(signal)
      modifies this`answers, this`calls
      ensures signal.id !in activities ==>
                exit == NotFound(signal.id) && answers == old(answers) && calls == old(calls)
      ensures signal.id in activities ==>
                calls == old(calls) + [signal] && exit == (if sendOk then Running else Disconnected)
      ensures signal.id in activities && sendOk ==>
                answers == old(answers) + [if failure.None? then Ready(signal.id, ()) else ActivityFailed(signal.id, failure.value)]
      ensures !sendOk ==> answers == old(answers)
      ensures forall owed :: Paired(owed, old(answers), agent) && exit.Running? ==>
                Paired(owed + [signal], answers, agent)
    {
      if signal.id !in activities {
        return NotFound(signal.id);
      }
      calls := calls + [signal];
      var response: Sig := match failure
        case None => Ready(signal.id, ())
        case Some(e) => ActivityFailed(signal.id, e);
      if !sendOk {
        return Disconnected;
      }
      answers := answers + [response];
      return Running;
    }
  }
}
