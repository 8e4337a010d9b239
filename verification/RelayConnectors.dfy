/** The code that routes signals towards workers: the scheduler's connector on the primary and the
    receive relay on a secondary. */
module RelayConnectors {
  import opened Signals
  import opened Lanes
  import opened Relay

  datatype SendError = ActivityNotFound(id: ActivityId) | WorkerNotFound(worker: WorkerId) | ChannelNotFound(channel: ChannelId)

  /** The one channel a signal for worker w goes to, or why there is none. */
  datatype Way = ToQueue(worker: WorkerId) | ToLink(agent: AgentId) | NoWay(error: SendError)

  function Agents(remote: Option<set<AgentId>>): set<AgentId> { if remote.Some? then remote.value else {} }

  class SchedulerConnector {
    const localWorkers: set<WorkerId>
    const activityWorkerMap: map<ActivityId, WorkerId>
    const workerAgentMap: map<WorkerId, AgentId>
    /** The agents of the send relay, if there is one. */
    const remoteAgents: Option<set<AgentId>>
    /** The channels of the local workers, and those of the links. */
    var queues: map<WorkerId, seq<Sig>>
    var links: map<AgentId, seq<Sig>>

    /** As the connector is built: a queue per local worker, a link per remote agent, and every
        activity's worker either local or on a remote agent. */
    predicate Wired()
      reads this
    {
      && queues.Keys == localWorkers
      && links.Keys == Agents(remoteAgents)
      && forall id | id in activityWorkerMap ::
           var w := activityWorkerMap[id];
           w in localWorkers || (w in workerAgentMap && workerAgentMap[w] in links)
    }

    constructor (localWorkers: set<WorkerId>, activityWorkerMap: map<ActivityId, WorkerId>,
                 workerAgentMap: map<WorkerId, AgentId>, remoteAgents: Option<set<AgentId>>)
      ensures this.localWorkers == localWorkers && this.activityWorkerMap == activityWorkerMap
      ensures this.workerAgentMap == workerAgentMap && this.remoteAgents == remoteAgents
      ensures queues == map w | w in localWorkers :: []
      ensures links == map g | g in Agents(remoteAgents) :: []
    {
      this.localWorkers, this.activityWorkerMap := localWorkers, activityWorkerMap;
      this.workerAgentMap, this.remoteAgents := workerAgentMap, remoteAgents;
      queues := map w | w in localWorkers :: [];
      links := map g | g in Agents(remoteAgents) :: [];
    }

    /** Sends to the worker of the activity: one channel gets the signal, all others keep what they
        have. A wired connector never fails for a configured activity. */
    method SendToActivity(id: ActivityId, x: Sig) returns (error: Option<SendError>)
      modifies this`queues, this`links
      ensures id !in activityWorkerMap ==> error == Some(ActivityNotFound(id))
      ensures old(Wired()) ==> Wired() && (error.None? <==> id in activityWorkerMap)
      ensures error.Some? ==> queues == old(queues) && links == old(links)
      ensures error.None? ==> id in activityWorkerMap && Reached(activityWorkerMap[id], x, old(queues), old(links))
    {
      if id in activityWorkerMap {
        error := SendToWorker(activityWorkerMap[id], x);
      } else {
        error := Some(ActivityNotFound(id));
      }
    }

    /** x was added at the end of the one channel that leads to worker w, and nowhere else. */
    ghost predicate Reached(w: WorkerId, x: Sig, queues0: map<WorkerId, seq<Sig>>, links0: map<AgentId, seq<Sig>>)
      reads this
    {
      if w in localWorkers
      then w in queues0 && queues == queues0[w := queues0[w] + [x]] && links == links0
      else w in workerAgentMap && workerAgentMap[w] in links0 && queues == queues0
           && links == links0[workerAgentMap[w] := links0[workerAgentMap[w]] + [x]]
    }

    method SendToWorker(w: WorkerId, x: Sig) returns (error: Option<SendError>)
      modifies this`queues, this`links
      ensures error.Some? ==> queues == old(queues) && links == old(links)
      ensures error.None? ==> Reached(w, x, old(queues), old(links))
      ensures error == (if w in localWorkers then
                          if w in old(queues) then None else Some(ChannelNotFound(WorkerChannel(w)))
                        else if w !in workerAgentMap then Some(WorkerNotFound(w))
                        else if remoteAgents.Some? && workerAgentMap[w] in old(links) then None
                        else Some(ChannelNotFound(AgentChannel(workerAgentMap[w]))))
    {
      if w in localWorkers {
        if w !in queues {
          return Some(ChannelNotFound(WorkerChannel(w)));
        }
        queues := queues[w := queues[w] + [x]];
        return None;
      }
      if w !in workerAgentMap {
        return Some(WorkerNotFound(w));
      }
      error := SendToAgent(workerAgentMap[w], x);
    }

    method SendToAgent(g: AgentId, x: Sig) returns (error: Option<SendError>)
      modifies this`links
      ensures error == if remoteAgents.Some? && g in old(links) then None else Some(ChannelNotFound(AgentChannel(g)))
      ensures links == if error.None? then old(links)[g := old(links)[g] + [x]] else old(links)
    {
      if remoteAgents.None? || g !in links {
        return Some(ChannelNotFound(AgentChannel(g)));
      }
      links := links[g := links[g] + [x]];
      return None;
    }

    /** Each remote agent gets x once; with a missing link the loop stops there. */
    method Broadcast(agents: set<AgentId>, x: Sig) returns (error: Option<SendError>)
      requires remoteAgents.Some?
      modifies this`links
      ensures error.None? <==> agents <= old(links).Keys
      ensures links.Keys == old(links).Keys
      ensures forall g :: g in links ==> links[g] == old(links)[g] || (g in agents && links[g] == old(links)[g] + [x])
      ensures error.None? ==> forall g :: g in agents ==> links[g] == old(links)[g] + [x]
    {
      var todo := agents;
      while todo != {}
        invariant todo <= agents && links.Keys == old(links).Keys && agents - todo <= links.Keys
        invariant forall g :: g in links ==>
                    links[g] == old(links)[g] + if g in agents && g !in todo then [x] else []
        decreases todo
      {
        var g :| g in todo;
        error := SendToAgent(g, x);
        if error.Some? {
          return;
        }
        todo := todo - {g};
      }
      return None;
    }

    /** StartupSync is the first thing on every link. */
    method SyncTime() returns (error: Option<SendError>)
      requires Wired() && forall g :: g in links ==> links[g] == []
      modifies this`links
      ensures error.None? && Wired() && forall g :: g in links ==> links[g] == [StartupSync(())]
    {
      if remoteAgents.None? {
        return None;
      }
      error := Broadcast(remoteAgents.value, StartupSync(()));
    }

    /** Terminate reaches every link and every local queue exactly once. */
    method BroadcastTerminate() returns (error: Option<SendError>)
      requires Wired()
      modifies this`queues, this`links
      ensures error.None? && Wired()
      ensures forall g :: g in links ==> g in old(links) && links[g] == old(links)[g] + [Terminate(())]
      ensures forall w :: w in queues ==> w in old(queues) && queues[w] == old(queues)[w] + [Terminate(())]
    {
      if remoteAgents.Some? {
        error := Broadcast(remoteAgents.value, Terminate(()));
      }
      ghost var sent := links;
      var todo := queues.Keys;
      while todo != {}
        invariant todo <= queues.Keys && queues.Keys == old(queues).Keys && links == sent
        invariant forall w :: w in queues ==>
                    queues[w] == old(queues)[w] + if w in todo then [] else [Terminate(())]
        decreases todo
      {
        var w :| w in todo;
        queues := queues[w := queues[w] + [Terminate(())]];
        todo := todo - {w};
      }
      return None;
    }

    /** The agents whose TerminateAck the scheduler will wait for, its own among them. */
    function ConnectedAgentIds(): (r: set<AgentId>)
      ensures forall g :: g in r <==>
                (exists w :: w in workerAgentMap && workerAgentMap[w] == g) || (remoteAgents.Some? && g in remoteAgents.value)
    {
      workerAgentMap.Values + Agents(remoteAgents)
    }
  }

  // ----- the receive relay of a secondary -----

  /** One call of `receive` on the link. */
  datatype Arrival = Arrived(signal: Sig) | OtherSignal | TimedOut | LinkLost

  /** The core signals received before the link is lost. */
  function Cores(arrivals: seq<Arrival>): seq<Sig> {
    if arrivals == [] then []
    else
      var k := |arrivals| - 1;
      Cores(arrivals[..k]) +
        if arrivals[k].Arrived? && (forall i :: 0 <= i < k ==> !arrivals[i].LinkLost?) then [arrivals[k].signal] else []
  }

  /** What follows the first StartupSync. */
  function AfterSync(xs: seq<Sig>): seq<Sig> {
    if xs == [] then [] else if xs[0].StartupSync? then xs[1..] else AfterSync(xs[1..])
  }

  lemma CoresNext(arrivals: seq<Arrival>, i: nat)
    requires i < |arrivals| && forall k :: 0 <= k < i ==> !arrivals[k].LinkLost?
    ensures Cores(arrivals[..i + 1]) == Cores(arrivals[..i]) + if arrivals[i].Arrived? then [arrivals[i].signal] else []
  {
    assert arrivals[..i + 1][..i] == arrivals[..i];
  }

  lemma {:induction false} CoresLost(arrivals: seq<Arrival>, i: nat)
    requires i < |arrivals| && arrivals[i].LinkLost? && forall k :: 0 <= k < i ==> !arrivals[k].LinkLost?
    ensures Cores(arrivals) == Cores(arrivals[..i])
    decreases |arrivals|
  {
    var k := |arrivals| - 1;
    if i < k {
      CoresLost(arrivals[..k], i);
      assert arrivals[..k][..i] == arrivals[..i];
    }
  }

  lemma {:induction false} AfterSyncSnoc(xs: seq<Sig>, x: Sig)
    ensures AfterSync(xs + [x]) ==
              if exists k :: 0 <= k < |xs| && xs[k].StartupSync? then AfterSync(xs) + [x] else []
    decreases |xs|
  {
    if xs != [] {
      assert (xs + [x])[1..] == xs[1..] + [x];
      if !xs[0].StartupSync? {
        AfterSyncSnoc(xs[1..], x);
        if k :| 0 <= k < |xs| && xs[k].StartupSync? { assert xs[1..][k - 1].StartupSync?; }
      }
    }
  }

  ghost predicate HasSync(xs: seq<Sig>) { exists k :: 0 <= k < |xs| && xs[k].StartupSync? }

  class SecondaryReceiveRelay {
    const activityWorkerMap: map<ActivityId, WorkerId>
    /** The channels of the agent's workers. */
    var queues: map<WorkerId, seq<Sig>>

    constructor (activityWorkerMap: map<ActivityId, WorkerId>)
      ensures this.activityWorkerMap == activityWorkerMap
      ensures queues == map w | w in activityWorkerMap.Values :: []
    {
      this.activityWorkerMap := activityWorkerMap;
      queues := map w | w in activityWorkerMap.Values :: [];
    }

    /** Forwards what follows the synchronisation: each worker's queue gets exactly the signals
        routed to it, in the order of the link. */
    method ThreadMain(arrivals: seq<Arrival>)
      requires queues.Keys == activityWorkerMap.Values
      modifies this`queues
      ensures queues.Keys == old(queues).Keys
      ensures forall w :: w in queues ==>
                queues[w] == old(queues)[w] + Routed(activityWorkerMap, w, AfterSync(Cores(arrivals)))
    {
      var start := WaitForSync(arrivals);
      if start.Some? {
        Route(arrivals, start.value);
      }
    }

    /** Drops everything up to the first StartupSync. */
    method WaitForSync(arrivals: seq<Arrival>) returns (next: Option<nat>)
      ensures next.None? ==> AfterSync(Cores(arrivals)) == []
      ensures next.Some? ==> next.value <= |arrivals| && HasSync(Cores(arrivals[..next.value]))
                             && AfterSync(Cores(arrivals[..next.value])) == []
                             && forall k :: 0 <= k < next.value ==> !arrivals[k].LinkLost?
    {
      var i := 0;
      while i < |arrivals|
        invariant i <= |arrivals| && forall k :: 0 <= k < i ==> !arrivals[k].LinkLost?
        invariant !HasSync(Cores(arrivals[..i])) && AfterSync(Cores(arrivals[..i])) == []
      {
        if arrivals[i].LinkLost? {
          CoresLost(arrivals, i);
          return None;
        }
        Received(arrivals, i);
        i := i + 1;
        if arrivals[i - 1].Arrived? && arrivals[i - 1].signal.StartupSync? {
          return Some(i);
        }
      }
      assert arrivals[..|arrivals|] == arrivals;
      return None;
    }

    method Route(arrivals: seq<Arrival>, start: nat)
      requires queues.Keys == activityWorkerMap.Values && start <= |arrivals|
      requires HasSync(Cores(arrivals[..start])) && AfterSync(Cores(arrivals[..start])) == []
      requires forall k :: 0 <= k < start ==> !arrivals[k].LinkLost?
      modifies this`queues
      ensures queues.Keys == old(queues).Keys
      ensures forall w :: w in queues ==>
                queues[w] == old(queues)[w] + Routed(activityWorkerMap, w, AfterSync(Cores(arrivals)))
    {
      ghost var routed := [];
      for i := start to |arrivals|
        invariant forall k :: 0 <= k < i ==> !arrivals[k].LinkLost?
        invariant HasSync(Cores(arrivals[..i])) && routed == AfterSync(Cores(arrivals[..i]))
        invariant queues.Keys == old(queues).Keys
        invariant forall w :: w in queues ==> queues[w] == old(queues)[w] + Routed(activityWorkerMap, w, routed)
      {
        if arrivals[i].LinkLost? {
          CoresLost(arrivals, i);
          return;
        }
        Received(arrivals, i);
        if arrivals[i].Arrived? {
          Grow(routed, arrivals[i].signal);
          Forward(arrivals[i].signal);
          routed := routed + [arrivals[i].signal];
        }
      }
      assert arrivals[..|arrivals|] == arrivals;
    }

    lemma Grow(xs: seq<Sig>, x: Sig)
      ensures forall w :: Routed(activityWorkerMap, w, xs + [x]) ==
                Routed(activityWorkerMap, w, xs) + if w in Recipients(activityWorkerMap, x) then [x] else []
    {
      forall w { RoutedSnoc(activityWorkerMap, w, xs, x); }
    }

    /** A request goes to its activity's worker, Terminate and StartupSync to all, anything else and
        requests for unknown activities are dropped. */
    method Forward(x: Sig)
      requires queues.Keys == activityWorkerMap.Values
      modifies this`queues
      ensures queues.Keys == old(queues).Keys
      ensures forall w :: w in queues ==>
                queues[w] == old(queues)[w] + if w in Recipients(activityWorkerMap, x) then [x] else []
      ensures IsRequest(x) ==> forall w :: w in queues ==>
                queues[w] == old(queues)[w] + if x.id in activityWorkerMap && activityWorkerMap[x.id] == w then [x] else []
      ensures x.Terminate? || x.StartupSync? ==> forall w :: w in queues ==> queues[w] == old(queues)[w] + [x]
      ensures !IsRequest(x) && !x.Terminate? && !x.StartupSync? ==> queues == old(queues)
    {
      match x {
        case Startup(_, _) | Step(_, _) | Shutdown(_, _) =>
          if x.id in activityWorkerMap {
            var w := activityWorkerMap[x.id];
            queues := queues[w := queues[w] + [x]];
          }
        case Terminate(_) | StartupSync(_) =>
          var todo := queues.Keys;
          while todo != {}
            invariant todo <= queues.Keys && queues.Keys == old(queues).Keys
            invariant forall w :: w in queues ==> queues[w] == old(queues)[w] + if w in todo then [] else [x]
            decreases todo
          {
            var w :| w in todo;
            queues := queues[w := queues[w] + [x]];
            todo := todo - {w};
          }
        case _ =>
      }
    }
  }

  lemma Received(arrivals: seq<Arrival>, i: nat)
    requires i < |arrivals| && !arrivals[i].LinkLost? && forall k :: 0 <= k < i ==> !arrivals[k].LinkLost?
    ensures var xs, ys := Cores(arrivals[..i]), Cores(arrivals[..i + 1]);
            if arrivals[i].Arrived? then
              && HasSync(ys) == (HasSync(xs) || arrivals[i].signal.StartupSync?)
              && AfterSync(ys) == (if HasSync(xs) then AfterSync(xs) + [arrivals[i].signal] else [])
            else ys == xs
  {
    CoresNext(arrivals, i);
    if arrivals[i].Arrived? {
      var xs, x := Cores(arrivals[..i]), arrivals[i].signal;
      AfterSyncSnoc(xs, x);
      if HasSync(xs) {
        var k :| 0 <= k < |xs| && xs[k].StartupSync?;
        assert (xs + [x])[k].StartupSync?;
      } else if x.StartupSync? {
        assert (xs + [x])[|xs|].StartupSync?;
      }
    }
  }
}
