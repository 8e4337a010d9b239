/** Relayed signalling: requests for remote workers travel over a link per agent to a relay thread
    that sorts them into the queues of its workers. */
module Relay {
  import opened Signals
  import opened Lanes

  datatype RelayConfig = RelayConfig(
    owner: map<ActivityId, WorkerId>,
    agentOf: map<WorkerId, AgentId>,
    primary: AgentId,
    /** What each secondary relay knows: its agent's activities and their workers. */
    maps: map<AgentId, map<ActivityId, WorkerId>>)

  predicate Local(c: RelayConfig, w: WorkerId) { w in c.agentOf && c.agentOf[w] == c.primary }

  predicate Remote(c: RelayConfig, w: WorkerId) { w in c.agentOf && c.agentOf[w] != c.primary }

  /** Every activity has a worker and every worker an agent; a remote agent's relay knows exactly the
      activities of its agent's workers, and each of these workers has one. */
  ghost predicate Valid(c: RelayConfig) {
    && (forall id :: id in c.owner ==> c.owner[id] in c.agentOf)
    && (forall w :: Remote(c, w) ==> c.agentOf[w] in c.maps)
    && (forall g, id :: g in c.maps && id in c.owner && c.agentOf[c.owner[id]] == g ==>
          id in c.maps[g] && c.maps[g][id] == c.owner[id])
    && (forall g, id :: g in c.maps && id in c.maps[g] ==>
          id in c.owner && c.maps[g][id] == c.owner[id] && Remote(c, c.owner[id]) && c.agentOf[c.owner[id]] == g)
    && (forall w :: Remote(c, w) ==> w in c.maps[c.agentOf[w]].Values)
  }

  /** The relay's routing table: the workers whose queues a core signal from the link is put into. */
  function Recipients(m: map<ActivityId, WorkerId>, x: Sig): set<WorkerId> {
    if IsRequest(x) then if x.id in m then {m[x.id]} else {}
    else if x.Terminate? || x.StartupSync? then m.Values
    else {}
  }

  /** What worker w gets of the signals xs. */
  function Routed(m: map<ActivityId, WorkerId>, w: WorkerId, xs: seq<Sig>): seq<Sig> {
    if xs == [] then []
    else Routed(m, w, xs[..|xs| - 1]) + if w in Recipients(m, xs[|xs| - 1]) then [xs[|xs| - 1]] else []
  }

  lemma RoutedSnoc(m: map<ActivityId, WorkerId>, w: WorkerId, xs: seq<Sig>, x: Sig)
    ensures Routed(m, w, xs + [x]) == Routed(m, w, xs) + if w in Recipients(m, x) then [x] else []
  {
    assert (xs + [x])[..|xs|] == xs;
  }

  lemma {:induction false} RoutedCons(m: map<ActivityId, WorkerId>, w: WorkerId, xs: seq<Sig>)
    requires xs != []
    ensures Routed(m, w, xs) == (if w in Recipients(m, xs[0]) then [xs[0]] else []) + Routed(m, w, xs[1..])
    decreases |xs|
  {
    if |xs| > 1 {
      var k := |xs| - 1;
      RoutedCons(m, w, xs[..k]);
      assert xs[..k][1..] == xs[1..][..k - 1];
    }
  }

  /** A signal the relay has taken from the link and not yet put into all queues. */
  datatype Held = Nothing | Holding(signal: Sig, to: set<WorkerId>)

  /** The relay thread of one agent: the link in front of it, whether it is past the
      synchronisation, and what it holds. */
  datatype RelayState = RelayState(link: seq<Sig>, synced: bool, held: Held)

  datatype Phase = Syncing(todo: set<AgentId>) | Sending | Terminating(agents: set<AgentId>, workers: set<WorkerId>)

  /** `log` is what the scheduler has asked for so far, `taken` what each worker has received. */
  datatype State = State(
    phase: Phase,
    log: seq<Sig>,
    relays: map<AgentId, RelayState>,
    queues: map<WorkerId, seq<Sig>>,
    taken: map<WorkerId, seq<Sig>>)

  datatype Move =
    | SendSync(agent: AgentId)
    | StartSending
    | SendToActivity(signal: Sig)
    | StartTerminating
    | TerminateAgent(agent: AgentId)
    | TerminateLocal(worker: WorkerId)
    | RelayTake(agent: AgentId)
    | RelayPut(agent: AgentId, worker: WorkerId)
    | WorkerTake(worker: WorkerId)

  predicate IsRelayMove(x: Move) { x.RelayTake? || x.RelayPut? }

  predicate Enabled(c: RelayConfig, s: State, x: Move) {
    match x
    case SendSync(g) => s.phase.Syncing? && g in s.phase.todo && g in s.relays
    case StartSending => s.phase == Syncing({})
    case SendToActivity(r) =>
      && s.phase.Sending? && IsRequest(r) && r.id in c.owner && c.owner[r.id] in c.agentOf
      && if Local(c, c.owner[r.id]) then c.owner[r.id] in s.queues else c.agentOf[c.owner[r.id]] in s.relays
    case StartTerminating => s.phase.Sending?
    case TerminateAgent(g) => s.phase.Terminating? && g in s.phase.agents && g in s.relays
    case TerminateLocal(w) =>
      s.phase.Terminating? && s.phase.agents == {} && w in s.phase.workers && w in s.queues && Local(c, w)
    case RelayTake(g) => g in s.relays && s.relays[g].held.Nothing? && s.relays[g].link != [] && g in c.maps
    case RelayPut(g, w) => g in s.relays && s.relays[g].held.Holding? && w in s.relays[g].held.to && w in s.queues
    case WorkerTake(w) => w in s.queues && w in s.taken && s.queues[w] != []
  }

  function Append(q: map<WorkerId, seq<Sig>>, w: WorkerId, x: Sig): map<WorkerId, seq<Sig>>
    requires w in q
  {
    q[w := q[w] + [x]]
  }

  function OnLink(s: State, g: AgentId, x: Sig): State
    requires g in s.relays
  {
    s.(relays := s.relays[g := s.relays[g].(link := s.relays[g].link + [x])])
  }

  function SendRequest(c: RelayConfig, s: State, r: Sig): State
    requires Enabled(c, s, SendToActivity(r))
  {
    var w := c.owner[r.id];
    var s' := s.(log := s.log + [r]);
    if Local(c, w) then s'.(queues := Append(s.queues, w, r)) else OnLink(s', c.agentOf[w], r)
  }

  /** Before the synchronisation only StartupSync is accepted and everything else is dropped;
      afterwards signals are routed, and those for nobody are dropped. */
  function TakeFromLink(m: map<ActivityId, WorkerId>, r: RelayState): RelayState
    requires r.link != []
  {
    var x := r.link[0];
    if !r.synced then RelayState(r.link[1..], x.StartupSync?, Nothing)
    else
      var to := Recipients(m, x);
      RelayState(r.link[1..], true, if to == {} then Nothing else Holding(x, to))
  }

  function PutIntoQueue(r: RelayState, w: WorkerId): RelayState
    requires r.held.Holding?
  {
    var to := r.held.to - {w};
    r.(held := if to == {} then Nothing else Holding(r.held.signal, to))
  }

  function Do(c: RelayConfig, s: State, x: Move): State
    requires Enabled(c, s, x)
  {
    match x
    case SendSync(g) => OnLink(s, g, StartupSync(())).(phase := Syncing(s.phase.todo - {g}))
    case StartSending => s.(phase := Sending)
    case SendToActivity(r) => SendRequest(c, s, r)
    case StartTerminating =>
      s.(phase := Terminating(s.relays.Keys, set w | w in s.queues && Local(c, w)))
    case TerminateAgent(g) =>
      OnLink(s, g, Terminate(())).(phase := Terminating(s.phase.agents - {g}, s.phase.workers))
    case TerminateLocal(w) =>
      s.(phase := Terminating(s.phase.agents, s.phase.workers - {w}), queues := Append(s.queues, w, Terminate(())))
    case RelayTake(g) => s.(relays := s.relays[g := TakeFromLink(c.maps[g], s.relays[g])])
    case RelayPut(g, w) =>
      s.(relays := s.relays[g := PutIntoQueue(s.relays[g], w)], queues := Append(s.queues, w, s.relays[g].held.signal))
    case WorkerTake(w) =>
      s.(queues := s.queues[w := s.queues[w][1..]], taken := Append(s.taken, w, s.queues[w][0]))
  }

  ghost predicate Run(c: RelayConfig, s: State, moves: seq<Move>, s': State)
    decreases |moves|
  {
    if moves == [] then s == s'
    else Enabled(c, s, moves[0]) && Run(c, Do(c, s, moves[0]), moves[1..], s')
  }

  ghost predicate Initial(c: RelayConfig, s: State) {
    && s.phase == Syncing(c.maps.Keys) && s.log == []
    && s.relays.Keys == c.maps.Keys && s.queues.Keys == c.agentOf.Keys && s.taken.Keys == c.agentOf.Keys
    && (forall g :: g in s.relays ==> s.relays[g] == RelayState([], false, Nothing))
    && (forall w :: w in s.queues ==> s.queues[w] == [] && s.taken[w] == [])
  }

  // ----- the direct channel it refines -----

  /** The part of the link that will be routed: all of it once the relay is synchronised,
      and until then what follows the StartupSync in front. */
  function Ahead(r: RelayState): seq<Sig> {
    if r.synced then r.link else if r.link == [] then [] else r.link[1..]
  }

  function HeldFor(h: Held, w: WorkerId): seq<Sig> {
    if h.Holding? && w in h.to then [h.signal] else []
  }

  /** What the relay still has for worker w. */
  function Coming(m: map<ActivityId, WorkerId>, w: WorkerId, r: RelayState): seq<Sig> {
    HeldFor(r.held, w) + Routed(m, w, Ahead(r))
  }

  /** What is on its way to worker w: its queue, the signal held by the relay, and the link
      filtered to it. */
  function Inbox(c: RelayConfig, s: State, w: WorkerId): seq<Sig>
    requires w in s.queues && (Remote(c, w) ==> c.agentOf[w] in s.relays && c.agentOf[w] in c.maps)
  {
    s.queues[w] + if Remote(c, w) then Coming(c.maps[c.agentOf[w]], w, s.relays[c.agentOf[w]]) else []
  }

  /** The requests for activities of worker w, in the order of the log. */
  function Addressed(c: RelayConfig, w: WorkerId, log: seq<Sig>): seq<Sig> {
    if log == [] then []
    else
      var x := log[|log| - 1];
      Addressed(c, w, log[..|log| - 1]) + if IsRequest(x) && x.id in c.owner && c.owner[x.id] == w then [x] else []
  }

  /** Terminate has been sent towards worker w. */
  predicate Notified(c: RelayConfig, s: State, w: WorkerId)
    requires w in c.agentOf
  {
    s.phase.Terminating? && if Local(c, w) then w !in s.phase.workers else c.agentOf[w] !in s.phase.agents
  }

  /** What the direct connector would have put into worker w's channel by now. */
  function Direct(c: RelayConfig, s: State, w: WorkerId): seq<Sig>
    requires w in c.agentOf
  {
    Addressed(c, w, s.log) + if Notified(c, s, w) then [Terminate(())] else []
  }

  ghost predicate RelayOk(c: RelayConfig, phase: Phase, g: AgentId, r: RelayState) {
    && (!r.synced ==> r.held.Nothing?)
    && (phase.Syncing? && g in phase.todo ==> !r.synced && r.link == [])
    && (!r.synced && !(phase.Syncing? && g in phase.todo) ==> r.link != [] && r.link[0].StartupSync?)
    && (phase.Syncing? && r.synced ==> r.link == [])
    && (phase.Syncing? && !r.synced ==> |r.link| <= 1)
    && (r.held.Holding? ==> r.held.to != {} && forall w :: w in r.held.to ==> Remote(c, w) && c.agentOf[w] == g)
  }

  ghost predicate Shape(c: RelayConfig, s: State) {
    && s.relays.Keys == c.maps.Keys && s.queues.Keys == c.agentOf.Keys && s.taken.Keys == c.agentOf.Keys
    && (s.phase.Syncing? ==> s.log == [])
  }

  ghost predicate WorkerOk(c: RelayConfig, s: State, w: WorkerId) {
    && w in s.queues && w in s.taken && w in c.agentOf
    && (Remote(c, w) ==> c.agentOf[w] in s.relays && c.agentOf[w] in c.maps)
    && s.taken[w] + Inbox(c, s, w) == Direct(c, s, w)
  }

  ghost predicate Inv(c: RelayConfig, s: State) {
    && Valid(c) && Shape(c, s)
    && (forall g :: g in s.relays ==> RelayOk(c, s.phase, g, s.relays[g]))
    && (forall w :: w in c.agentOf ==> WorkerOk(c, s, w))
  }

  // ----- one relay, one worker -----

  /** Taking a signal from the link changes nothing for any worker; in particular nothing is lost
      in the synchronisation wait, because StartupSync is in front. */
  lemma TakeInvisible(m: map<ActivityId, WorkerId>, w: WorkerId, r: RelayState)
    requires r.held.Nothing? && r.link != [] && (!r.synced ==> r.link[0].StartupSync?)
    ensures Coming(m, w, TakeFromLink(m, r)) == Coming(m, w, r)
  {
    RoutedCons(m, w, r.link);
  }

  lemma PutMoves(m: map<ActivityId, WorkerId>, w: WorkerId, v: WorkerId, r: RelayState)
    requires r.held.Holding? && v in r.held.to
    ensures Coming(m, w, r) == (if w == v then [r.held.signal] else []) + Coming(m, w, PutIntoQueue(r, v))
  {
    if w in r.held.to - {v} { assert r.held.to - {v} != {}; }
  }

  lemma LinkGrows(m: map<ActivityId, WorkerId>, w: WorkerId, r: RelayState, x: Sig)
    requires r.synced || r.link != []
    ensures Coming(m, w, r.(link := r.link + [x])) == Coming(m, w, r) + if w in Recipients(m, x) then [x] else []
  {
    RoutedSnoc(m, w, Ahead(r), x);
    assert Ahead(r.(link := r.link + [x])) == Ahead(r) + [x];
    Regroup(HeldFor(r.held, w), Routed(m, w, Ahead(r)), if w in Recipients(m, x) then [x] else []);
  }

  lemma SyncFirst(m: map<ActivityId, WorkerId>, w: WorkerId, r: RelayState)
    requires !r.synced && r.link == []
    ensures Coming(m, w, r.(link := [StartupSync(())])) == Coming(m, w, r)
  {
  }

  lemma AddressedSnoc(c: RelayConfig, w: WorkerId, log: seq<Sig>, x: Sig)
    requires IsRequest(x) && x.id in c.owner
    ensures Addressed(c, w, log + [x]) == Addressed(c, w, log) + if c.owner[x.id] == w then [x] else []
  {
    assert (log + [x])[..|log|] == log;
  }

  // ----- every move, seen from one worker -----

  lemma RelayTakeWorker(c: RelayConfig, s: State, g: AgentId, w: WorkerId)
    requires Enabled(c, s, RelayTake(g)) && RelayOk(c, s.phase, g, s.relays[g]) && WorkerOk(c, s, w)
    requires s.relays.Keys == c.maps.Keys
    ensures Inbox(c, Do(c, s, RelayTake(g)), w) == Inbox(c, s, w)
    ensures WorkerOk(c, Do(c, s, RelayTake(g)), w)
  {
    TakeInvisible(c.maps[g], w, s.relays[g]);
  }

  lemma RelayPutWorker(c: RelayConfig, s: State, g: AgentId, v: WorkerId, w: WorkerId)
    requires Enabled(c, s, RelayPut(g, v)) && RelayOk(c, s.phase, g, s.relays[g]) && WorkerOk(c, s, w)
    requires s.relays.Keys == c.maps.Keys
    ensures Inbox(c, Do(c, s, RelayPut(g, v)), w) == Inbox(c, s, w)
    ensures WorkerOk(c, Do(c, s, RelayPut(g, v)), w)
  {
    if c.agentOf[w] == g && Remote(c, w) {
      PutMoves(c.maps[g], w, v, s.relays[g]);
      Shift(s.queues[w], s.relays[g].held.signal, Coming(c.maps[g], w, PutIntoQueue(s.relays[g], v)));
    }
  }

  lemma Shift(q: seq<Sig>, x: Sig, rest: seq<Sig>)
    ensures (q + [x]) + rest == q + ([x] + rest)
  {
  }

  /** A worker receives what is first in its abstract inbox. */
  lemma WorkerTakeHead(c: RelayConfig, s: State, w: WorkerId)
    requires Enabled(c, s, WorkerTake(w)) && WorkerOk(c, s, w)
    ensures WorkerOk(c, Do(c, s, WorkerTake(w)), w)
    ensures Inbox(c, s, w) == [s.queues[w][0]] + Inbox(c, Do(c, s, WorkerTake(w)), w)
  {
    var q := s.queues[w];
    assert q == [q[0]] + q[1..];
    Regroup([q[0]], q[1..], if Remote(c, w) then Coming(c.maps[c.agentOf[w]], w, s.relays[c.agentOf[w]]) else []);
    Shift(s.taken[w], q[0], Inbox(c, Do(c, s, WorkerTake(w)), w));
  }

  lemma Regroup(x: seq<Sig>, y: seq<Sig>, z: seq<Sig>)
    ensures (x + y) + z == x + (y + z)
  {
  }

  lemma WorkerTakeWorker(c: RelayConfig, s: State, v: WorkerId, w: WorkerId)
    requires Enabled(c, s, WorkerTake(v)) && WorkerOk(c, s, w)
    ensures WorkerOk(c, Do(c, s, WorkerTake(v)), w)
  {
    if v == w { WorkerTakeHead(c, s, w); }
  }

  lemma SendSyncWorker(c: RelayConfig, s: State, g: AgentId, w: WorkerId)
    requires Enabled(c, s, SendSync(g)) && RelayOk(c, s.phase, g, s.relays[g]) && WorkerOk(c, s, w)
    requires s.relays.Keys == c.maps.Keys
    ensures WorkerOk(c, Do(c, s, SendSync(g)), w)
  {
    if Remote(c, w) { SyncFirst(c.maps[c.agentOf[w]], w, s.relays[g]); }
  }

  /** A request reaches exactly its owner's inbox. */
  lemma SendRequestInbox(c: RelayConfig, s: State, r: Sig, w: WorkerId)
    requires Valid(c) && Enabled(c, s, SendToActivity(r)) && WorkerOk(c, s, w) && s.relays.Keys == c.maps.Keys
    requires forall g :: g in s.relays ==> RelayOk(c, s.phase, g, s.relays[g])
    ensures Inbox(c, Do(c, s, SendToActivity(r)), w) == Inbox(c, s, w) + if c.owner[r.id] == w then [r] else []
  {
    var v := c.owner[r.id];
    if Remote(c, w) && !Local(c, v) && c.agentOf[w] == c.agentOf[v] {
      var g := c.agentOf[v];
      LinkGrows(c.maps[g], w, s.relays[g], r);
      Regroup(s.queues[w], Coming(c.maps[g], w, s.relays[g]), if v == w then [r] else []);
    }
  }

  /** The inbox and the direct channel grow by the same. */
  lemma BothGrow(c: RelayConfig, s: State, s': State, w: WorkerId, more: seq<Sig>)
    requires WorkerOk(c, s, w) && s'.queues.Keys == s.queues.Keys && s'.relays.Keys == s.relays.Keys
    requires s'.taken == s.taken
    requires Inbox(c, s', w) == Inbox(c, s, w) + more && Direct(c, s', w) == Direct(c, s, w) + more
    ensures WorkerOk(c, s', w)
  {
    Regroup(s.taken[w], Inbox(c, s, w), more);
  }

  lemma SendRequestWorker(c: RelayConfig, s: State, r: Sig, w: WorkerId)
    requires Valid(c) && Enabled(c, s, SendToActivity(r)) && WorkerOk(c, s, w) && s.relays.Keys == c.maps.Keys
    requires forall g :: g in s.relays ==> RelayOk(c, s.phase, g, s.relays[g])
    ensures WorkerOk(c, Do(c, s, SendToActivity(r)), w)
  {
    SendRequestInbox(c, s, r, w);
    AddressedSnoc(c, w, s.log, r);
    BothGrow(c, s, SendRequest(c, s, r), w, if c.owner[r.id] == w then [r] else []);
  }

  lemma BroadcastReaches(c: RelayConfig, w: WorkerId)
    requires Valid(c) && Remote(c, w)
    ensures c.agentOf[w] in c.maps && w in Recipients(c.maps[c.agentOf[w]], Terminate(()))
  {
  }

  predicate WorkerOfAgent(c: RelayConfig, w: WorkerId, g: AgentId) { Remote(c, w) && c.agentOf[w] == g }

  lemma TerminateAgentInbox(c: RelayConfig, s: State, g: AgentId, w: WorkerId)
    requires Enabled(c, s, TerminateAgent(g)) && WorkerOk(c, s, w) && RelayOk(c, s.phase, g, s.relays[g])
    requires WorkerOfAgent(c, w, g) ==> w in Recipients(c.maps[g], Terminate(()))
    ensures Inbox(c, OnLink(s, g, Terminate(())), w) ==
              Inbox(c, s, w) + if WorkerOfAgent(c, w, g) then [Terminate(())] else []
  {
    if WorkerOfAgent(c, w, g) {
      LinkGrows(c.maps[g], w, s.relays[g], Terminate(()));
      Regroup(s.queues[w], Coming(c.maps[g], w, s.relays[g]), [Terminate(())]);
    }
  }

  lemma TerminateAgentWorker(c: RelayConfig, s: State, g: AgentId, w: WorkerId)
    requires Enabled(c, s, TerminateAgent(g)) && WorkerOk(c, s, w) && RelayOk(c, s.phase, g, s.relays[g])
    requires WorkerOfAgent(c, w, g) ==> w in Recipients(c.maps[g], Terminate(()))
    ensures WorkerOk(c, Do(c, s, TerminateAgent(g)), w)
  {
    TerminateAgentInbox(c, s, g, w);
    BothGrow(c, s, Do(c, s, TerminateAgent(g)), w, if WorkerOfAgent(c, w, g) then [Terminate(())] else []);
  }

  lemma TerminateLocalWorker(c: RelayConfig, s: State, v: WorkerId, w: WorkerId)
    requires Enabled(c, s, TerminateLocal(v)) && WorkerOk(c, s, w)
    ensures WorkerOk(c, Do(c, s, TerminateLocal(v)), w)
  {
    if v == w { BothGrow(c, s, Do(c, s, TerminateLocal(v)), w, [Terminate(())]); }
  }

  lemma StartTerminatingWorker(c: RelayConfig, s: State, w: WorkerId)
    requires s.phase.Sending? && WorkerOk(c, s, w) && s.relays.Keys == c.maps.Keys
    ensures WorkerOk(c, Do(c, s, StartTerminating), w)
  {
  }

  lemma StartSendingWorker(c: RelayConfig, s: State, w: WorkerId)
    requires s.phase == Syncing({}) && WorkerOk(c, s, w)
    ensures WorkerOk(c, Do(c, s, StartSending), w)
  {
  }

  // ----- every move, seen from one relay -----

  lemma OtherRelays(c: RelayConfig, phase: Phase, phase': Phase, g: AgentId, r: RelayState)
    requires RelayOk(c, phase, g, r)
    requires phase'.Syncing? ==> phase.Syncing? && (g in phase'.todo <==> g in phase.todo)
    requires phase.Syncing? && !phase'.Syncing? ==> g !in phase.todo
    ensures RelayOk(c, phase', g, r)
  {
  }

  lemma RelayGrows(c: RelayConfig, phase: Phase, g: AgentId, r: RelayState, x: Sig)
    requires RelayOk(c, phase, g, r) && !phase.Syncing?
    ensures RelayOk(c, phase, g, r.(link := r.link + [x]))
  {
  }

  lemma RelaySynced(c: RelayConfig, phase: Phase, g: AgentId, r: RelayState)
    requires RelayOk(c, phase, g, r) && phase.Syncing? && g in phase.todo
    ensures RelayOk(c, Syncing(phase.todo - {g}), g, r.(link := r.link + [StartupSync(())]))
  {
  }

  /** A relay routes to its own agent's workers only. */
  lemma OwnWorkers(c: RelayConfig, g: AgentId, x: Sig, w: WorkerId)
    requires Valid(c) && g in c.maps && w in Recipients(c.maps[g], x)
    ensures Remote(c, w) && c.agentOf[w] == g
  {
    var id :| id in c.maps[g] && c.maps[g][id] == w;
    assert c.owner[id] == w;
  }

  lemma RelayTaken(c: RelayConfig, phase: Phase, g: AgentId, r: RelayState)
    requires Valid(c) && RelayOk(c, phase, g, r) && r.held.Nothing? && r.link != [] && g in c.maps
    ensures RelayOk(c, phase, g, TakeFromLink(c.maps[g], r))
  {
    forall w | w in Recipients(c.maps[g], r.link[0]) { OwnWorkers(c, g, r.link[0], w); }
  }

  lemma RelayPutOk(c: RelayConfig, phase: Phase, g: AgentId, r: RelayState, w: WorkerId)
    requires RelayOk(c, phase, g, r) && r.held.Holding?
    ensures RelayOk(c, phase, g, PutIntoQueue(r, w))
  {
  }

  lemma RelaysKept(c: RelayConfig, s: State, x: Move, g: AgentId)
    requires Valid(c) && Enabled(c, s, x) && g in s.relays && RelayOk(c, s.phase, g, s.relays[g])
    ensures RelayOk(c, Do(c, s, x).phase, g, Do(c, s, x).relays[g])
  {
    var r := s.relays[g];
    match x
    case SendSync(h) =>
      if h == g { RelaySynced(c, s.phase, g, r); } else { OtherRelays(c, s.phase, Syncing(s.phase.todo - {h}), g, r); }
    case StartSending => OtherRelays(c, s.phase, Sending, g, r);
    case SendToActivity(q) => RelayGrows(c, s.phase, g, r, q);
    case StartTerminating => OtherRelays(c, s.phase, Do(c, s, x).phase, g, r);
    case TerminateAgent(h) => TerminateRelay(c, s, h, g);
    case TerminateLocal(v) => OtherRelays(c, s.phase, Do(c, s, x).phase, g, r);
    case RelayTake(h) => if h == g { RelayTaken(c, s.phase, g, r); }
    case RelayPut(h, w) => if h == g { RelayPutOk(c, s.phase, g, r, w); }
    case WorkerTake(v) =>
  }

  lemma TerminateRelay(c: RelayConfig, s: State, h: AgentId, g: AgentId)
    requires Enabled(c, s, TerminateAgent(h)) && g in s.relays && RelayOk(c, s.phase, g, s.relays[g])
    ensures var s' := Do(c, s, TerminateAgent(h)); RelayOk(c, s'.phase, g, s'.relays[g])
  {
    RelayGrows(c, s.phase, g, s.relays[g], Terminate(()));
  }

  lemma WorkersKept(c: RelayConfig, s: State, x: Move, w: WorkerId)
    requires Inv(c, s) && Enabled(c, s, x) && w in c.agentOf
    ensures WorkerOk(c, Do(c, s, x), w)
  {
    match x
    case SendSync(g) => SendSyncWorker(c, s, g, w);
    case StartSending => StartSendingWorker(c, s, w);
    case SendToActivity(r) => SendRequestWorker(c, s, r, w);
    case StartTerminating => StartTerminatingWorker(c, s, w);
    case TerminateAgent(g) =>
      if Remote(c, w) { BroadcastReaches(c, w); }
      TerminateAgentWorker(c, s, g, w);
    case TerminateLocal(v) => TerminateLocalWorker(c, s, v, w);
    case RelayTake(g) => RelayTakeWorker(c, s, g, w);
    case RelayPut(g, v) => RelayPutWorker(c, s, g, v, w);
    case WorkerTake(v) => WorkerTakeWorker(c, s, v, w);
  }

  // ----- all moves, all runs -----

  lemma ShapeKept(c: RelayConfig, s: State, x: Move)
    requires Shape(c, s) && Enabled(c, s, x)
    ensures Shape(c, Do(c, s, x)) && Do(c, s, x).relays.Keys == s.relays.Keys
  {
  }

  lemma Assemble(c: RelayConfig, s: State)
    requires Valid(c) && Shape(c, s)
    requires forall g :: g in s.relays ==> RelayOk(c, s.phase, g, s.relays[g])
    requires forall w :: w in c.agentOf ==> WorkerOk(c, s, w)
    ensures Inv(c, s)
  {
  }

  lemma MoveKeepsInv(c: RelayConfig, s: State, x: Move, s': State)
    requires Inv(c, s) && Enabled(c, s, x) && s' == Do(c, s, x)
    ensures Inv(c, s')
  {
    ShapeKept(c, s, x);
    forall g | g in s'.relays ensures RelayOk(c, s'.phase, g, s'.relays[g]) { RelaysKept(c, s, x, g); }
    forall w | w in c.agentOf ensures WorkerOk(c, s', w) { WorkersKept(c, s, x, w); }
    Assemble(c, s');
  }

  lemma InitialInv(c: RelayConfig, s: State)
    requires Valid(c) && Initial(c, s)
    ensures Inv(c, s)
  {
    forall w | w in c.agentOf ensures WorkerOk(c, s, w) {
    }
  }

  lemma {:induction false} RunKeepsInv(c: RelayConfig, s: State, moves: seq<Move>, s': State)
    requires Inv(c, s) && Run(c, s, moves, s')
    ensures Inv(c, s')
    decreases |moves|
  {
    if moves != [] {
      var next := Do(c, s, moves[0]);
      MoveKeepsInv(c, s, moves[0], next);
      RunKeepsInv(c, next, moves[1..], s');
    }
  }

  ghost predicate Reachable(c: RelayConfig, s: State) {
    exists s0, moves :: Initial(c, s0) && Run(c, s0, moves, s)
  }

  lemma ReachableOk(c: RelayConfig, s: State)
    requires Valid(c) && Reachable(c, s)
    ensures Inv(c, s)
  {
    var s0, moves :| Initial(c, s0) && Run(c, s0, moves, s);
    InitialInv(c, s0);
    RunKeepsInv(c, s0, moves, s);
  }

  lemma RelayMoveInbox(c: RelayConfig, s: State, x: Move, w: WorkerId)
    requires Enabled(c, s, x) && IsRelayMove(x) && s.relays.Keys == c.maps.Keys
    requires RelayOk(c, s.phase, x.agent, s.relays[x.agent]) && WorkerOk(c, s, w)
    ensures WorkerOk(c, Do(c, s, x), w) && Inbox(c, Do(c, s, x), w) == Inbox(c, s, w)
  {
    match x
    case RelayTake(g) => RelayTakeWorker(c, s, g, w);
    case RelayPut(g, v) => RelayPutWorker(c, s, g, v, w);
  }

  /** Relay steps are invisible: they change no worker's abstract inbox. */
  lemma RelayInvisible(c: RelayConfig, s: State, x: Move, w: WorkerId)
    requires Valid(c) && Reachable(c, s) && Enabled(c, s, x) && IsRelayMove(x) && w in c.agentOf
    ensures WorkerOk(c, s, w) && WorkerOk(c, Do(c, s, x), w)
    ensures Inbox(c, Do(c, s, x), w) == Inbox(c, s, w)
  {
    MoverOk(c, s, x.agent, w);
    RelayMoveInbox(c, s, x, w);
  }

  lemma MoverOk(c: RelayConfig, s: State, g: AgentId, w: WorkerId)
    requires Valid(c) && Reachable(c, s) && g in s.relays && w in c.agentOf
    ensures RelayOk(c, s.phase, g, s.relays[g]) && WorkerOk(c, s, w) && s.relays.Keys == c.maps.Keys
  {
    ReachableOk(c, s);
  }

  /** Relayed signalling refines the direct FIFO: in every reachable state, what worker w has
      received and what is on its way to it are together exactly what the direct connector would
      have put into its channel, in order. Nothing is lost, doubled, reordered or misrouted. */
  lemma RefinesDirect(c: RelayConfig, s: State, w: WorkerId)
    requires Valid(c) && Reachable(c, s) && w in c.agentOf
    ensures WorkerOk(c, s, w) && s.taken[w] + Inbox(c, s, w) == Direct(c, s, w)
  {
    ReachableOk(c, s);
  }

  /** Worker w's direct channel: everything sent, and how much of it was received. */
  datatype Channel = Channel(sent: seq<Sig>, taken: nat)

  function ChannelOf(c: RelayConfig, s: State, w: WorkerId): Channel
    requires w in c.agentOf && w in s.taken
  {
    Channel(Direct(c, s, w), |s.taken[w]|)
  }

  /** What a move does to the direct channel of worker w. */
  function DirectStep(c: RelayConfig, x: Move, w: WorkerId, ch: Channel): Channel {
    match x
    case SendToActivity(r) => if IsRequest(r) && r.id in c.owner && c.owner[r.id] == w then ch.(sent := ch.sent + [r]) else ch
    case TerminateAgent(g) => if WorkerOfAgent(c, w, g) then ch.(sent := ch.sent + [Terminate(())]) else ch
    case TerminateLocal(v) => if v == w then ch.(sent := ch.sent + [Terminate(())]) else ch
    case WorkerTake(v) => if v == w then ch.(taken := ch.taken + 1) else ch
    case _ => ch
  }

  lemma SendStep(c: RelayConfig, s: State, r: Sig, w: WorkerId)
    requires Enabled(c, s, SendToActivity(r)) && w in c.agentOf
    ensures Direct(c, SendRequest(c, s, r), w) == Direct(c, s, w) + if c.owner[r.id] == w then [r] else []
  {
    AddressedSnoc(c, w, s.log, r);
  }

  lemma TerminateStep(c: RelayConfig, s: State, s': State, w: WorkerId)
    requires w in c.agentOf && s'.log == s.log
    ensures Notified(c, s', w) && !Notified(c, s, w) ==> Direct(c, s', w) == Direct(c, s, w) + [Terminate(())]
    ensures Notified(c, s', w) == Notified(c, s, w) ==> Direct(c, s', w) == Direct(c, s, w)
  {
  }

  lemma NotifiedStep(c: RelayConfig, s: State, x: Move, w: WorkerId)
    requires Enabled(c, s, x) && w in c.agentOf && w in s.queues && (Remote(c, w) ==> c.agentOf[w] in s.relays)
    ensures var hit := (x.TerminateAgent? && WorkerOfAgent(c, w, x.agent)) || x == TerminateLocal(w);
            Notified(c, Do(c, s, x), w) == (Notified(c, s, w) || hit) && !(hit && Notified(c, s, w))
  {
  }

  lemma ChannelStep(c: RelayConfig, s: State, x: Move, w: WorkerId)
    requires Enabled(c, s, x) && w in c.agentOf && w in s.taken && w in s.queues
    requires Remote(c, w) ==> c.agentOf[w] in s.relays
    ensures w in Do(c, s, x).taken && ChannelOf(c, Do(c, s, x), w) == DirectStep(c, x, w, ChannelOf(c, s, w))
  {
    if x.SendToActivity? {
      SendStep(c, s, x.signal, w);
    } else {
      NotifiedStep(c, s, x, w);
      TerminateStep(c, s, Do(c, s, x), w);
    }
  }

  /** Forward simulation: every move of the relayed system is a send, a receive or nothing on the
      direct channel of each worker, and a worker that receives gets what is next there. */
  lemma Simulates(c: RelayConfig, s: State, x: Move, w: WorkerId)
    requires Valid(c) && Reachable(c, s) && Enabled(c, s, x) && w in c.agentOf
    ensures w in s.taken && w in Do(c, s, x).taken
    ensures ChannelOf(c, Do(c, s, x), w) == DirectStep(c, x, w, ChannelOf(c, s, w))
    ensures x == WorkerTake(w) ==>
              var ch := ChannelOf(c, s, w);
              ch.taken < |ch.sent| && ch.sent[ch.taken] == s.queues[w][0]
  {
    RefinesDirect(c, s, w);
    ChannelStep(c, s, x, w);
    if x == WorkerTake(w) { WorkerTakeHead(c, s, w); }
  }

  lemma {:induction false} OnlyRequests(c: RelayConfig, w: WorkerId, log: seq<Sig>)
    ensures forall k :: 0 <= k < |Addressed(c, w, log)| ==>
              IsRequest(Addressed(c, w, log)[k]) && Addressed(c, w, log)[k].id in c.owner
              && c.owner[Addressed(c, w, log)[k].id] == w
    decreases |log|
  {
    if log != [] { OnlyRequests(c, w, log[..|log| - 1]); }
  }

  /** Once nothing is on its way, every request for one of the worker's activities has reached it
      exactly once and in order, and Terminate once and last if it was broadcast. */
  lemma DeliveredOnce(c: RelayConfig, s: State, w: WorkerId)
    requires Valid(c) && Reachable(c, s) && w in c.agentOf && WorkerOk(c, s, w) && Inbox(c, s, w) == []
    ensures s.taken[w] == Addressed(c, w, s.log) + if Notified(c, s, w) then [Terminate(())] else []
    ensures forall k :: 0 <= k < |s.taken[w]| ==> (s.taken[w][k].Terminate? <==> Notified(c, s, w) && k == |s.taken[w]| - 1)
  {
    OnlyRequests(c, w, s.log);
  }

  /** While something is on its way to a worker whose queue is empty, its relay can move. */
  lemma NotStuck(c: RelayConfig, s: State, w: WorkerId) returns (x: Move)
    requires Valid(c) && Reachable(c, s) && w in c.agentOf && WorkerOk(c, s, w)
    requires Inbox(c, s, w) != [] && s.queues[w] == []
    ensures IsRelayMove(x) && Enabled(c, s, x)
  {
    ReachableOk(c, s);
    var g := c.agentOf[w];
    var r := s.relays[g];
    assert RelayOk(c, s.phase, g, r);
    if r.held.Holding? {
      var v :| v in r.held.to;
      x := RelayPut(g, v);
    } else {
      x := RelayTake(g);
    }
  }
}
