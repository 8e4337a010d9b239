/** The way back: answers of remote workers reach the scheduler through two relays that merge
    many senders into one channel each. */
module Replies {
  import opened Signals
  import opened Lanes

  datatype Reply = Reply(from: WorkerId, signal: Sig)

  /** The secondary's side of an agent: the queue its workers share, what the send relay carries,
      and the link to the primary. */
  datatype Upstream = Upstream(gathered: seq<Reply>, carried: Option<Reply>, link: seq<Reply>)

  /** `inbound` is the scheduler's queue, `holding` what the primary's receive relay carries.
      `given` and `received` record what workers have sent and what the scheduler got. */
  datatype State = State(
    agents: map<AgentId, Upstream>,
    holding: Option<Reply>,
    inbound: seq<Reply>,
    given: map<WorkerId, seq<Sig>>,
    received: seq<Reply>)

  datatype Home = Home(agentOf: map<WorkerId, AgentId>, primary: AgentId)

  predicate Remote(c: Home, w: WorkerId) { w in c.agentOf && c.agentOf[w] != c.primary }

  datatype Move =
    | Give(worker: WorkerId, signal: Sig)
    | SecondaryTake(agent: AgentId)
    | SecondarySend(agent: AgentId)
    | PrimaryTake(agent: AgentId)
    | PrimaryPut
    | SchedulerTake

  predicate IsRelayMove(x: Move) { x.SecondaryTake? || x.SecondarySend? || x.PrimaryTake? || x.PrimaryPut? }

  predicate Enabled(c: Home, s: State, x: Move) {
    match x
    case Give(w, _) => w in c.agentOf && w in s.given && (Remote(c, w) ==> c.agentOf[w] in s.agents)
    case SecondaryTake(g) => g in s.agents && s.agents[g].carried.None? && s.agents[g].gathered != []
    case SecondarySend(g) => g in s.agents && s.agents[g].carried.Some?
    case PrimaryTake(g) => g in s.agents && s.holding.None? && s.agents[g].link != []
    case PrimaryPut => s.holding.Some?
    case SchedulerTake => s.inbound != []
  }

  function GiveTo(c: Home, s: State, w: WorkerId, x: Sig): State
    requires Enabled(c, s, Give(w, x))
  {
    var s' := s.(given := s.given[w := s.given[w] + [x]]);
    if Remote(c, w) then
      var u := s.agents[c.agentOf[w]];
      s'.(agents := s.agents[c.agentOf[w] := u.(gathered := u.gathered + [Reply(w, x)])])
    else s'.(inbound := s.inbound + [Reply(w, x)])
  }

  function TakeUp(u: Upstream): Upstream
    requires u.gathered != []
  {
    u.(gathered := u.gathered[1..], carried := Some(u.gathered[0]))
  }

  function SendUp(u: Upstream): Upstream
    requires u.carried.Some?
  {
    u.(carried := None, link := u.link + [u.carried.value])
  }

  function Do(c: Home, s: State, x: Move): State
    requires Enabled(c, s, x)
  {
    match x
    case Give(w, signal) => GiveTo(c, s, w, signal)
    case SecondaryTake(g) => s.(agents := s.agents[g := TakeUp(s.agents[g])])
    case SecondarySend(g) => s.(agents := s.agents[g := SendUp(s.agents[g])])
    case PrimaryTake(g) =>
      var u := s.agents[g];
      s.(agents := s.agents[g := u.(link := u.link[1..])], holding := Some(u.link[0]))
    case PrimaryPut => s.(holding := None, inbound := s.inbound + [s.holding.value])
    case SchedulerTake => s.(inbound := s.inbound[1..], received := s.received + [s.inbound[0]])
  }

  ghost predicate Run(c: Home, s: State, moves: seq<Move>, s': State)
    decreases |moves|
  {
    if moves == [] then s == s'
    else Enabled(c, s, moves[0]) && Run(c, Do(c, s, moves[0]), moves[1..], s')
  }

  // ----- one worker's answers -----

  function One(w: WorkerId, r: Reply): seq<Sig> { if r.from == w then [r.signal] else [] }

  /** The signals of worker w among rs, in order. */
  function Of(w: WorkerId, rs: seq<Reply>): seq<Sig> {
    if rs == [] then [] else Of(w, rs[..|rs| - 1]) + One(w, rs[|rs| - 1])
  }

  function OfOption(w: WorkerId, r: Option<Reply>): seq<Sig> { if r.Some? then One(w, r.value) else [] }

  lemma OfSnoc(w: WorkerId, rs: seq<Reply>, r: Reply)
    ensures Of(w, rs + [r]) == Of(w, rs) + One(w, r)
  {
    assert (rs + [r])[..|rs|] == rs;
  }

  lemma {:induction false} OfCons(w: WorkerId, rs: seq<Reply>)
    requires rs != []
    ensures Of(w, rs) == One(w, rs[0]) + Of(w, rs[1..])
    decreases |rs|
  {
    if |rs| > 1 {
      var k := |rs| - 1;
      OfCons(w, rs[..k]);
      assert rs[..k][1..] == rs[1..][..k - 1];
    }
  }

  /** Worker w's answers on the secondary's side, oldest first. */
  function Rising(w: WorkerId, u: Upstream): seq<Sig> {
    Of(w, u.link) + (OfOption(w, u.carried) + Of(w, u.gathered))
  }

  /** Worker w's answers that the scheduler has not received, oldest first. */
  function Outbox(c: Home, s: State, w: WorkerId): seq<Sig> {
    Of(w, s.inbound) + (OfOption(w, s.holding) + Below(c, s, w))
  }

  function Below(c: Home, s: State, w: WorkerId): seq<Sig> {
    if Remote(c, w) && c.agentOf[w] in s.agents then Rising(w, s.agents[c.agentOf[w]]) else []
  }

  ghost predicate FromAgent(c: Home, g: AgentId, rs: seq<Reply>) {
    forall i :: 0 <= i < |rs| ==> Remote(c, rs[i].from) && c.agentOf[rs[i].from] == g
  }

  /** Each answer travels on its own agent's way. */
  ghost predicate AtHome(c: Home, g: AgentId, u: Upstream) {
    && FromAgent(c, g, u.gathered) && FromAgent(c, g, u.link)
    && (u.carried.Some? ==> FromAgent(c, g, [u.carried.value]))
  }

  /** Worker w's answers are received or still on their way, in the order given. */
  ghost predicate InOrder(c: Home, s: State, w: WorkerId) {
    w in s.given && Of(w, s.received) + Outbox(c, s, w) == s.given[w]
  }

  ghost predicate Inv(c: Home, s: State) {
    && s.given.Keys == c.agentOf.Keys
    && (forall w :: Remote(c, w) ==> c.agentOf[w] in s.agents)
    && (forall g :: g in s.agents ==> AtHome(c, g, s.agents[g]))
    && (s.holding.Some? ==> Remote(c, s.holding.value.from))
    && (forall w :: w in c.agentOf ==> InOrder(c, s, w))
  }

  // ----- the relays keep every worker's order -----

  lemma TakeRising(w: WorkerId, u: Upstream)
    requires u.gathered != [] && u.carried.None?
    ensures Rising(w, TakeUp(u)) == Rising(w, u)
  {
    OfCons(w, u.gathered);
  }

  lemma SendRising(w: WorkerId, u: Upstream)
    requires u.carried.Some?
    ensures Rising(w, SendUp(u)) == Rising(w, u)
  {
    OfSnoc(w, u.link, u.carried.value);
  }

  lemma TopRising(w: WorkerId, u: Upstream)
    requires u.link != []
    ensures Rising(w, u) == One(w, u.link[0]) + Rising(w, u.(link := u.link[1..]))
  {
    OfCons(w, u.link);
  }

  lemma GiveRising(w: WorkerId, u: Upstream, r: Reply)
    ensures Rising(w, u.(gathered := u.gathered + [r])) == Rising(w, u) + One(w, r)
  {
    OfSnoc(w, u.gathered, r);
  }

  lemma Assoc(a: seq<Sig>, b: seq<Sig>, d: seq<Sig>)
    ensures (a + b) + d == a + (b + d)
    ensures [] + b == b && a + [] == a
  {
  }

  /** No relay step changes any worker's abstract outbox. */
  lemma RelayInvisible(c: Home, s: State, x: Move, w: WorkerId)
    requires Enabled(c, s, x) && IsRelayMove(x) && (forall g :: g in s.agents ==> AtHome(c, g, s.agents[g]))
    ensures Outbox(c, Do(c, s, x), w) == Outbox(c, s, w)
  {
    match x
    case SecondaryTake(g) => TakeRising(w, s.agents[g]);
    case SecondarySend(g) => SendRising(w, s.agents[g]);
    case PrimaryTake(g) => PrimaryTakes(c, s, g, w);
    case PrimaryPut => PrimaryPuts(c, s, w);
  }

  lemma PrimaryTakes(c: Home, s: State, g: AgentId, w: WorkerId)
    requires Enabled(c, s, PrimaryTake(g)) && AtHome(c, g, s.agents[g])
    ensures Outbox(c, Do(c, s, PrimaryTake(g)), w) == Outbox(c, s, w)
  {
    var top := One(w, s.agents[g].link[0]);
    var s' := Do(c, s, PrimaryTake(g));
    TopRising(w, s.agents[g]);
    Assoc(top, Below(c, s, w), []);
    assert Below(c, s, w) == top + Below(c, s', w) by {
      if !(Remote(c, w) && c.agentOf[w] == g) { assert top == []; }
    }
  }

  lemma PrimaryPuts(c: Home, s: State, w: WorkerId)
    requires Enabled(c, s, PrimaryPut)
    ensures Outbox(c, Do(c, s, PrimaryPut), w) == Outbox(c, s, w)
  {
    OfSnoc(w, s.inbound, s.holding.value);
    Assoc(Of(w, s.inbound), One(w, s.holding.value), Below(c, s, w));
    Assoc([], Below(c, s, w), []);
  }

  /** The scheduler receives the first answer in the sender's outbox. */
  lemma SchedulerTakes(c: Home, s: State, w: WorkerId)
    requires s.inbound != []
    ensures Outbox(c, s, w) == One(w, s.inbound[0]) + Outbox(c, s.(inbound := s.inbound[1..]), w)
  {
    OfCons(w, s.inbound);
    Assoc(One(w, s.inbound[0]), Of(w, s.inbound[1..]), OfOption(w, s.holding) + Below(c, s, w));
  }

  /** A new answer goes to the end of its worker's outbox and into nobody else's. */
  lemma GiveGrows(c: Home, s: State, v: WorkerId, x: Sig, w: WorkerId)
    requires Enabled(c, s, Give(v, x)) && (s.holding.Some? ==> Remote(c, s.holding.value.from))
    ensures Outbox(c, Do(c, s, Give(v, x)), w) == Outbox(c, s, w) + One(w, Reply(v, x))
  {
    if Remote(c, v) { GiveRemote(c, s, v, x, w); } else { GiveLocal(c, s, v, x, w); }
  }

  lemma GiveRemote(c: Home, s: State, v: WorkerId, x: Sig, w: WorkerId)
    requires Enabled(c, s, Give(v, x)) && Remote(c, v)
    ensures Outbox(c, Do(c, s, Give(v, x)), w) == Outbox(c, s, w) + One(w, Reply(v, x))
  {
    var more := One(w, Reply(v, x));
    GiveRising(w, s.agents[c.agentOf[v]], Reply(v, x));
    assert Below(c, GiveTo(c, s, v, x), w) == Below(c, s, w) + more;
    Assoc(OfOption(w, s.holding), Below(c, s, w), more);
    Assoc(Of(w, s.inbound), OfOption(w, s.holding) + Below(c, s, w), more);
  }

  lemma GiveLocal(c: Home, s: State, v: WorkerId, x: Sig, w: WorkerId)
    requires Enabled(c, s, Give(v, x)) && !Remote(c, v) && (s.holding.Some? ==> Remote(c, s.holding.value.from))
    ensures Outbox(c, Do(c, s, Give(v, x)), w) == Outbox(c, s, w) + One(w, Reply(v, x))
  {
    OfSnoc(w, s.inbound, Reply(v, x));
    if v == w {
      assert OfOption(w, s.holding) == [] && Below(c, s, w) == [];
    }
  }

  // ----- all moves, all runs -----

  lemma FromTail(c: Home, g: AgentId, rs: seq<Reply>)
    requires FromAgent(c, g, rs) && rs != []
    ensures FromAgent(c, g, rs[1..]) && FromAgent(c, g, [rs[0]])
  {
  }

  lemma HomeKept(c: Home, s: State, x: Move, g: AgentId)
    requires Enabled(c, s, x) && g in s.agents && AtHome(c, g, s.agents[g])
    ensures g in Do(c, s, x).agents && AtHome(c, g, Do(c, s, x).agents[g])
  {
    var u := s.agents[g];
    if u.gathered != [] { FromTail(c, g, u.gathered); }
    if u.link != [] { FromTail(c, g, u.link); }
  }

  lemma OrderKept(c: Home, s: State, x: Move, w: WorkerId)
    requires Enabled(c, s, x) && (forall g :: g in s.agents ==> AtHome(c, g, s.agents[g])) && InOrder(c, s, w)
    requires s.holding.Some? ==> Remote(c, s.holding.value.from)
    ensures InOrder(c, Do(c, s, x), w)
  {
    match x
    case Give(v, signal) =>
      GiveGrows(c, s, v, signal, w);
      Assoc(Of(w, s.received), Outbox(c, s, w), One(w, Reply(v, signal)));
    case SchedulerTake =>
      SchedulerTakes(c, s, w);
      OfSnoc(w, s.received, s.inbound[0]);
      Assoc(Of(w, s.received), One(w, s.inbound[0]), Outbox(c, s.(inbound := s.inbound[1..]), w));
    case _ => RelayInvisible(c, s, x, w);
  }

  lemma HoldingKept(c: Home, s: State, x: Move)
    requires Enabled(c, s, x) && (s.holding.Some? ==> Remote(c, s.holding.value.from))
    requires x.PrimaryTake? ==> AtHome(c, x.agent, s.agents[x.agent])
    ensures var s' := Do(c, s, x); s'.holding.Some? ==> Remote(c, s'.holding.value.from)
    ensures Do(c, s, x).given.Keys == s.given.Keys && Do(c, s, x).agents.Keys == s.agents.Keys
  {
  }

  lemma MoveKeepsInv(c: Home, s: State, x: Move, s': State)
    requires Inv(c, s) && Enabled(c, s, x) && s' == Do(c, s, x)
    ensures Inv(c, s')
  {
    HoldingKept(c, s, x);
    forall g | g in s'.agents ensures AtHome(c, g, s'.agents[g]) { HomeKept(c, s, x, g); }
    forall w | w in c.agentOf ensures InOrder(c, s', w) { OrderKept(c, s, x, w); }
  }

  ghost predicate Initial(c: Home, s: State) {
    && s.given.Keys == c.agentOf.Keys && (forall w :: w in s.given ==> s.given[w] == [])
    && (forall w :: Remote(c, w) ==> c.agentOf[w] in s.agents)
    && (forall g :: g in s.agents ==> s.agents[g] == Upstream([], None, []))
    && s.holding == None && s.inbound == [] && s.received == []
  }

  /** The way back refines one FIFO per worker: in every run, the answers of each worker that the
      scheduler has received and those still on their way are together exactly the answers the
      worker gave, in order. */
  lemma {:induction false} AnswersInOrder(c: Home, s: State, moves: seq<Move>, s': State)
    requires Inv(c, s) && Run(c, s, moves, s')
    ensures Inv(c, s') && forall w :: w in c.agentOf ==> w in s'.given && Of(w, s'.received) + Outbox(c, s', w) == s'.given[w]
    decreases |moves|
  {
    if moves == [] {
      assert forall w :: w in c.agentOf ==> InOrder(c, s', w);
    } else {
      var next := Do(c, s, moves[0]);
      MoveKeepsInv(c, s, moves[0], next);
      AnswersInOrder(c, next, moves[1..], s');
    }
  }

  lemma InitialInv(c: Home, s: State)
    requires Initial(c, s)
    ensures Inv(c, s)
  {
    forall w | w in c.agentOf ensures InOrder(c, s, w) {
    }
  }
}
