/** The server side of the sockets: many connections, one receive call. */
module Servers {
  import opened Signals
  import opened Codec
  import opened Connections

  type Token = nat

  type Fronts = map<Token, Front>

  datatype Incoming = From(token: Token, message: Message) | NoMessage | ConnectionError(error: IoError)

  /** Nothing can be had from any of the connections at the moment. */
  ghost predicate AllWait(fronts: Fronts) {
    forall t :: t in fronts ==> Waits(fronts[t])
  }

  /** All streams were read until they blocked. */
  function AllExhausted(fronts: Fronts): Fronts {
    map t | t in fronts :: Exhausted(fronts[t])
  }

  /** The poll has reported the connections in `ready`. */
  function Polled(fronts: Fronts, ready: set<Token>): Fronts {
    map t | t in fronts :: fronts[t].(readable := fronts[t].readable || t in ready)
  }

  lemma OneChanged(before: Fronts, after: Fronts, token: Token)
    requires before.Keys == after.Keys && token in after && forall t :: t in before && t != token ==> after[t] == before[t]
    ensures after == before[token := after[token]]
  {
  }

  lemma PolledNone(fronts: Fronts)
    ensures Polled(fronts, {}) == fronts
  {
    assert forall t :: t in fronts ==> Polled(fronts, {})[t] == fronts[t];
  }

  lemma PolledNext(fronts: Fronts, ready: set<Token>, token: Token)
    requires token in fronts
    ensures Polled(fronts, ready)[token := Polled(fronts, ready)[token].(readable := true)] == Polled(fronts, ready + {token})
  {
  }

  lemma PolledUnknown(fronts: Fronts, ready: set<Token>, token: Token)
    requires token !in fronts
    ensures Polled(fronts, ready + {token}) == Polled(fronts, ready)
  {
  }

  /** What one visit makes of a connection. */
  ghost predicate Yields(f: Front, r: Incoming, g: Front) {
    && (r.NoMessage? <==> Waits(f))
    && match r
       case NoMessage => g == Exhausted(f)
       case From(_, m) => Takes(f, m, g)
       case ConnectionError(e) => Fails(f, e, g)
  }

  /** The connections other than `token` were left alone, or read until their streams blocked without
      finding a message. */
  ghost predicate OthersPassed(before: Fronts, token: Token, after: Fronts) {
    && before.Keys == after.Keys
    && forall t :: t in before && t != token ==>
         after[t] == before[t] || (Waits(before[t]) && after[t] == Exhausted(before[t]))
  }

  /** How a receive call on the connections ends: without a message exactly if all of them wait, and
      then with all streams read until they blocked; else with what one of them has. */
  ghost predicate Served(before: Fronts, r: Incoming, after: Fronts) {
    && (r.NoMessage? <==> AllWait(before))
    && match r
       case NoMessage => after == AllExhausted(before)
       case From(token, m) =>
         token in before && OthersPassed(before, token, after) && Takes(before[token], m, after[token])
       case ConnectionError(e) =>
         exists t :: t in before && OthersPassed(before, t, after) && Fails(before[t], e, after[t])
  }

  /** The connections outside `todo` were visited without a result. */
  ghost predicate Visited(before: Fronts, todo: set<Token>, now: Fronts) {
    && todo <= before.Keys == now.Keys
    && forall t :: t in before ==>
         if t in todo then now[t] == before[t] else Waits(before[t]) && now[t] == Exhausted(before[t])
  }

  lemma VisitedNext(before: Fronts, todo: set<Token>, now: Fronts, token: Token, r: Incoming, g: Front)
    requires Visited(before, todo, now) && token in todo && Yields(before[token], r, g) && (r.From? ==> r.token == token)
    ensures if r.NoMessage? then Visited(before, todo - {token}, now[token := g]) else Served(before, r, now[token := g])
  {
    assert OthersPassed(before, token, now[token := g]);
  }

  lemma VisitedAll(before: Fronts, now: Fronts)
    requires Visited(before, {}, now)
    ensures Served(before, NoMessage, now)
    ensures forall t :: t in now ==> !now[t].readable && !now[t].buffered && Incomplete(now[t].window, now[t].pending)
  {
    assert now == AllExhausted(before);
  }

  class SocketServer {
    var connections: map<Token, Connection>

    /** All objects of the connections. */
    ghost var Repr: set<object>

    /** The connections are in order and share nothing. */
    ghost predicate Valid()
      reads this, Repr
    {
      && this !in Repr
      && (forall t :: t in connections ==> connections[t] in Repr && connections[t].recvBuffer in Repr)
      && (forall t :: t in connections ==> connections[t].Valid())
      && (forall t, u :: t in connections && u in connections && t != u ==>
            connections[t] != connections[u] && connections[t].recvBuffer != connections[u].recvBuffer)
    }

    constructor (connections: map<Token, Connection>)
      requires forall t :: t in connections ==> connections[t].Valid()
      requires forall t, u :: t in connections && u in connections && t != u ==>
                 connections[t] != connections[u] && connections[t].recvBuffer != connections[u].recvBuffer
      ensures Valid() && this.connections == connections
    {
      this.connections := connections;
      Repr := (set t | t in connections :: connections[t]) + (set t | t in connections :: connections[t].recvBuffer);
    }

    ghost function Now(): Fronts
      reads this, Repr
      requires Valid()
    {
      map t | t in connections :: connections[t].Now()
    }

    /** Nothing is waiting anywhere: no connection is marked readable, and none holds a complete
        message. Only a new readiness event can bring the next message, so no wake-up is lost. */
    ghost predicate Drained()
      reads this, Repr
      requires Valid()
    {
      forall t :: t in connections ==> connections[t].Quiet()
    }

    /** Reads one connection, if it is marked as readable, and leaves the others alone. */
    method Visit(token: Token) returns (r: Incoming)
      requires Valid() && token in connections
      modifies connections[token], connections[token].recvBuffer
      ensures connections[token].Valid()
      ensures r.From? ==> r.token == token
      ensures Yields(old(connections[token].Now()), r, connections[token].Now())
    {
      if !connections[token].IsReadable() {
        return NoMessage;
      }
      var m := connections[token].Read();
      return match m
        case Got(message) => From(token, message)
        case Nothing => NoMessage
        case Failed(error) => ConnectionError(error);
    }

    method VisitNext(ghost before: Fronts, ghost todo: set<Token>, token: Token) returns (r: Incoming)
      requires Valid() && Visited(before, todo, Now()) && token in todo
      modifies Repr
      ensures Valid() && if r.NoMessage? then Visited(before, todo - {token}, Now()) else Served(before, r, Now())
    {
      ghost var now := Now();
      r := VisitAmong(token);
      VisitedNext(before, todo, now, token, r, Now()[token]);
    }

    method VisitAmong(token: Token) returns (r: Incoming)
      requires Valid() && token in connections
      modifies Repr
      ensures Valid() && token in Now() && Now() == old(Now())[token := Now()[token]]
      ensures Yields(old(Now())[token], r, Now()[token]) && (r.From? ==> r.token == token)
    {
      r := Visit(token);
      OthersSame(token);
    }

    twostate lemma OtherSame(t: Token)
      requires t in connections && unchanged(this) && unchanged(connections[t]) && unchanged(connections[t].recvBuffer)
      requires old(connections[t].Valid())
      ensures connections[t].Valid() && connections[t].Now() == old(connections[t].Now())
    {
    }

    /** What happens to one connection does not touch the others. */
    twostate lemma OthersSame(token: Token)
      requires old(Valid()) && token in connections && connections[token].Valid() && unchanged(this)
      requires forall t :: t in connections && t != token ==>
                 unchanged(connections[t]) && unchanged(connections[t].recvBuffer)
      ensures Valid() && Now() == old(Now())[token := connections[token].Now()]
    {
      OthersValid(token);
      OneChanged(old(Now()), Now(), token);
    }

    twostate lemma OthersValid(token: Token)
      requires old(Valid()) && token in connections && connections[token].Valid() && unchanged(this)
      requires forall t :: t in connections && t != token ==>
                 unchanged(connections[t]) && unchanged(connections[t].recvBuffer)
      ensures Valid() && forall t :: t in connections && t != token ==> Now()[t] == old(Now())[t]
    {
      forall t | t in connections && t != token { OtherSame(t); }
    }

    /** Visits the readable connections, in whatever order, until one yields a message or an error. */
    method ReceiveOnReadableConnections() returns (r: Incoming)
      requires Valid()
      modifies Repr
      ensures Valid() && Served(old(Now()), r, Now()) && (r.NoMessage? ==> Drained())
    {
      ghost var before := Now();
      var todo := connections.Keys;
      r := NoMessage;
      while todo != {} && r.NoMessage?
        invariant Valid() && todo <= connections.Keys
        invariant if r.NoMessage? then Visited(before, todo, Now()) else Served(before, r, Now())
        decreases todo
      {
        var token :| token in todo;
        r := VisitNext(before, todo, token);
        todo := todo - {token};
      }
      if r.NoMessage? {
        VisitedAll(before, Now());
        assert forall t :: t in connections ==> connections[t].Now() == Now()[t];
      }
    }

    /** The poll reports readiness. Exactly the connections named are marked; events for unknown
        tokens are ignored. */
    method MarkReadable(ready: set<Token>)
      requires Valid()
      modifies Repr
      ensures Valid() && Now() == Polled(old(Now()), ready)
    {
      ghost var before := Now();
      var todo := ready;
      ghost var done := {};
      PolledNone(before);
      while todo != {}
        invariant Valid() && before.Keys == connections.Keys && Now() == Polled(before, done)
        invariant done + todo == ready
        decreases todo
      {
        var token :| token in todo;
        MarkNext(before, done, token);
        todo, done := todo - {token}, done + {token};
      }
      assert done == ready;
    }

    method MarkNext(ghost before: Fronts, ghost done: set<Token>, token: Token)
      requires Valid() && before.Keys == connections.Keys && Now() == Polled(before, done)
      modifies Repr
      ensures Valid() && Now() == Polled(before, done + {token})
    {
      if token in connections {
        Mark(token);
        PolledNext(before, done, token);
      } else {
        PolledUnknown(before, done, token);
      }
    }

    method Mark(token: Token)
      requires Valid() && token in connections
      modifies Repr
      ensures Valid() && token in Now() && Now() == old(Now())[token := old(Now())[token].(readable := true)]
    {
      connections[token].SetStreamReadable();
      OthersSame(token);
    }

    /** Reads what is readable, else waits for readiness events and looks once more. Returning
        NoMessage, it leaves nothing behind on any connection; an event is needed to go on. */
    method Receive(ready: set<Token>) returns (r: Incoming)
      requires Valid()
      modifies Repr
      ensures Valid() && (r.NoMessage? ==> Drained())
      ensures if AllWait(old(Now())) then Served(Polled(AllExhausted(old(Now())), ready), r, Now())
              else Served(old(Now()), r, Now())
    {
      r := ReceiveOnReadableConnections();
      if r.NoMessage? {
        MarkReadable(ready);
        r := ReceiveOnReadableConnections();
      }
    }
  }
}
