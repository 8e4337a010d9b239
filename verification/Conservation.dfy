/** Outstanding work: while the scheduler starts and steps activities, every activity has at
    most one request somewhere between the scheduler, its worker and back. */
module Conservation {
  import opened Signals
  import opened Graphs
  import opened Lanes
  import opened Protocol
  import opened Invariants
  import opened Preservation
  import opened ExecutionOrder

  /** Answers that tell of id among xs. */
  function AnswersOf(xs: seq<Sig>, id: ActivityId): nat {
    if xs == [] then 0
    else AnswersOf(xs[..|xs| - 1], id)
         + var a := xs[|xs| - 1]; if (a.Ready? || a.ActivityFailed?) && a.id == id then 1 else 0
  }

  /** Requests queued at the worker, plus the call in progress, plus answers queued at the scheduler. */
  function Outstanding(l: Lane, id: ActivityId): nat
    requires l.Valid()
  {
    |Of(l.Inbox(), id)| + (if l.Busy() then |Mine(l.Current(), id)| else 0) + AnswersOf(l.Outbox(), id)
  }

  lemma {:induction false} AnswersMatch(reqs: seq<Sig>, answers: seq<Sig>, agent: AgentId, id: ActivityId)
    requires |reqs| == |answers|
    requires forall k :: 0 <= k < |reqs| ==> Matches(reqs[k], answers[k], agent)
    ensures |Of(reqs, id)| == AnswersOf(answers, id)
    decreases |reqs|
  {
    if reqs != [] {
      var k := |reqs| - 1;
      assert Matches(reqs[k], answers[k], agent);
      AnswersMatch(reqs[..k], answers[..k], agent, id);
    }
  }

  lemma AnsweredPart(c: Config, w: WorkerId, l: Lane, id: ActivityId)
    requires LaneOk(c, w, l)
    ensures |Of(l.sent[l.received..|l.answers|], id)| == AnswersOf(l.Outbox(), id)
  {
    var answered := l.sent[l.received..|l.answers|];
    forall k | 0 <= k < |answered| ensures Matches(answered[k], l.Outbox()[k], c.agentOf[w]) {
      assert Matches(l.sent[l.received + k], l.answers[l.received + k], c.agentOf[w]);
    }
    AnswersMatch(answered, l.Outbox(), c.agentOf[w], id);
  }

  lemma UnansweredPart(l: Lane, id: ActivityId)
    requires l.Valid()
    ensures |Of(l.sent[|l.answers|..], id)|
         == |Of(l.Inbox(), id)| + if l.Busy() then |Mine(l.Current(), id)| else 0
  {
    if l.Busy() {
      assert l.sent[|l.answers|..] == [l.Current()] + l.Inbox();
      OfConcat([l.Current()], l.Inbox(), id);
      OfSnoc([], l.Current(), id);
      assert [] + [l.Current()] == [l.Current()];
    }
  }

  lemma OpenSplit(xs: seq<Sig>, i: nat, j: nat, id: ActivityId)
    requires i <= j <= |xs|
    ensures Of(xs[i..], id) == Of(xs[i..j], id) + Of(xs[j..], id)
  {
    OfConcat(xs[i..j], xs[j..], id);
    assert xs[i..] == xs[i..j] + xs[j..];
  }

  lemma OutstandingIsOpen(c: Config, w: WorkerId, l: Lane, id: ActivityId)
    requires LaneOk(c, w, l)
    ensures Outstanding(l, id) == |l.Open(id)|
  {
    AnsweredPart(c, w, l, id);
    UnansweredPart(l, id);
    OpenSplit(l.sent, l.received, |l.answers|, id);
  }

  /** Conservation: queued requests, running calls and queued answers of an activity add up to
      one while it is triggered and not ready, else to none; startup obeys the same law. */
  lemma OneOutstanding(c: Config, s: State, id: ActivityId)
    requires Valid(c) && Reachable(c, s) && id in c.deps
    ensures Known(c, s, id) && id in s.flags
    ensures s.phase.Stepping? ==>
              Outstanding(s.lanes[c.owner[id]], id) == if s.flags[id].triggered && !s.flags[id].ready then 1 else 0
    ensures s.phase.Starting? ==>
              Outstanding(s.lanes[c.owner[id]], id) == if id !in s.phase.unsent && !s.flags[id].ready then 1 else 0
  {
    ReachableInv(c, s);
    AllKnown(c, s, id);
    assert LaneOk(c, c.owner[id], s.lanes[c.owner[id]]);
    OutstandingIsOpen(c, c.owner[id], s.lanes[c.owner[id]], id);
  }

  // ----- channels of bounded capacity -----

  /** The activities of the workers ws. */
  function Assigned(c: Config, ws: set<WorkerId>): set<ActivityId> {
    set id | id in c.deps && id in c.owner && c.owner[id] in ws
  }

  function Ids(xs: seq<Sig>): set<ActivityId> {
    set x | x in xs && IsRequest(x) :: x.id
  }

  lemma {:induction false} DistinctIds(xs: seq<Sig>)
    requires forall x :: x in xs ==> IsRequest(x)
    requires forall id :: id in Ids(xs) ==> |Of(xs, id)| <= 1
    ensures |Ids(xs)| == |xs|
    decreases |xs|
  {
    if xs != [] {
      var k := |xs| - 1;
      var ys, x := xs[..k], xs[k];
      assert IsRequest(x);
      if x.id in Ids(ys) { Occurs(ys, x.id); }
      assert Ids(xs) == Ids(ys) + {x.id} by { assert xs == ys + [x]; }
      DistinctIds(ys);
    }
  }

  lemma {:induction false} Occurs(xs: seq<Sig>, id: ActivityId)
    requires id in Ids(xs)
    ensures |Of(xs, id)| > 0
    decreases |xs|
  {
    var k := |xs| - 1;
    if !(IsRequest(xs[k]) && xs[k].id == id) { Occurs(xs[..k], id); }
  }

  lemma OpenIds(c: Config, s: State, w: WorkerId)
    requires Inv(c, s) && (s.phase.Starting? || s.phase.Stepping?) && w in s.lanes
    ensures var xs := s.lanes[w].sent[s.lanes[w].received..];
            && (forall x :: x in xs ==> Addressed(c, w, x))
            && (forall id :: id in Ids(xs) ==> |Of(xs, id)| <= 1)
  {
    var l := s.lanes[w];
    assert LaneOk(c, w, l) && LanePhaseOk(s.phase, w, l);
    var xs := l.sent[l.received..];
    forall x | x in xs ensures Addressed(c, w, x) && |Of(xs, x.id)| <= 1 {
      OpenIsAddressed(c, w, l, x);
      assert ActivityOk(c, s, x.id);
      OpenOnce(c, s, w, x.id);
    }
  }

  lemma OpenIsAddressed(c: Config, w: WorkerId, l: Lane, x: Sig)
    requires LaneOk(c, w, l) && OnlyRequests(l) && x in l.sent[l.received..]
    ensures Addressed(c, w, x)
  {
    var k :| l.received <= k < |l.sent| && l.sent[k] == x;
    assert IsRequest(l.sent[k]);
  }

  lemma OpenOnce(c: Config, s: State, w: WorkerId, id: ActivityId)
    requires ActivityOk(c, s, id) && (s.phase.Starting? || s.phase.Stepping?) && c.owner[id] == w
    ensures |Of(s.lanes[w].sent[s.lanes[w].received..], id)| <= 1
  {
    assert Of(s.lanes[w].sent[s.lanes[w].received..], id) == ViewOf(s.lanes[w], id).open;
  }

  lemma LoadOfIds(c: Config, w: WorkerId, xs: seq<Sig>)
    requires c.deps.Keys <= c.owner.Keys
    requires forall x :: x in xs ==> Addressed(c, w, x)
    requires forall id :: id in Ids(xs) ==> |Of(xs, id)| <= 1
    ensures |xs| <= |Assigned(c, {w})|
  {
    DistinctIds(xs);
    SubsetSize(Ids(xs), Assigned(c, {w}));
  }

  /** What one worker's channels hold is bounded by the number of its activities. */
  lemma LaneLoad(c: Config, s: State, w: WorkerId)
    requires Inv(c, s) && (s.phase.Starting? || s.phase.Stepping?) && w in s.lanes
    ensures s.lanes[w].Valid()
    ensures |s.lanes[w].Inbox()| + |s.lanes[w].Outbox()| <= |Assigned(c, {w})|
  {
    OpenIds(c, s, w);
    assert LaneOk(c, w, s.lanes[w]);
    LoadOfIds(c, w, s.lanes[w].sent[s.lanes[w].received..]);
  }

  /** Everything queued between the scheduler and the workers ws. */
  function Load(s: State, ws: seq<WorkerId>): nat
    requires forall w :: w in ws ==> w in s.lanes && s.lanes[w].Valid()
  {
    if ws == [] then 0
    else Load(s, ws[1..]) + |s.lanes[ws[0]].Inbox()| + |s.lanes[ws[0]].Outbox()|
  }

  lemma AssignedSplit(c: Config, ws: seq<WorkerId>)
    requires |ws| > 0 && ws[0] !in ws[1..]
    ensures |Assigned(c, set w | w in ws)| == |Assigned(c, {ws[0]})| + |Assigned(c, set w | w in ws[1..])|
  {
    var a, b := Assigned(c, {ws[0]}), Assigned(c, set w | w in ws[1..]);
    assert a !! b;
    assert a + b == Assigned(c, set w | w in ws) by { assert ws == [ws[0]] + ws[1..]; }
  }

  lemma {:induction false} LoadBound(c: Config, s: State, ws: seq<WorkerId>)
    requires Inv(c, s) && (s.phase.Starting? || s.phase.Stepping?)
    requires forall w :: w in ws ==> w in s.lanes && s.lanes[w].Valid()
    requires forall i, j :: 0 <= i < j < |ws| ==> ws[i] != ws[j]
    ensures Load(s, ws) <= |Assigned(c, set w | w in ws)|
    decreases |ws|
  {
    if ws != [] {
      LoadBound(c, s, ws[1..]);
      LaneLoad(c, s, ws[0]);
      AssignedSplit(c, ws);
    }
  }

  /** During startup and stepping all channels together never hold more signals than there are
      activities, so with at most 128 activities no send on a channel of 128 places blocks. */
  lemma ChannelsNeverFull(c: Config, s: State, ws: seq<WorkerId>)
    requires Valid(c) && Reachable(c, s) && (s.phase.Starting? || s.phase.Stepping?)
    requires forall w :: w in ws ==> w in s.lanes
    requires forall i, j :: 0 <= i < j < |ws| ==> ws[i] != ws[j]
    ensures forall w :: w in ws ==> s.lanes[w].Valid()
    ensures Load(s, ws) <= |c.deps|
  {
    ReachableInv(c, s);
    assert forall w :: w in ws ==> LaneOk(c, w, s.lanes[w]);
    LoadBound(c, s, ws);
    var ids := Assigned(c, set w | w in ws);
    assert ids <= c.deps.Keys;
    SubsetSize(ids, c.deps.Keys);
  }
}
