/** The two FIFO channels between the scheduler and one worker, with their whole history. */
module Lanes {
  import opened Signals

  type Sig = Signal<()>

  /** Requests ever sent to the worker, how many it has taken, the answers it has given,
      and how many of those the scheduler has received. The queues are the parts in between. */
  datatype Lane = Lane(sent: seq<Sig>, taken: nat, answers: seq<Sig>, received: nat) {
    predicate Valid() {
      received <= |answers| <= taken <= |sent| && taken <= |answers| + 1
    }

    /** The worker is between `receive` and its answer. */
    predicate Busy() { taken == |answers| + 1 }

    function Inbox(): seq<Sig>
      requires Valid()
    { sent[taken..] }

    function Outbox(): seq<Sig>
      requires Valid()
    { answers[received..] }

    /** The request being handled. */
    function Current(): Sig
      requires Valid() && Busy()
    { sent[taken - 1] }

    function Send(x: Sig): Lane { this.(sent := sent + [x]) }

    function Take(): Lane { this.(taken := taken + 1) }

    function Answer(x: Sig): Lane { this.(answers := answers + [x]) }

    function Receive(): Lane { this.(received := received + 1) }

    // ----- one activity's view of the lane -----

    function Asked(id: ActivityId): seq<Sig> { Of(sent, id) }

    /** Requests whose answer the scheduler has not received. */
    function Open(id: ActivityId): seq<Sig>
      requires Valid()
    { Of(sent[received..], id) }

    function Begun(id: ActivityId): seq<Sig>
      requires Valid()
    { Of(sent[..taken], id) }

    /** Requests answered with Ready. */
    function Succeeded(id: ActivityId): seq<Sig>
      requires Valid()
    { OkOf(sent[..|answers|], answers, id) }
  }

  /** What one activity's part of a lane amounts to. */
  datatype View = View(asked: seq<Sig>, open: seq<Sig>, succeeded: seq<Sig>)

  function ViewOf(l: Lane, id: ActivityId): View
    requires l.Valid()
  {
    View(l.Asked(id), l.Open(id), l.Succeeded(id))
  }

  function Mine(x: Sig, id: ActivityId): seq<Sig> {
    if IsRequest(x) && x.id == id then [x] else []
  }

  /** The requests for activity id among xs, in order. */
  function Of(xs: seq<Sig>, id: ActivityId): seq<Sig> {
    if xs == [] then [] else Of(xs[..|xs| - 1], id) + Mine(xs[|xs| - 1], id)
  }

  /** The requests for id that were answered with Ready, in order. */
  function OkOf(reqs: seq<Sig>, answers: seq<Sig>, id: ActivityId): seq<Sig>
    requires |reqs| == |answers|
    decreases |reqs|
  {
    if reqs == [] then []
    else
      var k := |reqs| - 1;
      OkOf(reqs[..k], answers[..k], id) + if answers[k].Ready? then Mine(reqs[k], id) else []
  }

  function StepsIn(xs: seq<Sig>): nat {
    if xs == [] then 0 else StepsIn(xs[..|xs| - 1]) + if xs[|xs| - 1].Step? then 1 else 0
  }

  lemma OfSnoc(xs: seq<Sig>, x: Sig, id: ActivityId)
    ensures Of(xs + [x], id) == Of(xs, id) + Mine(x, id)
  {
    assert (xs + [x])[..|xs|] == xs;
  }

  lemma OfNext(xs: seq<Sig>, n: nat, id: ActivityId)
    requires n < |xs|
    ensures Of(xs[..n + 1], id) == Of(xs[..n], id) + Mine(xs[n], id)
  {
    assert xs[..n + 1] == xs[..n] + [xs[n]];
    OfSnoc(xs[..n], xs[n], id);
  }

  lemma {:induction false} OfConcat(xs: seq<Sig>, ys: seq<Sig>, id: ActivityId)
    ensures Of(xs + ys, id) == Of(xs, id) + Of(ys, id)
    decreases |ys|
  {
    if ys == [] {
      assert xs + ys == xs;
    } else {
      var k := |ys| - 1;
      assert (xs + ys)[..|xs + ys| - 1] == xs + ys[..k];
      OfConcat(xs, ys[..k], id);
    }
  }

  lemma OfSplit(xs: seq<Sig>, k: nat, id: ActivityId)
    requires k <= |xs|
    ensures Of(xs, id) == Of(xs[..k], id) + Of(xs[k..], id)
  {
    assert xs == xs[..k] + xs[k..];
    OfConcat(xs[..k], xs[k..], id);
  }

  lemma {:induction false} StepsConcat(xs: seq<Sig>, ys: seq<Sig>)
    ensures StepsIn(xs + ys) == StepsIn(xs) + StepsIn(ys)
    decreases |ys|
  {
    if ys == [] {
      assert xs + ys == xs;
    } else {
      var k := |ys| - 1;
      assert (xs + ys)[..|xs + ys| - 1] == xs + ys[..k];
      StepsConcat(xs, ys[..k]);
    }
  }

  // ----- how each channel operation changes the view -----

  lemma SendView(l: Lane, x: Sig, id: ActivityId)
    requires l.Valid()
    ensures var m := l.Send(x);
            && m.Valid()
            && m.Asked(id) == l.Asked(id) + Mine(x, id)
            && m.Open(id) == l.Open(id) + Mine(x, id)
            && m.Begun(id) == l.Begun(id)
            && m.Succeeded(id) == l.Succeeded(id)
  {
    var m := l.Send(x);
    OfSnoc(l.sent, x, id);
    OfSnoc(l.sent[l.received..], x, id);
    assert m.sent[l.received..] == l.sent[l.received..] + [x];
    assert m.sent[..l.taken] == l.sent[..l.taken];
    assert m.sent[..|l.answers|] == l.sent[..|l.answers|];
  }

  lemma ReceiveView(l: Lane, id: ActivityId)
    requires l.Valid() && l.received < |l.answers|
    ensures var m := l.Receive();
            && m.Valid()
            && l.Open(id) == Mine(l.sent[l.received], id) + m.Open(id)
            && m.Asked(id) == l.Asked(id) && m.Begun(id) == l.Begun(id) && m.Succeeded(id) == l.Succeeded(id)
  {
    var xs := l.sent[l.received..];
    OfSplit(xs, 1, id);
    assert xs[..1] == [] + [xs[0]];
    OfSnoc([], xs[0], id);
    assert xs[1..] == l.sent[l.received + 1..];
  }

  lemma TakeView(l: Lane, id: ActivityId)
    requires l.Valid() && !l.Busy() && l.taken < |l.sent|
    ensures var m := l.Take();
            && m.Valid()
            && m.Begun(id) == l.Begun(id) + Mine(l.sent[l.taken], id)
            && m.Asked(id) == l.Asked(id) && m.Open(id) == l.Open(id) && m.Succeeded(id) == l.Succeeded(id)
  {
    OfNext(l.sent, l.taken, id);
  }

  lemma AnswerView(l: Lane, x: Sig, id: ActivityId)
    requires l.Valid() && l.Busy()
    ensures var m := l.Answer(x);
            && m.Valid()
            && m.Succeeded(id) == l.Succeeded(id) + (if x.Ready? then Mine(l.Current(), id) else [])
            && m.Asked(id) == l.Asked(id) && m.Open(id) == l.Open(id) && m.Begun(id) == l.Begun(id)
  {
    var k := |l.answers|;
    var m := l.Answer(x);
    assert m.sent[..k + 1][..k] == l.sent[..k];
    assert m.answers[..k] == l.answers;
  }

  lemma OfPrefix(xs: seq<Sig>, j: nat, k: nat, id: ActivityId)
    requires j <= k <= |xs|
    ensures Of(xs[..j], id) <= Of(xs[..k], id)
    ensures StepsIn(Of(xs[..j], id)) <= StepsIn(Of(xs[..k], id))
  {
    OfSplit(xs[..k], j, id);
    assert xs[..k][..j] == xs[..j];
    StepsConcat(Of(xs[..j], id), Of(xs[..k][j..], id));
  }

  /** A worker begins requests in the order they were sent, and every request that has
      succeeded was begun. */
  lemma ViewOrder(l: Lane, id: ActivityId)
    requires l.Valid()
    ensures l.Begun(id) <= l.Asked(id)
    ensures StepsIn(l.Succeeded(id)) <= StepsIn(Of(l.sent[..|l.answers|], id))
    ensures StepsIn(Of(l.sent[..|l.answers|], id)) <= StepsIn(l.Begun(id)) <= StepsIn(l.Asked(id))
  {
    assert l.sent[..|l.sent|] == l.sent;
    OfPrefix(l.sent, l.taken, |l.sent|, id);
    OfPrefix(l.sent, |l.answers|, l.taken, id);
    OkFewer(l.sent[..|l.answers|], l.answers, id);
  }

  lemma {:induction false} OkFewer(reqs: seq<Sig>, answers: seq<Sig>, id: ActivityId)
    requires |reqs| == |answers|
    ensures StepsIn(OkOf(reqs, answers, id)) <= StepsIn(Of(reqs, id))
    decreases |reqs|
  {
    if reqs != [] {
      var k := |reqs| - 1;
      OkFewer(reqs[..k], answers[..k], id);
      StepsConcat(Of(reqs[..k], id), Mine(reqs[k], id));
      StepsConcat(OkOf(reqs[..k], answers[..k], id), if answers[k].Ready? then Mine(reqs[k], id) else []);
    }
  }

  /** While every received answer is Ready, what is asked and no longer open has succeeded. */
  lemma ConfirmedSucceeded(l: Lane, id: ActivityId)
    requires l.Valid() && forall k :: 0 <= k < l.received ==> l.answers[k].Ready?
    ensures l.Asked(id) == Of(l.sent[..l.received], id) + l.Open(id)
    ensures Of(l.sent[..l.received], id) <= l.Succeeded(id)
  {
    OfSplit(l.sent, l.received, id);
    AllOk(l.sent[..|l.answers|], l.answers, l.received, id);
    assert l.sent[..|l.answers|][..l.received] == l.sent[..l.received];
  }

  lemma {:induction false} AllOk(reqs: seq<Sig>, answers: seq<Sig>, r: nat, id: ActivityId)
    requires |reqs| == |answers| && r <= |reqs|
    requires forall k :: 0 <= k < r ==> answers[k].Ready?
    ensures Of(reqs[..r], id) <= OkOf(reqs, answers, id)
    ensures r == |reqs| ==> Of(reqs, id) == OkOf(reqs, answers, id)
    decreases |reqs|
  {
    if reqs != [] {
      var k := |reqs| - 1;
      if r == |reqs| {
        AllOk(reqs[..k], answers[..k], k, id);
        assert reqs[..r] == reqs;
      } else {
        AllOk(reqs[..k], answers[..k], r, id);
        assert reqs[..k][..r] == reqs[..r];
      }
    }
  }

  // ----- lifecycles -----

  /** Startup, n steps, and a shutdown if `ended`. */
  function Life(id: ActivityId, n: nat, ended: bool): seq<Sig>
    decreases n, ended
  {
    if ended then Life(id, n, false) + [Shutdown(id, ())]
    else if n > 0 then Life(id, n - 1, false) + [Step(id, ())]
    else [Startup(id, ())]
  }

  lemma {:induction false} LifeSteps(id: ActivityId, n: nat, ended: bool)
    ensures StepsIn(Life(id, n, ended)) == n
    decreases n, ended
  {
    if ended {
      LifeSteps(id, n, false);
      StepsConcat(Life(id, n, false), [Shutdown(id, ())]);
    } else if n > 0 {
      LifeSteps(id, n - 1, false);
      StepsConcat(Life(id, n - 1, false), [Step(id, ())]);
    }
  }

  lemma StepsPrefix(xs: seq<Sig>, ys: seq<Sig>)
    requires xs <= ys
    ensures StepsIn(xs) <= StepsIn(ys)
  {
    assert ys == xs + ys[|xs|..];
    StepsConcat(xs, ys[|xs|..]);
  }

  lemma {:induction false} LifeStarts(id: ActivityId, n: nat, ended: bool)
    ensures Startup(id, ()) in Life(id, n, ended)
    decreases n, ended
  {
    if ended { LifeStarts(id, n, false); }
    else if n > 0 { LifeStarts(id, n - 1, false); }
  }
}
