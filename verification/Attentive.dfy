/** Surroundings that answer everything exist: where no step waits for anything, one event in
    which every worker gets a turn is enough, whatever the scheduler is waiting for. */
module Attentive {
  import opened Signals
  import opened Lanes
  import opened Bodies
  import opened Protocol
  import opened Invariants
  import opened Preservation
  import opened Reach
  import opened Surroundings

  /** Every step succeeds without touching a topic. */
  ghost predicate AtOnce(p: Program) {
    forall id, local :: p.next(id, local) == Finish(true)
  }

  function Turn(w: WorkerId): seq<Move> {
    [Answer(w, true, StepError), Take(w), Answer(w, true, StepError)]
  }

  function Turns(ws: seq<WorkerId>): seq<Move> {
    if ws == [] then [] else Turn(ws[0]) + Turns(ws[1..])
  }

  /** Nobody touches a topic. */
  ghost predicate Idle(s: State) {
    && s.shared.panicked == {}
    && (forall t :: t in s.shared.cells ==> s.shared.cells[t] == AccessWord.Fresh)
    && (forall id :: id in s.shared.threads ==> s.shared.threads[id].pc.Begin?)
    && forall w :: Running(s, w) && s.lanes[w].Current().Step? ==> s.lanes[w].Current().id in s.shared.threads
  }

  lemma MoveIdle(c: Config, s: State, x: Move)
    requires AtOnce(c.program) && LanesOk(c, s) && Idle(s) && Enabled(c, s, x)
    ensures Idle(Do(c, s, x))
  {
    var s' := Do(c, s, x);
    forall w | Running(s', w) && s'.lanes[w].Current().Step?
      ensures s'.lanes[w].Current().id in s'.shared.threads
    {
      if !(x.Take? && x.worker == w) { StillRunning(c, s, x, w); }
    }
  }

  lemma StillRunning(c: Config, s: State, x: Move, w: WorkerId)
    requires LanesOk(c, s) && Enabled(c, s, x) && !(x.Take? && x.worker == w) && Running(Do(c, s, x), w)
    ensures Running(s, w) && Do(c, s, x).lanes[w].Current() == s.lanes[w].Current()
  {
    assert LaneOk(c, w, s.lanes[w]);
  }

  lemma {:induction false} RunIdle(c: Config, s: State, moves: seq<Move>, s': State)
    requires AtOnce(c.program) && Inv(c, s) && Idle(s) && Protocol.Run(c, s, moves, s')
    ensures Idle(s')
    decreases |moves|
  {
    if moves != [] {
      MoveIdle(c, s, moves[0]);
      MoveKeepsInv(c, s, moves[0]);
      RunIdle(c, Do(c, s, moves[0]), moves[1..], s');
    }
  }

  lemma ReachableIdle(c: Config, s: State)
    requires Protocol.Valid(c) && AtOnce(c.program) && Reachable(c, s)
    ensures Idle(s)
  {
    var s0, moves :| Initial(c, s0) && Protocol.Run(c, s0, moves, s);
    InitialInv(c, s0);
    RunIdle(c, s0, moves, s);
  }

  lemma AnswersNow(c: Config, s: State, w: WorkerId)
    requires Protocol.Valid(c) && AtOnce(c.program) && Reachable(c, s) && Running(s, w)
    ensures CanAnswer(c, s, w, true)
  {
    ReachableIdle(c, s);
    LanesValid(c, s, w);
    var r := s.lanes[w].Current();
    assert r == s.lanes[w].sent[s.lanes[w].taken - 1];
    assert forall t :: t in s.shared.cells && r.Step? ==> !HoldsGuard(s.shared, r.id, t);
  }

  lemma TakesNext(c: Config, s: State, w: WorkerId)
    requires Protocol.Valid(c) && Reachable(c, s) && w in s.lanes
    requires s.lanes[w].taken == |s.lanes[w].answers| < |s.lanes[w].sent|
    ensures CanTake(s, w)
  {
    LanesValid(c, s, w);
    var l := s.lanes[w];
    if l.answers != [] {
      assert Matches(l.sent[|l.answers| - 1], l.answers[|l.answers| - 1], c.agentOf[w]);
    }
  }

  lemma {:induction false} WorkKeepsAnswer(c: Config, s: State, work: seq<Move>, w: WorkerId)
    requires HasAnswer(s, w)
    ensures HasAnswer(AfterWork(c, s, work), w)
    decreases |work|
  {
    if work != [] {
      WorkKeepsAnswer(c, if IsWorkerMove(work[0]) then Do(c, s, work[0]) else s, work[1..], w);
    }
  }

  lemma {:induction false} WorkConcat(c: Config, s: State, a: seq<Move>, b: seq<Move>)
    ensures AfterWork(c, s, a + b) == AfterWork(c, AfterWork(c, s, a), b)
    decreases |a|
  {
    if a == [] {
      assert a + b == b;
    } else {
      assert (a + b)[0] == a[0] && (a + b)[1..] == a[1..] + b;
      WorkConcat(c, if IsWorkerMove(a[0]) then Do(c, s, a[0]) else s, a[1..], b);
    }
  }

  /** The answer that is given is there to be received. */
  lemma AnswerReceivable(c: Config, s: State, w: WorkerId)
    requires Protocol.Valid(c) && AtOnce(c.program) && Reachable(c, s) && Running(s, w)
    ensures HasAnswer(Do(c, s, Answer(w, true, StepError)), w)
  {
    AnswersNow(c, s, w);
    LanesValid(c, s, w);
  }

  /** A worker that has something to answer answers when it gets a turn. */
  lemma TurnAnswers(c: Config, s: State, w: WorkerId)
    requires Protocol.Valid(c) && AtOnce(c.program) && Reachable(c, s)
    requires w in s.lanes && s.lanes[w].received < |s.lanes[w].sent|
    ensures HasAnswer(AfterWork(c, s, Turn(w)), w)
  {
    LanesValid(c, s, w);
    var x := Answer(w, true, StepError);
    var s1 := Do(c, s, x);
    assert Turn(w)[1..] == [Take(w), x] && [Take(w), x][1..] == [x];
    if HasAnswer(s, w) {
      WorkKeepsAnswer(c, s, Turn(w), w);
    } else if s.lanes[w].Busy() {
      AnswerReceivable(c, s, w);
      WorkKeepsAnswer(c, s1, [Take(w), x], w);
    } else {
      TakesAndAnswers(c, s, w);
      assert s1 == s;
    }
  }

  lemma TakesAndAnswers(c: Config, s: State, w: WorkerId)
    requires Protocol.Valid(c) && AtOnce(c.program) && Reachable(c, s)
    requires w in s.lanes && s.lanes[w].taken == |s.lanes[w].answers| < |s.lanes[w].sent|
    ensures HasAnswer(AfterWork(c, s, [Take(w), Answer(w, true, StepError)]), w)
  {
    var x := Answer(w, true, StepError);
    TakesNext(c, s, w);
    var s2 := AfterTake(c, s, w);
    Taken(c, s, w);
    TakenRuns(c, s, w);
    AnswerReceivable(c, s2, w);
    assert [Take(w), x][1..] == [x];
    assert AfterWork(c, s2, [x]) == Do(c, s2, x);
  }

  lemma TakenRuns(c: Config, s: State, w: WorkerId)
    requires CanTake(s, w)
    ensures Running(AfterTake(c, s, w), w)
  {
  }

  lemma {:induction false} TurnsAnswer(c: Config, s: State, ws: seq<WorkerId>, w: WorkerId)
    requires Protocol.Valid(c) && AtOnce(c.program) && Reachable(c, s) && w in ws
    requires w in s.lanes && s.lanes[w].received < |s.lanes[w].sent|
    ensures HasAnswer(AfterWork(c, s, Turns(ws)), w)
    decreases ws
  {
    WorkConcat(c, s, Turn(ws[0]), Turns(ws[1..]));
    var s1 := AfterWork(c, s, Turn(ws[0]));
    WorkReachable(c, s, Turn(ws[0]));
    if w == ws[0] {
      TurnAnswers(c, s, w);
      WorkKeepsAnswer(c, s1, Turns(ws[1..]), w);
    } else {
      TurnsAnswer(c, s1, ws[1..], w);
    }
  }

  lemma {:induction false} TurnsFaultless(ws: seq<WorkerId>)
    ensures Faultless(Turns(ws))
    decreases ws
  {
    if ws != [] { TurnsFaultless(ws[1..]); }
  }

  /** A turn for every worker answers whatever the scheduler may be waiting for, in every state. */
  lemma TurnsArePrompt(c: Config, ws: seq<WorkerId>)
    requires Protocol.Valid(c) && AtOnce(c.program) && forall w :: w in c.agentOf ==> w in ws
    ensures Prompt(c, Event(Turns(ws), ws, false)) && Faultless(Turns(ws))
  {
    TurnsFaultless(ws);
    forall s | Reachable(c, s) && Expecting(s) ensures Deliverable(AfterWork(c, s, Turns(ws)), ws).Some? {
      var w :| w in s.lanes && s.lanes[w].received < |s.lanes[w].sent|;
      LanesValid(c, s, w);
      TurnsAnswer(c, s, ws, w);
    }
  }
}
