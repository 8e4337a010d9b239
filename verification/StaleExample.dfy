/** A run in which a stale Ready passes for a shutdown confirmation: the cycle times out while
    its only activity is stepping. */
module StaleExample {
  import opened Signals
  import opened Lanes
  import opened Bodies
  import opened Protocol
  import opened Preservation
  import opened Reach
  import opened Shutdown

  /** One activity on one worker; its step just returns. */
  const Trivial := Program((id, l) => l, (id, l) => Finish(true), (id, l, v) => l)
  const Alone := Config(map[1 := []], map[1 := 10], map[10 := 100], 100, {}, Trivial)

  function At(p: Phase, cycle: nat, f: Flags, l: Lane, m: Shared): State {
    State(p, cycle, map[1 := f], map[10 := l], m)
  }

  const Empty := Shared(map[], map[], map[], {})
  const Entered := Enter(Trivial, Empty, 1)

  const S := Startup(1, ())
  const T := Step(1, ())
  const D := Shutdown(1, ())
  const R := Ready(1, ())

  const Off := Flags(false, false, false)
  const Up := Flags(false, true, true)
  const On := Flags(false, false, true)
  const Busy := Flags(true, false, true)

  lemma Same(s: State, p: Phase, cycle: nat, f: Flags, l: Lane, m: Shared)
    requires s.phase == p && s.cycle == cycle && s.shared == m
    requires s.flags.Keys == {1} && s.flags[1] == f && s.lanes.Keys == {10} && s.lanes[10] == l
    ensures s == At(p, cycle, f, l, m)
  {
    assert s.flags == map[1 := f];
    assert s.lanes == map[10 := l];
  }

  lemma Move1()
    ensures Reachable(Alone, At(Starting({}), 0, Off, Lane([S], 0, [], 0), Empty))
  {
    var s := At(Starting({1}), 0, Off, Lane([], 0, [], 0), Empty);
    assert Initial(Alone, s) && Run(Alone, s, [], s);
    assert {1} - {1} == {} && [] + [S] == [S];
    StartupSent(Alone, s, 1);
    Same(AfterSendStartup(Alone, s, 1), Starting({}), 0, Off, Lane([S], 0, [], 0), Empty);
  }

  lemma Move2()
    ensures Reachable(Alone, At(Starting({}), 0, Off, Lane([S], 1, [], 0), Empty))
  {
    var s := At(Starting({}), 0, Off, Lane([S], 0, [], 0), Empty);
    Move1();
    Taken(Alone, s, 10);
    Same(AfterTake(Alone, s, 10), Starting({}), 0, Off, Lane([S], 1, [], 0), Empty);
  }

  lemma Move3()
    ensures Reachable(Alone, At(Starting({}), 0, Off, Lane([S], 1, [R], 0), Empty))
  {
    var s := At(Starting({}), 0, Off, Lane([S], 1, [], 0), Empty);
    Move2();
    assert [] + [R] == [R];
    WorkerAnswered(Alone, s, 10, true, StartupError);
    Same(AfterAnswer(Alone, s, 10, true, StartupError), Starting({}), 0, Off, Lane([S], 1, [R], 0), Empty);
  }

  lemma Move4()
    ensures Reachable(Alone, At(Starting({}), 0, Up, Lane([S], 1, [R], 1), Empty))
  {
    var s := At(Starting({}), 0, Off, Lane([S], 1, [R], 0), Empty);
    Move3();
    assert !s.flags[1].ready;
    ReadyReceived(Alone, s, 10);
    Same(AfterReceiveReady(s, 10), Starting({}), 0, Up, Lane([S], 1, [R], 1), Empty);
  }

  lemma Move5()
    ensures Reachable(Alone, At(Stepping, 1, On, Lane([S], 1, [R], 1), Empty))
  {
    var s := At(Starting({}), 0, Up, Lane([S], 1, [R], 1), Empty);
    Move4();
    CycleBegun(Alone, s);
    Same(AfterBeginCycle(s), Stepping, 1, On, Lane([S], 1, [R], 1), Empty);
  }

  lemma Move6()
    ensures Reachable(Alone, At(Stepping, 1, Busy, Lane([S, T], 1, [R], 1), Empty))
  {
    var s := At(Stepping, 1, On, Lane([S], 1, [R], 1), Empty);
    Move5();
    assert [S] + [T] == [S, T];
    Triggered(Alone, s, 1);
    Same(AfterTrigger(Alone, s, 1), Stepping, 1, Busy, Lane([S, T], 1, [R], 1), Empty);
  }

  lemma StepUnanswered()
    ensures var s := At(Stepping, 1, Busy, Lane([S, T], 1, [R], 1), Empty);
            !s.flags[1].ready && Started(s.flags) == {1} && Unanswered(Alone, s) == {1}
  {
    var s := At(Stepping, 1, Busy, Lane([S, T], 1, [R], 1), Empty);
    assert Of([T], 1) == Of([], 1) + [T];
    assert s.lanes[10].sent[1..] == [T];
  }

  lemma Move7()
    ensures Reachable(Alone, At(Stopping({1}, {1}, {1}), 1, Busy, Lane([S, T], 1, [R], 1), Empty))
  {
    var s := At(Stepping, 1, Busy, Lane([S, T], 1, [R], 1), Empty);
    Move6();
    StepUnanswered();
    GivenUp(Alone, s);
    Same(AfterGiveUp(Alone, s), Stopping({1}, {1}, {1}), 1, Busy, Lane([S, T], 1, [R], 1), Empty);
  }

  lemma Move8()
    ensures Reachable(Alone, At(Stopping({}, {1}, {1}), 1, Busy, Lane([S, T, D], 1, [R], 1), Empty))
  {
    var s := At(Stopping({1}, {1}, {1}), 1, Busy, Lane([S, T], 1, [R], 1), Empty);
    Move7();
    assert {1} - {1} == {} && [S, T] + [D] == [S, T, D];
    ShutdownSent(Alone, s, 1);
    Same(AfterSendShutdown(Alone, s, 1), Stopping({}, {1}, {1}), 1, Busy, Lane([S, T, D], 1, [R], 1), Empty);
  }

  lemma Move9()
    ensures Reachable(Alone, At(Stopping({}, {1}, {1}), 1, Busy, Lane([S, T, D], 2, [R], 1), Entered))
  {
    var s := At(Stopping({}, {1}, {1}), 1, Busy, Lane([S, T, D], 1, [R], 1), Empty);
    Move8();
    Taken(Alone, s, 10);
    Same(AfterTake(Alone, s, 10), Stopping({}, {1}, {1}), 1, Busy, Lane([S, T, D], 2, [R], 1), Entered);
  }

  lemma Move10()
    ensures Reachable(Alone, At(Stopping({}, {1}, {1}), 1, Busy, Lane([S, T, D], 2, [R, R], 1), Entered))
  {
    var s := At(Stopping({}, {1}, {1}), 1, Busy, Lane([S, T, D], 2, [R], 1), Entered);
    Move9();
    assert [R] + [R] == [R, R];
    WorkerAnswered(Alone, s, 10, true, StepError);
    Same(AfterAnswer(Alone, s, 10, true, StepError), Stopping({}, {1}, {1}), 1, Busy, Lane([S, T, D], 2, [R, R], 1), Entered);
  }

  /** The Ready that answers the step is about to confirm a Shutdown its worker has not received. */
  lemma StaleConfirmation()
    ensures var s := At(Stopping({}, {1}, {1}), 1, Busy, Lane([S, T, D], 2, [R, R], 1), Entered);
            && Reachable(Alone, s) && Confirms(s, 10, 1)
            && Answered(s, 10) == T && s.lanes[10].Inbox() == [D]
  {
    Move10();
  }
}
