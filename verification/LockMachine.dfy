/** The access-control word under any number of threads and any interleaving of their accesses. */
module LockMachine {
  import opened Signals
  import opened AccessWord

  datatype Busy = Busy(op: Op, pc: Pc)

  /** A cell with the operations in progress; a thread without an entry is between operations. */
  datatype System = System(cell: Cell, busy: map<ThreadId, Busy>)

  datatype Move = Start(t: ThreadId, op: Op) | Advance(t: ThreadId)

  predicate Enabled(s: System, m: Move) {
    match m
    case Start(t, op) =>
      && t !in s.busy
      && (op == UnlockRead ==> t in s.cell.readers)
      && (op == Send || op == DropWrite ==> s.cell.writer == Some(t))
    case Advance(t) => t in s.busy
  }

  function Do(s: System, m: Move): System
    requires Enabled(s, m)
  {
    match m
    case Start(t, op) => s.(busy := s.busy[t := Busy(op, Begin)])
    case Advance(t) =>
      match Atomic(s.cell, t, s.busy[t].op, s.busy[t].pc)
      case Continue(cell, pc) => System(cell, s.busy[t := Busy(s.busy[t].op, pc)])
      case Complete(cell) => System(cell, s.busy - {t})
      case Panic(_) => s.(busy := s.busy - {t})
  }

  ghost predicate Inv(s: System) {
    && CellOk(s.cell)
    && forall t :: t in s.busy ==> OpOk(s.cell, t, s.busy[t].op, s.busy[t].pc)
  }

  lemma MoveKeepsInv(s: System, m: Move)
    requires Inv(s) && Enabled(s, m)
    ensures Inv(Do(s, m))
  {
    match m
    case Start(t, op) =>
    case Advance(t) => AtomicKeeps(s.cell, t, s.busy[t].op, s.busy[t].pc);
  }

  ghost predicate Run(s: System, moves: seq<Move>, s': System)
    decreases |moves|
  {
    if moves == [] then s == s'
    else Enabled(s, moves[0]) && Run(Do(s, moves[0]), moves[1..], s')
  }

  /** Lock word invariant: whatever the threads do and however their accesses interleave,
      the word is 65535 exactly when the write lock is held, with no read guard beside it,
      and otherwise it is the number of read guards, which stays below 65535. */
  lemma {:induction false} LockWordInvariant(s: System, moves: seq<Move>, s': System)
    requires Inv(s) && Run(s, moves, s')
    ensures Inv(s')
    ensures s'.cell.word == MAX <==> s'.cell.writer.Some?
    ensures s'.cell.word == MAX ==> s'.cell.readers == multiset{}
    ensures s'.cell.word != MAX ==> s'.cell.word == |s'.cell.readers| <= MAX - 1
    decreases |moves|
  {
    if moves != [] {
      MoveKeepsInv(s, moves[0]);
      LockWordInvariant(Do(s, moves[0]), moves[1..], s');
    }
  }

  ghost predicate Panics(s: System, t: ThreadId)
    requires t in s.busy
  {
    Atomic(s.cell, t, s.busy[t].op, s.busy[t].pc).Panic?
  }

  /** Which assertions can fire, for every reachable situation, in terms of the guards held:
      releasing a read guard and unlocking a write guard never panic; taking a read guard
      panics exactly against a writer or the 65534th reader (and only when the word is loaded
      or a compare-exchange lost); taking a write guard exactly against any guard; dropping an
      unsent write guard always; the drop check after `send` exactly when somebody else got in. */
  lemma WhichAssertionsFire(s: System, t: ThreadId)
    requires Inv(s) && t in s.busy
    ensures s.busy[t].op == UnlockRead ==> !Panics(s, t)
    ensures s.busy[t].op == Send && s.busy[t].pc.Begin? ==> !Panics(s, t)
    ensures s.busy[t].op == DropWrite ==> Panics(s, t)
    ensures s.busy[t].op == LockWrite ==>
              (Panics(s, t) <==> s.cell.writer.Some? || |s.cell.readers| > 0)
    ensures s.busy[t].op == LockRead ==>
              (Panics(s, t) <==> s.cell.writer.Some? || |s.cell.readers| == MAX - 1)
    ensures s.busy[t].op == Send && s.busy[t].pc.Unlocked? ==>
              (Panics(s, t) <==> s.cell.writer.Some? || |s.cell.readers| > 0)
  {
    if s.busy[t].op == UnlockRead { NonEmpty(s.cell.readers, t); }
  }

  /** Without the task chain the drop check is not safe: a reader that enters between the
      unlock and the check makes a correctly sent write guard panic. */
  lemma SentGuardCanPanic()
    ensures var moves := [Start(1, LockWrite), Advance(1), Start(1, Send), Advance(1),
                          Start(2, LockRead), Advance(2), Advance(2)];
            exists s' :: Run(System(Fresh, map[]), moves, s') && 1 in s'.busy
                         && s'.busy[1].op == Send && Panics(s', 1)
  {
    var s0 := System(Fresh, map[]);
    var s1 := Do(s0, Start(1, LockWrite));
    var s2 := Do(s1, Advance(1));
    var s3 := Do(s2, Start(1, Send));
    var s4 := Do(s3, Advance(1));
    var s5 := Do(s4, Start(2, LockRead));
    var s6 := Do(s5, Advance(2));
    var s7 := Do(s6, Advance(2));
    assert Run(s7, [], s7);
    assert Run(s6, [Advance(2)], s7);
    assert Run(s5, [Advance(2), Advance(2)], s7);
    assert Run(s4, [Start(2, LockRead), Advance(2), Advance(2)], s7);
    assert Run(s3, [Advance(1), Start(2, LockRead), Advance(2), Advance(2)], s7);
    assert Run(s2, [Start(1, Send), Advance(1), Start(2, LockRead), Advance(2), Advance(2)], s7);
    assert Run(s1, [Advance(1), Start(1, Send), Advance(1), Start(2, LockRead), Advance(2), Advance(2)], s7);
  }
}
