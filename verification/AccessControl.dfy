/** The lock operations as code: retry loops over a word that other threads keep changing. */
module AccessControl {
  import opened Signals
  import opened AccessWord
  import opened LockMachine

  ghost predicate Reaches(s: System, s': System) {
    exists moves :: Run(s, moves, s')
  }

  lemma {:induction false} RunSnoc(s: System, moves: seq<Move>, s': System, m: Move)
    requires Run(s, moves, s') && Enabled(s', m)
    ensures Run(s, moves + [m], Do(s', m))
    decreases |moves|
  {
    if moves == [] {
      assert (moves + [m])[1..] == [];
    } else {
      RunSnoc(Do(s, moves[0]), moves[1..], s', m);
      assert (moves + [m])[1..] == moves[1..] + [m];
    }
  }

  lemma Next(s: System, s': System, m: Move)
    requires Reaches(s, s') && Inv(s') && Enabled(s', m)
    ensures Reaches(s, Do(s', m)) && Inv(Do(s', m))
  {
    var moves :| Run(s, moves, s');
    RunSnoc(s, moves, s', m);
    MoveKeepsInv(s', m);
  }

  /** What thread t owns: its guards, and where it is. */
  ghost predicate SameFor(t: ThreadId, s: System, s': System) {
    && s'.cell.readers[t] == s.cell.readers[t]
    && (s'.cell.writer == Some(t) <==> s.cell.writer == Some(t))
    && (t in s'.busy <==> t in s.busy)
    && (t in s.busy ==> s'.busy[t] == s.busy[t])
  }

  lemma OthersKeep(t: ThreadId, s: System, m: Move)
    requires Inv(s) && Enabled(s, m) && m.t != t
    ensures SameFor(t, s, Do(s, m))
  {
    if m.Advance? { AtomicKeeps(s.cell, m.t, s.busy[m.t].op, s.busy[m.t].pc); }
  }

  /** The moves of threads other than t, those not enabled left out. */
  function Others(t: ThreadId, s: System, moves: seq<Move>): System
    decreases |moves|
  {
    if moves == [] then s
    else Others(t, if Enabled(s, moves[0]) && moves[0].t != t then Do(s, moves[0]) else s, moves[1..])
  }

  /** Every run of the other threads is among them. */
  lemma {:induction false} RunOfOthers(t: ThreadId, s: System, moves: seq<Move>, s': System)
    requires Run(s, moves, s') && forall k :: 0 <= k < |moves| ==> moves[k].t != t
    ensures Others(t, s, moves) == s'
    decreases |moves|
  {
    if moves != [] {
      assert moves[0].t != t;
      assert forall k :: 0 <= k < |moves[1..]| ==> moves[1..][k] == moves[k + 1];
      RunOfOthers(t, Do(s, moves[0]), moves[1..], s');
    }
  }

  /** The atomic word. Who holds a guard and which operation each thread is inside is kept
      beside it; no operation looks at that. */
  class ReadWriteAccessControl {
    var word: nat
    var readers: multiset<ThreadId>
    var writer: Option<ThreadId>
    var busy: map<ThreadId, Busy>

    function Now(): System
      reads this
    {
      System(Cell(word, readers, writer), busy)
    }

    constructor ()
      ensures Now() == System(Fresh, map[]) && Inv(Now())
    {
      word, readers, writer, busy := 0, multiset{}, None, map[];
    }

    ghost function Advanced(t: ThreadId): System
      requires t in busy
      reads this
    {
      Do(Now(), Advance(t))
    }

    method Set(s: System)
      modifies this
      ensures Now() == s
    {
      word, readers, writer, busy := s.cell.word, s.cell.readers, s.cell.writer, s.busy;
    }

    /** Other threads access the word. */
    method Interfere(ghost start: System, t: ThreadId, moves: seq<Move>)
      requires Inv(Now()) && Reaches(start, Now())
      modifies this
      ensures Inv(Now()) && Reaches(start, Now()) && SameFor(t, old(Now()), Now())
      ensures Now() == Others(t, old(Now()), moves)
    {
      for i := 0 to |moves|
        invariant Inv(Now()) && Reaches(start, Now()) && SameFor(t, old(Now()), Now())
        invariant Others(t, Now(), moves[i..]) == Others(t, old(Now()), moves)
      {
        assert moves[i..][1..] == moves[i + 1..];
        if Enabled(Now(), moves[i]) && moves[i].t != t {
          Next(start, Now(), moves[i]);
          OthersKeep(t, Now(), moves[i]);
          Set(Do(Now(), moves[i]));
        }
      }
    }

    /** The operation begins. */
    method Enter(t: ThreadId, op: Op)
      requires Inv(Now()) && Enabled(Now(), Start(t, op))
      modifies this`busy
      ensures Inv(Now()) && Reaches(old(Now()), Now()) && busy == old(busy)[t := Busy(op, Begin)]
    {
      assert Run(Now(), [], Now());
      Next(Now(), Now(), Start(t, op));
      busy := busy[t := Busy(op, Begin)];
    }

    /** The assertions on the observed value hold. */
    method Accept(ghost start: System, t: ThreadId, op: Op)
      requires Inv(Now()) && Reaches(start, Now()) && t in busy && busy[t].op == op && busy[t].pc != Seen(word)
      requires (op.LockRead? && word < MAX - 1) || (op.UnlockRead? && 0 < word < MAX)
      modifies this`busy
      ensures Inv(Now()) && Reaches(start, Now()) && busy == old(busy)[t := Busy(op, Seen(word))]
    {
      ghost var next := Advanced(t);
      Next(start, Now(), Advance(t));
      busy := busy[t := Busy(op, Seen(word))];
      assert Now() == next;
    }

    /** An assertion on the observed value fails. */
    method Reject(ghost start: System, t: ThreadId)
      requires Inv(Now()) && Reaches(start, Now()) && t in busy && busy[t].op.LockRead? && word >= MAX - 1
      modifies this`busy
      ensures Inv(Now()) && Reaches(start, Now()) && t !in busy
    {
      ghost var next := Advanced(t);
      Next(start, Now(), Advance(t));
      busy := busy - {t};
      assert Now() == next;
    }

    method CompareExchangeUp(ghost start: System, t: ThreadId, state: nat) returns (ok: bool)
      requires Inv(Now()) && Reaches(start, Now()) && t in busy && busy[t] == Busy(AccessWord.LockRead, Seen(state))
      modifies this
      ensures Inv(Now()) && Reaches(start, Now()) && ok == (old(word) == state)
      ensures if ok then t !in busy && readers[t] == old(readers)[t] + 1 else Now() == old(Now())
    {
      ok := word == state;
      if ok {
        ghost var next := Advanced(t);
        Next(start, Now(), Advance(t));
        word, readers, busy := word + 1, readers + multiset{t}, busy - {t};
        assert Now() == next;
      }
    }

    method CompareExchangeDown(ghost start: System, t: ThreadId, state: nat) returns (ok: bool)
      requires Inv(Now()) && Reaches(start, Now()) && t in busy && busy[t] == Busy(AccessWord.UnlockRead, Seen(state))
      modifies this
      ensures Inv(Now()) && Reaches(start, Now()) && ok == (old(word) == state)
      ensures if ok then t !in busy && readers[t] == old(readers)[t] - 1 else Now() == old(Now())
    {
      ok := word == state;
      if ok {
        ghost var next := Advanced(t);
        Next(start, Now(), Advance(t));
        word, readers, busy := word - 1, readers - multiset{t}, busy - {t};
        assert Now() == next;
      }
    }

    /** Takes a read guard, or panics on finding a writer or 65534 readers. `others` is what
        other threads do before each access of the word. */
    method LockRead(t: ThreadId, others: seq<seq<Move>>) returns (panic: Option<Reason>)
      requires Inv(Now()) && t !in busy
      modifies this
      ensures Inv(Now()) && Reaches(old(Now()), Now()) && t !in busy
      ensures panic.None? ==> readers[t] == old(readers)[t] + 1
      ensures panic.Some? ==> readers[t] == old(readers)[t]
      ensures panic == None || (panic == Some(TooManyReaders) && writer.None? && |readers| == MAX - 1)
              || (panic == Some(ExclusiveAccess) && writer.Some?)
    {
      ghost var start := Now();
      Enter(t, AccessWord.LockRead);
      Interfere(start, t, Turn(others, 0));
      var state := word;
      var attempt := 1;
      while true
        invariant Inv(Now()) && Reaches(start, Now()) && t in busy && busy[t].op == AccessWord.LockRead
        invariant state == word && busy[t].pc != Seen(word) && readers[t] == old(readers)[t]
        decreases |others| - attempt
      {
        if state == MAX - 1 {
          Reject(start, t);
          return Some(TooManyReaders);
        }
        if state == MAX {
          Reject(start, t);
          return Some(ExclusiveAccess);
        }
        Accept(start, t, AccessWord.LockRead);
        Interfere(start, t, Turn(others, attempt));
        attempt := attempt + 1;
        var ok := CompareExchangeUp(start, t, state);
        if ok {
          return None;
        }
        state := word;
      }
    }

    /** Gives a read guard back. Neither assertion can fire, however the word changes meanwhile. */
    method UnlockRead(t: ThreadId, others: seq<seq<Move>>)
      requires Inv(Now()) && t !in busy && t in readers
      modifies this
      ensures Inv(Now()) && Reaches(old(Now()), Now()) && t !in busy
      ensures readers[t] == old(readers)[t] - 1
    {
      ghost var start := Now();
      Enter(t, AccessWord.UnlockRead);
      Interfere(start, t, Turn(others, 0));
      var state := word;
      var attempt := 1;
      while true
        invariant Inv(Now()) && Reaches(start, Now()) && t in busy && busy[t].op == AccessWord.UnlockRead
        invariant state == word && busy[t].pc != Seen(word) && readers[t] == old(readers)[t] > 0
        decreases |others| - attempt
      {
        NonEmpty(readers, t);
        assert state != MAX;
        assert state != 0;
        Accept(start, t, AccessWord.UnlockRead);
        Interfere(start, t, Turn(others, attempt));
        attempt := attempt + 1;
        var ok := CompareExchangeDown(start, t, state);
        if ok {
          return;
        }
        state := word;
      }
    }

    /** Takes the write guard if nobody holds a guard, and panics otherwise. */
    method LockWrite(t: ThreadId, others: seq<Move>) returns (panic: Option<Reason>)
      requires Inv(Now()) && t !in busy
      modifies this
      ensures Inv(Now()) && Reaches(old(Now()), Now()) && t !in busy && readers[t] == old(readers)[t]
      ensures panic.None? ==> writer == Some(t) && readers == multiset{}
      ensures panic.Some? ==> panic == Some(ExclusiveAccess) && (writer.Some? || readers != multiset{})
    {
      ghost var start := Now();
      Enter(t, AccessWord.LockWrite);
      Interfere(start, t, others);
      ghost var next := Advanced(t);
      Next(start, Now(), Advance(t));
      if word == 0 {
        word, writer, busy := MAX, Some(t), busy - {t};
        panic := None;
      } else {
        busy := busy - {t};
        panic := Some(ExclusiveAccess);
      }
      assert Now() == next;
    }

    /** `send` consumes the write guard: it unlocks, which cannot fail, and then the guard is
        dropped, whose check fails exactly if another thread holds a guard by then. */
    method Send(t: ThreadId, others: seq<Move>, later: seq<Move>) returns (panic: Option<Reason>)
      requires Inv(Now()) && t !in busy && writer == Some(t)
      modifies this
      ensures Inv(Now()) && Reaches(old(Now()), Now()) && t !in busy && writer != Some(t)
      ensures panic == if writer.Some? || readers != multiset{} then Some(SendMissing) else None
      ensures later == [] ==> panic == None
    {
      ghost var start := Now();
      Enter(t, AccessWord.Send);
      Interfere(start, t, others);
      assert word == MAX;
      ghost var next := Advanced(t);
      Next(start, Now(), Advance(t));
      word, writer, busy := 0, None, busy[t := Busy(AccessWord.Send, Unlocked)];
      assert Now() == next;
      Interfere(start, t, later);
      next := Advanced(t);
      Next(start, Now(), Advance(t));
      panic := if word != 0 then Some(SendMissing) else None;
      busy := busy - {t};
      assert Now() == next;
    }

    /** Dropping a write guard that was not sent always panics, and the word stays locked. */
    method DropUnsent(t: ThreadId, others: seq<Move>) returns (panic: Option<Reason>)
      requires Inv(Now()) && t !in busy && writer == Some(t)
      modifies this
      ensures Inv(Now()) && Reaches(old(Now()), Now()) && t !in busy
      ensures panic == Some(SendMissing) && writer == Some(t)
    {
      ghost var start := Now();
      Enter(t, DropWrite);
      Interfere(start, t, others);
      ghost var next := Advanced(t);
      Next(start, Now(), Advance(t));
      panic := if word != 0 then Some(SendMissing) else None;
      busy := busy - {t};
      assert Now() == next;
    }
  }

  function Turn(others: seq<seq<Move>>, i: nat): seq<Move> {
    if i < |others| then others[i] else []
  }
}
