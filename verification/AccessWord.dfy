/** The access-control word of a shared-memory topic: a 16-bit counter changed by
    compare-exchange. Every load and every compare-exchange is one atomic step. */
module AccessWord {
  import opened Signals

  const MAX: nat := 0xFFFF

  type ThreadId = u64

  /** The word, and who holds a guard on it. A write guard dropped without `send`
      leaves the word locked, so its owner stays recorded as the writer. */
  datatype Cell = Cell(word: nat, readers: multiset<ThreadId>, writer: Option<ThreadId>)

  datatype Op = LockRead | UnlockRead | LockWrite | Send | DropWrite

  /** Where an operation stands: not begun, value last seen by its retry loop,
      or (for `send`) unlocked with the drop check still to come. */
  datatype Pc = Begin | Seen(value: nat) | Unlocked

  datatype Reason = TooManyReaders | ExclusiveAccess | InvalidState | SendMissing

  datatype Outcome =
    | Continue(cell: Cell, pc: Pc)
    | Complete(cell: Cell)
    | Panic(reason: Reason)

  const Fresh := Cell(0, multiset{}, None)

  /** The loop head of `lock_read`: the two assertions on the value just observed. */
  function CheckRead(c: Cell, seen: nat): Outcome {
    if seen == MAX - 1 then Panic(TooManyReaders)
    else if seen == MAX then Panic(ExclusiveAccess)
    else Continue(c, Seen(seen))
  }

  /** The loop head of `unlock_read`. */
  function CheckUnlock(c: Cell, seen: nat): Outcome {
    if seen == MAX then Panic(ExclusiveAccess)
    else if seen == 0 then Panic(InvalidState)
    else Continue(c, Seen(seen))
  }

  /** One atomic access of thread t inside operation op. */
  function Atomic(c: Cell, t: ThreadId, op: Op, pc: Pc): Outcome {
    match op
    case LockRead =>
      if pc.Seen? && c.word == pc.value
      then Complete(Cell(c.word + 1, c.readers + multiset{t}, c.writer))
      else CheckRead(c, c.word)
    case UnlockRead =>
      if pc.Seen? && c.word == pc.value && c.word > 0
      then Complete(Cell(c.word - 1, c.readers - multiset{t}, c.writer))
      else CheckUnlock(c, c.word)
    case LockWrite =>
      if c.word == 0 then Complete(Cell(MAX, c.readers, Some(t))) else Panic(ExclusiveAccess)
    case Send =>
      if pc.Unlocked? then
        if c.word != 0 then Panic(SendMissing) else Complete(c)
      else if c.word == MAX then Continue(Cell(0, c.readers, None), Unlocked)
      else Panic(InvalidState)
    case DropWrite =>
      if c.word != 0 then Panic(SendMissing) else Complete(c)
  }

  /** The word tells exactly which guards are held. */
  ghost predicate CellOk(c: Cell) {
    && (c.writer.Some? ==> c.word == MAX && c.readers == multiset{})
    && (c.writer.None? ==> c.word == |c.readers| < MAX)
  }

  /** What Rust's ownership guarantees about the operation a thread is inside:
      it releases only guards it holds. */
  ghost predicate OpOk(c: Cell, t: ThreadId, op: Op, pc: Pc) {
    match op
    case LockRead => pc.Begin? || (pc.Seen? && pc.value < MAX - 1)
    case UnlockRead => t in c.readers && (pc.Begin? || (pc.Seen? && 0 < pc.value < MAX))
    case LockWrite => pc.Begin?
    case Send => pc.Unlocked? || (pc.Begin? && c.writer == Some(t))
    case DropWrite => pc.Begin? && c.writer == Some(t)
  }

  lemma NonEmpty(m: multiset<ThreadId>, t: ThreadId)
    requires t in m
    ensures |m| > 0 && |m - multiset{t}| == |m| - 1
  {
    assert m == (m - multiset{t}) + multiset{t};
  }

  /** One access keeps the cell consistent, keeps the operation well-formed and never
      takes a guard from another thread. */
  lemma AtomicKeeps(c: Cell, t: ThreadId, op: Op, pc: Pc)
    requires CellOk(c) && OpOk(c, t, op, pc)
    ensures var r := Atomic(c, t, op, pc);
            && (r.Continue? ==> CellOk(r.cell) && OpOk(r.cell, t, op, r.pc))
            && (r.Complete? ==> CellOk(r.cell))
            && (!r.Panic? ==> forall u :: u != t ==>
                  r.cell.readers[u] == c.readers[u] && (r.cell.writer == Some(u) <==> c.writer == Some(u)))
  {
    if op == UnlockRead { NonEmpty(c.readers, t); }
  }
}
