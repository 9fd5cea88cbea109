/** The circular buffer with its writer split where it gives the lock up: the sample is copied
    between two locked sections while readers run. */
module UnlockedCopy {
  import opened CircularBuffers

  /** Where the one writer stands. */
  datatype Writer = Idle | Copying(sample: Sample) | Committing(sample: Sample)

  datatype Buffer = Buffer(data: seq<Sample>, head: nat, free: nat, count: nat, writer: Writer)

  datatype Step =
    | Begin(sample: Sample)   // first locked section: make room if the buffer is full
    | Tear(garbage: Sample)   // the copy under way: the free slot holds anything
    | Copy                    // the copy done, the free pointer moved on
    | Commit                  // second locked section: count the sample
    | Take                    // a reader, under the lock
    | Sync(moment: int)       // a synchronised reader, under the lock

  function Length(b: Buffer): nat {
    |b.data|
  }

  predicate WellPlaced(b: Buffer) {
    b.head < Length(b) && b.free < Length(b) && b.count <= Length(b)
  }

  function Contents(b: Buffer): seq<Sample>
    requires WellPlaced(b)
  {
    Ring(b.data, b.head, b.count)
  }

  function Next(b: Buffer, s: Step): (r: (Buffer, seq<Answer>))
    requires WellPlaced(b)
    ensures WellPlaced(r.0) && Length(r.0) == Length(b)
  {
    var n := Length(b);
    match s
    case Begin(x) =>
      if !b.writer.Idle? then (b, [])
      else (b.(head := if b.count == n then After(b.head, n) else b.head, writer := Copying(x)), [])
    case Tear(v) =>
      if !b.writer.Copying? then (b, []) else (b.(data := b.data[b.free := v]), [])
    case Copy =>
      if !b.writer.Copying? then (b, [])
      else (b.(data := b.data[b.free := b.writer.sample], free := After(b.free, n), writer := Committing(b.writer.sample)), [])
    case Commit =>
      if !b.writer.Committing? then (b, [])
      else (b.(count := if b.count < n then b.count + 1 else b.count, writer := Idle), [])
    case Take =>
      if b.count == 0 then (b, [Nothing])
      else (b.(head := After(b.head, n), count := b.count - 1), [Found(b.data[b.head])])
    case Sync(q) =>
      if b.count == 0 || q <= 0 then (b, [Nothing])
      else
        var k := SearchFrom(Contents(b), q, 0);
        (b.(head := SlotAt(b.head, k, n), count := b.count - k), [Found(Contents(b)[k])])
  }

  /** Head, count and free pointer fit together; between copy and commit the free pointer is one ahead. */
  predicate Good(b: Buffer) {
    && WellPlaced(b)
    && match b.writer
       case Idle => b.free == SlotAt(b.head, b.count, Length(b))
       case Copying(_) => b.count < Length(b) && b.free == SlotAt(b.head, b.count, Length(b))
       case Committing(x) =>
         && b.count < Length(b)
         && b.free == SlotAt(b.head, b.count + 1, Length(b))
         && b.data[SlotAt(b.head, b.count, Length(b))] == x
  }

  /** A slot that some reader may look at. */
  predicate Readable(b: Buffer, slot: nat)
    requires WellPlaced(b)
  {
    exists i :: 0 <= i < b.count && SlotAt(b.head, i, Length(b)) == slot
  }

  /** The slot the writer is copying into, while it does. */
  predicate InCopy(b: Buffer, slot: nat) {
    b.writer.Copying? && slot == b.free
  }

  /** The same seen atomically: the sample enters at the commit, and nothing else writes. */
  function AtomicNext(c: seq<Sample>, w: Writer, n: nat, s: Step): (r: (seq<Sample>, Writer, seq<Answer>))
    requires 0 < n && |c| <= n
    ensures |r.0| <= n
  {
    match s
    case Begin(x) => (c, if w.Idle? then Copying(x) else w, [])
    case Tear(_) => (c, w, [])
    case Copy => (c, if w.Copying? then Committing(w.sample) else w, [])
    case Commit => if w.Committing? then (StepBuffer(c, n, Op.Write(w.sample)).0, Idle, []) else (c, w, [])
    case Take => if c == [] then (c, w, [Nothing]) else (c[1..], w, [Found(c[0])])
    case Sync(q) => var r := StepBuffer(c, n, Op.Sync(q)); (r.0, w, r.1)
  }

  // ---------------------------------------------------------------- single steps

  /** A write starts only on a buffer that is not full. */
  predicate RoomToBegin(b: Buffer, s: Step) {
    s.Begin? && b.writer.Idle? ==> b.count < Length(b)
  }

  lemma {:induction false} StepKeepsGood(b: Buffer, s: Step)
    requires Good(b) && RoomToBegin(b, s)
    ensures Good(Next(b, s).0)
  {
    hide SearchFrom;
    if s.Sync? && b.count > 0 && s.moment > 0 {
      var k := SearchFrom(Contents(b), s.moment, 0);
      assert k < b.count;
    }
  }

  lemma {:induction false} StepIsAtomic(b: Buffer, s: Step)
    requires Good(b) && RoomToBegin(b, s)
    ensures var (b', answers) := Next(b, s);
            AtomicNext(Contents(b), b.writer, Length(b), s) == (Contents(b'), b'.writer, answers)
  {
    hide SearchFrom;
    match s
    case Begin(x) =>
    case Tear(v) =>
      if b.writer.Copying? { FreeSlotInvisible(b, v); }
    case Copy =>
      if b.writer.Copying? { FreeSlotInvisible(b, b.writer.sample); }
    case Commit =>
      if b.writer.Committing? {
        RingGrows(b.data, b.head, b.count, b.writer.sample);
        assert b.data[SlotAt(b.head, b.count, Length(b)) := b.writer.sample] == b.data;
      }
    case Take =>
      if b.count > 0 { OneTaken(b); }
    case Sync(q) =>
      if b.count > 0 && q > 0 { RingSuffix(b.data, b.head, b.count, SearchFrom(Contents(b), q, 0)); }
  }

  lemma FreeSlotInvisible(b: Buffer, v: Sample)
    requires Good(b) && b.writer.Copying?
    ensures Ring(b.data[b.free := v], b.head, b.count) == Contents(b)
  {
  }

  lemma OneTaken(b: Buffer)
    requires Good(b) && b.count > 0
    ensures Ring(b.data, After(b.head, Length(b)), b.count - 1) == Contents(b)[1..]
  {
    if Length(b) > 1 {
      RingSuffix(b.data, b.head, b.count, 1);
    }
  }

  /** No reader touches the slot being copied. */
  lemma CopyIsNotRead(b: Buffer, slot: nat)
    requires Good(b) && InCopy(b, slot)
    ensures !Readable(b, slot)
  {
  }

  /** Exactly when the write starts on a full buffer, the slot about to be overwritten can still be read. */
  lemma FullBeginExposesTheCopy(b: Buffer, x: Sample)
    requires Good(b) && b.writer.Idle?
    ensures Readable(Next(b, Begin(x)).0, b.free) <==> b.count == Length(b)
  {
    var b' := Next(b, Begin(x)).0;
    if b.count == Length(b) {
      assert SlotAt(b'.head, b.count - 1, Length(b)) == b.free;
    }
  }

  /** A whole write that no reader comes between appends, on a full buffer too, where the oldest sample goes. */
  lemma UndisturbedWrite(b: Buffer, x: Sample)
    requires Good(b) && b.writer.Idle?
    ensures var b' := Next(Next(Next(b, Begin(x)).0, Copy).0, Commit).0;
            && Good(b') && b'.writer.Idle?
            && Contents(b') == (if b.count == Length(b) then Contents(b)[1..] else Contents(b)) + [x]
  {
    if b.count == Length(b) {
      RingTurns(b.data, b.head, x);
    } else {
      RingGrows(b.data, b.head, b.count, x);
    }
  }

  // ---------------------------------------------------------------- runs

  function Run(b: Buffer, steps: seq<Step>): (r: (Buffer, seq<Answer>))
    requires WellPlaced(b)
    ensures WellPlaced(r.0)
    decreases |steps|
  {
    if steps == [] then (b, [])
    else
      var (b1, a) := Next(b, steps[0]);
      var (b2, rest) := Run(b1, steps[1..]);
      (b2, a + rest)
  }

  function AtomicRun(c: seq<Sample>, w: Writer, n: nat, steps: seq<Step>): (r: (seq<Sample>, seq<Answer>))
    requires 0 < n && |c| <= n
    decreases |steps|
  {
    if steps == [] then (c, [])
    else
      var (c1, w1, a) := AtomicNext(c, w, n, steps[0]);
      var (c2, rest) := AtomicRun(c1, w1, n, steps[1..]);
      (c2, a + rest)
  }

  predicate RoomThroughout(b: Buffer, steps: seq<Step>)
    requires WellPlaced(b)
    decreases |steps|
  {
    steps == [] || (RoomToBegin(b, steps[0]) && RoomThroughout(Next(b, steps[0]).0, steps[1..]))
  }

  /** Over every interleaving in which no write starts on a full buffer, head, count and free pointer
      stay together, the slot under copy is never readable, and readers see exactly what they would
      see if every write happened at once at its commit. */
  lemma {:induction false} UnlockedCopyIsSafe(b: Buffer, steps: seq<Step>)
    requires Good(b) && RoomThroughout(b, steps)
    ensures var (b', answers) := Run(b, steps);
            && Good(b')
            && (Contents(b'), answers) == AtomicRun(Contents(b), b.writer, Length(b), steps)
            && (forall slot: nat :: InCopy(b', slot) ==> !Readable(b', slot))
    decreases |steps|
  {
    hide SearchFrom;
    hide Next;
    hide AtomicNext;
    if steps == [] {
      forall slot: nat | InCopy(b, slot) ensures !Readable(b, slot) {
        CopyIsNotRead(b, slot);
      }
    } else {
      StepKeepsGood(b, steps[0]);
      StepIsAtomic(b, steps[0]);
      UnlockedCopyIsSafe(Next(b, steps[0]).0, steps[1..]);
    }
  }
}
