/** Flush requests of one hardware sensor on their way between the client threads, the event thread and
    the data thread, as a step system in which every step is one locked section of the code. */
module FlushProtocol {
  import opened Queues

  /** A request for `handle`; the ghostly id tells requests apart. */
  datatype Request = Request(handle: nat, id: nat)
  datatype Stamped = Stamped(request: Request, stamp: int)

  datatype Event = Data(timestamp: int) | Complete(flush: Stamped)

  /** A thread inside ProcessFlushData: it has taken a request off `flush_requested`. */
  datatype Handler = Free | Holding(flush: Stamped)

  datatype Slot = Empty | Flush(flush: Stamped)

  /** The data thread within one sample.  `live` remembers whether the entry it has looked at is still
      the oldest on the stack. */
  datatype Reader =
    | Waiting
    | Begun(timestamp: int)
    | Peeked(timestamp: int, slot: Slot, live: bool)
    | Attached(timestamp: int, slot: Slot)
    | Written(timestamp: int, slot: Slot)

  datatype State = State(
    own: nat,
    requested: seq<Request>,
    handlers: seq<Handler>,
    stack: seq<Stamped>,
    processing: int,
    reader: Reader,
    pipe: seq<Event>,
    forwarded: seq<Stamped>,   // completions handed to the sensors that depend on this one
    enqueued: seq<Request>,    // history: everything ever accepted into flush_requested
    unwritten: seq<Stamped>,   // history: completions that the pipe did not take
    refused: seq<Stamped>,     // history: dropped because the stack was full
    reset: seq<Stamped>,       // history: dropped when the sensor was powered on
    mislaid: seq<Stamped>)     // history: removed in place of an entry that was no longer there

  datatype Step =
    | Ask(handle: nat)                 // FlushData: put the request in the queue
    | Take(thread: nat, stamp: int)    // ProcessFlushData: destructive read of the queue
    | Place(thread: nat, writes: bool) // ... under the sample mutex: stack it, or complete it at once
    | BeginSample(timestamp: int)      // the data thread announces the sample
    | Peek                             // ... looks at the oldest stacked flush
    | Remove                           // ... removes the oldest stacked flush, if it is due
    | WriteSample(passes: bool)        // ... writes the sample, unless it is filtered out
    | WriteFlush(writes: bool)         // ... completes the attached flush, if the pipe takes it
    | PowerOn                          // Enable from unused to used: the stack is reset

  function Initial(own: nat, threads: nat): State {
    State(own, [], seq(threads, _ => Free), [], 0, Waiting, [], [], [], [], [], [], [])
  }

  /** Completing a flush: to the pipe if it is this sensor's own, else on to the dependents.  A write that
      fails is only logged. */
  function Finish(s: State, f: Stamped, writes: bool): State {
    if f.request.handle != s.own then s.(forwarded := s.forwarded + [f])
    else if writes then s.(pipe := s.pipe + [Complete(f)])
    else s.(unwritten := s.unwritten + [f])
  }

  function Next(s: State, step: Step): State {
    match step
    case Ask(h) =>
      if |s.requested| >= FLUSH_REQUESTED_MAX then s
      else
        var r := Request(h, |s.enqueued|);
        s.(requested := Accepted(s.requested, FLUSH_REQUESTED_MAX, r), enqueued := s.enqueued + [r])
    case Take(t, stamp) =>
      if t >= |s.handlers| || s.handlers[t].Holding? || s.requested == [] then s
      else s.(requested := Rest(s.requested), handlers := s.handlers[t := Holding(Stamped(s.requested[0], stamp))])
    case Place(t, writes) =>
      if t >= |s.handlers| || s.handlers[t].Free? then s
      else
        var f := s.handlers[t].flush;
        var s1 := s.(handlers := s.handlers[t := Free]);
        if f.stamp > s.processing then
          if |s.stack| < FLUSH_STACK_MAX then s1.(stack := Accepted(s.stack, FLUSH_STACK_MAX, f))
          else s1.(refused := s.refused + [f])
        else Finish(s1, f, writes)
    case BeginSample(ts) =>
      if !s.reader.Waiting? then s else s.(processing := ts, reader := Begun(ts))
    case Peek =>
      if !s.reader.Begun? then s
      else
        var ts := s.reader.timestamp;
        var due := s.stack != [] && s.stack[0].stamp <= ts;
        s.(reader := Peeked(ts, if due then Flush(s.stack[0]) else Empty, true))
    case Remove =>
      if !s.reader.Peeked? then s
      else
        var s1 := s.(reader := Attached(s.reader.timestamp, s.reader.slot));
        if s.reader.slot.Empty? then s1
        else if s.reader.live || s.stack == [] then s1.(stack := Rest(s.stack))
        else s1.(stack := Rest(s.stack), mislaid := s.mislaid + [s.stack[0]])
    case WriteSample(passes) =>
      if !s.reader.Attached? then s
      else
        var s1 := s.(reader := Written(s.reader.timestamp, s.reader.slot));
        if passes then s1.(pipe := s.pipe + [Data(s.reader.timestamp)]) else s1
    case WriteFlush(writes) =>
      if !s.reader.Written? then s
      else
        var s1 := s.(reader := Waiting);
        if s.reader.slot.Flush? then Finish(s1, s.reader.slot.flush, writes) else s1
    case PowerOn =>
      var s1 := s.(stack := [], reset := s.reset + Counted(s));
      if s.reader.Peeked? then s1.(reader := s.reader.(live := false)) else s1
  }

  function Run(s: State, steps: seq<Step>): State
    decreases |steps|
  {
    if steps == [] then s else Run(Next(s, steps[0]), steps[1..])
  }

  // ---------------------------------------------------------------- conservation

  /** The stacked flushes that the data thread has not already made its own. */
  function Counted(s: State): seq<Stamped> {
    if s.reader.Peeked? && s.reader.slot.Flush? && s.reader.live then Rest(s.stack) else s.stack
  }

  /** The flush attached to the sample in flight. */
  function InFlight(s: State): seq<Stamped> {
    if s.reader.Peeked? || s.reader.Attached? || s.reader.Written? then
      (if s.reader.slot.Flush? then [s.reader.slot.flush] else [])
    else []
  }

  // Counting, in each place, the requests picked out by p.

  function One(r: Request, p: Request -> bool): nat {
    if p(r) then 1 else 0
  }

  function Asked(q: seq<Request>, p: Request -> bool): nat {
    if q == [] then 0 else Asked(q[..|q| - 1], p) + One(q[|q| - 1], p)
  }

  function Count(fs: seq<Stamped>, p: Request -> bool): nat {
    if fs == [] then 0 else Count(fs[..|fs| - 1], p) + One(fs[|fs| - 1].request, p)
  }

  function Held(handlers: seq<Handler>, p: Request -> bool): nat {
    if handlers == [] then 0
    else Held(handlers[1..], p) + if handlers[0].Holding? then One(handlers[0].flush.request, p) else 0
  }

  function Completed(pipe: seq<Event>, p: Request -> bool): nat {
    if pipe == [] then 0
    else
      var e := pipe[|pipe| - 1];
      Completed(pipe[..|pipe| - 1], p) + if e.Complete? then One(e.flush.request, p) else 0
  }

  /** All the places a request can be, once accepted. */
  function Everywhere(s: State, p: Request -> bool): nat {
    Asked(s.requested, p) + Held(s.handlers, p) + Count(Counted(s), p) + Count(InFlight(s), p)
    + Completed(s.pipe, p) + Count(s.forwarded, p) + Count(s.unwritten, p) + Count(s.refused, p) + Count(s.reset, p) + Count(s.mislaid, p)
  }

  ghost predicate Balanced(s: State, p: Request -> bool) {
    Asked(s.enqueued, p) == Everywhere(s, p)
  }

  /** While the data thread's look is fresh, what it saw is the oldest entry. */
  predicate LookIsFresh(s: State) {
    s.reader.Peeked? && s.reader.slot.Flush? && s.reader.live ==> s.stack != [] && s.stack[0] == s.reader.slot.flush
  }

  lemma AskedAppend(q: seq<Request>, r: Request, p: Request -> bool)
    ensures Asked(q + [r], p) == Asked(q, p) + One(r, p)
  {
    assert (q + [r])[..|q|] == q;
  }

  lemma {:induction false} AskedFirst(q: seq<Request>, p: Request -> bool)
    requires q != []
    ensures Asked(q, p) == One(q[0], p) + Asked(Rest(q), p)
    decreases |q|
  {
    var last := |q| - 1;
    if last > 0 {
      AskedFirst(q[..last], p);
      assert q[..last][1..] == q[1..][..last - 1];
    }
  }

  lemma CountAppend(fs: seq<Stamped>, f: Stamped, p: Request -> bool)
    ensures Count(fs + [f], p) == Count(fs, p) + One(f.request, p)
  {
    assert (fs + [f])[..|fs|] == fs;
  }

  lemma CountOne(f: Stamped, p: Request -> bool)
    ensures Count([f], p) == One(f.request, p) && Count([], p) == 0
  {
    CountAppend([], f, p);
    assert [] + [f] == [f];
  }

  lemma {:induction false} CountJoin(a: seq<Stamped>, b: seq<Stamped>, p: Request -> bool)
    ensures Count(a + b, p) == Count(a, p) + Count(b, p)
    decreases |b|
  {
    if b == [] {
      assert a + b == a;
    } else {
      var last := |b| - 1;
      CountJoin(a, b[..last], p);
      assert (a + b)[..|a| + last] == a + b[..last];
    }
  }

  lemma CountFirst(fs: seq<Stamped>, p: Request -> bool)
    requires fs != []
    ensures Count(fs, p) == One(fs[0].request, p) + Count(Rest(fs), p)
  {
    assert fs == [fs[0]] + fs[1..];
    CountJoin([fs[0]], fs[1..], p);
    CountOne(fs[0], p);
  }

  lemma {:induction false} HeldUpdate(handlers: seq<Handler>, t: nat, h: Handler, p: Request -> bool)
    requires t < |handlers|
    ensures Held(handlers[t := h], p) + (if handlers[t].Holding? then One(handlers[t].flush.request, p) else 0)
            == Held(handlers, p) + (if h.Holding? then One(h.flush.request, p) else 0)
  {
    if t == 0 {
      assert handlers[0 := h][1..] == handlers[1..];
    } else {
      HeldUpdate(handlers[1..], t - 1, h, p);
      assert handlers[t := h][1..] == handlers[1..][t - 1 := h];
    }
  }

  lemma CompletedAppend(pipe: seq<Event>, e: Event, p: Request -> bool)
    ensures Completed(pipe + [e], p) == Completed(pipe, p) + if e.Complete? then One(e.flush.request, p) else 0
  {
    assert (pipe + [e])[..|pipe|] == pipe;
  }

  /** Completing moves a request into the pipe or on to the dependents, or loses it. */
  lemma FinishMoves(s: State, f: Stamped, writes: bool, p: Request -> bool)
    ensures var s' := Finish(s, f, writes);
            Completed(s'.pipe, p) + Count(s'.forwarded, p) + Count(s'.unwritten, p)
            == Completed(s.pipe, p) + Count(s.forwarded, p) + Count(s.unwritten, p) + One(f.request, p)
  {
    CompletedAppend(s.pipe, Complete(f), p);
    CountAppend(s.forwarded, f, p);
    CountAppend(s.unwritten, f, p);
  }

  lemma {:induction false} QueueStepsBalance(s: State, step: Step, p: Request -> bool)
    requires Balanced(s, p) && LookIsFresh(s) && (step.Ask? || step.Take? || step.Place?)
    ensures Balanced(Next(s, step), p)
  {
    hide Asked; hide Count; hide Held; hide Completed;
    match step
    case Ask(h) =>
      AskedAppend(s.requested, Request(h, |s.enqueued|), p);
      AskedAppend(s.enqueued, Request(h, |s.enqueued|), p);
    case Take(t, stamp) =>
      if t < |s.handlers| && s.handlers[t].Free? && s.requested != [] {
        AskedFirst(s.requested, p);
        HeldUpdate(s.handlers, t, Holding(Stamped(s.requested[0], stamp)), p);
      }
    case Place(t, writes) =>
      if t < |s.handlers| && s.handlers[t].Holding? {
        PlaceBalances(s, t, writes, p);
      }
  }

  lemma {:induction false} PlaceBalances(s: State, t: nat, writes: bool, p: Request -> bool)
    requires Balanced(s, p) && LookIsFresh(s) && t < |s.handlers| && s.handlers[t].Holding?
    ensures Balanced(Next(s, Place(t, writes)), p)
  {
    hide Asked; hide Count; hide Held; hide Completed;
    var f := s.handlers[t].flush;
    var s1 := s.(handlers := s.handlers[t := Free]);
    HeldUpdate(s.handlers, t, Free, p);
    if f.stamp > s.processing && |s.stack| < FLUSH_STACK_MAX {
      var s' := Next(s, Place(t, writes));
      assert s'.stack == s.stack + [f];
      assert Counted(s') == Counted(s) + [f];
      CountAppend(Counted(s), f, p);
    } else if f.stamp > s.processing {
      CountAppend(s.refused, f, p);
    } else {
      FinishMoves(s1, f, writes, p);
    }
  }

  lemma {:induction false} ReaderStepsBalance(s: State, step: Step, p: Request -> bool)
    requires Balanced(s, p) && LookIsFresh(s) && (step.BeginSample? || step.Peek? || step.Remove? || step.WriteSample? || step.WriteFlush?)
    ensures Balanced(Next(s, step), p)
  {
    hide Asked; hide Count; hide Held; hide Completed;
    match step
    case BeginSample(ts) =>
    case Peek =>
      if s.reader.Begun? && s.stack != [] { CountFirst(s.stack, p); CountOne(s.stack[0], p); }
      NoneCounted(p);
    case Remove =>
      if s.reader.Peeked? && s.stack != [] { CountFirst(s.stack, p); CountAppend(s.mislaid, s.stack[0], p); }
    case WriteSample(passes) =>
      if s.reader.Attached? { CompletedAppend(s.pipe, Data(s.reader.timestamp), p); }
    case WriteFlush(writes) =>
      if s.reader.Written? && s.reader.slot.Flush? {
        FinishMoves(s.(reader := Waiting), s.reader.slot.flush, writes, p);
        CountOne(s.reader.slot.flush, p);
      }
      NoneCounted(p);
  }

  lemma NoneCounted(p: Request -> bool)
    ensures Count([], p) == 0
  {
  }

  lemma {:induction false} StepBalances(s: State, step: Step, p: Request -> bool)
    requires Balanced(s, p) && LookIsFresh(s)
    ensures Balanced(Next(s, step), p) && LookIsFresh(Next(s, step))
  {
    if step.Ask? || step.Take? || step.Place? {
      QueueStepsBalance(s, step, p);
    } else if step.PowerOn? {
      hide Asked; hide Count; hide Held; hide Completed;
      CountJoin(s.reset, Counted(s), p);
      NoneCounted(p);
      assert Counted(Next(s, PowerOn)) == [];
    } else {
      ReaderStepsBalance(s, step, p);
    }
    StepKeepsLook(s, step);
  }

  lemma StepKeepsLook(s: State, step: Step)
    requires LookIsFresh(s)
    ensures LookIsFresh(Next(s, step))
  {
  }

  lemma {:induction false} RunBalances(s: State, steps: seq<Step>, p: Request -> bool)
    requires Balanced(s, p) && LookIsFresh(s)
    ensures Balanced(Run(s, steps), p)
    decreases |steps|
  {
    hide Balanced;
    hide LookIsFresh;
    hide Next;
    if steps != [] {
      StepBalances(s, steps[0], p);
      RunBalances(Next(s, steps[0]), steps[1..], p);
    }
  }

  lemma {:induction false} NothingHeldAtFirst(threads: nat, p: Request -> bool)
    ensures Held(seq(threads, _ => Free), p) == 0
  {
    if threads > 0 {
      assert seq(threads, _ => Free)[1..] == seq(threads - 1, _ => Free);
      NothingHeldAtFirst(threads - 1, p);
    }
  }

  /** In every reachable state, for any choice p of requests (this sensor's own, or a single one): those
      ever accepted into the queue are as many as those waiting in it, held by a thread, stacked, attached
      to the sample in flight, completed into the pipe, handed to the dependents, not taken by the
      pipe, refused for a full stack, dropped at a power-on, and mislaid. */
  lemma {:induction false} FlushesAreConserved(own: nat, threads: nat, steps: seq<Step>, p: Request -> bool)
    ensures var s := Run(Initial(own, threads), steps); Asked(s.enqueued, p) == Everywhere(s, p)
  {
    NothingHeldAtFirst(threads, p);
    RunBalances(Initial(own, threads), steps, p);
  }

  // ---------------------------------------------------------------- at most once

  ghost predicate IdsAreIndices(s: State) {
    && (forall i {:trigger s.enqueued[i]} :: 0 <= i < |s.enqueued| ==> s.enqueued[i].id == i)
    && (forall i {:trigger s.pipe[i]} :: 0 <= i < |s.pipe| && s.pipe[i].Complete? ==> s.pipe[i].flush.request.handle == s.own)
  }

  lemma {:induction false} RunKeepsIds(s: State, steps: seq<Step>)
    requires IdsAreIndices(s)
    ensures IdsAreIndices(Run(s, steps)) && Run(s, steps).own == s.own
    decreases |steps|
  {
    if steps != [] { RunKeepsIds(Next(s, steps[0]), steps[1..]); }
  }

  /** What waits in the queue is the end of what was ever accepted. */
  predicate EndWaits(s: State) {
    |s.requested| <= |s.enqueued| && s.requested == s.enqueued[|s.enqueued| - |s.requested|..]
  }

  lemma StepKeepsEnd(s: State, step: Step)
    requires EndWaits(s)
    ensures EndWaits(Next(s, step))
  {
  }

  /** Requests leave the queue in the order in which they came: in every reachable state those waiting are the last that
      were accepted, and a thread that takes one gets the first of those. */
  lemma {:induction false} RequestsLeaveInOrder(s: State, steps: seq<Step>, t: nat, stamp: int)
    requires EndWaits(s)
    ensures var s1 := Run(s, steps); var s2 := Next(s1, Take(t, stamp));
            && EndWaits(s1)
            && (t < |s1.handlers| && s1.handlers[t].Free? && s1.requested != [] ==>
                  s2.handlers[t] == Holding(Stamped(s1.enqueued[|s1.enqueued| - |s1.requested|], stamp)) && EndWaits(s2))
    decreases |steps|
  {
    if steps == [] {
      StepKeepsEnd(s, Take(t, stamp));
    } else {
      StepKeepsEnd(s, steps[0]);
      hide Next;
      RequestsLeaveInOrder(Next(s, steps[0]), steps[1..], t, stamp);
    }
  }

  lemma {:induction false} AskedAtMostOnce(q: seq<Request>, r: Request)
    requires forall i {:trigger q[i]} :: 0 <= i < |q| ==> q[i].id == i
    ensures Asked(q, x => x == r) <= 1 && (r.id >= |q| ==> Asked(q, x => x == r) == 0)
  {
    if q != [] { AskedAtMostOnce(q[..|q| - 1], r); }
  }

  /** Each single request completes at most once, and only this sensor's own complete into its pipe. */
  lemma {:induction false} NoFlushCompletesTwice(own: nat, threads: nat, steps: seq<Step>, r: Request)
    ensures var s := Run(Initial(own, threads), steps);
            && Completed(s.pipe, x => x == r) + Count(s.forwarded, x => x == r) <= Asked(s.enqueued, x => x == r) <= 1
            && (Completed(s.pipe, x => x == r) > 0 ==> r.handle == own)
  {
    var p := (x: Request) => x == r;
    FlushesAreConserved(own, threads, steps, p);
    RunKeepsIds(Initial(own, threads), steps);
    var s := Run(Initial(own, threads), steps);
    AskedAtMostOnce(s.enqueued, r);
    OnlyOwnCompleted(s.pipe, own, r);
    assert Asked(s.enqueued, p) == Asked(s.enqueued, x => x == r);
  }

  lemma {:induction false} OnlyOwnCompleted(pipe: seq<Event>, own: nat, r: Request)
    requires forall i {:trigger pipe[i]} :: 0 <= i < |pipe| && pipe[i].Complete? ==> pipe[i].flush.request.handle == own
    ensures Completed(pipe, x => x == r) > 0 ==> r.handle == own
  {
    if pipe != [] { OnlyOwnCompleted(pipe[..|pipe| - 1], own, r); }
  }

  // ---------------------------------------------------------------- mislaid requests

  /** The data thread removes an entry after the one it looked at has been reset away. */
  predicate StaleRemoval(s: State, step: Step) {
    step.Remove? && s.reader.Peeked? && s.reader.slot.Flush? && !s.reader.live && s.stack != []
  }

  predicate NoStaleRemoval(s: State, steps: seq<Step>)
    decreases |steps|
  {
    steps == [] || (!StaleRemoval(s, steps[0]) && NoStaleRemoval(Next(s, steps[0]), steps[1..]))
  }

  /** No power-on falls between the data thread's look at the stack and its removal. */
  predicate NoPowerOnInPeek(s: State, steps: seq<Step>)
    decreases |steps|
  {
    steps == [] || (!(steps[0].PowerOn? && s.reader.Peeked?) && NoPowerOnInPeek(Next(s, steps[0]), steps[1..]))
  }

  lemma StepMislays(s: State, step: Step)
    ensures var s' := Next(s, step);
            && |s'.mislaid| >= |s.mislaid|
            && (if StaleRemoval(s, step) then |s'.mislaid| > |s.mislaid| else s'.mislaid == s.mislaid)
            && ((s.reader.Peeked? ==> s.reader.live) ==> !StaleRemoval(s, step))
            && ((s.reader.Peeked? ==> s.reader.live && !step.PowerOn?) && s'.reader.Peeked? ==> s'.reader.live)
  {
  }

  /** Requests are mislaid exactly by stale removals, and those need a power-on within the look. */
  lemma {:induction false} MislaidExactlyByStaleRemovals(s: State, steps: seq<Step>)
    ensures |Run(s, steps).mislaid| >= |s.mislaid|
    ensures Run(s, steps).mislaid == s.mislaid <==> NoStaleRemoval(s, steps)
    ensures NoPowerOnInPeek(s, steps) && (s.reader.Peeked? ==> s.reader.live) ==> NoStaleRemoval(s, steps)
    decreases |steps|
  {
    if steps != [] {
      StepMislays(s, steps[0]);
      hide Next, StaleRemoval;
      MislaidExactlyByStaleRemovals(Next(s, steps[0]), steps[1..]);
    }
  }

  /** Such a power-on can lose a request: the one stacked after it is removed in place of the one that
      the reset had already taken away. */
  lemma {:induction false} PowerOnCanMislay(h: nat)
    ensures var seen := Run(Initial(h, 1), [Ask(h), Take(0, 5), Place(0, true), BeginSample(7), Peek]);
            var s := Run(seen, [PowerOn, Ask(h), Take(0, 9), Place(0, true), Remove]);
            s.mislaid == [Stamped(Request(h, 1), 9)] && s.stack == [] && s.requested == []
  {
    var first := Stamped(Request(h, 0), 5);
    var second := Stamped(Request(h, 1), 9);
    RunFive(Initial(h, 1), Ask(h), Take(0, 5), Place(0, true), BeginSample(7), Peek);
    var seen := Run(Initial(h, 1), [Ask(h), Take(0, 5), Place(0, true), BeginSample(7), Peek]);
    assert seen == State(h, [], [Free], [first], 7, Peeked(7, Flush(first), true), [], [], [first.request], [], [], [], []);
    RunFive(seen, PowerOn, Ask(h), Take(0, 9), Place(0, true), Remove);
    AfterPowerOn(h, first, second);
  }

  lemma AfterPowerOn(h: nat, first: Stamped, second: Stamped)
    requires first == Stamped(Request(h, 0), 5) && second == Stamped(Request(h, 1), 9)
    ensures var seen := State(h, [], [Free], [first], 7, Peeked(7, Flush(first), true), [], [], [first.request], [], [], [], []);
            var s := Next(Next(Next(Next(Next(seen, PowerOn), Ask(h)), Take(0, 9)), Place(0, true)), Remove);
            s.mislaid == [second] && s.stack == [] && s.requested == []
  {
    var seen := State(h, [], [Free], [first], 7, Peeked(7, Flush(first), true), [], [], [first.request], [], [], [], []);
    var s1 := Next(seen, PowerOn);
    assert s1 == seen.(stack := [], reader := Peeked(7, Flush(first), false)) by { assert Counted(seen) == []; }
    var s2 := Next(s1, Ask(h));
    assert s2.requested == [second.request];
    var s3 := Next(s2, Take(0, 9));
    assert s3.handlers == [Holding(second)] && s3.requested == [];
    var s4 := Next(s3, Place(0, true));
    assert s4.stack == [second];
    assert [second][1..] == [];
  }

  lemma RunFive(s: State, a: Step, b: Step, c: Step, d: Step, e: Step)
    ensures Run(s, [a, b, c, d, e]) == Next(Next(Next(Next(Next(s, a), b), c), d), e)
  {
    hide Next;
    RunOne(s, a, [b, c, d, e]);
    RunOne(Next(s, a), b, [c, d, e]);
    RunOne(Next(Next(s, a), b), c, [d, e]);
    RunOne(Next(Next(Next(s, a), b), c), d, [e]);
    RunOne(Next(Next(Next(Next(s, a), b), c), d), e, []);
    hide Run;
    assert [a] + [b, c, d, e] == [a, b, c, d, e] && [b] + [c, d, e] == [b, c, d, e];
    assert [c] + [d, e] == [c, d, e] && [d] + [e] == [d, e] && [e] + [] == [e];
  }

  lemma RunOne(s: State, a: Step, rest: seq<Step>)
    ensures Run(s, [a] + rest) == Run(Next(s, a), rest) && Run(s, []) == s
    ensures Run(Next(s, a), []) == Next(s, a)
  {
    assert ([a] + rest)[1..] == rest;
  }

  // ---------------------------------------------------------------- ordering

  /** Sample timestamps never go back. */
  predicate SamplesAdvance(s: State, steps: seq<Step>)
    decreases |steps|
  {
    steps == [] || ((steps[0].BeginSample? && s.reader.Waiting? ==> s.processing <= steps[0].timestamp)
                    && SamplesAdvance(Next(s, steps[0]), steps[1..]))
  }

  function Moment(e: Event): int {
    match e case Data(ts) => ts case Complete(f) => f.stamp
  }

  /** Nothing in the pipe is later than the sample being processed, the data thread works on that
      sample, and no sample follows the completion of a flush stamped later. */
  ghost predicate Ordered(s: State) {
    && (forall i {:trigger s.pipe[i]} :: 0 <= i < |s.pipe| ==> Moment(s.pipe[i]) <= s.processing)
    && (!s.reader.Waiting? ==> s.reader.timestamp == s.processing)
    && (forall f :: f in InFlight(s) ==> f.stamp <= s.processing)
    && (forall i, j {:trigger s.pipe[i], s.pipe[j]} :: 0 <= i < j < |s.pipe| && s.pipe[i].Complete? && s.pipe[j].Data? ==>
          s.pipe[i].flush.stamp <= s.pipe[j].timestamp)
  }

  lemma {:induction false} StepKeepsOrder(s: State, step: Step)
    requires Ordered(s)
    requires step.BeginSample? && s.reader.Waiting? ==> s.processing <= step.timestamp
    ensures Ordered(Next(s, step))
  {
    hide Finish;
    match step
    case Place(t, writes) =>
      if t < |s.handlers| && s.handlers[t].Holding? && s.handlers[t].flush.stamp <= s.processing {
        FinishKeepsOrder(s.(handlers := s.handlers[t := Free]), s.handlers[t].flush, writes);
      }
    case WriteFlush(writes) =>
      if s.reader.Written? && s.reader.slot.Flush? {
        assert s.reader.slot.flush in InFlight(s);
        FinishKeepsOrder(s.(reader := Waiting), s.reader.slot.flush, writes);
      }
    case _ =>
  }

  lemma FinishKeepsOrder(s: State, f: Stamped, writes: bool)
    requires Ordered(s) && f.stamp <= s.processing
    ensures Ordered(Finish(s, f, writes))
  {
  }

  /** Under every interleaving: once a flush stamped T is complete, no sample older than T is written. */
  lemma {:induction false} NoOlderSampleAfterFlush(own: nat, threads: nat, steps: seq<Step>, i: nat, j: nat)
    requires SamplesAdvance(Initial(own, threads), steps)
    ensures var pipe := Run(Initial(own, threads), steps).pipe;
            i < j < |pipe| && pipe[i].Complete? && pipe[j].Data? ==> pipe[i].flush.stamp <= pipe[j].timestamp
  {
    RunKeepsOrder(Initial(own, threads), steps);
  }

  lemma {:induction false} RunKeepsOrder(s: State, steps: seq<Step>)
    requires Ordered(s) && SamplesAdvance(s, steps)
    ensures Ordered(Run(s, steps))
    decreases |steps|
  {
    hide Ordered;
    hide Next;
    if steps != [] {
      StepKeepsOrder(s, steps[0]);
      RunKeepsOrder(Next(s, steps[0]), steps[1..]);
    }
  }

  // ---------------------------------------------------------------- what becomes of a flush

  /** Completed into the pipe, lost to it, or handed on to the sensor that asked. */
  predicate Finished(s: State, f: Stamped) {
    if f.request.handle != s.own then f in s.forwarded else Complete(f) in s.pipe || f in s.unwritten
  }

  /** What a thread does with the flush it has taken: a flush stamped later than the sample in processing is stacked while
      there is room and refused when there is none; any other is finished at once, into the pipe only if it is the
      sensor's own. */
  lemma PlaceExactly(s: State, t: nat, writes: bool)
    requires t < |s.handlers| && s.handlers[t].Holding?
    ensures var r, f := Next(s, Place(t, writes)), s.handlers[t].flush;
            var later, own := f.stamp > s.processing, f.request.handle == s.own;
            && r.stack == s.stack + (if later && |s.stack| < 300 then [f] else [])
            && r.refused == s.refused + (if later && |s.stack| >= 300 then [f] else [])
            && r.pipe == s.pipe + (if !later && own && writes then [Complete(f)] else [])
            && r.unwritten == s.unwritten + (if !later && own && !writes then [f] else [])
            && r.forwarded == s.forwarded + (if !later && !own then [f] else [])
  {
  }

  /** A sample that passes the decimation goes to the pipe, ahead of the flush attached to it; another does not. */
  lemma SampleExactly(s: State, passes: bool, writes: bool)
    requires s.reader.Attached?
    ensures var s1 := Next(s, WriteSample(passes)); var s2 := Next(s1, WriteFlush(writes));
            && s1.pipe == s.pipe + (if passes then [Data(s.reader.timestamp)] else [])
            && s2.reader.Waiting?
            && s2.pipe == s1.pipe + if s.reader.slot.Flush? && s.reader.slot.flush.request.handle == s.own && writes then
                                      [Complete(s.reader.slot.flush)] else []
  {
  }

  /** The oldest stacked flush f while the data thread is at work on a sample. */
  ghost predicate OnItsWay(s: State, f: Stamped, time: int) {
    var due := f.stamp <= time;
    var slot := if due then Flush(f) else Empty;
    match s.reader
    case Waiting => if due then Finished(s, f) else s.stack != [] && s.stack[0] == f
    case Begun(ts) => ts == time && s.stack != [] && s.stack[0] == f
    case Peeked(ts, found, live) => ts == time && live && found == slot && s.stack != [] && s.stack[0] == f
    case Attached(ts, found) => ts == time && found == slot && (!due ==> s.stack != [] && s.stack[0] == f)
    case Written(ts, found) => ts == time && found == slot && (!due ==> s.stack != [] && s.stack[0] == f)
  }

  predicate WithinSample(step: Step) {
    !step.PowerOn? && !step.BeginSample?
  }

  lemma StepOnItsWay(s: State, f: Stamped, time: int, step: Step)
    requires OnItsWay(s, f, time) && WithinSample(step)
    ensures OnItsWay(Next(s, step), f, time)
  {
    match step
    case Place(t, writes) => if t < |s.handlers| && s.handlers[t].Holding? { PlaceExactly(s, t, writes); }
    case WriteFlush(writes) =>
    case _ =>
  }

  lemma {:induction false} RunOnItsWay(s: State, f: Stamped, time: int, steps: seq<Step>)
    requires OnItsWay(s, f, time) && forall step <- steps :: WithinSample(step)
    ensures OnItsWay(Run(s, steps), f, time)
    decreases |steps|
  {
    hide OnItsWay;
    if steps != [] {
      StepOnItsWay(s, f, time, steps[0]);
      RunOnItsWay(Next(s, steps[0]), f, time, steps[1..]);
    }
  }

  /** Whatever the other threads do while the data thread works on a sample, short of powering the sensor on: once the
      data thread is done with the sample, the flush that was the oldest on the stack has been finished with it
      if it is due, and is still the oldest on the stack if it is not. */
  lemma DueFlushGoesWithSample(s: State, steps: seq<Step>)
    requires s.reader.Begun? && s.stack != [] && (forall step <- steps :: WithinSample(step)) && Run(s, steps).reader.Waiting?
    ensures var f, s' := s.stack[0], Run(s, steps);
            if f.stamp <= s.reader.timestamp then Finished(s', f) else s'.stack != [] && s'.stack[0] == f
  {
    RunOnItsWay(s, s.stack[0], s.reader.timestamp, steps);
  }
}
