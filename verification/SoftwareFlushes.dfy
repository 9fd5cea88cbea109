/** Flush requests of one software sensor, from all the places they arrive at to all those they can end in.
    Every step is one locked section of the code, or one access to a pipe. */
module SoftwareFlushes {
  import opened Decimation
  import opened Pipe
  import opened Queues
  import opened SoftwarePipe

  /** A sample from the dependency that triggers this sensor, with the flush attached to it, or -1. */
  datatype Arrival = Arrival(timestamp: int, flush: int)

  /** The data thread within one sample.  `live` remembers whether the entry it has looked at is still the
      oldest on the stack. */
  datatype Reader =
    | Waiting
    | Begun(sample: Arrival)
    | Draining(sample: Arrival)
    | Peeked(sample: Arrival, entry: Entry, live: bool)
    | Drained(sample: Arrival)

  /** How many of the sensor's own flushes have come in, and how many were lost on each way. */
  datatype Tally = Tally(
    arrived: nat,
    outside: nat,     // outside the time the client has the sensor enabled
    handed: nat,      // handed on by a sensor that only serves others
    refused: nat,     // the stack was full
    reset: nat,       // on the stack when the sensor was powered on
    mislaid: nat,     // removed in place of an entry that was no longer there
    unwritten: nat,   // completed, but the pipe did not take it
    unsent: nat,      // attached to a sample that the trigger pipe did not take
    buffered: nat)    // attached to a sample of another dependency than the trigger

  datatype State = State(
    own: nat,
    custom: bool,               // the sensor only serves others
    gate: Gate,
    stamps: seq<int>,           // history: the time of each sample, and of each flush completed, in the pipe
    stack: seq<Entry>,
    processing: int,
    mine: Times,                // when this sensor's client enabled and disabled it
    used: Times,                // when it came into use and went out of it
    incoming: seq<Arrival>,
    reader: Reader,
    tally: Tally)

  datatype Step =
    | Ask(h: nat, stamp: int, writes: bool)                                   // ProcessFlushData
    | Receive(sample: Arrival, trigger: bool, writes: bool)                   // ReceiveDataFromDependency
    | Begin                                                                   // the data thread takes a sample
    | Write(hwPollrate: nat, writes: bool)                                    // ... and writes its own
    | Peek                                                                    // ... looks at the oldest flush
    | Remove(writes: bool)                                                    // ... removes and completes it
    | Finish(writes: bool)                                                    // ... completes the attached flush
    | Reset                                                                   // Enable, from unused to used
    | Window(mine: Times, used: Times)                                        // Enable stamps the times
    | Change(time: int, rate: nat)                                            // SetDelay queues a new rate

  function Initial(own: nat, custom: bool): State {
    State(own, custom, Gate(0, 0, 1, 0, [], []), [], [], 0, Times(0, 1), Times(0, 1), [], Waiting, Tally(0, 0, 0, 0, 0, 0, 0, 0, 0))
  }

  function Own(h: int, own: nat): nat {
    if h == own then 1 else 0
  }

  /** Writing the completion of an own flush; of another one nothing is written here. */
  function Complete(s: State, h: int, stamp: int, writes: bool): (r: State)
    requires Counting(s.gate)
    ensures Counting(r.gate)
  {
    if h != s.own then s
    else if writes then s.(gate := s.gate.(pipe := s.gate.pipe + [FlushEvent(h)]), stamps := s.stamps + [stamp])
    else s.(tally := s.tally.(unwritten := s.tally.unwritten + 1))
  }

  /** ProcessFlushData. */
  function Process(s: State, h: int, stamp: int, writes: bool): (r: State)
    requires Counting(s.gate)
    ensures Counting(r.gate)
  {
    if s.custom then s.(tally := s.tally.(handed := s.tally.handed + Own(h, s.own)))
    else if !ValidDataToPush(s.mine, stamp) then s.(tally := s.tally.(outside := s.tally.outside + Own(h, s.own)))
    else if stamp > s.processing then
      if |s.stack| < FLUSH_STACK_MAX then s.(stack := Accepted(s.stack, FLUSH_STACK_MAX, (h, stamp)))
      else s.(tally := s.tally.(refused := s.tally.refused + Own(h, s.own)))
    else Complete(s, h, stamp, writes)
  }

  function Arrive(s: State, h: int): (r: State)
    ensures r.gate == s.gate
  {
    s.(tally := s.tally.(arrived := s.tally.arrived + Own(h, s.own)))
  }

  /** The stacked flushes that the data thread has not already made its own. */
  function Stacked(s: State): seq<Entry> {
    if s.reader.Peeked? && s.reader.live then Rest(s.stack) else s.stack
  }

  function Next(s: State, step: Step): (r: State)
    requires Counting(s.gate)
    ensures Counting(r.gate)
  {
    match step
    case Ask(h, stamp, writes) => Process(Arrive(s, h), h, stamp, writes)
    case Receive(x, trigger, writes) =>
      var s1 := Arrive(s, x.flush);
      if !ValidDataToPush(s.used, x.timestamp) then (if x.flush >= 0 then Process(s1, x.flush, 0, writes) else s1)
      else if !trigger then s1.(tally := s1.tally.(buffered := s1.tally.buffered + Own(x.flush, s.own)))
      else if writes then s1.(incoming := s.incoming + [x])
      else s1.(tally := s1.tally.(unsent := s1.tally.unsent + Own(x.flush, s.own)))
    case Begin =>
      if !s.reader.Waiting? || s.incoming == [] then s
      else s.(reader := Begun(s.incoming[0]), incoming := s.incoming[1..], processing := s.incoming[0].timestamp)
    case Write(hwPollrate, writes) =>
      if !s.reader.Begun? || hwPollrate == 0 then s
      else
        var x := s.reader.sample;
        var g, changed := Taken(s.gate, x.timestamp), Changes(s.gate, x.timestamp);
        s.(gate := Counted(g, changed, x.timestamp, hwPollrate, writes),
           stamps := s.stamps + if writes && Falls(g, changed, hwPollrate) then [x.timestamp] else [],
           reader := if writes || !Falls(g, changed, hwPollrate) then Draining(x) else Drained(x))
    case Peek =>
      if !s.reader.Draining? then s
      else
        var x := s.reader.sample;
        s.(reader := if Due(s.stack, x.timestamp) == 0 then Drained(x) else Peeked(x, s.stack[0], true))
    case Remove(writes) =>
      if !s.reader.Peeked? then s
      else
        var lost := if s.reader.live || s.stack == [] then 0 else Own(s.stack[0].0, s.own);
        Complete(s.(stack := Rest(s.stack), reader := Draining(s.reader.sample), tally := s.tally.(mislaid := s.tally.mislaid + lost)),
                 s.reader.entry.0, s.reader.entry.1, writes)
    case Finish(writes) =>
      if !s.reader.Drained? then s else Complete(s.(reader := Waiting), s.reader.sample.flush, s.reader.sample.timestamp, writes)
    case Reset =>
      s.(stack := [], tally := s.tally.(reset := s.tally.reset + CountStack(Stacked(s), s.own)),
         reader := if s.reader.Peeked? then s.reader.(live := false) else s.reader)
    case Window(mine, used) => s.(mine := mine, used := used)
    case Change(time, rate) => s.(gate := s.gate.(pending := Accepted(s.gate.pending, ODR_STACK_MAX, (time, rate))))
  }

  function Run(s: State, steps: seq<Step>): (r: State)
    requires Counting(s.gate)
    ensures Counting(r.gate)
    decreases |steps|
  {
    if steps == [] then s else Run(Next(s, steps[0]), steps[1..])
  }

  // ---------------------------------------------------------------- counting

  function CountStack(stack: seq<Entry>, own: nat): nat {
    if stack == [] then 0 else CountStack(stack[..|stack| - 1], own) + Own(stack[|stack| - 1].0, own)
  }

  function CountArrivals(q: seq<Arrival>, own: nat): nat {
    if q == [] then 0 else CountArrivals(q[..|q| - 1], own) + Own(q[|q| - 1].flush, own)
  }

  function CountCompleted(pipe: seq<PipeEvent>): nat {
    if pipe == [] then 0 else CountCompleted(pipe[..|pipe| - 1]) + if pipe[|pipe| - 1].FlushEvent? then 1 else 0
  }

  /** The flushes that the data thread has in hand. */
  function InHand(s: State): nat {
    match s.reader
    case Waiting => 0
    case Begun(x) => Own(x.flush, s.own)
    case Draining(x) => Own(x.flush, s.own)
    case Peeked(x, e, _) => Own(x.flush, s.own) + Own(e.0, s.own)
    case Drained(x) => Own(x.flush, s.own)
  }

  function Lost(t: Tally): nat {
    t.outside + t.handed + t.refused + t.reset + t.mislaid + t.unwritten + t.unsent + t.buffered
  }

  ghost predicate OnlyOwn(pipe: seq<PipeEvent>, own: nat) {
    forall e <- pipe :: e.FlushEvent? ==> e.handle == own
  }

  /** Every own flush that came in is in exactly one place. */
  ghost predicate Balanced(s: State) {
    && s.tally.arrived == CountCompleted(s.gate.pipe) + CountStack(Stacked(s), s.own) + InHand(s)
                          + CountArrivals(s.incoming, s.own) + Lost(s.tally)
    && OnlyOwn(s.gate.pipe, s.own)
    && (s.reader.Peeked? && s.reader.live ==> s.stack != [] && s.stack[0] == s.reader.entry)
  }

  lemma StackAppend(stack: seq<Entry>, e: Entry, own: nat)
    ensures CountStack(stack + [e], own) == CountStack(stack, own) + Own(e.0, own)
  {
    assert (stack + [e])[..|stack|] == stack;
  }

  lemma {:induction false} StackFirst(stack: seq<Entry>, own: nat)
    requires stack != []
    ensures CountStack(stack, own) == Own(stack[0].0, own) + CountStack(stack[1..], own)
  {
    var last := |stack| - 1;
    if last > 0 {
      StackFirst(stack[..last], own);
      assert stack[..last][1..] == stack[1..][..last - 1];
    }
  }

  lemma ArrivalsAppend(q: seq<Arrival>, x: Arrival, own: nat)
    ensures CountArrivals(q + [x], own) == CountArrivals(q, own) + Own(x.flush, own)
  {
    assert (q + [x])[..|q|] == q;
  }

  lemma {:induction false} ArrivalsFirst(q: seq<Arrival>, own: nat)
    requires q != []
    ensures CountArrivals(q, own) == Own(q[0].flush, own) + CountArrivals(q[1..], own)
  {
    var last := |q| - 1;
    if last > 0 {
      ArrivalsFirst(q[..last], own);
      assert q[..last][1..] == q[1..][..last - 1];
    }
  }

  lemma CompletedAppend(pipe: seq<PipeEvent>, e: PipeEvent)
    ensures CountCompleted(pipe + [e]) == CountCompleted(pipe) + if e.FlushEvent? then 1 else 0
  {
    assert (pipe + [e])[..|pipe|] == pipe;
  }

  /** Completing an own flush writes it or loses it. */
  lemma CompleteCounts(s: State, h: int, stamp: int, writes: bool)
    requires Counting(s.gate) && OnlyOwn(s.gate.pipe, s.own)
    ensures var r := Complete(s, h, stamp, writes);
            && OnlyOwn(r.gate.pipe, s.own)
            && CountCompleted(r.gate.pipe) + r.tally.unwritten == CountCompleted(s.gate.pipe) + s.tally.unwritten + Own(h, s.own)
  {
    CompletedAppend(s.gate.pipe, FlushEvent(h));
  }

  lemma ProcessBalances(s: State, h: int, stamp: int, writes: bool)
    requires Counting(s.gate) && Balanced(s)
    ensures Balanced(Process(Arrive(s, h), h, stamp, writes))
  {
    hide CountStack, CountArrivals, CountCompleted;
    CompleteCounts(Arrive(s, h), h, stamp, writes);
    StackAppend(Stacked(s), (h, stamp), s.own);
    if s.reader.Peeked? && s.reader.live { assert Rest(s.stack + [(h, stamp)]) == Rest(s.stack) + [(h, stamp)]; }
  }

  lemma ReceiveBalances(s: State, x: Arrival, trigger: bool, writes: bool)
    requires Counting(s.gate) && Balanced(s)
    ensures Balanced(Next(s, Receive(x, trigger, writes)))
  {
    if ValidDataToPush(s.used, x.timestamp) {
      KeptBalances(s, x, trigger, writes);
    } else {
      hide Process, Balanced;
      ProcessBalances(s, x.flush, 0, writes);
      if x.flush < 0 { assert Arrive(s, x.flush) == s; }
    }
  }

  lemma KeptBalances(s: State, x: Arrival, trigger: bool, writes: bool)
    requires Counting(s.gate) && Balanced(s) && ValidDataToPush(s.used, x.timestamp)
    ensures Balanced(Next(s, Receive(x, trigger, writes)))
  {
    hide CountStack, CountArrivals, CountCompleted, Process;
    ArrivalsAppend(s.incoming, x, s.own);
  }

  lemma WriteBalances(s: State, hwPollrate: nat, writes: bool)
    requires Counting(s.gate) && Balanced(s)
    ensures Balanced(Next(s, Write(hwPollrate, writes)))
  {
    hide CountStack, CountArrivals, CountCompleted, Decimator;
    if s.reader.Begun? { CompletedAppend(s.gate.pipe, SampleEvent(s.reader.sample.timestamp)); }
  }

  lemma RemoveBalances(s: State, writes: bool)
    requires Counting(s.gate) && Balanced(s)
    ensures Balanced(Next(s, Remove(writes)))
  {
    hide CountStack, CountArrivals, CountCompleted;
    if s.reader.Peeked? {
      if s.stack != [] { StackFirst(s.stack, s.own); }
      var lost := if s.reader.live || s.stack == [] then 0 else Own(s.stack[0].0, s.own);
      CompleteCounts(s.(stack := Rest(s.stack), reader := Draining(s.reader.sample), tally := s.tally.(mislaid := s.tally.mislaid + lost)),
                     s.reader.entry.0, s.reader.entry.1, writes);
    }
  }

  lemma PeekBalances(s: State)
    requires Counting(s.gate) && Balanced(s)
    ensures Balanced(Next(s, Peek))
  {
    hide CountStack, CountArrivals, CountCompleted;
    if s.stack != [] { StackFirst(s.stack, s.own); }
  }

  lemma StepBalances(s: State, step: Step)
    requires Counting(s.gate) && Balanced(s)
    ensures Balanced(Next(s, step))
  {
    hide CountArrivals, CountCompleted, Process, Counted, Taken, Changes, Falls;
    match step
    case Ask(h, stamp, writes) => ProcessBalances(s, h, stamp, writes);
    case Receive(x, trigger, writes) => ReceiveBalances(s, x, trigger, writes);
    case Begin => if s.incoming != [] { ArrivalsFirst(s.incoming, s.own); }
    case Write(hwPollrate, writes) => WriteBalances(s, hwPollrate, writes);
    case Peek => PeekBalances(s);
    case Remove(writes) => RemoveBalances(s, writes);
    case Finish(writes) => if s.reader.Drained? { CompleteCounts(s.(reader := Waiting), s.reader.sample.flush, s.reader.sample.timestamp, writes); }
    case Reset =>
    case Window(mine, used) =>
    case Change(time, rate) =>
  }

  lemma {:induction false} RunBalances(s: State, steps: seq<Step>)
    requires Counting(s.gate) && Balanced(s)
    ensures Balanced(Run(s, steps)) && Run(s, steps).own == s.own
    decreases |steps|
  {
    hide Balanced;
    if steps != [] {
      StepBalances(s, steps[0]);
      assert Next(s, steps[0]).own == s.own;
      hide Next;
      RunBalances(Next(s, steps[0]), steps[1..]);
    }
  }

  /** Over every interleaving the sensor's own flushes that came in, asked for or attached to a sample, are as
      many as those completed, stacked, in the data thread's hand, on their way in, and lost on each of the
      listed ways; and no other sensor's flush is ever completed in this sensor's pipe. */
  lemma SoftwareFlushesAreConserved(own: nat, custom: bool, steps: seq<Step>)
    ensures var s := Run(Initial(own, custom), steps);
            && s.tally.arrived == CountCompleted(s.gate.pipe) + CountStack(Stacked(s), own) + InHand(s)
                                  + CountArrivals(s.incoming, own) + Lost(s.tally)
            && OnlyOwn(s.gate.pipe, own)
  {
    RunBalances(Initial(own, custom), steps);
  }

  // ---------------------------------------------------------------- requests outside the client's time

  /** The step brings in an own flush whose timestamp lies outside the client's time. */
  predicate FallsOutside(s: State, step: Step) {
    !s.custom &&
    match step
    case Ask(h, stamp, _) => h == s.own && !ValidDataToPush(s.mine, stamp)
    case Receive(x, _, _) => x.flush == s.own && !ValidDataToPush(s.used, x.timestamp) && !ValidDataToPush(s.mine, 0)
    case _ => false
  }

  /** A request is dropped for its timestamp exactly then, and then nothing is stacked or completed. */
  lemma DroppedExactlyOutside(s: State, step: Step)
    requires Counting(s.gate)
    ensures Next(s, step).tally.outside == s.tally.outside + if FallsOutside(s, step) then 1 else 0
    ensures FallsOutside(s, step) ==> Next(s, step).stack == s.stack && Next(s, step).gate == s.gate && Next(s, step).incoming == s.incoming
  {
    hide Counted, Taken, Changes, Falls;
  }

  predicate NoneFallsOutside(s: State, steps: seq<Step>)
    requires Counting(s.gate)
    decreases |steps|
  {
    steps == [] || (!FallsOutside(s, steps[0]) && NoneFallsOutside(Next(s, steps[0]), steps[1..]))
  }

  lemma {:induction false} OutsideExactly(s: State, steps: seq<Step>)
    requires Counting(s.gate)
    ensures Run(s, steps).tally.outside >= s.tally.outside
    ensures Run(s, steps).tally.outside == s.tally.outside <==> NoneFallsOutside(s, steps)
    decreases |steps|
  {
    if steps != [] {
      DroppedExactlyOutside(s, steps[0]);
      hide Next, FallsOutside;
      OutsideExactly(Next(s, steps[0]), steps[1..]);
    }
  }

  /** The timestamp 0, which two callers pass, is never inside: such a request never completes. */
  lemma StampZeroIsDropped(s: State, writes: bool)
    requires Counting(s.gate) && s.mine.enabled >= 0 && !s.custom
    ensures FallsOutside(s, Ask(s.own, 0, writes))
    ensures var r := Next(s, Ask(s.own, 0, writes));
            r.gate.pipe == s.gate.pipe && r.stack == s.stack && r.tally.outside == s.tally.outside + 1
  {
    DroppedExactlyOutside(s, Ask(s.own, 0, writes));
  }

  // ---------------------------------------------------------------- when a flush completes

  /** What a flush request does.  At a sensor that is not a custom one and within the client's time, a request not later
      than the sample in processing completes in this very step, if it is the sensor's own and the pipe takes it; a
      later one is stacked while there is room.  Else the request leaves stack and pipe alone. */
  lemma AskExactly(s: State, h: nat, stamp: int, writes: bool)
    requires Counting(s.gate)
    ensures var r := Next(s, Ask(h, stamp, writes));
            var inside := if s.mine.enabled > s.mine.disabled then stamp > s.mine.enabled
                          else s.mine.enabled < stamp && stamp < s.mine.disabled;
            var completes := !s.custom && inside && stamp <= s.processing && h == s.own;
            && r.gate.pipe == s.gate.pipe + (if completes && writes then [FlushEvent(h)] else [])
            && r.stamps == s.stamps + (if completes && writes then [stamp] else [])
            && r.tally.unwritten == s.tally.unwritten + (if completes && !writes then 1 else 0)
            && r.stack == s.stack + (if !s.custom && inside && stamp > s.processing && |s.stack| < 300 then [(h, stamp)] else [])
            && r.reader == s.reader && r.incoming == s.incoming
  {
  }

  /** What the arrival of a sample does: from the trigger and within the time the sensor is in use it goes to the data
      thread, if the trigger pipe takes it; outside that time it is dropped. */
  lemma ReceiveExactly(s: State, x: Arrival, trigger: bool, writes: bool)
    requires Counting(s.gate)
    ensures var r := Next(s, Receive(x, trigger, writes));
            var inside := if s.used.enabled > s.used.disabled then x.timestamp > s.used.enabled
                          else s.used.enabled < x.timestamp && x.timestamp < s.used.disabled;
            && r.incoming == s.incoming + (if inside && trigger && writes then [x] else [])
            && (inside ==> r.gate == s.gate && r.stack == s.stack)
            && (!inside && x.flush < 0 ==> r == s)
  {
  }

  /** The loop after a sample ends exactly when nothing on the stack is due: none is there, or the oldest is later than
      the sample. */
  lemma LoopEndsExactly(s: State)
    requires Counting(s.gate) && s.reader.Draining?
    ensures var r := Next(s, Peek);
            && (r.reader.Drained? <==> s.stack == [] || s.stack[0].0 < 0 || s.stack[0].1 > s.reader.sample.timestamp)
            && (!r.reader.Drained? ==> r.reader == Peeked(s.reader.sample, s.stack[0], true))
  {
  }

  /** Whatever has been written is not later than the sample in processing, the data thread works on that sample, and no
      sample follows the completion of a flush stamped later. */
  ghost predicate InOrderWritten(s: State) {
    && |s.stamps| == |s.gate.pipe|
    && (forall i {:trigger s.stamps[i]} :: 0 <= i < |s.stamps| ==> s.stamps[i] <= s.processing)
    && (forall i {:trigger s.gate.pipe[i]} :: 0 <= i < |s.stamps| && s.gate.pipe[i].SampleEvent? ==> s.gate.pipe[i].timestamp == s.stamps[i])
    && (forall i, j {:trigger s.gate.pipe[i], s.gate.pipe[j]} ::
          0 <= i < j < |s.stamps| && s.gate.pipe[i].FlushEvent? && s.gate.pipe[j].SampleEvent? ==> s.stamps[i] <= s.stamps[j])
    && (!s.reader.Waiting? ==> s.reader.sample.timestamp == s.processing)
    && (s.reader.Peeked? ==> s.reader.entry.1 <= s.processing)
  }

  /** Samples never go back. */
  predicate SamplesAdvance(s: State, steps: seq<Step>)
    requires Counting(s.gate)
    decreases |steps|
  {
    steps == [] ||
    ((steps[0].Begin? && s.reader.Waiting? && s.incoming != [] ==> s.processing <= s.incoming[0].timestamp)
     && SamplesAdvance(Next(s, steps[0]), steps[1..]))
  }

  lemma CompleteInOrder(s: State, h: int, stamp: int, writes: bool)
    requires Counting(s.gate) && InOrderWritten(s) && stamp <= s.processing
    ensures InOrderWritten(Complete(s, h, stamp, writes))
  {
  }

  lemma WriteInOrder(s: State, hwPollrate: nat, writes: bool)
    requires Counting(s.gate) && InOrderWritten(s)
    ensures InOrderWritten(Next(s, Write(hwPollrate, writes)))
  {
    hide Decimator;
  }

  lemma StepInOrder(s: State, step: Step)
    requires Counting(s.gate) && InOrderWritten(s)
    requires step.Begin? && s.reader.Waiting? && s.incoming != [] ==> s.processing <= s.incoming[0].timestamp
    ensures InOrderWritten(Next(s, step))
  {
    hide Complete, Counted, Taken, Changes, Falls;
    match step
    case Ask(h, stamp, writes) => ProcessInOrder(Arrive(s, h), h, stamp, writes);
    case Receive(x, _, writes) => ProcessInOrder(Arrive(s, x.flush), x.flush, 0, writes);
    case Write(hwPollrate, writes) => WriteInOrder(s, hwPollrate, writes);
    case Remove(writes) =>
      if s.reader.Peeked? {
        var lost := if s.reader.live || s.stack == [] then 0 else Own(s.stack[0].0, s.own);
        CompleteInOrder(s.(stack := Rest(s.stack), reader := Draining(s.reader.sample), tally := s.tally.(mislaid := s.tally.mislaid + lost)),
                        s.reader.entry.0, s.reader.entry.1, writes);
      }
    case Finish(writes) =>
      if s.reader.Drained? { CompleteInOrder(s.(reader := Waiting), s.reader.sample.flush, s.reader.sample.timestamp, writes); }
    case _ =>
  }

  lemma ProcessInOrder(s: State, h: int, stamp: int, writes: bool)
    requires Counting(s.gate) && InOrderWritten(s)
    ensures InOrderWritten(Process(s, h, stamp, writes))
  {
    if stamp <= s.processing { CompleteInOrder(s, h, stamp, writes); }
    hide Complete;
  }

  lemma {:induction false} RunInOrder(s: State, steps: seq<Step>)
    requires Counting(s.gate) && InOrderWritten(s) && SamplesAdvance(s, steps)
    ensures InOrderWritten(Run(s, steps))
    decreases |steps|
  {
    hide InOrderWritten;
    if steps != [] {
      StepInOrder(s, steps[0]);
      RunInOrder(Next(s, steps[0]), steps[1..]);
    }
  }

  /** Under every interleaving in which samples do not go back: no sample older than T is written after the completion
      of a flush stamped T. */
  lemma NoOlderSampleAfterFlush(own: nat, custom: bool, steps: seq<Step>, i: nat, j: nat)
    requires SamplesAdvance(Initial(own, custom), steps)
    ensures var s := Run(Initial(own, custom), steps);
            && |s.stamps| == |s.gate.pipe|
            && (i < j < |s.stamps| && s.gate.pipe[i].FlushEvent? && s.gate.pipe[j].SampleEvent? ==>
                  s.stamps[i] <= s.gate.pipe[j].timestamp)
  {
    RunInOrder(Initial(own, custom), steps);
  }

  // ---------------------------------------------------------------- what the loop leaves

  /** The data thread is at work on the sample, or done with it. */
  predicate AtSample(s: State, x: Arrival) {
    s.processing == x.timestamp && (s.reader.Waiting? || s.reader.sample == x) && forall e <- s.stack :: e.0 >= 0
  }

  predicate WithinSample(step: Step) {
    !step.Begin?
  }

  /** Nothing that is due is the oldest on the stack, unless the loop is still to find it. */
  predicate Served(s: State, x: Arrival) {
    AtSample(s, x) && !s.reader.Begun? && (s.reader.Waiting? || s.reader.Drained? ==> s.stack == [] || s.stack[0].1 > x.timestamp)
  }

  lemma StepServed(s: State, x: Arrival, step: Step)
    requires Counting(s.gate) && Served(s, x) && WithinSample(step)
    ensures Served(Next(s, step), x)
  {
    hide Counted, Taken, Falls, Decimator;
    match step
    case Ask(h, stamp, _) =>
    case Receive(_, _, _) =>
    case _ =>
  }

  lemma {:induction false} RunServed(s: State, x: Arrival, steps: seq<Step>)
    requires Counting(s.gate) && Served(s, x) && forall step <- steps :: WithinSample(step)
    ensures Served(Run(s, steps), x)
    decreases |steps|
  {
    if steps != [] {
      StepServed(s, x, steps[0]);
      hide Next, Served;
      RunServed(Next(s, steps[0]), x, steps[1..]);
    }
  }

  /** Whatever the other threads do meanwhile: once the data thread is done with a sample that its pipe did not refuse,
      no flush that is due is the oldest on the stack. */
  lemma NoDueFlushIsLeft(s: State, hwPollrate: nat, steps: seq<Step>)
    requires Counting(s.gate) && s.reader.Begun? && AtSample(s, s.reader.sample) && hwPollrate > 0
    requires (forall step <- steps :: WithinSample(step)) && Run(Next(s, Write(hwPollrate, true)), steps).reader.Waiting?
    ensures var stack := Run(Next(s, Write(hwPollrate, true)), steps).stack;
            stack == [] || stack[0].1 > s.reader.sample.timestamp
  {
    RunServed(Next(s, Write(hwPollrate, true)), s.reader.sample, steps);
  }

  predicate Skipping(s: State, stack: seq<Entry>) {
    (s.reader.Drained? || s.reader.Waiting?) && stack <= s.stack
  }

  lemma {:induction false} RunSkips(s: State, stack: seq<Entry>, steps: seq<Step>)
    requires Counting(s.gate) && Skipping(s, stack) && forall step <- steps :: WithinSample(step) && !step.Reset?
    ensures Skipping(Run(s, steps), stack)
    decreases |steps|
  {
    if steps != [] {
      StepSkips(s, stack, steps[0]);
      hide Next, Skipping;
      RunSkips(Next(s, steps[0]), stack, steps[1..]);
    }
  }

  lemma StepSkips(s: State, stack: seq<Entry>, step: Step)
    requires Counting(s.gate) && Skipping(s, stack) && WithinSample(step) && !step.Reset?
    ensures Skipping(Next(s, step), stack)
  {
    hide Counted, Taken, Falls, Decimator;
  }

  /** After a sample that the pipe refused, every stacked flush goes on waiting, until the next sample or a reset. */
  lemma RefusedSampleKeepsFlushes(s: State, hwPollrate: nat, steps: seq<Step>)
    requires Counting(s.gate) && s.reader.Begun? && Next(s, Write(hwPollrate, true)).gate.pipe != s.gate.pipe
    requires forall step <- steps :: WithinSample(step) && !step.Reset?
    ensures s.stack <= Run(Next(s, Write(hwPollrate, false)), steps).stack
  {
    RunSkips(Next(s, Write(hwPollrate, false)), s.stack, steps);
  }

  /** The times that Enable stamps decide about the requests that come next, and the rate that SetDelay queues is in
      force at a later sample. */
  lemma StampsAndRatesArrive(s: State, mine: Times, used: Times, h: nat, x: Arrival, time: int, rate: nat, hwPollrate: nat, writes: bool)
    requires Counting(s.gate)
    ensures var s1 := Next(s, Window(mine, used)); var asked, got := Next(s1, Ask(s.own, time, writes)), Next(s1, Receive(x, true, true));
            && (asked.tally.outside == s.tally.outside <==> s.custom || ValidDataToPush(mine, time))
            && (got.incoming == s.incoming + [x] <==> ValidDataToPush(used, x.timestamp))
    ensures s.reader.Begun? && s.gate.pending == [] && 0 <= time < s.reader.sample.timestamp && hwPollrate > 0 ==>
              Next(Next(s, Change(time, rate)), Write(hwPollrate, writes)).gate.rate == rate
  {
    hide Ratio;
  }
}
