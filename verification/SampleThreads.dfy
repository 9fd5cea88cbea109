/** The queues, variables and locked sections of a hardware sensor's threads, each section proved to be
    one step of the flush protocol or of the rate protocol. */
module SampleThreads {
  import opened Decimation
  import opened Pipe
  import opened Queues
  import F = FlushProtocol
  import R = RateSwitching

  ghost predicate SameHandles(c: seq<int>, q: seq<F.Request>) {
    |c| == |q| && forall i :: 0 <= i < |c| ==> c[i] == q[i].handle
  }

  ghost predicate SameFlushes(c: seq<(int, int)>, q: seq<F.Stamped>) {
    |c| == |q| && forall i :: 0 <= i < |c| ==> c[i] == (q[i].request.handle, q[i].stamp)
  }

  ghost predicate SameSwitches(c: seq<(int, int)>, q: seq<R.Switch>) {
    |c| == |q| && forall i :: 0 <= i < |c| ==> c[i] == (q[i].timestamp, q[i].rate)
  }

  function Written(e: F.Event): PipeEvent {
    match e case Data(ts) => SampleEvent(ts) case Complete(f) => FlushEvent(f.request.handle)
  }

  ghost predicate SamePipe(p: seq<PipeEvent>, q: seq<F.Event>) {
    |p| == |q| && forall i :: 0 <= i < |p| ==> p[i] == Written(q[i])
  }

  /** Handles handed on to the sensors that depend on this one. */
  ghost predicate SameForwarded(c: seq<int>, q: seq<F.Stamped>) {
    |c| == |q| && forall i :: 0 <= i < |c| ==> c[i] == q[i].request.handle
  }

  function SlotHandle(slot: F.Slot): int {
    if slot.Flush? then slot.flush.request.handle else -1
  }

  class HardwareSensor {
    const handle: nat
    const flushRequested: FlushRequested
    const flushStack: PairQueue
    const odrSwitch: PairQueue
    const gate: DataGate
    var sampleInProcessingTimestamp: int
    var handedOn: seq<int>
    // variables of the data thread
    var newPollrate: int
    var oldPollrate: int
    var timestampOdrSwitch: int
    var flushHandle: int
    var timestampFlush: int
    // the sample it works on
    var sampleTimestamp: int
    var samplePollrate: int
    var flushEventHandle: int
    // the protocol states these implement
    ghost var flush: F.State
    ghost var rates: R.State

    ghost predicate Shape()
      reads this, flushRequested, flushStack, odrSwitch, gate, gate.odrStack
    {
      && gate.odrStack.Valid() && gate.odrStack != flushStack && gate.odrStack != odrSwitch
      && {gate.odrStack.keys, gate.odrStack.values} !! {flushRequested.handles, flushStack.keys, flushStack.values, odrSwitch.keys, odrSwitch.values}
      && flushRequested.Valid() && flushStack.Valid() && odrSwitch.Valid()
      && flushStack.capacity == FLUSH_STACK_MAX && odrSwitch.capacity == ODR_STACK_MAX && flushStack != odrSwitch
      && flushStack.keys !in {flushRequested.handles, odrSwitch.keys, odrSwitch.values}
      && flushStack.values !in {flushRequested.handles, odrSwitch.keys, odrSwitch.values}
      && odrSwitch.keys != flushRequested.handles && odrSwitch.values != flushRequested.handles
    }

    ghost predicate Valid()
      reads this, flushRequested, flushStack, odrSwitch, gate, gate.odrStack, gate.odrStack.keys, gate.odrStack.values
      reads flushRequested.handles, flushStack.keys, flushStack.values, odrSwitch.keys, odrSwitch.values
    {
      && Shape() && gate.Valid() && flush.own == handle
      && SameHandles(flushRequested.Contents(), flush.requested)
      && SameFlushes(flushStack.Contents(), flush.stack)
      && SameSwitches(odrSwitch.Contents(), rates.queue)
      && sampleInProcessingTimestamp == flush.processing
      && SamePipe(gate.pipe, flush.pipe) && SameForwarded(handedOn, flush.forwarded)
      && newPollrate == rates.newRate && oldPollrate == rates.oldRate
      && SameReader() && SameLook()
    }

    /** The data thread's variables, by its position. */
    ghost predicate SameReader()
      reads this
    {
      match flush.reader
      case Waiting => true
      case Begun(ts) => sampleTimestamp == ts
      case Peeked(ts, slot, _) =>
        && sampleTimestamp == ts
        && (slot.Flush? <==> flushHandle >= 0 && timestampFlush <= sampleTimestamp)
        && (slot.Flush? ==> flushHandle == slot.flush.request.handle)
      case Attached(ts, slot) => sampleTimestamp == ts && flushEventHandle == SlotHandle(slot)
      case Written(ts, slot) => sampleTimestamp == ts && flushEventHandle == SlotHandle(slot)
    }

    ghost predicate SameLook()
      reads this
    {
      rates.reader.Looked? ==> sampleTimestamp == rates.reader.timestamp && timestampOdrSwitch == rates.reader.seen
    }

    constructor (handle: nat, threads: nat)
      ensures Valid() && flush == F.Initial(handle, threads) && rates == R.INITIAL
      ensures fresh(flushRequested) && fresh(flushStack) && fresh(odrSwitch) && fresh(flushRequested.handles)
      ensures fresh(flushStack.keys) && fresh(flushStack.values) && fresh(odrSwitch.keys) && fresh(odrSwitch.values)
      ensures fresh(gate) && fresh(gate.odrStack) && fresh(gate.odrStack.keys) && fresh(gate.odrStack.values)
    {
      this.handle := handle;
      flushRequested := new FlushRequested();
      flushStack := new PairQueue(FLUSH_STACK_MAX);
      odrSwitch := new PairQueue(ODR_STACK_MAX);
      gate := new DataGate();
      sampleInProcessingTimestamp := 0;
      handedOn := [];
      newPollrate, oldPollrate := 0, 0;
      flush := F.Initial(handle, threads);
      rates := R.INITIAL;
    }

    // ---------------------------------------------------------------- client and event threads

    /** FlushData: the request goes into the queue. */
    method QueueFlush(h: nat) returns (err: int)
      requires Valid()
      modifies this`flush, flushRequested, flushRequested.handles
      ensures Valid() && flush == F.Next(old(flush), F.Ask(h)) && rates == old(rates)
      ensures err == if |old(flush.requested)| < FLUSH_REQUESTED_MAX then 0 else -ENOMEM
    {
      err := flushRequested.WriteElement(h);
      flush := F.Next(flush, F.Ask(h));
    }

    /** ProcessFlushData: the destructive read. */
    method TakeFlush(t: nat, timestamp: int) returns (h: int)
      requires Valid() && t < |flush.handlers| && flush.handlers[t].Free?
      modifies this`flush, flushRequested, flushRequested.handles
      ensures Valid() && flush == F.Next(old(flush), F.Take(t, timestamp)) && rates == old(rates)
      ensures |flush.handlers| == |old(flush.handlers)|
      ensures if h < 0 then flush.handlers[t].Free?
              else flush.handlers[t].Holding? && flush.handlers[t].flush.request.handle == h && flush.handlers[t].flush.stamp == timestamp
    {
      h := flushRequested.ReadElement();
      flush := F.Next(flush, F.Take(t, timestamp));
    }

    /** ... and what follows under the sample mutex: stack the flush, or complete it at once. */
    method PlaceFlush(t: nat, h: int, timestamp: int, writes: bool)
      requires Valid() && t < |flush.handlers| && flush.handlers[t].Holding?
      requires flush.handlers[t].flush.request.handle == h && flush.handlers[t].flush.stamp == timestamp
      modifies this`flush, this`handedOn, gate`pipe, flushStack, flushStack.keys, flushStack.values
      ensures Valid() && flush == F.Next(old(flush), F.Place(t, writes)) && rates == old(rates)
    {
      if timestamp > sampleInProcessingTimestamp {
        StackFlush(t, h, timestamp, writes);
      } else {
        FinishFlush(t, h, timestamp, writes);
      }
    }

    method StackFlush(t: nat, h: int, timestamp: int, ghost writes: bool)
      requires Valid() && t < |flush.handlers| && flush.handlers[t].Holding? && timestamp > sampleInProcessingTimestamp
      requires flush.handlers[t].flush.request.handle == h && flush.handlers[t].flush.stamp == timestamp
      modifies this`flush, flushStack, flushStack.keys, flushStack.values
      ensures Valid() && flush == F.Next(old(flush), F.Place(t, writes)) && rates == old(rates)
    {
      var _ := flushStack.WriteElement(h, timestamp);
      flush := F.Next(flush, F.Place(t, writes));
    }

    method FinishFlush(t: nat, h: int, ghost timestamp: int, writes: bool)
      requires Valid() && t < |flush.handlers| && flush.handlers[t].Holding? && timestamp <= sampleInProcessingTimestamp
      requires flush.handlers[t].flush.request.handle == h && flush.handlers[t].flush.stamp == timestamp
      modifies this`flush, this`handedOn, gate`pipe
      ensures Valid() && flush == F.Next(old(flush), F.Place(t, writes)) && rates == old(rates)
    {
      if h == handle {
        WriteFlushEvent(writes);
      } else {
        handedOn := handedOn + [h];
      }
      flush := F.Next(flush, F.Place(t, writes));
    }

    /** WriteFlushEventToPipe. */
    method WriteFlushEvent(writes: bool)
      modifies gate`pipe
      ensures gate.pipe == old(gate.pipe) + if writes then [FlushEvent(handle)] else []
    {
      if writes {
        gate.pipe := gate.pipe + [FlushEvent(handle)];
      }
    }

    /** ProcessFlushData, uninterrupted. */
    method ProcessFlushData(t: nat, timestamp: int, writes: bool)
      requires Valid() && t < |flush.handlers| && flush.handlers[t].Free?
      modifies this`flush, this`handedOn, gate`pipe, flushRequested, flushRequested.handles
      modifies flushStack, flushStack.keys, flushStack.values
      ensures Valid() && flush == F.Next(F.Next(old(flush), F.Take(t, timestamp)), F.Place(t, writes)) && rates == old(rates)
    {
      var h := TakeFlush(t, timestamp);
      if h < 0 {
        return;
      }
      PlaceFlush(t, h, timestamp, writes);
    }

    /** SetDelay: a new rate goes into the queue. */
    method QueueRate(timestamp: int, rate: int) returns (err: int)
      requires Valid()
      modifies this`rates, odrSwitch, odrSwitch.keys, odrSwitch.values
      ensures Valid() && flush == old(flush) && rates == R.Next(old(rates), R.Change(timestamp, rate))
    {
      err := odrSwitch.WriteElement(timestamp, rate);
      rates := R.Next(rates, R.Change(timestamp, rate));
    }

    /** Enable, from unused to used. */
    method PowerOn()
      requires Valid()
      modifies this`flush, flushStack
      ensures Valid() && flush == F.Next(old(flush), F.PowerOn) && rates == old(rates)
    {
      flushStack.ResetBuffer();
      flush := F.Next(flush, F.PowerOn);
    }

    // ---------------------------------------------------------------- the data thread

    method BeginSample(timestamp: int)
      requires Valid() && flush.reader.Waiting? && rates.reader.Waiting?
      modifies this`flush, this`sampleTimestamp, this`sampleInProcessingTimestamp
      ensures Valid() && flush == F.Next(old(flush), F.BeginSample(timestamp)) && rates == old(rates)
      ensures sampleTimestamp == timestamp && flush.reader.Begun?
    {
      sampleTimestamp := timestamp;
      sampleInProcessingTimestamp := sampleTimestamp;
      flush := F.Next(flush, F.BeginSample(timestamp));
    }

    method ReadSwitch()
      requires Valid() && flush.reader.Begun? && rates.reader.Waiting?
      modifies this`rates, this`timestampOdrSwitch, this`newPollrate
      ensures Valid() && flush == old(flush) && rates == R.Next(old(rates), R.Look(sampleTimestamp))
      ensures rates.reader.Looked?
    {
      timestampOdrSwitch, newPollrate := odrSwitch.ReadLastElement(newPollrate);
      rates := R.Next(rates, R.Look(sampleTimestamp));
    }

    method AttachRate()
      requires Valid() && flush.reader.Begun? && rates.reader.Looked?
      modifies this`rates, this`oldPollrate, this`samplePollrate, odrSwitch, odrSwitch.keys, odrSwitch.values
      ensures Valid() && flush == old(flush) && rates == R.Next(old(rates), R.Attach)
      ensures rates.reader.Waiting? && rates.samples == old(rates.samples) + [R.Rated(sampleTimestamp, samplePollrate)]
    {
      if sampleTimestamp > timestampOdrSwitch {
        samplePollrate := newPollrate;
        oldPollrate := newPollrate;
        odrSwitch.RemoveLastElement();
      } else {
        samplePollrate := oldPollrate;
      }
      rates := R.Next(rates, R.Attach);
    }

    method PeekFlush()
      requires Valid() && flush.reader.Begun?
      modifies this`flush, this`flushHandle, this`timestampFlush
      ensures Valid() && flush == F.Next(old(flush), F.Peek) && rates == old(rates)
      ensures flush.reader.Peeked?
    {
      flushHandle, timestampFlush := flushStack.ReadLastElement(timestampFlush);
      flush := F.Next(flush, F.Peek);
    }

    method RemoveFlush()
      requires Valid() && flush.reader.Peeked?
      modifies this`flush, this`flushEventHandle, flushStack, flushStack.keys, flushStack.values
      ensures Valid() && flush == F.Next(old(flush), F.Remove) && rates == old(rates)
      ensures flush.reader.Attached?
    {
      if flushHandle >= 0 && timestampFlush <= sampleTimestamp {
        flushEventHandle := flushHandle;
        flushStack.RemoveLastElement();
      } else {
        flushEventHandle := -1;
      }
      flush := F.Next(flush, F.Remove);
    }

    /** WriteDataToPipe: the sample goes to the pipe when it is its turn and the pipe takes it. */
    method WriteSample(writes: bool) returns (passes: bool)
      requires Valid() && flush.reader.Attached? && samplePollrate > 0
      modifies this`flush, gate, gate.odrStack, gate.odrStack.keys, gate.odrStack.values
      ensures Valid() && flush == F.Next(old(flush), F.WriteSample(passes)) && rates == old(rates)
      ensures flush.reader.Written?
      ensures gate.State() == Push(old(gate.State()), old(gate.Window()), sampleTimestamp, samplePollrate, writes)
      ensures passes == (gate.pipe != old(gate.pipe))
    {
      ghost var before, w := gate.State(), gate.Window();
      var written := |gate.pipe|;
      gate.WriteDataToPipe(sampleTimestamp, samplePollrate, writes);
      passes := |gate.pipe| != written;
      PushWrites(before, w, sampleTimestamp, samplePollrate, writes);
      flush := F.Next(flush, F.WriteSample(passes));
    }

    /** ProcessData: an attached flush of this sensor's own is completed, another handed on. */
    method WriteFlush(writes: bool)
      requires Valid() && flush.reader.Written?
      modifies this`flush, this`handedOn, gate`pipe
      ensures Valid() && flush == F.Next(old(flush), F.WriteFlush(writes)) && rates == old(rates)
      ensures flush.reader.Waiting?
    {
      if flushEventHandle == handle {
        WriteFlushEvent(writes);
      } else if flushEventHandle >= 0 {
        handedOn := handedOn + [flushEventHandle];
      }
      flush := F.Next(flush, F.WriteFlush(writes));
    }

    /** The period that the next sample gets. */
    ghost function RateFor(timestamp: int): int
      requires rates.reader.Waiting?
      reads this
    {
      var r := R.Next(R.Next(rates, R.Look(timestamp)), R.Attach);
      r.samples[|r.samples| - 1].rate
    }

    /** The body of the data thread's loop for one scan, uninterrupted. */
    method ProcessSample(timestamp: int, writes: bool, flushWrites: bool) returns (passes: bool)
      requires Valid() && flush.reader.Waiting? && rates.reader.Waiting? && RateFor(timestamp) > 0
      modifies this, flushStack, flushStack.keys, flushStack.values, odrSwitch, odrSwitch.keys, odrSwitch.values
      modifies gate, gate.odrStack, gate.odrStack.keys, gate.odrStack.values
      ensures Valid() && flush.reader.Waiting? && rates.reader.Waiting?
      ensures flush == F.Run(old(flush), [F.BeginSample(timestamp), F.Peek, F.Remove, F.WriteSample(passes), F.WriteFlush(flushWrites)])
      ensures rates == R.Next(R.Next(old(rates), R.Look(timestamp)), R.Attach)
    {
      hide Valid, F.Run, F.Next, R.Next;
      BeginSample(timestamp);
      ReadSwitch();
      AttachRate();
      PeekFlush();
      RemoveFlush();
      passes := WriteSample(writes);
      WriteFlush(flushWrites);
      F.RunFive(old(flush), F.BeginSample(timestamp), F.Peek, F.Remove, F.WriteSample(passes), F.WriteFlush(flushWrites));
    }
  }
}
