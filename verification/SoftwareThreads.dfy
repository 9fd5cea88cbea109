/** The variables and locked sections of a software sensor's threads, each section proved to be one step of
    the protocol of SoftwareFlushes. */
module SoftwareThreads {
  import opened Decimation
  import opened Pipe
  import opened Queues
  import P = SoftwareFlushes

  class SoftwareReceiver {
    const handle: nat
    const custom: bool
    const gate: DataGate
    const flushStack: PairQueue
    var sampleInProcessingTimestamp: int
    var sensorGlobalEnable: int
    var sensorGlobalDisable: int
    var triggerPipe: seq<P.Arrival>
    // variables of the data thread
    var sample: P.Arrival
    var flushHandle: int
    var timestampFlush: int
    // the protocol state these implement
    ghost var state: P.State

    ghost predicate Valid()
      reads this, gate, gate.odrStack, gate.odrStack.keys, gate.odrStack.values
      reads flushStack, flushStack.keys, flushStack.values
    {
      && gate.Valid() && flushStack.Valid() && flushStack.capacity == FLUSH_STACK_MAX
      && flushStack != gate.odrStack && gate.odrStack.capacity == ODR_STACK_MAX
      && {flushStack.keys, flushStack.values} !! {gate.odrStack.keys, gate.odrStack.values}
      && state.own == handle && state.custom == custom
      && state.gate == gate.State() && state.stack == flushStack.Contents()
      && state.processing == sampleInProcessingTimestamp
      && state.mine == gate.Window() && state.used == Times(sensorGlobalEnable, sensorGlobalDisable)
      && state.incoming == triggerPipe
      && match state.reader
         case Waiting => true
         case Begun(x) => sample == x
         case Draining(x) => sample == x
         case Drained(x) => sample == x
         case Peeked(x, e, _) => sample == x && e == (flushHandle, timestampFlush)
    }

    constructor (handle: nat, custom: bool)
      ensures Valid() && state == P.Initial(handle, custom)
    {
      this.handle, this.custom := handle, custom;
      gate := new DataGate();
      flushStack := new PairQueue(FLUSH_STACK_MAX);
      sampleInProcessingTimestamp, sensorGlobalEnable, sensorGlobalDisable := 0, 0, 1;
      triggerPipe := [];
      sample := P.Arrival(0, -1);
      state := P.Initial(handle, custom);
    }

    /** WriteFlushEventToPipe, called for this sensor's own handle. */
    method WriteFlushEvent(h: int, writes: bool)
      modifies gate`pipe
      ensures gate.pipe == old(gate.pipe) + if h == handle && writes then [FlushEvent(h)] else []
    {
      if h == handle && writes {
        gate.pipe := gate.pipe + [FlushEvent(h)];
      }
    }

    /** The body of ProcessFlushData; what is handed on to other sensors changes nothing here. */
    method StackOrComplete(h: int, timestamp: int, writes: bool)
      requires Valid()
      modifies this`state, gate`pipe, flushStack, flushStack.keys, flushStack.values
      ensures Valid() && state == P.Process(old(state), h, timestamp, writes)
    {
      ghost var next := P.Process(state, h, timestamp, writes);
      if !custom && ValidDataToPush(gate.Window(), timestamp) {
        if timestamp > sampleInProcessingTimestamp {
          var _ := flushStack.WriteElement(h, timestamp);
        } else {
          WriteFlushEvent(h, writes);
        }
      }
      state := next;
    }

    method ProcessFlushData(h: nat, timestamp: int, writes: bool)
      requires Valid()
      modifies this`state, gate`pipe, flushStack, flushStack.keys, flushStack.values
      ensures Valid() && state == P.Next(old(state), P.Ask(h, timestamp, writes))
    {
      state := P.Arrive(state, h);
      StackOrComplete(h, timestamp, writes);
    }

    method ReceiveDataFromDependency(data: P.Arrival, trigger: bool, writes: bool)
      requires Valid()
      modifies this`state, this`triggerPipe, gate`pipe, flushStack, flushStack.keys, flushStack.values
      ensures Valid() && state == P.Next(old(state), P.Receive(data, trigger, writes))
    {
      ghost var next := P.Next(state, P.Receive(data, trigger, writes));
      if ValidDataToPush(Times(sensorGlobalEnable, sensorGlobalDisable), data.timestamp) {
        if trigger && writes {
          triggerPipe := triggerPipe + [data];
        }
        state := next;
      } else {
        state := P.Arrive(state, data.flush);
        if data.flush >= 0 {
          StackOrComplete(data.flush, 0, writes);
        }
      }
    }

    // ---------------------------------------------------------------- the data thread

    method BeginSample()
      requires Valid() && state.reader.Waiting? && triggerPipe != []
      modifies this`state, this`triggerPipe, this`sample, this`sampleInProcessingTimestamp
      ensures Valid() && state == P.Next(old(state), P.Begin) && state.reader.Begun?
    {
      sample := triggerPipe[0];
      triggerPipe := triggerPipe[1..];
      sampleInProcessingTimestamp := sample.timestamp;
      state := P.Next(state, P.Begin);
    }

    /** WriteDataToPipe up to its loop; false when it returns before the loop. */
    method WriteSample(hwPollrate: nat, writes: bool) returns (ok: bool)
      requires Valid() && state.reader.Begun? && hwPollrate > 0
      modifies this`state, gate, gate.odrStack, gate.odrStack.keys, gate.odrStack.values
      ensures Valid() && state == P.Next(old(state), P.Write(hwPollrate, writes))
      ensures if ok then state.reader.Draining? else state.reader.Drained?
    {
      hide Counted, Taken, Changes, Falls, Counting;
      ghost var next := P.Next(state, P.Write(hwPollrate, writes));
      var odrChanged := gate.TakeRateChange(sample.timestamp);
      ok := gate.CountSample(odrChanged, sample.timestamp, hwPollrate, writes);
      state := next;
    }

    /** The look of one round of the loop; false when the loop ends there. */
    method PeekFlush() returns (due: bool)
      requires Valid() && state.reader.Draining?
      modifies this`state, this`flushHandle, this`timestampFlush
      ensures Valid() && state == P.Next(old(state), P.Peek)
      ensures if due then state.reader.Peeked? else state.reader.Drained?
    {
      flushHandle, timestampFlush := flushStack.ReadLastElement(timestampFlush);
      due := flushHandle >= 0 && timestampFlush <= sample.timestamp;
      state := P.Next(state, P.Peek);
    }

    method RemoveFlush(writes: bool)
      requires Valid() && state.reader.Peeked?
      modifies this`state, gate`pipe, flushStack, flushStack.keys, flushStack.values
      ensures Valid() && state == P.Next(old(state), P.Remove(writes)) && state.reader.Draining?
    {
      ghost var next := P.Next(state, P.Remove(writes));
      flushStack.RemoveLastElement();
      WriteFlushEvent(flushHandle, writes);
      state := next;
    }

    /** ProcessData: the attached flush, if it is this sensor's own. */
    method FinishSample(writes: bool)
      requires Valid() && state.reader.Drained?
      modifies this`state, gate`pipe
      ensures Valid() && state == P.Next(old(state), P.Finish(writes)) && state.reader.Waiting?
    {
      ghost var next := P.Next(state, P.Finish(writes));
      WriteFlushEvent(sample.flush, writes);
      state := next;
    }

    // ---------------------------------------------------------------- Enable

    method ResetStack()
      requires Valid()
      modifies this`state, flushStack
      ensures Valid() && state == P.Next(old(state), P.Reset)
    {
      flushStack.ResetBuffer();
      state := P.Next(state, P.Reset);
    }
  }
}
