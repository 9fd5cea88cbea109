/** What a software sensor writes to its pipe: its decimated samples and, after each, the flushes that
    have fallen due. */
module SoftwarePipe {
  import opened Decimation
  import opened Pipe
  import opened Queues

  type Entry = (int, int)   // handle and timestamp of a stacked flush

  /** How many flushes at the front of the stack are due at `time`. */
  function Due(stack: seq<Entry>, time: int): (n: nat)
    ensures n <= |stack|
  {
    if stack == [] || stack[0].0 < 0 || stack[0].1 > time then 0 else 1 + Due(stack[1..], time)
  }

  /** The completions written for drained flushes: those of this sensor that the pipe takes, `accepts` being
      its answer for each; the flushes of other sensors are dropped. */
  function Completions(drained: seq<Entry>, own: nat, accepts: nat -> bool): seq<PipeEvent> {
    if drained == [] then []
    else
      var last := |drained| - 1;
      Completions(drained[..last], own, accepts) + if drained[last].0 == own && accepts(last) then [FlushEvent(own)] else []
  }

  /** WriteDataToPipe: a refused sample leaves the flushes waiting. */
  function Deliver(g: Gate, stack: seq<Entry>, own: nat, time: int, hwPollrate: nat, writes: bool, accepts: nat -> bool): (r: (Gate, seq<Entry>))
    requires hwPollrate > 0 && Counting(g)
    ensures Counting(r.0)
  {
    var h := Counted(Taken(g, time), Changes(g, time), time, hwPollrate, writes);
    if !writes && Falls(Taken(g, time), Changes(g, time), hwPollrate) then (h, stack)
    else
      var n := Due(stack, time);
      (h.(pipe := h.pipe + Completions(stack[..n], own, accepts)), stack[n..])
  }

  /** The flush at place k is due, or the loop ends there. */
  lemma OneRound(stack: seq<Entry>, k: nat, time: int, own: nat, accepts: nat -> bool)
    requires k <= |stack|
    ensures if k == |stack| || stack[k].0 < 0 || stack[k].1 > time then Due(stack[k..], time) == 0
            else
              && Due(stack[k..], time) == 1 + Due(stack[k + 1..], time)
              && stack[k..][1..] == stack[k + 1..]
              && Completions(stack[..k + 1], own, accepts)
                 == Completions(stack[..k], own, accepts) + if stack[k].0 == own && accepts(k) then [FlushEvent(own)] else []
  {
    if k < |stack| {
      assert stack[k..][1..] == stack[k + 1..];
      assert stack[..k + 1][..k] == stack[..k];
    }
  }

  class SoftwareSensor {
    const handle: nat
    const gate: DataGate
    const flushStack: PairQueue

    ghost predicate Valid()
      reads this, gate, gate.odrStack, gate.odrStack.keys, gate.odrStack.values, flushStack
    {
      && gate.Valid() && flushStack.Valid() && flushStack != gate.odrStack
      && flushStack.keys !in {gate.odrStack.keys, gate.odrStack.values}
      && flushStack.values !in {gate.odrStack.keys, gate.odrStack.values}
    }

    constructor (handle: nat)
      ensures Valid() && gate.State() == Gate(0, 0, 1, 0, [], []) && flushStack.Contents() == []
      ensures flushStack.capacity == FLUSH_STACK_MAX
    {
      this.handle := handle;
      gate := new DataGate();
      flushStack := new PairQueue(FLUSH_STACK_MAX);
    }

    method WriteDataToPipe(time: int, hwPollrate: nat, writes: bool, accepts: nat -> bool)
      requires Valid() && hwPollrate > 0
      modifies gate, gate.odrStack, gate.odrStack.keys, gate.odrStack.values, flushStack, flushStack.keys, flushStack.values
      ensures Valid()
      ensures (gate.State(), flushStack.Contents())
           == Deliver(old(gate.State()), old(flushStack.Contents()), handle, time, hwPollrate, writes, accepts)
    {
      hide Counted, Taken, Changes, Falls, Counting;
      var odrChanged := gate.TakeRateChange(time);
      var ok := gate.CountSample(odrChanged, time, hwPollrate, writes);
      if !ok {
        return;
      }
      Drain(time, accepts);
    }

    /** The loop that closes WriteDataToPipe. */
    method Drain(time: int, accepts: nat -> bool)
      requires Valid()
      modifies gate`pipe, flushStack, flushStack.keys, flushStack.values
      ensures Valid()
      ensures var stack := old(flushStack.Contents()); var n := Due(stack, time);
              && flushStack.Contents() == stack[n..]
              && gate.State() == old(gate.State()).(pipe := old(gate.pipe) + Completions(stack[..n], handle, accepts))
    {
      ghost var stack, n := flushStack.Contents(), Due(flushStack.Contents(), time);
      assert stack[0..] == stack && stack[..0] == [] && Completions([], handle, accepts) == [];
      hide Counting, Due, Completions;
      var k := 0;
      var more := true;
      while more
        invariant Valid() && k <= n
        invariant flushStack.Contents() == stack[k..] && n == k + Due(stack[k..], time)
        invariant gate.State() == old(gate.State()).(pipe := old(gate.pipe) + Completions(stack[..k], handle, accepts))
        invariant !more ==> k == n
        decreases |stack| - k, if more then 1 else 0
      {
        more := DrainOne(time, accepts(k));
        OneRound(stack, k, time, handle, accepts);
        if more { k := k + 1; }
      }
    }

    /** One round of it; false when the oldest flush is not due or there is none. */
    method DrainOne(time: int, writes: bool) returns (more: bool)
      requires Valid()
      modifies gate`pipe, flushStack, flushStack.keys, flushStack.values
      ensures Valid()
      ensures var stack := old(flushStack.Contents());
              && more == (stack != [] && stack[0].0 >= 0 && stack[0].1 <= time)
              && flushStack.Contents() == (if more then stack[1..] else stack)
              && gate.State() == old(gate.State()).(pipe :=
                   old(gate.pipe) + if more && writes && stack[0].0 == handle then [FlushEvent(handle)] else [])
    {
      var flushHandle, timestampFlush := flushStack.ReadLastElement(0);
      if flushHandle >= 0 && timestampFlush <= time {
        flushStack.RemoveLastElement();
        if flushHandle == handle && writes {
          gate.pipe := gate.pipe + [FlushEvent(handle)];
        }
        return true;
      }
      return false;
    }
  }

  // ---------------------------------------------------------------- which flushes are drained

  /** Flushes are stacked under handles, and in the order of their timestamps. */
  ghost predicate InOrder(stack: seq<Entry>) {
    && (forall i :: 0 <= i < |stack| ==> stack[i].0 >= 0)
    && (forall i, j :: 0 <= i < j < |stack| ==> stack[i].1 <= stack[j].1)
  }

  /** Of flushes stacked in order, exactly those not later than the sample are drained. */
  lemma {:induction false} DrainsExactlyTheDue(stack: seq<Entry>, time: int, i: nat)
    requires InOrder(stack) && i < |stack|
    ensures i < Due(stack, time) <==> stack[i].1 <= time
    decreases |stack|
  {
    if stack[0].1 > time {
      assert stack[i].1 >= stack[0].1;
    } else if i > 0 {
      DrainsExactlyTheDue(stack[1..], time, i - 1);
    }
  }

  /** What one sample does to the pipe.  A pipe that refuses it gets nothing, and every flush goes on waiting.  Else those
      not later than the sample leave the stack and the others stay, in their order; and behind the sample the pipe gets
      one completion for each of this sensor's own among them that it takes. */
  lemma DeliverExactly(g: Gate, stack: seq<Entry>, own: nat, time: int, hwPollrate: nat, writes: bool, accepts: nat -> bool)
    requires hwPollrate > 0 && Counting(g) && InOrder(stack)
    ensures var h, (g', left) := Counted(Taken(g, time), Changes(g, time), time, hwPollrate, true), Deliver(g, stack, own, time, hwPollrate, writes, accepts);
            var falls := h.pipe != g.pipe;
            if falls && !writes then g'.pipe == g.pipe && left == stack
            else
              && h.pipe <= g'.pipe && (forall e <- g'.pipe[|h.pipe|..] :: e == FlushEvent(own))
              && |g'.pipe| - |h.pipe| == |OwnPlaces(stack[..|stack| - |left|], own, accepts)|
              && |left| <= |stack| && left == stack[|stack| - |left|..]
              && (forall i :: 0 <= i < |stack| ==> (i < |stack| - |left| <==> stack[i].1 <= time))
  {
    var n := Due(stack, time);
    OwnCompleted(stack[..n], own, accepts);
    forall i: nat | i < |stack| ensures i < n <==> stack[i].1 <= time { DrainsExactlyTheDue(stack, time, i); }
  }

  /** The places of the flushes that are completed. */
  function OwnPlaces(drained: seq<Entry>, own: nat, accepts: nat -> bool): set<nat> {
    set i: nat | i < |drained| && drained[i].0 == own && accepts(i)
  }

  lemma {:induction false} OwnCompleted(drained: seq<Entry>, own: nat, accepts: nat -> bool)
    ensures forall e <- Completions(drained, own, accepts) :: e == FlushEvent(own)
    ensures |Completions(drained, own, accepts)| == |OwnPlaces(drained, own, accepts)|
  {
    if drained != [] {
      var last := |drained| - 1;
      OwnCompleted(drained[..last], own, accepts);
      var before, all := OwnPlaces(drained[..last], own, accepts), OwnPlaces(drained, own, accepts);
      assert last !in before;
      if drained[last].0 == own && accepts(last) {
        assert all == before + {last};
      } else {
        assert all == before;
      }
    }
  }
}
