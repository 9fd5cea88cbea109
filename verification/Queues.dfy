/** The three bounded first-in first-out queues shared between threads.  Each keeps its entries at the
    front of fixed arrays and shifts them down when the oldest one leaves. */
module Queues {

  const ENOMEM := 12
  const EIO := 5
  const FLUSH_REQUESTED_MAX := 300
  const FLUSH_STACK_MAX := 300
  const ODR_STACK_MAX := 20

  /** What a bounded queue does with a new entry. */
  function Accepted<T>(q: seq<T>, capacity: nat, x: T): (r: seq<T>)
    ensures |q| <= capacity ==> |r| <= capacity
  {
    if |q| < capacity then q + [x] else q
  }

  function Rest<T>(q: seq<T>): (r: seq<T>)
    ensures |r| <= |q|
  {
    if q == [] then [] else q[1..]
  }

  /** The shift loop: the first n entries move down by one, over the first of them. */
  method ShiftDown(a: array<int>, n: nat)
    requires 0 < n <= a.Length
    modifies a
    ensures a[..n - 1] == old(a[1..n])
    ensures a[n - 1..] == old(a[n - 1..])
  {
    var i := 0;
    while i < n - 1
      invariant 0 <= i <= n - 1
      invariant forall k :: 0 <= k < i ==> a[k] == old(a[k + 1])
      invariant forall k :: i <= k < a.Length ==> a[k] == old(a[k])
    {
      a[i] := a[i + 1];
      i := i + 1;
    }
  }

  // ---------------------------------------------------------------- FlushRequested

  class FlushRequested {
    const handles: array<int>
    var elementsAvailable: nat

    ghost predicate Valid()
      reads this
    {
      handles.Length == FLUSH_REQUESTED_MAX && elementsAvailable <= FLUSH_REQUESTED_MAX
    }

    ghost function Contents(): seq<int>
      requires Valid()
      reads this, handles
    {
      handles[..elementsAvailable]
    }

    constructor ()
      ensures Valid() && fresh(handles) && Contents() == []
    {
      handles := new int[FLUSH_REQUESTED_MAX];
      elementsAvailable := 0;
    }

    method WriteElement(handle: int) returns (err: int)
      requires Valid()
      modifies this, handles
      ensures Valid() && Contents() == Accepted(old(Contents()), FLUSH_REQUESTED_MAX, handle)
      ensures err == if |old(Contents())| < FLUSH_REQUESTED_MAX then 0 else -ENOMEM
    {
      if elementsAvailable >= FLUSH_REQUESTED_MAX {
        return -ENOMEM;
      }
      handles[elementsAvailable] := handle;
      elementsAvailable := elementsAvailable + 1;
      return 0;
    }

    /** The oldest handle, which leaves the queue. */
    method ReadElement() returns (handle: int)
      requires Valid()
      modifies this, handles
      ensures Valid() && Contents() == Rest(old(Contents()))
      ensures handle == if old(Contents()) == [] then -EIO else old(Contents())[0]
    {
      if elementsAvailable == 0 {
        return -EIO;
      }
      handle := handles[0];
      ShiftDown(handles, elementsAvailable);
      elementsAvailable := elementsAvailable - 1;
    }

    method ResetBuffer()
      requires Valid()
      modifies this
      ensures Valid() && Contents() == []
    {
      elementsAvailable := 0;
    }
  }

  // ---------------------------------------------------------------- queues of pairs

  function Pairs(a: seq<int>, b: seq<int>): (r: seq<(int, int)>)
    requires |a| == |b|
    ensures |r| == |a|
  {
    seq(|a|, i requires 0 <= i < |a| => (a[i], b[i]))
  }

  lemma PairsRest(a: seq<int>, b: seq<int>)
    requires |a| == |b| > 0
    ensures Pairs(a, b)[1..] == Pairs(a[1..], b[1..])
  {
  }

  /** Both pair queues keep the two parts of an entry in two arrays and answer a read with the key of
      the oldest entry: for a FlushBufferStack the key is a handle and the value a timestamp, for a
      ChangeODRTimestampStack the key is a timestamp and the value a sampling period. */
  class PairQueue {
    const capacity: nat
    const keys: array<int>
    const values: array<int>
    var elementsAvailable: nat

    ghost predicate Valid()
      reads this
    {
      keys.Length == values.Length == capacity && keys != values && elementsAvailable <= capacity
    }

    /** Entries, oldest first. */
    ghost function Contents(): (c: seq<(int, int)>)
      requires Valid()
      reads this, keys, values
      ensures |c| == elementsAvailable
    {
      Pairs(keys[..elementsAvailable], values[..elementsAvailable])
    }

    /** FLUSH_STACK_MAX entries of (timestamp, handle) make a FlushBufferStack, ODR_STACK_MAX entries
        of (timestamp, rate) a ChangeODRTimestampStack. */
    constructor (capacity: nat)
      ensures Valid() && fresh(keys) && fresh(values) && this.capacity == capacity && Contents() == []
    {
      this.capacity := capacity;
      keys := new int[capacity];
      values := new int[capacity];
      elementsAvailable := 0;
    }

    method WriteElement(key: int, value: int) returns (err: int)
      requires Valid()
      modifies this, keys, values
      ensures Valid() && Contents() == Accepted(old(Contents()), capacity, (key, value))
      ensures err == if |old(Contents())| < capacity then 0 else -ENOMEM
    {
      if elementsAvailable >= capacity {
        return -ENOMEM;
      }
      keys[elementsAvailable] := key;
      values[elementsAvailable] := value;
      elementsAvailable := elementsAvailable + 1;
      assert Contents() == old(Contents()) + [(key, value)];
      return 0;
    }

    /** The oldest entry, which stays.  When there is none the key is an error code (which one caller
        goes on to compare as if it were a time), and `value` is what it was before. */
    method ReadLastElement(before: int) returns (key: int, value: int)
      requires Valid()
      ensures (key, value) == if Contents() == [] then (-EIO, before) else Contents()[0]
    {
      if elementsAvailable == 0 {
        return -EIO, before;
      }
      return keys[0], values[0];
    }

    method RemoveLastElement()
      requires Valid()
      modifies this, keys, values
      ensures Valid() && Contents() == Rest(old(Contents()))
    {
      if elementsAvailable == 0 {
        return;
      }
      PairsRest(keys[..elementsAvailable], values[..elementsAvailable]);
      assert keys[..elementsAvailable][1..] == keys[1..elementsAvailable];
      assert values[..elementsAvailable][1..] == values[1..elementsAvailable];
      ShiftDown(keys, elementsAvailable);
      ShiftDown(values, elementsAvailable);
      elementsAvailable := elementsAvailable - 1;
    }

    method ElementsOnStack() returns (n: nat)
      requires Valid()
      ensures n == |Contents()|
    {
      n := elementsAvailable;
    }

    method ResetBuffer()
      requires Valid()
      modifies this
      ensures Valid() && Contents() == []
    {
      elementsAvailable := 0;
    }
  }
}
