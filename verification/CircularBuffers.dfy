/** The synchronising circular buffer: an overwriting ring whose search for the sample nearest to a
    moment also throws away the samples before it. */
module CircularBuffers {

  const EFAULT := 14
  const ENOMEM := 12

  datatype Sample = Sample(timestamp: int, values: seq<real>, flushHandle: int, pollrate: int)

  /** The slot i places after `head` in a ring of the given length. */
  function SlotAt(head: nat, i: nat, length: nat): (slot: nat)
    requires head < length && i <= length
    ensures slot < length
  {
    if head + i < length then head + i else head + i - length
  }

  /** The slot behind this one. */
  function After(slot: nat, length: nat): (next: nat)
    requires slot < length
    ensures next < length
  {
    if slot + 1 == length then 0 else slot + 1
  }

  lemma AtHead(head: nat, length: nat)
    requires head < length
    ensures SlotAt(head, 0, length) == head
  {
  }

  lemma AfterSlot(head: nat, i: nat, length: nat)
    requires head < length && i < length
    ensures After(SlotAt(head, i, length), length) == SlotAt(head, i + 1, length)
  {
  }

  function Distance(x: Sample, moment: int): (d: int)
    ensures d >= 0
  {
    if x.timestamp < moment then moment - x.timestamp else x.timestamp - moment
  }

  /** The `count` slots from `head` on, read around the end of the ring. */
  function Ring(data: seq<Sample>, head: nat, count: nat): (c: seq<Sample>)
    requires head < |data| && count <= |data|
    ensures |c| == count
  {
    seq(count, i requires 0 <= i < count => data[SlotAt(head, i, |data|)])
  }

  lemma RingSuffix(data: seq<Sample>, head: nat, count: nat, k: nat)
    requires head < |data| && k <= count <= |data| && k < |data|
    ensures Ring(data, SlotAt(head, k, |data|), count - k) == Ring(data, head, count)[k..]
  {
  }

  function Appended(c: seq<Sample>, length: nat, x: Sample): seq<Sample>
    requires 0 < length && |c| <= length
  {
    if |c| == length then c[1..] + [x] else c + [x]
  }

  /** Writing the free slot of a ring that is not full appends. */
  lemma RingGrows(data: seq<Sample>, head: nat, count: nat, x: Sample)
    requires head < |data| && count < |data|
    ensures Ring(data[SlotAt(head, count, |data|) := x], head, count + 1) == Ring(data, head, count) + [x]
  {
  }

  /** Writing the free slot of a full ring, head moved on, drops the oldest and appends. */
  lemma RingTurns(data: seq<Sample>, head: nat, x: Sample)
    requires head < |data|
    ensures Ring(data[head := x], After(head, |data|), |data|) == Ring(data, head, |data|)[1..] + [x]
  {
  }

  lemma RingAppends(data: seq<Sample>, head: nat, count: nat, x: Sample)
    requires head < |data| && count <= |data|
    ensures Appended(Ring(data, head, count), |data|, x)
            == if count == |data| then Ring(data[head := x], After(head, |data|), count)
               else Ring(data[SlotAt(head, count, |data|) := x], head, count + 1)
  {
    if count == |data| {
      RingTurns(data, head, x);
    } else {
      RingGrows(data, head, count, x);
    }
  }

  // ---------------------------------------------------------------- what the buffer computes

  /** The search: walk on from k while the next sample is strictly nearer. */
  function SearchFrom(c: seq<Sample>, moment: int, k: nat): (r: nat)
    requires k < |c|
    ensures k <= r < |c|
    ensures r > k ==> Distance(c[r - 1], moment) > Distance(c[r], moment)
    ensures r + 1 < |c| ==> Distance(c[r + 1], moment) >= Distance(c[r], moment)
    decreases |c| - k
  {
    if k + 1 < |c| && Distance(c[k + 1], moment) < Distance(c[k], moment) then SearchFrom(c, moment, k + 1) else k
  }

  lemma SearchStep(c: seq<Sample>, moment: int, k: nat)
    requires k + 1 < |c|
    ensures SearchFrom(c, moment, k) == if Distance(c[k + 1], moment) < Distance(c[k], moment) then SearchFrom(c, moment, k + 1) else k
  {
  }

  class CircularBuffer {
    const length: nat
    var data: array<Sample>
    var firstAvailable: nat
    var firstFree: nat
    var elementsAvailable: nat

    ghost predicate Valid()
      reads this
    {
      && 0 < length == data.Length
      && elementsAvailable <= length && firstAvailable < length
      && firstFree == SlotAt(firstAvailable, elementsAvailable, length)
    }

    /** The samples that can be read, oldest first. */
    ghost function Contents(): (c: seq<Sample>)
      requires Valid()
      reads this, data
      ensures |c| == elementsAvailable
    {
      Ring(data[..], firstAvailable, elementsAvailable)
    }

    constructor (numElements: nat, filler: Sample)
      requires numElements > 0
      ensures Valid() && fresh(data) && length == numElements && Contents() == []
    {
      length := numElements;
      data := new Sample[numElements](_ => filler);
      firstAvailable, firstFree, elementsAvailable := 0, 0, 0;
    }

    method WriteElement(x: Sample) returns (err: int)
      requires Valid()
      modifies this`firstAvailable, this`firstFree, this`elementsAvailable, data
      ensures Valid() && data == old(data)
      ensures Contents() == Appended(old(Contents()), length, x)
      ensures err == if |old(Contents())| == length then -ENOMEM else 0
    {
      RingAppends(data[..], firstAvailable, elementsAvailable, x);
      if elementsAvailable == length {
        firstAvailable := After(firstAvailable, length);
      }
      data[firstFree] := x;
      assert data[..] == old(data[..])[old(firstFree) := x];
      firstFree := After(firstFree, length);
      if elementsAvailable < length {
        elementsAvailable := elementsAvailable + 1;
        err := 0;
      } else {
        err := -ENOMEM;
      }
    }

    /** Returns the number of samples left, or a negative error. */
    method ReadElement() returns (r: int, x: Sample)
      requires Valid()
      modifies this`firstAvailable, this`elementsAvailable
      ensures Valid()
      ensures var c := old(Contents());
              if c == [] then r == -EFAULT && Contents() == []
              else x == c[0] && Contents() == c[1..] && r == |c| - 1
    {
      ghost var c := Contents();
      x := data[firstAvailable];
      if elementsAvailable == 0 {
        return -EFAULT, x;
      }
      assert x == c[0];
      if length == 1 {
        assert c[1..] == [];
      }
      firstAvailable := After(firstAvailable, length);
      elementsAvailable := elementsAvailable - 1;
      if length > 1 {
        RingSuffix(data[..], old(firstAvailable), |c|, 1);
      }
      r := elementsAvailable;
    }

    method ReadSyncElement(timestampSync: int) returns (r: int, x: Sample)
      requires Valid()
      modifies this`firstAvailable, this`elementsAvailable
      ensures Valid()
      ensures var c := old(Contents());
              if c == [] || timestampSync <= 0 then r == -EFAULT && Contents() == c
              else var k := SearchFrom(c, timestampSync, 0);
                   x == c[k] && Contents() == c[k..] && r == |c| - k
    {
      hide SearchFrom;
      ghost var c := Contents();
      x := data[firstAvailable];
      if elementsAvailable == 0 || timestampSync <= 0 {
        return -EFAULT, x;
      }
      assert x == c[0];
      if elementsAvailable == 1 {
        assert c[0..] == c;
        return 1, x;
      }
      var i, next1, next2, nearer := Walk(timestampSync, c);
      if nearer {
        x := data[next2];
        DropBefore(next2, i);
      } else {
        x := data[next1];
        DropBefore(next1, i - 1);
      }
      r := elementsAvailable;
    }

    /** The oldest k samples go: `slot` becomes the first one available. */
    method DropBefore(slot: nat, k: nat)
      requires Valid() && k < elementsAvailable && slot == SlotAt(firstAvailable, k, length)
      modifies this`firstAvailable, this`elementsAvailable
      ensures Valid() && Contents() == old(Contents())[k..]
    {
      RingSuffix(data[..], firstAvailable, elementsAvailable, k);
      firstAvailable := slot;
      elementsAvailable := elementsAvailable - k;
    }

    /** The search loop: two neighbouring slots, i - 1 and i places on, and whether the second is nearer. */
    method Walk(timestampSync: int, ghost c: seq<Sample>) returns (i: nat, next1: nat, next2: nat, nearer: bool)
      requires Valid() && |c| == elementsAvailable > 1
      requires forall j {:trigger c[j]} :: 0 <= j < |c| ==> c[j] == data[SlotAt(firstAvailable, j, length)]
      ensures 1 <= i < elementsAvailable
      ensures next1 == SlotAt(firstAvailable, i - 1, length) && next2 == SlotAt(firstAvailable, i, length)
      ensures data[next1] == c[i - 1] && data[next2] == c[i]
      ensures SearchFrom(c, timestampSync, 0) == if nearer then i else i - 1
    {
      hide SearchFrom;
      hide SlotAt;
      hide After;
      AtHead(firstAvailable, length);
      AfterSlot(firstAvailable, 0, length);
      next1 := firstAvailable;
      next2 := After(next1, length);
      i := 1;
      var timediff1 := Distance(data[next1], timestampSync);
      var timediff2 := Distance(data[next2], timestampSync);
      while timediff2 < timediff1 && i < elementsAvailable - 1
        invariant 1 <= i < elementsAvailable
        invariant next1 == SlotAt(firstAvailable, i - 1, length) && next2 == SlotAt(firstAvailable, i, length)
        invariant timediff1 == Distance(c[i - 1], timestampSync) && timediff2 == Distance(c[i], timestampSync)
        invariant SearchFrom(c, timestampSync, 0) == SearchFrom(c, timestampSync, i - 1)
        decreases elementsAvailable - i
      {
        SearchStep(c, timestampSync, i - 1);
        AfterSlot(firstAvailable, i - 1, length);
        AfterSlot(firstAvailable, i, length);
        i := i + 1;
        next1 := After(next1, length);
        timediff1 := Distance(data[next1], timestampSync);
        next2 := After(next1, length);
        timediff2 := Distance(data[next2], timestampSync);
      }
      nearer := timediff2 < timediff1;
      SearchStep(c, timestampSync, i - 1);
    }

    method ResetBuffer()
      requires Valid()
      modifies this`firstAvailable, this`firstFree, this`elementsAvailable
      ensures Valid() && Contents() == []
    {
      elementsAvailable, firstFree, firstAvailable := 0, 0, 0;
    }
  }

  // ---------------------------------------------------------------- the reference

  /** A plain scan of everything: the sample nearest to the moment, the earlier one on ties. */
  function Nearest(s: seq<Sample>, moment: int): Sample
    requires s != []
  {
    var last := |s| - 1;
    if last == 0 then s[0]
    else
      var best := Nearest(s[..last], moment);
      if Distance(s[last], moment) < Distance(best, moment) then s[last] else best
  }

  /** The last n samples written. */
  function Window(history: seq<Sample>, n: nat): seq<Sample> {
    if |history| <= n then history else history[|history| - n..]
  }

  predicate Earlier(s: seq<Sample>, i: nat, j: nat) {
    i < j < |s| ==> s[i].timestamp < s[j].timestamp
  }

  ghost predicate Increasing(s: seq<Sample>) {
    forall i: nat, j: nat {:trigger Earlier(s, i, j)} :: Earlier(s, i, j)
  }

  lemma {:induction false} NearestIs(s: seq<Sample>, moment: int, k: nat)
    requires k < |s|
    requires forall j :: 0 <= j < k ==> Distance(s[j], moment) > Distance(s[k], moment)
    requires forall j :: k < j < |s| ==> Distance(s[j], moment) >= Distance(s[k], moment)
    ensures Nearest(s, moment) == s[k]
  {
    var last := |s| - 1;
    if last > 0 {
      if k < last {
        NearestIs(s[..last], moment, k);
      } else {
        NearestIsSome(s[..last], moment);
      }
    }
  }

  lemma {:induction false} NearestIsSome(s: seq<Sample>, moment: int)
    requires s != []
    ensures Nearest(s, moment) in s
  {
    if |s| > 1 { NearestIsSome(s[..|s| - 1], moment); }
  }

  /** No sample is nearer to the moment than the answer of the scan, on either side; and of two that are equally near,
      with rising timestamps, the answer is the earlier. */
  lemma {:induction false} NothingIsNearer(s: seq<Sample>, moment: int, j: nat)
    requires j < |s|
    ensures var best, other := Nearest(s, moment).timestamp, s[j].timestamp;
            && (best <= moment ==> other <= best || other >= 2 * moment - best)
            && (best >= moment ==> other >= best || other <= 2 * moment - best)
            && (Increasing(s) && other + best == 2 * moment ==> best <= other)
  {
    var last := |s| - 1;
    if last > 0 {
      var shorter := s[..last];
      if Increasing(s) {
        forall a: nat, b: nat | a < b < last ensures Earlier(shorter, a, b) { assert Earlier(s, a, b); }
        assert Earlier(s, 0, last);
      }
      NothingIsNearer(shorter, moment, if j < last then j else 0);
      NearestBeforeLast(s, moment);
    }
  }

  lemma NearestBeforeLast(s: seq<Sample>, moment: int)
    requires |s| > 1
    ensures Increasing(s) ==> Nearest(s[..|s| - 1], moment).timestamp < s[|s| - 1].timestamp
  {
    var last := |s| - 1;
    NearestIsSome(s[..last], moment);
    var i :| 0 <= i < last && s[..last][i] == Nearest(s[..last], moment);
    if Increasing(s) { assert Earlier(s, i, last); }
  }

  // ---------------------------------------------------------------- refinement over runs

  datatype Op = Write(sample: Sample) | Sync(moment: int)
  datatype Answer = Nothing | Found(sample: Sample)

  function StepBuffer(c: seq<Sample>, n: nat, op: Op): (r: (seq<Sample>, seq<Answer>))
    requires 0 < n && |c| <= n
    ensures |r.0| <= n
  {
    match op
    case Write(x) => (Appended(c, n, x), [])
    case Sync(q) =>
      if c == [] || q <= 0 then (c, [Nothing])
      else
        var k := SearchFrom(c, q, 0);
        (c[k..], [Found(c[k])])
  }

  /** The buffer over a run: what it answers to the synchronised reads. */
  function RunBuffer(c: seq<Sample>, n: nat, ops: seq<Op>): seq<Answer>
    requires 0 < n && |c| <= n
    decreases |ops|
  {
    if ops == [] then []
    else
      var r := StepBuffer(c, n, ops[0]);
      r.1 + RunBuffer(r.0, n, ops[1..])
  }

  /** The reference keeps every sample ever written and discards nothing. */
  function StepReference(history: seq<Sample>, n: nat, op: Op): (seq<Sample>, seq<Answer>)
    requires 0 < n
  {
    match op
    case Write(x) => (history + [x], [])
    case Sync(q) =>
      (history, [if history == [] || q <= 0 then Nothing else Found(Nearest(Window(history, n), q))])
  }

  function RunReference(history: seq<Sample>, n: nat, ops: seq<Op>): seq<Answer>
    requires 0 < n
    decreases |ops|
  {
    if ops == [] then []
    else
      var r := StepReference(history, n, ops[0]);
      r.1 + RunReference(r.0, n, ops[1..])
  }

  predicate TimelyStep(history: seq<Sample>, lastMoment: int, op: Op) {
    match op
    case Write(x) => history == [] || history[|history| - 1].timestamp < x.timestamp
    case Sync(q) => lastMoment <= q
  }

  function NextMoment(lastMoment: int, op: Op): int {
    if op.Sync? then op.moment else lastMoment
  }

  /** Sample timestamps strictly increase and the moments asked for never go back. */
  predicate Timely(history: seq<Sample>, lastMoment: int, n: nat, ops: seq<Op>)
    requires 0 < n
    decreases |ops|
  {
    ops == [] ||
    (TimelyStep(history, lastMoment, ops[0])
     && Timely(StepReference(history, n, ops[0]).0, NextMoment(lastMoment, ops[0]), n, ops[1..]))
  }

  function WindowStart(history: seq<Sample>, n: nat): (w: nat)
    ensures w <= |history| && Window(history, n) == history[w..]
  {
    if |history| <= n then 0 else |history| - n
  }

  /** The contents are the history from `start` on.  If part of the window has been discarded, its last
      sample is already farther from the latest moment than the oldest sample kept. */
  ghost predicate Represents(history: seq<Sample>, start: nat, n: nat, lastMoment: int) {
    && 0 < n && WindowStart(history, n) <= start <= |history|
    && (history != [] ==> start < |history|)
    && Increasing(history)
    && (WindowStart(history, n) < start < |history| ==>
          Distance(history[start - 1], lastMoment) > Distance(history[start], lastMoment))
  }

  lemma LaterIsFarther(a: Sample, b: Sample, moment: int, later: int)
    requires a.timestamp < b.timestamp && moment <= later && Distance(a, moment) > Distance(b, moment)
    ensures Distance(a, later) > Distance(b, later)
  {
  }

  lemma {:induction false} SearchShifts(history: seq<Sample>, start: nat, moment: int, k: nat)
    requires start + k < |history|
    ensures start + SearchFrom(history[start..], moment, k) == SearchFrom(history, moment, start + k)
    decreases |history| - k
  {
    var c := history[start..];
    if k + 1 < |c| && Distance(c[k + 1], moment) < Distance(c[k], moment) {
      SearchShifts(history, start, moment, k + 1);
    }
  }

  /** On a strictly increasing sequence, once everything from lo up to k is farther than k, the search
      from k stops at the sample nearest among all from lo on. */
  lemma {:induction false} SearchFindsNearest(h: seq<Sample>, moment: int, lo: nat, k: nat)
    requires lo <= k < |h| && Increasing(h)
    requires forall j :: lo <= j < k ==> Distance(h[j], moment) > Distance(h[k], moment)
    ensures var r := SearchFrom(h, moment, k);
            && (forall j :: lo <= j < r ==> Distance(h[j], moment) > Distance(h[r], moment))
            && (forall j :: r < j < |h| ==> Distance(h[j], moment) >= Distance(h[r], moment))
    decreases |h| - k
  {
    if k + 1 < |h| && Distance(h[k + 1], moment) < Distance(h[k], moment) {
      SearchFindsNearest(h, moment, lo, k + 1);
    } else {
      forall j | k < j < |h| ensures Distance(h[j], moment) >= Distance(h[k], moment) {
        assert Earlier(h, k, k + 1) && Earlier(h, k + 1, j);
      }
    }
  }

  lemma DroppedAreFarther(h: seq<Sample>, start: nat, n: nat, lastMoment: int, q: int, j: nat)
    requires Represents(h, start, n, lastMoment) && lastMoment <= q && WindowStart(h, n) <= j < start < |h|
    ensures Distance(h[j], q) > Distance(h[start], q)
  {
    assert Earlier(h, start - 1, start) && Earlier(h, j, start - 1);
    LaterIsFarther(h[start - 1], h[start], lastMoment, q);
  }

  /** One synchronised read answers like the reference and leaves a representation behind. */
  lemma {:induction false} SyncAgrees(h: seq<Sample>, start: nat, n: nat, lastMoment: int, q: int)
    requires Represents(h, start, n, lastMoment) && lastMoment <= q && start < |h|
    ensures var r := SearchFrom(h, q, start);
            h[r] == Nearest(Window(h, n), q) && Represents(h, r, n, q)
  {
    var r := SearchFrom(h, q, start);
    var lo := WindowStart(h, n);
    forall j | lo <= j < start ensures Distance(h[j], q) > Distance(h[start], q) {
      DroppedAreFarther(h, start, n, lastMoment, q, j);
    }
    SearchFindsNearest(h, q, lo, start);
    NearestIs(h[lo..], q, r - lo);
  }

  lemma WriteKeeps(h: seq<Sample>, start: nat, n: nat, lastMoment: int, x: Sample)
    requires Represents(h, start, n, lastMoment) && (h == [] || h[|h| - 1].timestamp < x.timestamp)
    ensures var start' := if |h| - start == n then start + 1 else start;
            Represents(h + [x], start', n, lastMoment) && Appended(h[start..], n, x) == (h + [x])[start'..]
  {
    var h' := h + [x];
    forall i: nat, j: nat ensures Earlier(h', i, j) {
      assert Earlier(h, i, j);
      if i < |h| == j { assert Earlier(h, i, |h| - 1); }
    }
    DropAppend(h, start, x);
    if |h| - start == n {
      assert h[start..][1..] == h[start + 1..];
      DropAppend(h, start + 1, x);
    }
  }

  lemma DropAppend(h: seq<Sample>, start: nat, x: Sample)
    requires start <= |h|
    ensures h[start..] + [x] == (h + [x])[start..]
  {
    var a, b := h[start..] + [x], (h + [x])[start..];
    assert |a| == |b|;
    forall i | 0 <= i < |a| ensures a[i] == b[i] {
      if i < |h| - start { assert a[i] == h[start + i] == b[i]; } else { assert a[i] == x == b[i]; }
    }
  }

  lemma SyncShifts(h: seq<Sample>, start: nat, n: nat, q: int)
    requires start < |h| && |h| - start <= n && 0 < n && q > 0
    ensures var k := SearchFrom(h, q, start); StepBuffer(h[start..], n, Sync(q)) == (h[k..], [Found(h[k])])
  {
    hide SearchFrom, Distance;
    SearchShifts(h, start, q, 0);
    var k := SearchFrom(h, q, start);
    assert h[start..][k - start..] == h[k..] && h[start..][k - start] == h[k];
  }

  lemma {:induction false} SyncStepAgrees(h: seq<Sample>, start: nat, n: nat, lastMoment: int, q: int) returns (start': nat)
    requires Represents(h, start, n, lastMoment) && lastMoment <= q && h != [] && q > 0
    ensures Represents(h, start', n, q)
    ensures StepBuffer(h[start..], n, Sync(q)) == (h[start'..], [Found(Nearest(Window(h, n), q))])
  {
    hide Nearest;
    hide Window;
    SyncAgrees(h, start, n, lastMoment, q);
    start' := SearchFrom(h, q, start);
    SyncShifts(h, start, n, q);
  }

  /** One operation: equal answers, and the new contents represent the new history. */
  lemma {:induction false} StepAgrees(h: seq<Sample>, start: nat, n: nat, lastMoment: int, op: Op) returns (start': nat)
    requires Represents(h, start, n, lastMoment) && TimelyStep(h, lastMoment, op)
    ensures var (c', answers) := StepBuffer(h[start..], n, op);
            var (h', expected) := StepReference(h, n, op);
            answers == expected && Represents(h', start', n, NextMoment(lastMoment, op)) && c' == h'[start'..]
  {
    hide Nearest;
    hide Window;
    hide SearchFrom;
    match op
    case Write(x) =>
      start' := if |h| - start == n then start + 1 else start;
      WriteKeeps(h, start, n, lastMoment, x);
    case Sync(q) =>
      if h == [] || q <= 0 {
        start' := start;
        LaterMoment(h, start, n, lastMoment, q);
      } else {
        start' := SyncStepAgrees(h, start, n, lastMoment, q);
      }
  }

  lemma {:induction false} RunsAgreeFrom(h: seq<Sample>, start: nat, n: nat, lastMoment: int, ops: seq<Op>)
    requires Represents(h, start, n, lastMoment) && Timely(h, lastMoment, n, ops)
    ensures RunBuffer(h[start..], n, ops) == RunReference(h, n, ops)
    decreases |ops|
  {
    hide StepBuffer;
    hide StepReference;
    if ops != [] {
      var start' := StepAgrees(h, start, n, lastMoment, ops[0]);
      RunsAgreeFrom(StepReference(h, n, ops[0]).0, start', n, NextMoment(lastMoment, ops[0]), ops[1..]);
    }
  }

  lemma LaterMoment(h: seq<Sample>, start: nat, n: nat, lastMoment: int, q: int)
    requires Represents(h, start, n, lastMoment) && lastMoment <= q
    ensures Represents(h, start, n, q)
  {
    if WindowStart(h, n) < start < |h| {
      assert Earlier(h, start - 1, start);
      LaterIsFarther(h[start - 1], h[start], lastMoment, q);
    }
  }

  /** Over every timely interleaving of writes and synchronised reads, starting empty, the buffer
      answers like the reference that scans the last n samples ever written. */
  lemma {:induction false} BufferRefinesReference(n: nat, firstMoment: int, ops: seq<Op>)
    requires 0 < n && Timely([], firstMoment, n, ops)
    ensures RunBuffer([], n, ops) == RunReference([], n, ops)
  {
    var none: seq<Sample> := [];
    assert none[0..] == none;
    RunsAgreeFrom(none, 0, n, firstMoment, ops);
  }

  /** The buffer object doing what it is asked, in turn. */
  method Serve(b: CircularBuffer, ops: seq<Op>) returns (answers: seq<Answer>)
    requires b.Valid()
    modifies b, b.data
    ensures b.Valid() && b.data == old(b.data)
    ensures answers == RunBuffer(old(b.Contents()), b.length, ops)
    ensures old(b.Contents()) == [] ==>
              forall firstMoment :: Timely([], firstMoment, b.length, ops) ==> answers == RunReference([], b.length, ops)
  {
    hide StepBuffer, RunReference, Timely, Ring;
    ghost var c, n := b.Contents(), b.length;
    answers := [];
    for i := 0 to |ops|
      invariant b.Valid() && b.data == old(b.data)
      invariant answers + RunBuffer(b.Contents(), n, ops[i..]) == RunBuffer(c, n, ops)
    {
      ghost var before := b.Contents();
      var answer := ServeOne(b, ops[i]);
      RunTail(before, n, ops, i);
      answers := answers + answer;
    }
    forall firstMoment | c == [] && Timely([], firstMoment, n, ops) ensures answers == RunReference([], n, ops) {
      BufferRefinesReference(n, firstMoment, ops);
    }
  }

  lemma RunTail(c: seq<Sample>, n: nat, ops: seq<Op>, i: nat)
    requires 0 < n && |c| <= n && i < |ops|
    ensures var r := StepBuffer(c, n, ops[i]); RunBuffer(c, n, ops[i..]) == r.1 + RunBuffer(r.0, n, ops[i + 1..])
  {
    assert ops[i..][0] == ops[i] && ops[i..][1..] == ops[i + 1..];
  }

  method ServeOne(b: CircularBuffer, op: Op) returns (answer: seq<Answer>)
    requires b.Valid()
    modifies b, b.data
    ensures b.Valid() && b.data == old(b.data)
    ensures (b.Contents(), answer) == StepBuffer(old(b.Contents()), b.length, op)
  {
    match op {
      case Write(x) =>
        var err := b.WriteElement(x);
        answer := [];
      case Sync(q) =>
        var r, x := b.ReadSyncElement(q);
        answer := [if r < 0 then Nothing else Found(x)];
    }
  }
}
