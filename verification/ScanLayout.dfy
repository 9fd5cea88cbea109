/** Where the channels of a scan lie in the byte buffer: ordering by index and greedy aligned placement. */
module ScanLayout {
  import opened Division

  datatype Channel = Channel(
    index: nat,
    bytes: nat,
    bitsUsed: nat,
    shift: nat,
    bigEndian: bool,
    signed: bool,
    scale: real,
    offset: real,
    location: nat)

  // ---------------------------------------------------------------- reordering

  /** The channel carried along by a sweep moves past every smaller index and is dropped before a greater one. */
  function Carry(c: Channel, s: seq<Channel>): (r: seq<Channel>)
    ensures |r| == |s| + 1
    decreases |s|
  {
    if s == [] then [c]
    else if c.index > s[0].index then [s[0]] + Carry(c, s[1..])
    else [c] + Carry(s[0], s[1..])
  }

  /** One sweep over the channels, swapping neighbours that are out of order. */
  function Sweep(s: seq<Channel>): (r: seq<Channel>)
    ensures |r| == |s|
  {
    if s == [] then [] else Carry(s[0], s[1..])
  }

  function Sweeps(s: seq<Channel>, n: nat): (r: seq<Channel>)
    ensures |r| == |s|
  {
    if n == 0 then s else Sweep(Sweeps(s, n - 1))
  }

  ghost predicate Sorted(s: seq<Channel>) {
    forall i, j :: 0 <= i < j < |s| ==> s[i].index <= s[j].index
  }

  /** The channels with index v, in order. */
  function WithIndex(s: seq<Channel>, v: nat): seq<Channel> {
    if s == [] then [] else One(s[0], v) + WithIndex(s[1..], v)
  }

  /** The bubble sort of scan_channel. */
  method Reorder(data: array<Channel>)
    modifies data
    ensures data[..] == Sweeps(old(data[..]), data.Length)
  {
    var n := data.Length;
    for x := 0 to n
      invariant data[..] == Sweeps(old(data[..]), x)
    {
      SweepOnce(data);
    }
  }

  /** What the sweep makes of the channels once it has reached place y. */
  ghost function SweptFrom(s: seq<Channel>, y: nat): seq<Channel>
    requires y < |s|
  {
    s[..y] + Carry(s[y], s[y + 1..])
  }

  lemma SwapIsOneStep(s: seq<Channel>, t: seq<Channel>, y: nat)
    requires y + 1 < |s| == |t| && t[..y] == s[..y] && t[y + 2..] == s[y + 2..]
    requires if s[y].index > s[y + 1].index then t[y] == s[y + 1] && t[y + 1] == s[y] else t[y] == s[y] && t[y + 1] == s[y + 1]
    ensures SweptFrom(t, y + 1) == SweptFrom(s, y)
  {
    var rest := s[y + 1..];
    assert rest[0] == s[y + 1] && rest[1..] == s[y + 2..];
    assert Carry(s[y], rest) == [t[y]] + Carry(t[y + 1], s[y + 2..]);
    assert t[..y + 1] == s[..y] + [t[y]];
  }

  /** The inner loop. */
  method SweepOnce(data: array<Channel>)
    modifies data
    ensures data[..] == Sweep(old(data[..]))
  {
    var n := data.Length;
    var y := 0;
    while y < n - 1
      invariant 0 <= y && (n > 0 ==> y < n)
      invariant n > 0 ==> SweptFrom(data[..], y) == Sweep(old(data[..]))
    {
      ghost var before := data[..];
      SwapNeighbours(data, y);
      SwapIsOneStep(before, data[..], y);
      y := y + 1;
    }
    assert n > 0 ==> SweptFrom(data[..], y) == data[..];
  }

  /** Swap a channel with its successor when they are out of order. */
  method SwapNeighbours(data: array<Channel>, y: nat)
    requires y + 1 < data.Length
    modifies data
    ensures data[..][..y] == old(data[..])[..y] && data[..][y + 2..] == old(data[..])[y + 2..]
    ensures if old(data[y].index > data[y + 1].index) then data[y] == old(data[y + 1]) && data[y + 1] == old(data[y])
            else data[y] == old(data[y]) && data[y + 1] == old(data[y + 1])
  {
    if data[y].index > data[y + 1].index {
      var ord := data[y + 1];
      data[y + 1] := data[y];
      data[y] := ord;
    }
  }

  lemma {:induction false} CarryPermutes(c: Channel, s: seq<Channel>)
    ensures multiset(Carry(c, s)) == multiset([c] + s)
    decreases |s|
  {
    if s != [] {
      assert s == [s[0]] + s[1..];
      CarryPermutes(if c.index > s[0].index then c else s[0], s[1..]);
    }
  }

  function One(c: Channel, v: nat): seq<Channel> { if c.index == v then [c] else [] }

  /** A sweep never changes the order of channels with the same index. */
  lemma {:induction false} CarryIsStable(c: Channel, s: seq<Channel>, v: nat)
    ensures WithIndex(Carry(c, s), v) == One(c, v) + WithIndex(s, v)
    decreases |s|
  {
    if s != [] {
      var next, first := if c.index > s[0].index then c else s[0], if c.index > s[0].index then s[0] else c;
      CarryIsStable(next, s[1..], v);
      var rest := Carry(next, s[1..]);
      assert Carry(c, s) == [first] + rest;
      WithIndexOfCons(first, rest, v);
      WithIndexOfCons(s[0], s[1..], v);
      assert s == [s[0]] + s[1..];
    }
  }

  lemma WithIndexOfCons(c: Channel, s: seq<Channel>, v: nat)
    ensures WithIndex([c] + s, v) == One(c, v) + WithIndex(s, v)
  {
    assert ([c] + s)[1..] == s;
  }

  /** The greatest of m and the first n indices. */
  function Top(m: nat, s: seq<Channel>, n: nat): (t: nat)
    requires n <= |s|
    ensures t >= m && forall i :: 0 <= i < n ==> t >= s[i].index
    decreases n
  {
    if n == 0 then m else
      var before := Top(m, s, n - 1);
      if before < s[n - 1].index then s[n - 1].index else before
  }

  lemma {:induction false} TopFromFront(m: nat, s: seq<Channel>, n: nat)
    requires 0 < n <= |s|
    ensures Top(m, s, n) == Top(if m < s[0].index then s[0].index else m, s[1..], n - 1)
  {
    if n > 1 { TopFromFront(m, s, n - 1); }
  }

  lemma {:induction false} TopBelow(m: nat, s: seq<Channel>, n: nat, bound: nat)
    requires n <= |s| && m <= bound && forall i :: 0 <= i < n ==> s[i].index <= bound
    ensures Top(m, s, n) <= bound
  {
    if n > 0 { TopBelow(m, s, n - 1, bound); }
  }

  lemma {:induction false} TopGrows(m: nat, s: seq<Channel>, n: nat, k: nat)
    requires n <= k <= |s|
    ensures Top(m, s, n) <= Top(m, s, k)
  {
    if n < k { TopGrows(m, s, n, k - 1); }
  }

  function Lesser(a: nat, b: nat): nat { if a < b then a else b }

  /** A sweep leaves at each place the lesser of the greatest index so far and the next one. */
  lemma {:induction false} CarryAt(c: Channel, s: seq<Channel>, j: nat)
    requires j <= |s|
    ensures Carry(c, s)[j].index == if j < |s| then Lesser(Top(c.index, s, j), s[j].index) else Top(c.index, s, j)
    decreases |s|
  {
    if j > 0 {
      CarryAt(if c.index > s[0].index then c else s[0], s[1..], j - 1);
      TopFromFront(c.index, s, j);
    }
  }

  /** The last k channels are where they belong. */
  ghost predicate TailSettled(s: seq<Channel>, k: nat) {
    k <= |s| && forall i, j :: 0 <= i < j < |s| && |s| - k <= j ==> s[i].index <= s[j].index
  }

  lemma {:induction false} SweepSettlesOneMore(s: seq<Channel>, k: nat, i: nat, j: nat)
    requires k < |s| && TailSettled(s, k)
    requires i < j < |s| && |s| - k - 1 <= j
    ensures Sweep(s)[i].index <= Sweep(s)[j].index
  {
    var c, t := s[0], s[1..];
    CarryAt(c, t, i);
    CarryAt(c, t, j);
    TopGrows(c.index, t, i, j);
    if j < |t| { TopBelow(c.index, t, j, s[j + 1].index); }
  }

  lemma {:induction false} SweepsSettle(s: seq<Channel>, k: nat)
    requires k <= |s|
    ensures TailSettled(Sweeps(s, k), k)
  {
    if k > 0 {
      SweepsSettle(s, k - 1);
      var u := Sweeps(s, k - 1);
      forall i: nat, j: nat | i < j < |u| && |u| - k <= j ensures Sweep(u)[i].index <= Sweep(u)[j].index {
        SweepSettlesOneMore(u, k - 1, i, j);
      }
    }
  }

  lemma SweepPermutes(s: seq<Channel>, v: nat)
    ensures multiset(Sweep(s)) == multiset(s) && WithIndex(Sweep(s), v) == WithIndex(s, v)
  {
    if s != [] {
      assert s == [s[0]] + s[1..];
      CarryPermutes(s[0], s[1..]);
      CarryIsStable(s[0], s[1..], v);
    }
  }

  lemma {:induction false} SweepsPermute(s: seq<Channel>, n: nat, v: nat)
    ensures multiset(Sweeps(s, n)) == multiset(s) && WithIndex(Sweeps(s, n), v) == WithIndex(s, v)
  {
    hide Sweep, WithIndex;
    if n > 0 {
      SweepsPermute(s, n - 1, v);
      SweepPermutes(Sweeps(s, n - 1), v);
    }
  }

  /** The reordered channels are sorted by index, a permutation, and equal indices keep their order. */
  lemma ReorderSorts(s: seq<Channel>, v: nat)
    ensures Sorted(Sweeps(s, |s|)) && multiset(Sweeps(s, |s|)) == multiset(s)
    ensures WithIndex(Sweeps(s, |s|), v) == WithIndex(s, v)
  {
    SweepsSettle(s, |s|);
    SweepsPermute(s, |s|, v);
  }

  // ---------------------------------------------------------------- placement

  /** The first multiple of the size at or after `end`. */
  function Place(end: nat, bytes: nat): (location: nat)
    requires bytes > 0
    ensures end <= location < end + bytes
  {
    if end % bytes == 0 then end else end - end % bytes + bytes
  }

  /** A channel placed after `end`, and the end of the scan after it; an empty one takes no room. */
  function Located(c: Channel, end: nat): Channel {
    c.(location := if c.bytes == 0 then 0 else Place(end, c.bytes))
  }

  function Next(c: Channel, end: nat): (next: nat)
    ensures end <= next
  {
    if c.bytes == 0 then end else Place(end, c.bytes) + c.bytes
  }

  /** The channels with their locations, and the size of the scan. */
  function Layout(s: seq<Channel>, end: nat): (r: (seq<Channel>, nat))
    ensures |r.0| == |s| && end <= r.1
    decreases |s|
  {
    if s == [] then ([], end)
    else
      var (rest, size) := Layout(s[1..], Next(s[0], end));
      ([Located(s[0], end)] + rest, size)
  }

  lemma LayoutFrom(s: seq<Channel>, i: nat, end: nat)
    requires i < |s|
    ensures Layout(s[i..], end).0 == [Located(s[i], end)] + Layout(s[i + 1..], Next(s[i], end)).0
    ensures Layout(s[i..], end).1 == Layout(s[i + 1..], Next(s[i], end)).1
  {
    assert s[i..][1..] == s[i + 1..];
  }

  /** size_from_channelarray. */
  method SizeFromChannelArray(channels: array<Channel>) returns (bytes: nat)
    modifies channels
    ensures (channels[..], bytes) == Layout(old(channels[..]), 0)
  {
    bytes := 0;
    ghost var was := channels[..];
    var i := 0;
    assert was[0..] == was && channels[..0] + Layout(was, 0).0 == Layout(was, 0).0;
    while i < channels.Length
      invariant 0 <= i <= channels.Length
      invariant channels[i..] == was[i..]
      invariant channels[..i] + Layout(was[i..], bytes).0 == Layout(was, 0).0
      invariant Layout(was[i..], bytes).1 == Layout(was, 0).1
    {
      hide Located, Next, Layout;
      ghost var before := channels[..i];
      LayoutFrom(was, i, bytes);
      assert channels[i] == was[i..][0];
      bytes := PlaceChannel(channels, i, bytes);
      assert channels[..i + 1] == before + [channels[i]];
      assert channels[i + 1..] == was[i + 1..];
      i := i + 1;
    }
    assert channels[..i] + [] == channels[..];
  }

  /** The body of its loop. */
  method PlaceChannel(channels: array<Channel>, i: nat, end: nat) returns (bytes: nat)
    requires i < channels.Length
    modifies channels
    ensures channels[i] == Located(old(channels[i]), end) && bytes == Next(old(channels[i]), end)
    ensures channels[..i] == old(channels[..i]) && channels[i + 1..] == old(channels[i + 1..])
  {
    bytes := end;
    channels[i] := channels[i].(location := 0);
    if channels[i].bytes != 0 {
      if bytes % channels[i].bytes == 0 {
        channels[i] := channels[i].(location := bytes);
      } else {
        channels[i] := channels[i].(location := bytes - bytes % channels[i].bytes + channels[i].bytes);
      }
      bytes := channels[i].location + channels[i].bytes;
    }
  }

  /** A layout in order: every non-empty channel is aligned to its size and lies behind all before it;
      `size` is where the last one ends. */
  ghost predicate Aligned(s: seq<Channel>, end: nat, size: nat)
    decreases |s|
  {
    if s == [] then end == size
    else if s[0].bytes == 0 then Aligned(s[1..], end, size)
    else end <= s[0].location && s[0].location % s[0].bytes == 0 && Aligned(s[1..], s[0].location + s[0].bytes, size)
  }

  lemma PlaceIsAligned(end: nat, bytes: nat)
    requires bytes > 0
    ensures Place(end, bytes) % bytes == 0
  {
    if end % bytes != 0 {
      assert end == end / bytes * bytes + end % bytes;
      DivisionIsUnique(Place(end, bytes), end / bytes + 1, bytes, 0);
    }
  }

  /** No multiple of the size lies between `end` and the place chosen. */
  lemma PlaceIsFirst(end: nat, bytes: nat, other: nat)
    requires bytes > 0 && end <= other && other % bytes == 0
    ensures Place(end, bytes) <= other
  {
    if end % bytes != 0 {
      var q, b := end / bytes, other / bytes;
      assert end == q * bytes + end % bytes && other == b * bytes;
      assert (b - q) * bytes >= end % bytes;
      if b < q {
        AtLeastOnce(q - b, bytes);
        assert false;
      }
      assert b != q;
      AtLeastOnce(b - q, bytes);
    }
  }

  lemma {:induction false} LayoutIsAligned(s: seq<Channel>, end: nat)
    ensures Aligned(Layout(s, end).0, end, Layout(s, end).1)
    decreases |s|
  {
    if s != [] {
      if s[0].bytes != 0 { PlaceIsAligned(end, s[0].bytes); }
      LayoutIsAligned(s[1..], Next(s[0], end));
      assert Layout(s, end).0[1..] == Layout(s[1..], Next(s[0], end)).0;
    }
  }

  /** The same channels but for their locations. */
  ghost predicate SameSizes(s: seq<Channel>, t: seq<Channel>) {
    |s| == |t| && forall i :: 0 <= i < |s| ==> s[i].bytes == t[i].bytes
  }

  /** No other aligned layout in the same order is smaller. */
  lemma {:induction false} LayoutIsSmallest(s: seq<Channel>, end: nat, t: seq<Channel>, end': nat, size: nat)
    requires SameSizes(s, t) && end <= end' && Aligned(t, end', size)
    ensures Layout(s, end).1 <= size
    decreases |s|
  {
    if s != [] {
      if s[0].bytes == 0 {
        LayoutIsSmallest(s[1..], end, t[1..], end', size);
      } else {
        PlaceIsFirst(end, s[0].bytes, t[0].location);
        LayoutIsSmallest(s[1..], Place(end, s[0].bytes) + s[0].bytes, t[1..], t[0].location + t[0].bytes, size);
      }
    }
  }

  /** In an aligned layout the ranges of non-empty channels are disjoint, in order, and inside the size. */
  lemma {:induction false} AlignedRanges(s: seq<Channel>, end: nat, size: nat, i: nat, j: nat)
    requires Aligned(s, end, size) && i < |s| && s[i].bytes > 0
    ensures end <= s[i].location && s[i].location + s[i].bytes <= size && s[i].location % s[i].bytes == 0
    ensures i < j < |s| && s[j].bytes > 0 ==> s[i].location + s[i].bytes <= s[j].location
    decreases |s|
  {
    AlignedEnd(s[1..], if s[0].bytes == 0 then end else s[0].location + s[0].bytes, size);
    if i > 0 {
      AlignedRanges(s[1..], if s[0].bytes == 0 then end else s[0].location + s[0].bytes, size, i - 1, if j > 0 then j - 1 else 0);
    } else if 0 < j < |s| && s[j].bytes > 0 {
      AlignedRanges(s[1..], s[0].location + s[0].bytes, size, j - 1, 0);
    }
  }

  lemma {:induction false} AlignedEnd(s: seq<Channel>, end: nat, size: nat)
    requires Aligned(s, end, size)
    ensures end <= size
    decreases |s|
  {
    if s != [] { AlignedEnd(s[1..], if s[0].bytes == 0 then end else s[0].location + s[0].bytes, size); }
  }

  lemma {:induction false} LayoutMovesOnly(s: seq<Channel>, end: nat, i: nat)
    requires i < |s|
    ensures var at := Layout(s, end).0[i]; at == s[i].(location := at.location) && (s[i].bytes == 0 ==> at.location == 0)
    decreases |s|
  {
    if i > 0 { LayoutMovesOnly(s[1..], Next(s[0], end), i - 1); }
  }

  /** The layout of a scan changes nothing but locations, puts every non-empty channel at a multiple of its
      size, keeps the ranges apart, in order and within the returned size; and no aligned layout of the same
      sizes in this order is smaller. */
  lemma LayoutTheorem(s: seq<Channel>, i: nat, j: nat, other: seq<Channel>, size: nat)
    ensures var (located, total) := Layout(s, 0);
            && (i < |s| ==> located[i] == s[i].(location := located[i].location))
            && (i < |s| && s[i].bytes == 0 ==> located[i].location == 0)
            && (i < |s| && s[i].bytes > 0 ==> located[i].location % s[i].bytes == 0 && located[i].location + s[i].bytes <= total)
            && (i < j < |s| && s[i].bytes > 0 && s[j].bytes > 0 ==> located[i].location + s[i].bytes <= located[j].location)
            && (SameSizes(s, other) && Aligned(other, 0, size) ==> total <= size)
  {
    LayoutIsAligned(s, 0);
    var (located, total) := Layout(s, 0);
    if i < |s| { LayoutMovesOnly(s, 0, i); }
    if j < |s| { LayoutMovesOnly(s, 0, j); }
    if i < |s| && s[i].bytes > 0 { AlignedRanges(located, 0, total, i, j); }
    if SameSizes(s, other) && Aligned(other, 0, size) { LayoutIsSmallest(s, 0, other, 0, size); }
  }
}
