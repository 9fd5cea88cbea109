/** Decoding a scan into channel values, and encoding injected values into a scan. */
module ScanCoding {
  import opened Division
  import opened ScanLayout

  type Byte = x: int | 0 <= x < 256

  const EINVAL := 22

  /** What a decoded scan leaves in the sample: a raw value and an offset per channel, and the timestamp. */
  datatype ScanData = ScanData(raw: seq<real>, offset: seq<real>, timestamp: int)

  // ---------------------------------------------------------------- integers in memory

  function Pow2(n: nat): (p: nat)
    ensures p > 0
  {
    if n == 0 then 1 else 2 * Pow2(n - 1)
  }

  /** Conversion to a signed integer of n bits. */
  function Wrap(x: int, n: nat): int
    requires n > 0
  {
    (x + Pow2(n - 1)) % Pow2(n) - Pow2(n - 1)
  }

  /** The n bytes a little-endian host stores for v, and the number it loads from them. */
  function Store(v: nat, n: nat): (s: seq<Byte>)
    ensures |s| == n
  {
    if n == 0 then [] else [v % 256] + Store(v / 256, n - 1)
  }

  function Load(s: seq<Byte>): nat {
    if s == [] then 0 else s[0] + 256 * Load(s[1..])
  }

  function Reverse(s: seq<Byte>): (r: seq<Byte>)
    ensures |r| == |s|
  {
    if s == [] then [] else Reverse(s[1..]) + [s[0]]
  }

  /** The number a channel's bytes stand for in the byte order the channel declares. */
  function Loaded(c: Channel, s: seq<Byte>): nat {
    Load(if c.bigEndian then Reverse(s) else s)
  }

  function Splice(out: seq<Byte>, location: nat, s: seq<Byte>): (r: seq<Byte>)
    requires location + |s| <= |out|
    ensures |r| == |out|
  {
    out[..location] + s + out[location + |s|..]
  }

  // ---------------------------------------------------------------- one channel

  /** A float converted to an integer: towards zero. */
  function Truncate(x: real): (t: int)
    ensures x >= 0.0 ==> t as real <= x < t as real + 1.0
    ensures x <= 0.0 ==> t as real - 1.0 < x <= t as real
  {
    if x >= 0.0 then x.Floor else -((-x).Floor)
  }

  /** process_2byte_received: the field in the low bits, shifted to the top and back as an int16. */
  function Field2(input: nat, c: Channel): int
    requires c.bitsUsed <= 16
  {
    var val := Wrap(input / Pow2(c.shift), 16);
    var masked := Wrap(val % Pow2(c.bitsUsed), 16);
    if c.signed then Wrap(masked * Pow2(16 - c.bitsUsed), 16) / Pow2(16 - c.bitsUsed)
    else masked % 0x1_0000
  }

  /** process_3byte_received: the same steps, but shifted within an int32. */
  function Field3(input: nat, c: Channel): int
    requires c.bitsUsed <= 24
  {
    var val := Wrap(input, 32) / Pow2(c.shift);
    var masked := val % Pow2(c.bitsUsed);
    if c.signed then Wrap(masked * Pow2(24 - c.bitsUsed), 32) / Pow2(24 - c.bitsUsed)
    else masked
  }

  function Field4(input: nat, c: Channel): int {
    var val := input / Pow2(c.shift) % Pow2(c.bitsUsed);
    if c.signed then Wrap(val, 32) else val
  }

  /** A signed 8-byte channel: bit number bitsUsed set means all bits from there up are taken as set. */
  function Field8(input: nat, c: Channel): int {
    var val := Wrap(input, 64);
    if c.bitsUsed != 64 && val / Pow2(c.bitsUsed) % 2 == 1 then val % Pow2(c.bitsUsed) - Pow2(c.bitsUsed) else val
  }

  /** The bytes the decoder reads at a channel's location; a 3-byte channel is read as a whole word. */
  function Width(c: Channel): nat {
    if c.bytes == 3 then 4 else c.bytes
  }

  predicate Decodable(c: Channel) {
    c.bytes in {1, 2, 3, 4, 8}
  }

  /** What the decoder needs of a channel: the scan reaches as far, and the used bits fit the type. */
  predicate Readable(c: Channel, size: nat) {
    && (Decodable(c) ==> c.location + Width(c) <= size)
    && (c.bytes == 2 ==> c.bitsUsed <= 16)
    && (c.bytes == 3 ==> c.bitsUsed <= 24)
  }

  predicate AllReadable(cs: seq<Channel>, size: nat) {
    forall i :: 0 <= i < |cs| ==> Readable(cs[i], size)
  }

  predicate IsTime(c: Channel) {
    c.bytes == 8 && c.signed && c.scale == 1.0 && c.offset == 0.0
  }

  function Scaled(v: int, c: Channel): real {
    (v as real + c.offset) * c.scale
  }

  /** The raw value of a channel that is not the timestamp. */
  function ValueOf(scan: seq<Byte>, c: Channel): real
    requires Decodable(c) && Readable(c, |scan|)
  {
    var s := scan[c.location..c.location + Width(c)];
    match c.bytes
    case 1 => s[0] as real
    case 2 => Scaled(Field2(Loaded(c, s), c), c)
    case 3 => Scaled(Field3(Loaded(c, s), c), c)
    case 4 => Scaled(Field4(Loaded(c, s), c), c)
    case _ => if c.signed then Scaled(Field8(Load(s), c), c) else Load(s) as real
  }

  function TimeOf(scan: seq<Byte>, c: Channel): int
    requires IsTime(c) && Readable(c, |scan|)
  {
    Field8(Load(scan[c.location..c.location + 8]), c)
  }

  /** One round of the loop of ProcessScanData for a size it knows. */
  function DecodeChannel(scan: seq<Byte>, c: Channel, k: nat, sample: ScanData): (r: ScanData)
    requires Decodable(c) && Readable(c, |scan|) && k < |sample.raw| == |sample.offset|
    ensures |r.raw| == |r.offset| == |sample.raw|
  {
    var cleared := sample.(offset := sample.offset[k := 0.0]);
    if IsTime(c) then cleared.(timestamp := TimeOf(scan, c)) else cleared.(raw := sample.raw[k := ValueOf(scan, c)])
  }

  /** ProcessScanData from channel k on: the sample, and the number of channels or an error. */
  function Decode(scan: seq<Byte>, cs: seq<Channel>, k: nat, sample: ScanData): (r: (ScanData, int))
    requires k <= |cs| <= |sample.raw| == |sample.offset| && AllReadable(cs, |scan|)
    ensures |r.0.raw| == |r.0.offset| == |sample.raw|
    decreases |cs| - k
  {
    if k == |cs| then (sample, |cs|)
    else if !Decodable(cs[k]) then (sample.(offset := sample.offset[k := 0.0]), -EINVAL)
    else Decode(scan, cs, k + 1, DecodeChannel(scan, cs[k], k, sample))
  }

  /** The loop of ProcessScanData over the caller's buffers; `before` is the timestamp that was there. */
  method ProcessScanData(scan: array<Byte>, cs: seq<Channel>, raw: array<real>, offset: array<real>, before: int)
    returns (timestamp: int, err: int)
    requires |cs| <= raw.Length == offset.Length && raw != offset && AllReadable(cs, scan.Length)
    modifies raw, offset
    ensures (ScanData(raw[..], offset[..], timestamp), err)
            == Decode(scan[..], cs, 0, ScanData(old(raw[..]), old(offset[..]), before))
  {
    hide ValueOf, TimeOf;
    timestamp := before;
    var k := 0;
    while k < |cs|
      invariant 0 <= k <= |cs|
      invariant Decode(scan[..], cs, k, ScanData(raw[..], offset[..], timestamp))
                == Decode(scan[..], cs, 0, ScanData(old(raw[..]), old(offset[..]), before))
    {
      offset[k] := 0.0;
      if !Decodable(cs[k]) { return timestamp, -EINVAL; }
      assert Readable(cs[k], scan.Length);
      timestamp := StoreChannel(scan, cs[k], raw, k, timestamp);
      k := k + 1;
    }
    err := |cs|;
  }

  /** The switch over the size of a channel. */
  method StoreChannel(scan: array<Byte>, c: Channel, raw: array<real>, k: nat, before: int) returns (timestamp: int)
    requires Decodable(c) && Readable(c, scan.Length) && k < raw.Length
    modifies raw
    ensures timestamp == if IsTime(c) then TimeOf(scan[..], c) else before
    ensures raw[..] == if IsTime(c) then old(raw[..]) else old(raw[..])[k := ValueOf(scan[..], c)]
  {
    hide Field2, Field3, Field4, Field8, Loaded, Load, Scaled;
    timestamp := before;
    var bytes := scan[c.location..c.location + Width(c)];
    match c.bytes {
      case 1 => raw[k] := bytes[0] as real;
      case 2 => raw[k] := Scaled(Field2(Loaded(c, bytes), c), c);
      case 3 => raw[k] := Scaled(Field3(Loaded(c, bytes), c), c);
      case 4 => raw[k] := Scaled(Field4(Loaded(c, bytes), c), c);
      case _ =>
        if !c.signed {
          raw[k] := Load(bytes) as real;
        } else if c.scale == 1.0 && c.offset == 0.0 {
          timestamp := Field8(Load(bytes), c);
        } else {
          raw[k] := Scaled(Field8(Load(bytes), c), c);
        }
    }
  }

  // ---------------------------------------------------------------- injection

  predicate Encodable(c: Channel) {
    c.bytes in {1, 2, 8}
  }

  predicate Writable(c: Channel, size: nat) {
    Encodable(c) ==> c.location + c.bytes <= size && (c.bytes == 2 ==> c.scale != 0.0)
  }

  predicate AllWritable(cs: seq<Channel>, size: nat) {
    forall i :: 0 <= i < |cs| ==> Writable(cs[i], size)
  }

  /** The bytes stored for a channel. */
  function Encoded(c: Channel, x: real, timestamp: int): (s: seq<Byte>)
    requires Encodable(c) && (c.bytes == 2 ==> c.scale != 0.0)
    ensures |s| == c.bytes
  {
    if c.bytes == 1 then Store(Truncate(x) % 0x100, 1)
    else if c.bytes == 2 then Store(Truncate(x / c.scale) % 0x1_0000, 2)
    else Store(timestamp % 0x1_0000_0000_0000_0000, 8)
  }

  /** ProcessInjectionData from channel k on: the scan, and the number of channels or an error. */
  function Inject(data: seq<real>, cs: seq<Channel>, k: nat, out: seq<Byte>, timestamp: int): (r: (seq<Byte>, int))
    requires k <= |cs| <= |data| && AllWritable(cs, |out|)
    ensures |r.0| == |out|
    decreases |cs| - k
  {
    if k == |cs| then (out, |cs|)
    else if !Encodable(cs[k]) then (out, -EINVAL)
    else Inject(data, cs, k + 1, Splice(out, cs[k].location, Encoded(cs[k], data[k], timestamp)), timestamp)
  }

  method ProcessInjectionData(data: seq<real>, cs: seq<Channel>, out: array<Byte>, timestamp: int) returns (err: int)
    requires |cs| <= |data| && AllWritable(cs, out.Length)
    modifies out
    ensures (out[..], err) == Inject(data, cs, 0, old(out[..]), timestamp)
  {
    var k := 0;
    while k < |cs|
      invariant 0 <= k <= |cs|
      invariant Inject(data, cs, k, out[..], timestamp) == Inject(data, cs, 0, old(out[..]), timestamp)
    {
      if !Encodable(cs[k]) { return -EINVAL; }
      StoreAt(out, cs[k].location, Encoded(cs[k], data[k], timestamp));
      k := k + 1;
    }
    err := |cs|;
  }

  method StoreAt(out: array<Byte>, location: nat, s: seq<Byte>)
    requires location + |s| <= out.Length
    modifies out
    ensures out[..] == Splice(old(out[..]), location, s)
  {
    forall i | 0 <= i < |s| { out[location + i] := s[i]; }
  }

  // ---------------------------------------------------------------- sign extension

  /** The field read as a two's-complement number of the given bits. */
  function TwosComplement(field: nat, bits: nat): int
    requires bits > 0
  {
    if field < Pow2(bits - 1) then field else field - Pow2(bits)
  }

  lemma Powers()
    ensures Pow2(0) == 1 && Pow2(1) == 2 && Pow2(2) == 4 && Pow2(3) == 8 && Pow2(4) == 16
    ensures Pow2(5) == 32 && Pow2(6) == 64 && Pow2(7) == 128 && Pow2(8) == 256 && Pow2(9) == 512
    ensures Pow2(10) == 1024 && Pow2(11) == 2048 && Pow2(12) == 4096 && Pow2(13) == 8192
    ensures Pow2(14) == 16384 && Pow2(15) == 32768 && Pow2(16) == 65536
  {
    assert Pow2(5) == 32 && Pow2(6) == 64;
    assert Pow2(7) == 128 && Pow2(8) == 256;
    assert Pow2(9) == 512 && Pow2(10) == 1024;
    assert Pow2(11) == 2048 && Pow2(12) == 4096;
    assert Pow2(13) == 8192 && Pow2(14) == 16384;
  }

  /** The 2-byte field is the two's-complement or plain number in its bits, for every width. */
  lemma Field2IsExact(input: nat, c: Channel)
    requires input < 0x1_0000 && 1 <= c.bitsUsed <= 16
    ensures var field := input / Pow2(c.shift) % Pow2(c.bitsUsed);
            Field2(input, c) == if c.signed then TwosComplement(field, c.bitsUsed) else field
  {
    hide Pow2, Wrap, TwosComplement;
    var shifted := input / Pow2(c.shift);
    assert 0 <= shifted <= input;
    ExtendShifted(shifted, c.bitsUsed);
  }

  lemma ExtendShifted(shifted: nat, bits: nat)
    requires shifted < 0x1_0000 && 1 <= bits <= 16
    ensures var masked := Wrap(Wrap(shifted, 16) % Pow2(bits), 16);
            && masked % 0x1_0000 == shifted % Pow2(bits)
            && Wrap(masked * Pow2(16 - bits), 16) / Pow2(16 - bits) == TwosComplement(shifted % Pow2(bits), bits)
  {
    hide Wrap;
    var p, h, q := Pow2(bits), Pow2(bits - 1), Pow2(16 - bits);
    Halves(bits);
    hide Pow2;
    WrapKeepsField(shifted, p, q);
    ExtendField(shifted % p, p, h, q);
  }

  lemma Halves(bits: nat)
    requires 1 <= bits <= 16
    ensures Pow2(bits) == 2 * Pow2(bits - 1)
    ensures Pow2(bits - 1) * Pow2(16 - bits) == 0x8000 && Pow2(bits) * Pow2(16 - bits) == 0x1_0000
  {
    Powers();
    PowersMultiply(bits - 1, 16 - bits);
    PowersMultiply(bits, 16 - bits);
  }

  lemma {:induction false} PowersMultiply(m: nat, n: nat)
    ensures Pow2(m) * Pow2(n) == Pow2(m + n)
  {
    if m > 0 { PowersMultiply(m - 1, n); }
  }

  lemma WrapKeepsField(x: nat, p: nat, q: nat)
    requires x < 0x1_0000 && p > 0 && p * q == 0x1_0000
    ensures Wrap(x, 16) % p == x % p
  {
    Powers();
    if x >= 0x8000 {
      assert x == x / p * p + x % p;
      assert x - 0x1_0000 == (x / p - q) * p + x % p;
      DivisionIsUnique(x - 0x1_0000, x / p - q, p, x % p);
    }
  }

  lemma Wrap16(x: int)
    requires -0x8000 <= x < 0x1_0000
    ensures Wrap(x, 16) == if x < 0x8000 then x else x - 0x1_0000
  {
    Powers();
  }

  lemma ExtendField(field: nat, p: nat, h: nat, q: nat)
    requires field < p && p == 2 * h && q > 0 && h * q == 0x8000 && p * q == 0x1_0000
    ensures var masked := Wrap(field, 16);
            && masked % 0x1_0000 == field
            && Wrap(masked * q, 16) / q == if field < h then field else field - p
  {
    hide Wrap, Pow2;
    AtMost(field, p, q);
    AtLeastOnce(q, p);
    Wrap16(field);
    if field < h {
      AtMost(field, h, q);
      AtLeastOnce(q, h);
      Wrap16(field * q);
      DivisionIsUnique(field * q, field, q, 0);
    } else if field < 0x8000 {
      assert field * q == (field - h) * q + 0x8000 && (field - h) * q >= 0;
      Wrap16(field * q);
      assert field * q - 0x1_0000 == (field - p) * q;
      DivisionIsUnique((field - p) * q, field - p, q, 0);
    } else {
      QuotientIsOne(h, q);
      Wrap16(field - 0x1_0000);
    }
  }

  lemma QuotientIsOne(h: nat, q: nat)
    requires h > 0x4000 && h * q == 0x8000
    ensures q == 1
  {
    if q >= 2 { AtLeastOnce(q - 1, h); }
  }

  lemma AtMost(x: nat, bound: nat, q: nat)
    requires x < bound && q > 0
    ensures x * q < bound * q
  {
    AtLeastOnce(bound - x, q);
  }

  /** A signed 3-byte field is shifted within 32 bits, so its sign is lost: it is the two's-complement number
      exactly when its top bit is clear. */
  lemma ThreeBytesLoseTheSign(input: nat, c: Channel)
    requires 1 <= c.bitsUsed <= 24 && c.signed
    ensures var field := Wrap(input, 32) / Pow2(c.shift) % Pow2(c.bitsUsed);
            && Field3(input, c) == field
            && (Field3(input, c) == TwosComplement(field, c.bitsUsed) <==> field < Pow2(c.bitsUsed - 1))
  {
    hide Wrap, Pow2;
    var field := Wrap(input, 32) / Pow2(c.shift) % Pow2(c.bitsUsed);
    ShiftWithin32(field, c.bitsUsed);
  }

  lemma ShiftWithin32(field: nat, bits: nat)
    requires bits <= 24 && field < Pow2(bits)
    ensures Wrap(field * Pow2(24 - bits), 32) / Pow2(24 - bits) == field
  {
    hide Wrap;
    var p, q := Pow2(bits), Pow2(24 - bits);
    PowersMultiply(bits, 24 - bits);
    Power24();
    hide Pow2;
    AtMost(field, p, q);
    Wrap32(field * q);
    DivisionIsUnique(field * q, field, q, 0);
  }

  lemma Power24()
    ensures Pow2(24) == 0x100_0000
  {
    Powers();
    PowersMultiply(8, 16);
  }

  lemma Wrap32(x: nat)
    requires x < 0x8000_0000
    ensures Wrap(x, 32) == x
  {
    Powers();
    PowersMultiply(16, 16);
    PowersMultiply(15, 16);
  }

  // ---------------------------------------------------------------- round trip

  lemma {:induction false} LoadStore(v: nat, n: nat)
    requires v < Pow2(8 * n)
    ensures Load(Store(v, n)) == v
  {
    if n > 0 {
      PowersMultiply(8, 8 * (n - 1));
      Powers();
      LoadStore(v / 256, n - 1);
      assert Store(v, n)[1..] == Store(v / 256, n - 1);
    }
  }

  lemma SpliceKeeps(out: seq<Byte>, location: nat, s: seq<Byte>, lo: nat, hi: nat)
    requires location + |s| <= |out| && lo <= hi <= |out|
    ensures lo == location && hi == location + |s| ==> Splice(out, location, s)[lo..hi] == s
    ensures hi <= location ==> Splice(out, location, s)[lo..hi] == out[lo..hi]
  {
  }

  /** Locations in order: each channel ends before the next begins. */
  ghost predicate Ordered(cs: seq<Channel>) {
    forall i, j :: 0 <= i < j < |cs| ==> cs[i].location + cs[i].bytes <= cs[j].location
  }

  ghost predicate AllEncodable(cs: seq<Channel>) {
    forall i :: 0 <= i < |cs| ==> Encodable(cs[i])
  }

  lemma {:induction false} InjectKeeps(data: seq<real>, cs: seq<Channel>, k: nat, out: seq<Byte>, t: int, lo: nat, hi: nat)
    requires k <= |cs| <= |data| && AllWritable(cs, |out|) && lo <= hi <= |out|
    requires forall j :: k <= j < |cs| ==> hi <= cs[j].location
    ensures Inject(data, cs, k, out, t).0[lo..hi] == out[lo..hi]
    decreases |cs| - k
  {
    if k < |cs| && Encodable(cs[k]) {
      assert Writable(cs[k], |out|);
      var s := Encoded(cs[k], data[k], t);
      SpliceKeeps(out, cs[k].location, s, lo, hi);
      InjectKeeps(data, cs, k + 1, Splice(out, cs[k].location, s), t, lo, hi);
    }
  }

  /** After injection every channel's bytes are the ones stored for it. */
  lemma {:induction false} InjectedAt(data: seq<real>, cs: seq<Channel>, k: nat, out: seq<Byte>, t: int, i: nat)
    requires k <= |cs| <= |data| && AllWritable(cs, |out|) && AllEncodable(cs) && Ordered(cs)
    ensures Inject(data, cs, k, out, t).1 == |cs|
    ensures k <= i < |cs| ==> Writable(cs[i], |out|)
    ensures k <= i < |cs| ==>
      Inject(data, cs, k, out, t).0[cs[i].location..cs[i].location + cs[i].bytes] == Encoded(cs[i], data[i], t)
    decreases |cs| - k
  {
    hide Encoded, Splice;
    if k < |cs| {
      assert Writable(cs[k], |out|);
      var c, s := cs[k], Encoded(cs[k], data[k], t);
      var next := Splice(out, c.location, s);
      InjectedAt(data, cs, k + 1, next, t, i);
      if i == k {
        SpliceKeeps(out, c.location, s, c.location, c.location + c.bytes);
        InjectKeeps(data, cs, k + 1, next, t, c.location, c.location + c.bytes);
      }
    }
  }

  ghost predicate AllDecodable(cs: seq<Channel>) {
    forall i :: 0 <= i < |cs| ==> Decodable(cs[i])
  }

  /** Decoding gives each channel its own value and a zero offset, and the timestamp of the last timestamp channel. */
  lemma {:induction false} DecodedAt(scan: seq<Byte>, cs: seq<Channel>, k: nat, sample: ScanData, i: nat)
    requires k <= |cs| <= |sample.raw| == |sample.offset| && AllReadable(cs, |scan|) && AllDecodable(cs)
    ensures var r := Decode(scan, cs, k, sample);
            && r.1 == |cs|
            && (i < k ==> r.0.raw[i] == sample.raw[i] && r.0.offset[i] == sample.offset[i])
            && (k <= i < |cs| ==> r.0.offset[i] == 0.0)
            && (k <= i < |cs| && !IsTime(cs[i]) ==> r.0.raw[i] == ValueOf(scan, cs[i]))
            && ((forall j :: k <= j < |cs| ==> !IsTime(cs[j])) ==> r.0.timestamp == sample.timestamp)
            && (k <= i < |cs| && IsTime(cs[i]) && (forall j :: i < j < |cs| ==> !IsTime(cs[j])) ==> r.0.timestamp == TimeOf(scan, cs[i]))
    decreases |cs| - k
  {
    hide ValueOf, TimeOf;
    if k < |cs| {
      assert Readable(cs[k], |scan|);
      var next := DecodeChannel(scan, cs[k], k, sample);
      DecodedAt(scan, cs, k + 1, next, i);
      DecodedAt(scan, cs, k + 1, next, k);
    }
  }

  /** Decoding goes as far as the first channel of a size it does not know, whose offset it still clears, and says so. */
  lemma {:induction false} DecodeStops(scan: seq<Byte>, cs: seq<Channel>, k: nat, sample: ScanData, stop: nat)
    requires k <= stop <= |cs| <= |sample.raw| == |sample.offset| && AllReadable(cs, |scan|)
    requires forall i :: k <= i < stop ==> cs[i].bytes in {1, 2, 3, 4, 8}
    requires stop < |cs| ==> cs[stop].bytes !in {1, 2, 3, 4, 8}
    ensures AllReadable(cs[..stop], |scan|)
    ensures var before, (after, n) := Decode(scan, cs[..stop], k, sample).0, Decode(scan, cs, k, sample);
            if stop == |cs| then after == before && n == |cs|
            else after == before.(offset := before.offset[stop := 0.0]) && n == -22
    decreases stop - k
  {
    hide ValueOf, TimeOf;
    if k < stop {
      assert Readable(cs[k], |scan|) && cs[..stop][k] == cs[k];
      DecodeStops(scan, cs, k + 1, DecodeChannel(scan, cs[k], k, sample), stop);
    }
  }

  /** So does injection, which leaves out the sizes 3 and 4. */
  lemma {:induction false} InjectStops(data: seq<real>, cs: seq<Channel>, k: nat, out: seq<Byte>, timestamp: int, stop: nat)
    requires k <= stop <= |cs| <= |data| && AllWritable(cs, |out|)
    requires forall i :: k <= i < stop ==> cs[i].bytes in {1, 2, 8}
    requires stop < |cs| ==> cs[stop].bytes !in {1, 2, 8}
    ensures AllWritable(cs[..stop], |out|)
    ensures Inject(data, cs, k, out, timestamp)
            == (Inject(data, cs[..stop], k, out, timestamp).0, if stop == |cs| then |cs| else -22)
    decreases stop - k
  {
    hide Encoded;
    if k < stop {
      assert Writable(cs[k], |out|) && cs[..stop][k] == cs[k];
      InjectStops(data, cs, k + 1, Splice(out, cs[k].location, Encoded(cs[k], data[k], timestamp)), timestamp, stop);
    }
  }

  predicate FitsBits(v: int, bits: nat)
    requires bits > 0
  {
    var half: int := Pow2(bits - 1);
    -half <= v < half
  }

  lemma FieldOf(v: int, p: nat, h: int, q: nat)
    requires p == 2 * h && q > 0 && p * q == 0x1_0000 && -0x8000 <= -h <= v < h
    ensures v % 0x1_0000 % p == if v < 0 then v + p else v
  {
    AtLeastOnce(q, p);
    if v >= 0 {
      DivisionIsUnique(v, 0, p, v);
    } else {
      assert v + 0x1_0000 == (q - 1) * p + (v + p);
      DivisionIsUnique(v + 0x1_0000, q - 1, p, v + p);
    }
  }

  /** A 2-byte signed channel at shift 0 gives back the injected integer exactly when its bits can hold it. */
  lemma StoredField2(v: int, c: Channel)
    requires 1 <= c.bitsUsed <= 16 && c.signed && c.shift == 0
    ensures Field2(v % 0x1_0000, c) == v <==> FitsBits(v, c.bitsUsed)
  {
    hide Field2;
    Field2IsExact(v % 0x1_0000, c);
    var p, h, q := Pow2(c.bitsUsed), Pow2(c.bitsUsed - 1), Pow2(16 - c.bitsUsed);
    Halves(c.bitsUsed);
    if FitsBits(v, c.bitsUsed) {
      hide Pow2;
      AtLeastOnce(q, p);
      FieldOf(v, p, h, q);
    }
  }

  /** A stored timestamp comes back exactly when all 64 bits are used or the bit above the used ones is clear. */
  lemma StoredField8(t: nat, c: Channel)
    requires t < 0x8000_0000_0000_0000
    ensures Field8(t, c) == t <==> c.bitsUsed == 64 || t / Pow2(c.bitsUsed) % 2 == 0
  {
    Power64();
  }

  lemma Power64()
    ensures Pow2(64) == 0x1_0000_0000_0000_0000 && Pow2(63) == 0x8000_0000_0000_0000
  {
    Powers();
    PowersMultiply(16, 16);
    PowersMultiply(32, 32);
  }

  lemma TruncateIsClose(q: real)
    ensures -1.0 < Truncate(q) as real - q < 1.0
  {
  }

  lemma ScaleKeepsOrder(a: real, b: real, scale: real)
    requires scale > 0.0 && a < b
    ensures a * scale < b * scale
  {
    assert (b - a) * scale > 0.0;
  }

  lemma OneMore(q: real, scale: real)
    ensures (q + 1.0) * scale == q * scale + scale
  {
  }

  lemma StepBelow(q: real, x: real, v: real, y: real, w: real, scale: real)
    requires scale > 0.0 && q * scale == x && v * scale == y && q < w && w == v + 1.0
    ensures x < y + scale
  {
    ScaleKeepsOrder(q, w, scale);
    OneMore(v, scale);
    var m := w * scale;
    assert x < m;
    assert m == y + scale;
  }

  lemma StepAround(x: real, q: real, v: real, scale: real)
    requires scale > 0.0 && q * scale == x && -1.0 < v - q < 1.0
    ensures -scale < v * scale - x < scale
  {
    var m := v * scale;
    StepBelow(q, x, v, m, v + 1.0, scale);
    StepBelow(v, m, q, x, q + 1.0, scale);
  }

  /** The scaled integer part lies within one scale step of the value it was taken from. */
  lemma WithinOneStep(x: real, scale: real)
    requires scale > 0.0
    ensures -scale < Truncate(x / scale) as real * scale - x < scale
  {
    hide Truncate;
    TruncateIsClose(x / scale);
    StepAround(x, x / scale, Truncate(x / scale) as real, scale);
  }

  lemma ScaleIsInjective(v: int, w: int, scale: real)
    requires scale > 0.0
    ensures v as real * scale == w as real * scale <==> v == w
  {
    if v < w { ScaleKeepsOrder(v as real, w as real, scale); }
    if w < v { ScaleKeepsOrder(w as real, v as real, scale); }
  }

  /** A scan laid out for these channels, in a buffer of at least its size. */
  ghost predicate ScanFits(cs: seq<Channel>, size: nat, data: seq<real>, start: ScanData) {
    && |cs| <= |data| && |cs| <= |start.raw| == |start.offset|
    && AllEncodable(cs) && AllWritable(cs, size) && AllReadable(cs, size)
  }

  lemma LayoutOrders(s: seq<Channel>)
    requires AllEncodable(s)
    ensures Ordered(Layout(s, 0).0) && AllEncodable(Layout(s, 0).0)
  {
    var cs := Layout(s, 0).0;
    forall i: nat, j: nat | i < j < |cs| ensures cs[i].location + cs[i].bytes <= cs[j].location {
      assert Encodable(s[i]) && Encodable(s[j]);
      LayoutTheorem(s, i, j, [], 0);
      LayoutTheorem(s, j, j, [], 0);
    }
    forall i: nat | i < |cs| ensures Encodable(cs[i]) {
      assert Encodable(s[i]);
      LayoutTheorem(s, i, i, [], 0);
    }
  }

  /** What comes back from one channel after injection and decoding. */
  ghost predicate ComesBack(c: Channel, x: real, t: int, raw: real, time: int, last: bool) {
    && (c.bytes == 1 ==> (raw == x <==> 0.0 <= x < 256.0 && x == x.Floor as real))
    && (c.bytes == 2 && c.signed && !c.bigEndian && c.shift == 0 && c.scale > 0.0 && 1 <= c.bitsUsed ==>
          var v := Truncate(x / c.scale);
          && (raw == (v as real + c.offset) * c.scale <==> FitsBits(v, c.bitsUsed))
          && (FitsBits(v, c.bitsUsed) ==> -c.scale < raw - c.offset * c.scale - x < c.scale)
          && (FitsBits(v, c.bitsUsed) ==> (raw == v as real * c.scale <==> c.offset == 0.0)))
    && (IsTime(c) && last ==> (time == t <==> c.bitsUsed == 64 || t / Pow2(c.bitsUsed) % 2 == 0))
  }

  lemma ByteRoundTrip(x: real)
    ensures (Truncate(x) % 0x100) as real == x <==> 0.0 <= x < 256.0 && x == x.Floor as real
  {
  }

  lemma StepRoundTrip(c: Channel, x: real)
    requires c.signed && c.shift == 0 && c.scale > 0.0 && 1 <= c.bitsUsed <= 16
    ensures var v := Truncate(x / c.scale);
            var raw := Scaled(Field2(v % 0x1_0000, c), c);
            && (raw == (v as real + c.offset) * c.scale <==> FitsBits(v, c.bitsUsed))
            && (FitsBits(v, c.bitsUsed) ==> -c.scale < raw - c.offset * c.scale - x < c.scale)
            && (FitsBits(v, c.bitsUsed) ==> (raw == v as real * c.scale <==> c.offset == 0.0))
  {
    hide Field2, Truncate, FitsBits;
    var v := Truncate(x / c.scale);
    var field := Field2(v % 0x1_0000, c);
    StoredField2(v, c);
    WithinOneStep(x, c.scale);
    ScaleIsInjective(field, v, c.scale);
    OffsetApart(field as real, c.offset, c.scale);
    OffsetApart(v as real, c.offset, c.scale);
  }

  lemma OffsetApart(v: real, offset: real, scale: real)
    requires scale > 0.0
    ensures (v + offset) * scale == v * scale + offset * scale && (offset * scale == 0.0 <==> offset == 0.0)
  {
  }

  lemma ChannelRoundTrip(scan: seq<Byte>, c: Channel, x: real, t: nat)
    requires Encodable(c) && Readable(c, |scan|) && Writable(c, |scan|) && t < 0x8000_0000_0000_0000
    requires scan[c.location..c.location + c.bytes] == Encoded(c, x, t)
    ensures ComesBack(c, x, t, if IsTime(c) then 0.0 else ValueOf(scan, c), if IsTime(c) then TimeOf(scan, c) else 0, IsTime(c))
  {
    hide Field2, Field8, Truncate, FitsBits, Scaled, Pow2, Store, Load, Reverse;
    if c.bytes == 1 {
      LoadStored(Truncate(x) % 0x100, 1);
      OneByte(scan[c.location..c.location + 1]);
      ByteRoundTrip(x);
    } else if c.bytes == 2 {
      LoadStored(Truncate(x / c.scale) % 0x1_0000, 2);
      if c.signed && c.shift == 0 && c.scale > 0.0 && 1 <= c.bitsUsed {
        StepRoundTrip(c, x);
      }
    } else {
      LoadStored(t, 8);
      StoredField8(t, c);
    }
  }

  lemma LoadStored(v: nat, n: nat)
    requires (n == 1 && v < 0x100) || (n == 2 && v < 0x1_0000) || (n == 8 && v < 0x1_0000_0000_0000_0000)
    ensures Load(Store(v, n)) == v
  {
    Powers();
    Power64();
    LoadStore(v, n);
  }

  lemma OneByte(s: seq<Byte>)
    requires |s| == 1
    ensures Load(s) == s[0]
  {
    assert s[1..] == [];
  }

  /** Injecting values and decoding the scan: both succeed; a byte comes back exactly when it is one; a 2-byte
      value comes back within one scale step, shifted by the channel's offset, which injection does not take off,
      exactly when its bits can hold it; and the timestamp comes back exactly when all its bits are used or the bit
      above the used ones is clear. */
  lemma InjectionRoundTrip(data: seq<real>, s: seq<Channel>, out: seq<Byte>, t: nat, start: ScanData, i: nat)
    requires AllEncodable(s) && ScanFits(Layout(s, 0).0, |out|, data, start) && t < 0x8000_0000_0000_0000
    requires i < |s|
    ensures var cs := Layout(s, 0).0;
            var (scan, written) := Inject(data, cs, 0, out, t);
            var (sample, decoded) := Decode(scan, cs, 0, start);
            && written == |s| && decoded == |s|
            && sample.offset[i] == 0.0
            && ComesBack(cs[i], data[i], t, sample.raw[i], sample.timestamp, forall j :: i < j < |cs| ==> !IsTime(cs[j]))
  {
    hide Inject, Decode, ValueOf, TimeOf, Encoded, Layout;
    var cs := Layout(s, 0).0;
    LayoutOrders(s);
    InjectedAt(data, cs, 0, out, t, i);
    var scan := Inject(data, cs, 0, out, t).0;
    assert AllDecodable(cs);
    DecodedAt(scan, cs, 0, start, i);
    assert Readable(cs[i], |scan|) && Writable(cs[i], |scan|);
    ChannelRoundTrip(scan, cs[i], data[i], t);
  }
}
