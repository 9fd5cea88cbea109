/** What a decoded value says of the bytes it came from: taken out of its scale and offset it is the number in the
    channel's bits, and exactly when it is not. */
module DecodedValues {
  import opened Division
  import opened ScanLayout
  import opened ScanCoding

  /** The first n bytes, each in the place that the byte order gives it. */
  function WordOf(s: seq<Byte>, bigEndian: bool, n: nat): nat
    requires n <= |s|
  {
    if n == 0 then 0 else WordOf(s, bigEndian, n - 1) + s[n - 1] * Pow2(8 * if bigEndian then |s| - n else n - 1)
  }

  /** The word at the channel's place in the scan; a 3-byte channel is read as a word of four. */
  function WordAt(scan: seq<Byte>, c: Channel, bigEndian: bool): nat
    requires Decodable(c) && Readable(c, |scan|)
  {
    var n := if c.bytes == 3 then 4 else c.bytes;
    WordOf(scan[c.location..c.location + n], bigEndian, n)
  }

  /** The used bits of a word, and the number they stand for. */
  function FieldIn(word: nat, c: Channel): nat {
    word / Pow2(c.shift) % Pow2(c.bitsUsed)
  }

  function NumberIn(word: nat, c: Channel): int
    requires c.bitsUsed > 0
  {
    if c.signed then TwosComplement(FieldIn(word, c), c.bitsUsed) else FieldIn(word, c)
  }

  // ---------------------------------------------------------------- byte order

  lemma {:induction false} LoadAppend(s: seq<Byte>, b: Byte)
    ensures Load(s + [b]) == Load(s) + b * Pow2(8 * |s|)
  {
    if s == [] {
      assert (s + [b])[1..] == [];
    } else {
      LoadAppend(s[1..], b);
      assert (s + [b])[1..] == s[1..] + [b];
      Powers();
      PowersMultiply(8, 8 * (|s| - 1));
      assert 256 * (b * Pow2(8 * |s| - 8)) == b * (256 * Pow2(8 * |s| - 8));
    }
  }

  lemma {:induction false} LittleEndian(s: seq<Byte>, n: nat)
    requires n <= |s|
    ensures Load(s[..n]) == WordOf(s, false, n)
  {
    if n > 0 {
      LittleEndian(s, n - 1);
      LoadAppend(s[..n - 1], s[n - 1]);
      assert s[..n] == s[..n - 1] + [s[n - 1]];
    }
  }

  lemma {:induction false} FirstByteApart(s: seq<Byte>, n: nat)
    requires 1 <= n <= |s|
    ensures WordOf(s, true, n) == s[0] * Pow2(8 * (|s| - 1)) + WordOf(s[1..], true, n - 1)
  {
    if n > 1 { FirstByteApart(s, n - 1); }
  }

  lemma {:induction false} ReverseLength(s: seq<Byte>)
    ensures |Reverse(s)| == |s|
  {
  }

  lemma {:induction false} BigEndian(s: seq<Byte>)
    ensures Load(Reverse(s)) == WordOf(s, true, |s|)
  {
    if s != [] {
      BigEndian(s[1..]);
      LoadAppend(Reverse(s[1..]), s[0]);
      FirstByteApart(s, |s|);
    }
  }

  lemma LoadedIsWord(s: seq<Byte>, c: Channel)
    ensures Loaded(c, s) == WordOf(s, c.bigEndian, |s|) && Load(s) == WordOf(s, false, |s|)
  {
    LittleEndian(s, |s|);
    assert s[..|s|] == s;
    BigEndian(s);
  }

  lemma {:induction false} WordBound(s: seq<Byte>)
    ensures Load(s) < Pow2(8 * |s|) && Load(Reverse(s)) < Pow2(8 * |s|)
  {
    LoadBound(s);
    LoadBound(Reverse(s));
  }

  lemma {:induction false} LoadBound(s: seq<Byte>)
    ensures Load(s) < Pow2(8 * |s|)
  {
    if s != [] {
      LoadBound(s[1..]);
      Powers();
      PowersMultiply(8, 8 * (|s| - 1));
      assert 256 * Load(s[1..]) <= 256 * (Pow2(8 * (|s| - 1)) - 1);
    }
  }

  // ---------------------------------------------------------------- out of the scale again

  lemma Unscaled(v: int, c: Channel, raw: real)
    requires c.scale != 0.0 && raw == Scaled(v, c)
    ensures raw / c.scale - c.offset == v as real
  {
  }

  lemma {:induction false} SmallerPower(a: nat, b: nat)
    requires a <= b
    ensures Pow2(a) <= Pow2(b)
  {
    if a < b { SmallerPower(a, b - 1); }
  }

  /** The arithmetic shift of a 32-bit word leaves the field as it is when the field lies within the word. */
  lemma ShiftedField(word: nat, shift: nat, bits: nat)
    requires word < 0x1_0000_0000 && shift + bits <= 32
    ensures Wrap(word, 32) / Pow2(shift) % Pow2(bits) == word / Pow2(shift) % Pow2(bits)
  {
    Power32();
    PowersMultiply(shift, 32 - shift);
    PowersMultiply(bits, 32 - shift - bits);
    WrapWord(word);
    hide Wrap, Pow2;
    if word >= 0x8000_0000 {
      NegativeShifted(word, Pow2(shift), Pow2(bits), Pow2(32 - shift - bits), Pow2(32 - shift));
    }
  }

  lemma WrapWord(word: nat)
    requires word < 0x1_0000_0000
    ensures Wrap(word, 32) == if word < 0x8000_0000 then word else word - 0x1_0000_0000
  {
    Power32();
    hide Pow2;
  }

  lemma NegativeShifted(word: nat, p: nat, q: nat, r: nat, f: nat)
    requires p > 0 && q > 0 && p * f == 0x1_0000_0000 && q * r == f
    ensures (word - 0x1_0000_0000) / p % q == word / p % q
  {
    var x := word / p;
    assert word == x * p + word % p;
    assert (x - f) * p == x * p - p * f;
    DivisionIsUnique(word - 0x1_0000_0000, x - f, p, word % p);
    assert x == x / q * q + x % q;
    assert (x / q - r) * q == x / q * q - q * r;
    DivisionIsUnique(x - f, x / q - r, q, x % q);
  }

  lemma Power32()
    ensures Pow2(32) == 0x1_0000_0000 && Pow2(31) == 0x8000_0000
  {
    Powers();
    PowersMultiply(16, 16);
    PowersMultiply(15, 16);
  }

  /** What is decoded is the number in the channel's bits, or for a 3-byte channel its field without the sign. */
  lemma ThreeByteField(word: nat, c: Channel)
    requires word < 0x1_0000_0000 && 1 <= c.bitsUsed <= 24 && c.shift + c.bitsUsed <= 32
    ensures Field3(word, c) == FieldIn(word, c)
  {
    ShiftedField(word, c.shift, c.bitsUsed);
    if c.signed { ThreeBytesLoseTheSign(word, c); }
  }

  lemma FourByteField(word: nat, c: Channel)
    requires 1 <= c.bitsUsed <= 32
    ensures var field := FieldIn(word, c);
            Field4(word, c) == if c.signed && c.bitsUsed == 32 && field >= 0x8000_0000 then field - 0x1_0000_0000 else field
  {
    Power32();
    SmallerPower(c.bitsUsed, 32);
    if c.bitsUsed < 32 { SmallerPower(c.bitsUsed, 31); }
  }

  /** The 8-byte field: bit number bitsUsed, the one above those used, decides about the sign. */
  lemma EightByteField(word: nat, c: Channel)
    requires word < 0x1_0000_0000_0000_0000 && 1 <= c.bitsUsed <= 64 && c.shift == 0 && c.signed
    ensures var value := if word < 0x8000_0000_0000_0000 then word else word - 0x1_0000_0000_0000_0000;
            var above, negative := value / Pow2(c.bitsUsed), FieldIn(word, c) >= Pow2(c.bitsUsed - 1);
            Field8(word, c) == NumberIn(word, c) <==> c.bitsUsed == 64 || (if negative then above % 2 == 1 else above == 0)
  {
    Power64();
    PowersMultiply(c.bitsUsed, 64 - c.bitsUsed);
    var p := Pow2(c.bitsUsed);
    assert Pow2(0) == 1 && p == 2 * Pow2(c.bitsUsed - 1);
    SameField(word, p, Pow2(64 - c.bitsUsed));
    SignBit(Wrap(word, 64), FieldIn(word, c), p, Pow2(c.bitsUsed - 1));
    hide Wrap;
  }

  lemma SignBit(value: int, field: nat, p: nat, h: nat)
    requires p == 2 * h && h > 0 && value % p == field
    ensures var above := value / p;
            var decoded := if above % 2 == 1 then field - p else value;
            var number := if field >= h then field - p else field;
            decoded == number <==> if field >= h then above % 2 == 1 else above == 0
  {
    var above := value / p;
    assert value == above * p + field;
    if above >= 1 { AtLeastOnce(above, p); }
    if above <= -2 { AtLeastOnce(-above - 1, p); assert above * p <= -2 * p; }
  }

  lemma SameField(word: nat, p: nat, q: nat)
    requires word < 0x1_0000_0000_0000_0000 && p > 0 && p * q == 0x1_0000_0000_0000_0000
    ensures Wrap(word, 64) == if word < 0x8000_0000_0000_0000 then word else word - 0x1_0000_0000_0000_0000
    ensures Wrap(word, 64) % p == word % p
  {
    Power64();
    hide Pow2;
    if word >= 0x8000_0000_0000_0000 {
      assert word == word / p * p + word % p;
      assert word - 0x1_0000_0000_0000_0000 == (word / p - q) * p + word % p;
      DivisionIsUnique(word - 0x1_0000_0000_0000_0000, word / p - q, p, word % p);
    }
  }

  // ---------------------------------------------------------------- the whole scan

  /** When does the decoder give the number in the channel's bits?  Always for two bytes and for unsigned channels; a
      signed channel of three bytes loses its sign, one of four bytes has one only if it uses all bits, and one of
      eight takes the bit above those used for the sign. */
  predicate GivesNumber(word: nat, c: Channel)
    requires c.bitsUsed > 0
  {
    var negative := FieldIn(word, c) >= Pow2(c.bitsUsed - 1);
    !c.signed || c.bytes == 2
    || (c.bytes == 3 && !negative)
    || (c.bytes == 4 && (!negative || c.bitsUsed == 32))
    || (c.bytes == 8 && (c.bitsUsed == 64
                         || var above := (if word < 0x8000_0000_0000_0000 then word else word - 0x1_0000_0000_0000_0000) / Pow2(c.bitsUsed);
                            if negative then above % 2 == 1 else above == 0))
  }

  /** The used bits lie within the word. */
  predicate BitsFit(c: Channel) {
    && 1 <= c.bitsUsed
    && (c.bytes == 2 ==> c.bitsUsed <= 16)
    && (c.bytes == 3 ==> c.bitsUsed <= 24 && c.shift + c.bitsUsed <= 32)
    && (c.bytes == 4 ==> c.bitsUsed <= 32)
    && (c.bytes == 8 ==> c.signed && c.shift == 0 && c.bitsUsed <= 64)
  }

  /** Of every channel of a scan: taken out of the scale and the offset again, the decoded value is the number in the
      channel's bits exactly when GivesNumber says so.  A single byte and an unsigned 8-byte word come as they are,
      in no scale, and an 8-byte word always in the order of a little-endian host. */
  lemma DecodedNumber(scan: seq<Byte>, cs: seq<Channel>, start: ScanData, i: nat)
    requires |cs| <= |start.raw| == |start.offset| && AllReadable(cs, |scan|) && AllDecodable(cs) && i < |cs|
    requires !(cs[i].bytes == 8 && cs[i].signed && cs[i].scale == 1.0 && cs[i].offset == 0.0)
    ensures var c, raw := cs[i], Decode(scan, cs, 0, start).0.raw[i];
            && Decodable(c) && Readable(c, |scan|)
            && (c.bytes == 1 ==> raw == scan[c.location] as real)
            && (c.bytes == 8 && !c.signed ==> raw == WordAt(scan, c, false) as real)
            && (c.bytes != 1 && BitsFit(c) && c.scale != 0.0 ==>
                  var word := WordAt(scan, c, c.bytes != 8 && c.bigEndian);
                  raw / c.scale - c.offset == NumberIn(word, c) as real <==> GivesNumber(word, c))
  {
    var c := cs[i];
    assert Decodable(c) && Readable(c, |scan|);
    DecodedAt(scan, cs, 0, start, i);
    hide Decode;
    ValueIsNumber(scan, c);
  }

  lemma ValueIsNumber(scan: seq<Byte>, c: Channel)
    requires Decodable(c) && Readable(c, |scan|)
    ensures var raw := ValueOf(scan, c);
            && (c.bytes == 1 ==> raw == scan[c.location] as real)
            && (c.bytes == 8 && !c.signed ==> raw == WordAt(scan, c, false) as real)
            && (c.bytes != 1 && BitsFit(c) && c.scale != 0.0 ==>
                  var word := WordAt(scan, c, c.bytes != 8 && c.bigEndian);
                  raw / c.scale - c.offset == NumberIn(word, c) as real <==> GivesNumber(word, c))
  {
    hide Field2, Field3, Field4, Field8, GivesNumber, NumberIn, FieldIn, Pow2, WordOf, Load, Reverse, Scaled;
    var s := scan[c.location..c.location + Width(c)];
    LoadedIsWord(s, c);
    WordBound(s);
    if c.bytes != 1 && BitsFit(c) && c.scale != 0.0 {
      var word := WordAt(scan, c, c.bytes != 8 && c.bigEndian);
      FieldIsNumber(word, c);
      var v := if c.bytes == 2 then Field2(word, c) else if c.bytes == 3 then Field3(word, c) else if c.bytes == 4 then Field4(word, c) else Field8(word, c);
      Unscaled(v, c, ValueOf(scan, c));
    }
  }

  lemma FieldIsNumber(word: nat, c: Channel)
    requires c.bytes in {2, 3, 4, 8} && BitsFit(c) && word < Pow2(8 * if c.bytes == 3 then 4 else c.bytes)
    ensures var v := if c.bytes == 2 then Field2(word, c) else if c.bytes == 3 then Field3(word, c)
                     else if c.bytes == 4 then Field4(word, c) else Field8(word, c);
            v == NumberIn(word, c) <==> GivesNumber(word, c)
  {
    Powers();
    Power32();
    Power64();
    hide Field2, Field3, Field4, Field8, Wrap;
    if c.bytes == 2 {
      Field2IsExact(word, c);
    } else if c.bytes == 3 {
      ThreeByteField(word, c);
    } else if c.bytes == 4 {
      FourByteField(word, c);
    } else {
      EightByteField(word, c);
    }
  }

  /** The timestamp, of the last channel that is one: of eight signed bytes, in no scale. */
  lemma DecodedTime(scan: seq<Byte>, cs: seq<Channel>, start: ScanData, i: nat)
    requires |cs| <= |start.raw| == |start.offset| && AllReadable(cs, |scan|) && AllDecodable(cs) && i < |cs|
    requires cs[i].bytes == 8 && cs[i].signed && cs[i].scale == 1.0 && cs[i].offset == 0.0
    requires BitsFit(cs[i]) && forall j :: i < j < |cs| ==> !IsTime(cs[j])
    ensures Decodable(cs[i]) && Readable(cs[i], |scan|)
    ensures var c, word := cs[i], WordAt(scan, cs[i], false);
            Decode(scan, cs, 0, start).0.timestamp == NumberIn(word, c) <==> GivesNumber(word, c)
  {
    var c := cs[i];
    assert Decodable(c) && Readable(c, |scan|);
    DecodedAt(scan, cs, 0, start, i);
    TimeIsNumber(scan, c);
    hide Decode, TimeOf, GivesNumber, NumberIn;
  }

  lemma TimeIsNumber(scan: seq<Byte>, c: Channel)
    requires IsTime(c) && Readable(c, |scan|) && BitsFit(c)
    ensures TimeOf(scan, c) == NumberIn(WordAt(scan, c, false), c) <==> GivesNumber(WordAt(scan, c, false), c)
  {
    hide Field8, GivesNumber, NumberIn, FieldIn, Pow2, WordOf, Load, Reverse;
    var s := scan[c.location..c.location + 8];
    LoadedIsWord(s, c);
    WordBound(s);
    FieldIsNumber(WordAt(scan, c, false), c);
  }

  /** The word that injection leaves for a 2-byte value, seen in the byte order of the channel: injection stores in the
      order of the host. */
  function InjectedWord(v: int, c: Channel): nat {
    var word := v % 0x1_0000;
    if c.bigEndian then word % 256 * 256 + word / 256 else word
  }

  /** What comes back from any 2-byte channel after injection: the integer injected, in the channel's scale and offset,
      exactly when it is the number that the channel's bits of that word stand for. */
  lemma InjectedNumber(data: seq<real>, s: seq<Channel>, out: seq<Byte>, t: int, start: ScanData, i: nat)
    requires AllEncodable(s) && ScanFits(Layout(s, 0).0, |out|, data, start) && i < |s|
    ensures var c := Layout(s, 0).0[i];
            var raw := Decode(Inject(data, Layout(s, 0).0, 0, out, t).0, Layout(s, 0).0, 0, start).0.raw[i];
            c.bytes == 2 && 1 <= c.bitsUsed && c.scale != 0.0 ==>
              var v := Truncate(data[i] / c.scale);
              raw == (v as real + c.offset) * c.scale <==> NumberIn(InjectedWord(v, c), c) == v
  {
    hide Inject, Decode, Encoded, Layout, NumberIn, GivesNumber, InjectedWord;
    var cs := Layout(s, 0).0;
    var c := cs[i];
    LayoutOrders(s);
    InjectedAt(data, cs, 0, out, t, i);
    var scan := Inject(data, cs, 0, out, t).0;
    assert AllDecodable(cs);
    if c.bytes == 2 && 1 <= c.bitsUsed && c.scale != 0.0 {
      assert Readable(c, |scan|) && !IsTime(c);
      DecodedNumber(scan, cs, start, i);
      StoredWord(scan, c, data[i], t);
      TwoBytesGiveNumber(InjectedWord(Truncate(data[i] / c.scale), c), c);
      SameScaled(Decode(scan, cs, 0, start).0.raw[i], NumberIn(WordAt(scan, c, c.bigEndian), c), Truncate(data[i] / c.scale), c);
    }
  }

  lemma TwoBytesGiveNumber(word: nat, c: Channel)
    requires c.bytes == 2 && c.bitsUsed > 0
    ensures GivesNumber(word, c)
  {
  }

  lemma SameScaled(raw: real, number: int, v: int, c: Channel)
    requires c.scale != 0.0 && raw / c.scale - c.offset == number as real
    ensures raw == (v as real + c.offset) * c.scale <==> number == v
  {
    assert raw == (number as real + c.offset) * c.scale;
    if raw == (v as real + c.offset) * c.scale { assert raw / c.scale == v as real + c.offset; }
  }

  lemma StoredWord(scan: seq<Byte>, c: Channel, x: real, t: int)
    requires c.bytes == 2 && c.scale != 0.0 && Readable(c, |scan|) && scan[c.location..c.location + 2] == Encoded(c, x, t)
    ensures WordAt(scan, c, c.bigEndian) == InjectedWord(Truncate(x / c.scale), c)
  {
    var word := Truncate(x / c.scale) % 0x1_0000;
    var s := scan[c.location..c.location + 2];
    assert Store(word / 256, 1) == [word / 256 % 256] + Store(word / 256 / 256, 0);
    assert s == [word % 256, word / 256];
    assert Pow2(8) == 256 && Pow2(0) == 1 by { Powers(); }
    assert WordOf(s, c.bigEndian, 1) == s[0] * Pow2(8 * if c.bigEndian then 1 else 0);
  }
}
