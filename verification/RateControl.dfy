/** The per-sensor rate arithmetic: minimum over the requesters' slots, clamping to the
    sensor's delay range, choice of a sampling frequency and of a hardware FIFO watermark. */
module RateControl {

  const INT64_MAX := 0x7FFF_FFFF_FFFF_FFFF
  const MAX_DEVICES := 50
  const NS_PER_SECOND := 1_000_000_000
  /** Half a second kept back from every timeout for transferring or processing the data. */
  const TRANSFER_DELAY := 500_000_000

  /** The slots of one sensor (one period and one timeout per requesting handle), what was last programmed
      (`frequency` is an index into the frequency table), and the rate changes, each with its time, handed so
      far to the queue of the data thread and to that of the client's samples. */
  datatype Rates = Rates(
    period: seq<int>,
    timeout: seq<int>,
    currentPeriod: int,
    currentTimeout: int,
    frequency: nat,
    watermark: nat,
    odrSwitch: seq<(int, int)>,
    odrStack: seq<(int, int)>)

  const IDLE_RATES := Rates(seq(MAX_DEVICES, _ => 0), seq(MAX_DEVICES, _ => INT64_MAX), 0, INT64_MAX, 0, 1, [], [])

  predicate SlotsShaped(r: Rates) {
    |r.period| == MAX_DEVICES && |r.timeout| == MAX_DEVICES
  }

  // ---------------------------------------------------------------- minima over the slots

  /** Does a stored period count as a request? */
  predicate Counts(period: int) {
    0 < period < INT64_MAX
  }

  /** `m` is the least entry that counts as a period, or 0 when there is none. */
  predicate IsMinPeriod(slots: seq<int>, m: int) {
    if m == 0 then forall i :: 0 <= i < |slots| ==> slots[i] <= 0 || slots[i] >= 0x7FFF_FFFF_FFFF_FFFF
    else 0 < m < 0x7FFF_FFFF_FFFF_FFFF && m in slots && forall i :: 0 <= i < |slots| ==> slots[i] <= 0 || slots[i] >= m
  }

  /** `m` is the least finite timeout, or the greatest 64-bit integer when there is none. */
  predicate IsMinTimeout(slots: seq<int>, m: int) {
    m <= 0x7FFF_FFFF_FFFF_FFFF && (m == 0x7FFF_FFFF_FFFF_FFFF || m in slots) && forall i :: 0 <= i < |slots| ==> slots[i] >= m
  }

  function LeastPeriod(slots: seq<int>): (m: int)
    ensures m == INT64_MAX || (0 < m < INT64_MAX && m in slots)
    ensures forall i :: 0 <= i < |slots| ==> slots[i] <= 0 || slots[i] >= m
  {
    if slots == [] then INT64_MAX
    else
      var last := |slots| - 1;
      var m := LeastPeriod(slots[..last]);
      assert forall i :: 0 <= i < last ==> slots[i] == slots[..last][i];
      if slots[last] < m && slots[last] > 0 then slots[last] else m
  }

  function MinPeriod(slots: seq<int>): (m: int)
    ensures IsMinPeriod(slots, m)
  {
    var m := LeastPeriod(slots);
    if m == INT64_MAX then 0 else m
  }

  function MinTimeout(slots: seq<int>): (m: int)
    ensures IsMinTimeout(slots, m)
  {
    if slots == [] then INT64_MAX
    else
      var last := |slots| - 1;
      var m := MinTimeout(slots[..last]);
      assert forall i :: 0 <= i < last ==> slots[i] == slots[..last][i];
      if slots[last] < m then slots[last] else m
  }

  method GetMinPeriod(slots: seq<int>) returns (r: int)
    ensures r == MinPeriod(slots)
  {
    var min := INT64_MAX;
    for i := 0 to |slots|
      invariant min == LeastPeriod(slots[..i])
    {
      assert slots[..i + 1][..i] == slots[..i];
      if slots[i] < min && slots[i] > 0 {
        min := slots[i];
      }
    }
    assert slots[..|slots|] == slots;
    return if min == INT64_MAX then 0 else min;
  }

  method GetMinTimeout(slots: seq<int>) returns (min: int)
    ensures min == MinTimeout(slots)
  {
    min := INT64_MAX;
    for i := 0 to |slots|
      invariant min == MinTimeout(slots[..i])
    {
      assert slots[..i + 1][..i] == slots[..i];
      if slots[i] < min && slots[i] < INT64_MAX {
        min := slots[i];
      }
    }
    assert slots[..|slots|] == slots;
  }

  lemma MinPeriodUnique(slots: seq<int>, m: int)
    requires IsMinPeriod(slots, m)
    ensures m == MinPeriod(slots)
  {
  }

  lemma MinTimeoutUnique(slots: seq<int>, m: int)
    requires IsMinTimeout(slots, m)
    ensures m == MinTimeout(slots)
  {
  }

  // ---------------------------------------------------------------- clamping

  /** A requested period brought into the delay range: first the maximum, then the minimum. */
  function ClampTo(minNs: int, maxNs: int, period: int): (r: int)
    ensures minNs <= maxNs && 0 < maxNs && period > 0 ==> minNs <= r <= maxNs
    ensures minNs <= period <= maxNs ==> r == period
  {
    var capped := if period > maxNs then maxNs else period;
    if capped < minNs && capped > 0 then minNs else capped
  }

  /** No period in the range is nearer to the request. */
  lemma ClampIsNearest(minNs: int, maxNs: int, period: int, other: int)
    requires minNs <= other <= maxNs && 0 < maxNs && period > 0
    ensures var r := ClampTo(minNs, maxNs, period); other <= r <= period || period <= r <= other
  {
  }

  /** A finite timeout less the time kept back; never negative. */
  function ShortenTimeout(timeout: int): (r: int)
    ensures 0 <= r && (timeout < INT64_MAX ==> r < INT64_MAX)
    ensures r > 0 || timeout == TRANSFER_DELAY ==> r + TRANSFER_DELAY == timeout
    ensures r == 0 ==> timeout <= TRANSFER_DELAY
  {
    if timeout < TRANSFER_DELAY then 0 else timeout - TRANSFER_DELAY
  }

  // ---------------------------------------------------------------- frequency and watermark

  /** The loop's choice: the first entry at or above the request, else the last one. */
  function ChooseFrequency(table: seq<real>, wanted: int, from: nat): (i: nat)
    requires from < |table|
    ensures from <= i < |table|
    ensures forall k :: from <= k < i ==> table[k] < wanted as real
    ensures table[i] >= wanted as real || i == |table| - 1
    decreases |table| - from
  {
    if table[from] >= wanted as real || from == |table| - 1 then from
    else ChooseFrequency(table, wanted, from + 1)
  }

  method FindFrequency(table: seq<real>, wanted: int) returns (i: int)
    requires |table| > 0
    ensures i == ChooseFrequency(table, wanted, 0)
  {
    i := 0;
    while i < |table|
      invariant 0 <= i <= |table|
      invariant i < |table| ==> ChooseFrequency(table, wanted, 0) == ChooseFrequency(table, wanted, i)
      invariant i == |table| ==> ChooseFrequency(table, wanted, 0) == |table| - 1
    {
      if table[i] >= wanted as real {
        break;
      }
      i := i + 1;
    }
    if i == |table| {
      i := i - 1;
    }
  }

  /** With an ascending table the choice is the least entry not below the request, else the greatest. */
  lemma ChosenFrequencyIsLeast(table: seq<real>, wanted: int, k: nat)
    requires k < |table|
    requires forall a, b :: 0 <= a < b < |table| ==> table[a] <= table[b]
    ensures var f := table[ChooseFrequency(table, wanted, 0)];
            if table[|table| - 1] >= wanted as real
            then f >= wanted as real && (table[k] >= wanted as real ==> f <= table[k])
            else f == table[|table| - 1] && table[k] <= f
  {
  }

  /** The conversion of a double to `unsigned int`: exact when the value fits, and otherwise
      whatever the target machine gives, which is at most the true value. */
  ghost predicate ValidNarrow(narrow: int -> nat) {
    forall v: int {:trigger narrow(v)} :: (0 <= v < 0x1_0000_0000 ==> narrow(v) == v) && (v >= 0 ==> narrow(v) <= v)
  }

  function SamplePeriod(frequency: real): real
    requires frequency > 0.0
  {
    1_000_000_000.0 / frequency
  }

  /** The FIFO length asked for, before the device's own "0 means 1" rule. */
  function BufferLength(narrow: int -> nat, timeout: int, frequency: real, fifo: nat): (n: nat)
    requires frequency > 0.0
    ensures n <= fifo
  {
    var length := narrow((timeout as real / SamplePeriod(frequency)).Floor);
    if length > fifo then fifo else length
  }

  function WatermarkFor(length: nat): (n: nat)
    ensures n >= 1 && (length >= 1 ==> n == length)
  {
    if length == 0 then 1 else length
  }

  /** Samples waiting in the FIFO never wait longer than the timeout allows. */
  lemma {:induction false} WatermarkFits(narrow: int -> nat, timeout: int, frequency: real, fifo: nat)
    requires ValidNarrow(narrow) && timeout >= 0 && frequency > 0.0
    ensures var n := BufferLength(narrow, timeout, frequency, fifo);
            n as real * SamplePeriod(frequency) <= timeout as real
  {
    var period := SamplePeriod(frequency);
    var exact := timeout as real / period;
    var n := BufferLength(narrow, timeout, frequency, fifo);
    assert exact >= 0.0;
    assert n as real <= exact.Floor as real <= exact;
    assert n as real * period <= exact * period;
  }

  /** And one sample more would not fit: neither the FIFO nor the timeout. */
  lemma {:induction false} WatermarkIsLargest(narrow: int -> nat, timeout: int, frequency: real, fifo: nat)
    requires ValidNarrow(narrow) && timeout >= 0 && frequency > 0.0
    requires timeout as real / SamplePeriod(frequency) < 4294967296.0
    ensures var n := BufferLength(narrow, timeout, frequency, fifo);
            n == fifo || (n + 1) as real * SamplePeriod(frequency) > timeout as real
  {
    var period := SamplePeriod(frequency);
    var exact := timeout as real / period;
    var n := BufferLength(narrow, timeout, frequency, fifo);
    assert exact >= 0.0 && exact * period == timeout as real;
    if n != fifo {
      assert n == exact.Floor;
      var m := (n + 1) as real;
      assert m > exact;
      assert m * period > exact * period;
    }
  }
}
