/** How many of a hardware sensor's samples reach the client: the decimation counter of WriteDataToPipe. */
module Decimation {
  import opened Division
  import opened Pipe
  import opened Queues

  /** The state WriteDataToPipe works on.  `pending` holds (time, rate), oldest first. */
  datatype Gate = Gate(rate: nat, counter: nat, decimator: nat, last: int, pending: seq<(int, int)>, pipe: seq<PipeEvent>)

  /** When the client enabled and disabled the sensor. */
  datatype Times = Times(enabled: int, disabled: int)

  ghost predicate Counting(g: Gate) {
    g.counter < 0x100 && forall i :: 0 <= i < |g.pending| ==> g.pending[i].1 >= 0
  }

  predicate ValidDataToPush(w: Times, time: int) {
    if w.enabled > w.disabled then time > w.enabled else w.enabled < time < w.disabled
  }

  /** One and a twentieth times the wanted over the delivered period, cut to an integer of eight bits. */
  function Ratio(rate: nat, hwPollrate: nat): int
    requires hwPollrate > 0
  {
    var temp := rate as real / hwPollrate as real;
    (temp + temp / 20.0).Floor
  }

  function Decimator(rate: nat, hwPollrate: nat): nat
    requires hwPollrate > 0
  {
    var d := Ratio(rate, hwPollrate) % 0x100;
    if d == 0 then 1 else d
  }

  predicate Changes(g: Gate, time: int) {
    g.pending != [] && g.pending[0].0 >= 0 && time > g.pending[0].0
  }

  /** The rate change at the head of the queue is applied when it is due. */
  function Taken(g: Gate, time: int): (r: Gate)
    requires Counting(g)
    ensures Counting(r)
  {
    if Changes(g, time) then g.(rate := g.pending[0].1, pending := g.pending[1..]) else g
  }

  /** Whether a sample is to be written, given the counter after counting it. */
  predicate Falls(g: Gate, changed: bool, hwPollrate: nat)
    requires hwPollrate > 0
  {
    (g.counter + 1) % 0x100 % Decimator(g.rate, hwPollrate) == 0 || changed
  }

  /** Counting a sample, and writing it when it falls on a multiple of the decimator or follows a change of
      rate; a failed write is as if the sample had not been counted. */
  function Counted(g: Gate, changed: bool, time: int, hwPollrate: nat, writes: bool): (r: Gate)
    requires hwPollrate > 0 && Counting(g)
    ensures Counting(r)
  {
    var h := g.(decimator := Decimator(g.rate, hwPollrate));
    if !Falls(g, changed, hwPollrate) then h.(counter := (g.counter + 1) % 0x100)
    else if !writes then h
    else h.(counter := 0, last := time, pipe := g.pipe + [SampleEvent(time)])
  }

  /** WriteDataToPipe for a sample at `time`, with the sensor delivering one every `hwPollrate`; `writes`
      tells whether the pipe takes it. */
  function Push(g: Gate, w: Times, time: int, hwPollrate: nat, writes: bool): (r: Gate)
    requires hwPollrate > 0 && Counting(g)
    ensures Counting(r)
  {
    if ValidDataToPush(w, time) then Counted(Taken(g, time), Changes(g, time), time, hwPollrate, writes)
    else Taken(g, time)
  }

  /** What one sample does.  The oldest change of rate is applied and removed when its time is earlier than the sample's.
      Then, within the time the client has the sensor enabled, the sample is counted, and it is written, if the pipe
      takes it, when a change has just been applied or the counter has come to a multiple of the decimator. */
  lemma PushExactly(g: Gate, w: Times, time: int, hwPollrate: nat, writes: bool)
    requires hwPollrate > 0 && Counting(g)
    ensures var r := Push(g, w, time, hwPollrate, writes);
            var due := g.pending != [] && 0 <= g.pending[0].0 < time;
            var inside := if w.enabled > w.disabled then time > w.enabled else w.enabled < time && time < w.disabled;
            && r.rate == (if due then g.pending[0].1 else g.rate)
            && r.pending == (if due then g.pending[1..] else g.pending)
            && (!inside ==> r.pipe == g.pipe && r.counter == g.counter && r.last == g.last)
            && (inside ==>
                  var falls := due || (g.counter + 1) % 256 % Decimator(r.rate, hwPollrate) == 0;
                  && r.pipe == g.pipe + (if falls && writes then [SampleEvent(time)] else [])
                  && r.counter == (if !falls then (g.counter + 1) % 256 else if writes then 0 else g.counter)
                  && r.last == (if falls && writes then time else g.last))
  {
    hide Ratio;
  }

  /** A sample adds itself to the pipe, or nothing. */
  lemma PushWrites(g: Gate, w: Times, time: int, hwPollrate: nat, writes: bool)
    requires hwPollrate > 0 && Counting(g)
    ensures var r := Push(g, w, time, hwPollrate, writes); r.pipe == g.pipe || r.pipe == g.pipe + [SampleEvent(time)]
  {
  }

  /** The fields of a sensor that WriteDataToPipe uses. */
  class DataGate {
    var currentRealPollrate: nat
    var samplesCounter: nat
    var decimator: nat
    var lastDataTimestamp: int
    var sensorMyEnable: int
    var sensorMyDisable: int
    const odrStack: PairQueue
    var pipe: seq<PipeEvent>

    ghost predicate Valid()
      reads this, odrStack, odrStack.keys, odrStack.values
    {
      odrStack.Valid() && Counting(State())
    }

    ghost function State(): Gate
      requires odrStack.Valid()
      reads this, odrStack, odrStack.keys, odrStack.values
    {
      Gate(currentRealPollrate, samplesCounter, decimator, lastDataTimestamp, odrStack.Contents(), pipe)
    }

    function Window(): Times
      reads this
    {
      Times(sensorMyEnable, sensorMyDisable)
    }

    constructor ()
      ensures Valid() && fresh(odrStack) && fresh(odrStack.keys) && fresh(odrStack.values)
      ensures State() == Gate(0, 0, 1, 0, [], []) && Window() == Times(0, 1) && odrStack.capacity == ODR_STACK_MAX
    {
      currentRealPollrate := 0;
      samplesCounter := 0;
      decimator := 1;
      lastDataTimestamp := 0;
      sensorMyEnable := 0;
      sensorMyDisable := 1;
      pipe := [];
      odrStack := new PairQueue(ODR_STACK_MAX);
    }

    method WriteDataToPipe(time: int, hwPollrate: nat, writes: bool)
      requires Valid() && hwPollrate > 0
      modifies this, odrStack, odrStack.keys, odrStack.values
      ensures Valid() && sensorMyEnable == old(sensorMyEnable) && sensorMyDisable == old(sensorMyDisable)
      ensures State() == Push(old(State()), Times(sensorMyEnable, sensorMyDisable), time, hwPollrate, writes)
    {
      hide Counted;
      var odrChanged := TakeRateChange(time);
      if ValidDataToPush(Times(sensorMyEnable, sensorMyDisable), time) {
        var _ := CountSample(odrChanged, time, hwPollrate, writes);
      }
    }

    /** Its main part; false when the pipe refuses the sample. */
    method CountSample(odrChanged: bool, time: int, hwPollrate: nat, writes: bool) returns (ok: bool)
      requires Valid() && hwPollrate > 0
      modifies this`decimator, this`samplesCounter, this`pipe, this`lastDataTimestamp
      ensures Valid() && State() == Counted(old(State()), odrChanged, time, hwPollrate, writes)
      ensures ok <==> writes || !Falls(old(State()), odrChanged, hwPollrate)
    {
      hide Ratio;
      decimator := Ratio(currentRealPollrate, hwPollrate) % 0x100;
      samplesCounter := (samplesCounter + 1) % 0x100;
      if decimator == 0 {
        decimator := 1;
      }
      if samplesCounter % decimator == 0 || odrChanged {
        if !writes {
          samplesCounter := (samplesCounter - 1) % 0x100;
          return false;
        }
        pipe := pipe + [SampleEvent(time)];
        samplesCounter := 0;
        lastDataTimestamp := time;
      }
      return true;
    }

    /** The lookup that opens WriteDataToPipe: a rate change that is due is applied and removed. */
    method TakeRateChange(time: int) returns (odrChanged: bool)
      requires Valid()
      modifies this, odrStack, odrStack.keys, odrStack.values
      ensures Valid() && sensorMyEnable == old(sensorMyEnable) && sensorMyDisable == old(sensorMyDisable)
      ensures odrChanged == Changes(old(State()), time) && State() == Taken(old(State()), time)
    {
      odrChanged := false;
      var timestampChange, newPollrate := odrStack.ReadLastElement(0);
      if timestampChange >= 0 && time > timestampChange {
        assert State().pending[0] == (timestampChange, newPollrate);
        currentRealPollrate := newPollrate;
        odrStack.RemoveLastElement();
        odrChanged := true;
      }
    }
  }

  // ---------------------------------------------------------------- how much is kept

  lemma ScaledFloor(x: real, d: int, y: real, m: real)
    requires m > 0.0 && x * m == y && d == x.Floor
    ensures d as real * m <= y < (d + 1) as real * m
  {
    assert (x - d as real) * m >= 0.0;
    assert ((d + 1) as real - x) * m > 0.0;
  }

  /** The ratio is the whole part of 21 R / 20 H. */
  lemma RatioBounds(rate: nat, hwPollrate: nat)
    requires hwPollrate > 0
    ensures var d := Ratio(rate, hwPollrate); d >= 0 && 20 * hwPollrate * d <= 21 * rate < 20 * hwPollrate * (d + 1)
  {
    var temp := rate as real / hwPollrate as real;
    var x, m, y := temp + temp / 20.0, (20 * hwPollrate) as real, (21 * rate) as real;
    assert temp * hwPollrate as real == rate as real;
    assert x * m == y;
    var d := x.Floor;
    ScaledFloor(x, d, y, m);
    assert (d * (20 * hwPollrate)) as real == d as real * m;
    assert ((d + 1) * (20 * hwPollrate)) as real == (d + 1) as real * m;
  }

  /** The samples of a run in which every valid sample is taken by the pipe. */
  function Pushes(g: Gate, w: Times, times: seq<int>, hwPollrate: nat): (r: Gate)
    requires hwPollrate > 0 && Counting(g)
    ensures Counting(r)
  {
    if times == [] then g
    else Push(Pushes(g, w, times[..|times| - 1], hwPollrate), w, times[|times| - 1], hwPollrate, true)
  }

  /** No rate change falls due and every sample is within the client's window. */
  ghost predicate Steady(g: Gate, w: Times, times: seq<int>) {
    forall i :: 0 <= i < |times| ==>
      && (if w.enabled > w.disabled then times[i] > w.enabled else w.enabled < times[i] && times[i] < w.disabled)
      && !(g.pending != [] && 0 <= g.pending[0].0 < times[i])
  }

  /** The samples that are written when the counter stands at c: every d-th one. */
  function EveryNth(times: seq<int>, c: nat, d: nat): (r: seq<PipeEvent>)
    requires c < d
    ensures |r| == (c + |times|) / d
    decreases |times|
  {
    seq((c + |times|) / d, k requires 0 <= k < (c + |times|) / d => SampleEvent(times[NthAt(c, |times|, d, k)]))
  }

  function NthAt(c: nat, n: nat, d: nat, k: nat): (i: nat)
    requires c < d && k < (c + n) / d
    ensures i < n && c + i + 1 == (k + 1) * d
  {
    assert (k + 1) * d <= (c + n) / d * d <= c + n;
    assert (k + 1) * d >= d;
    (k + 1) * d - c - 1
  }

  /** Counting on by one: d divides m + 1 exactly when the rest of m is d - 1. */
  lemma CountOn(m: nat, d: nat)
    requires d > 0
    ensures if (m % d + 1) % d == 0 then (m + 1) % d == 0 && (m + 1) / d == m / d + 1 && (m / d + 1) * d == m + 1
            else (m + 1) % d == m % d + 1 && (m + 1) / d == m / d
  {
    var q, r := m / d, m % d;
    assert m == q * d + r;
    if r + 1 == d {
      assert m + 1 == (q + 1) * d + 0;
      DivisionIsUnique(m + 1, q + 1, d, 0);
      DivisionIsUnique(r + 1, 1, d, 0);
    } else {
      DivisionIsUnique(m + 1, q, d, r + 1);
      DivisionIsUnique(r + 1, 0, d, r + 1);
    }
  }

  lemma OneMoreSample(times: seq<int>, c: nat, d: nat)
    requires c < d && times != []
    ensures var n, before := |times| - 1, EveryNth(times[..|times| - 1], c, d);
            EveryNth(times, c, d) == if ((c + n) % d + 1) % d == 0 then before + [SampleEvent(times[n])] else before
  {
    var n := |times| - 1;
    CountOn(c + n, d);
    var fewer, all := EveryNth(times[..n], c, d), EveryNth(times, c, d);
    forall k | 0 <= k < |fewer| ensures all[k] == fewer[k] {
      assert NthAt(c, n, d, k) == NthAt(c, n + 1, d, k);
    }
    if ((c + n) % d + 1) % d == 0 {
      assert NthAt(c, n + 1, d, (c + n) / d) == n;
    }
  }

  /** Between rate changes, from a counter below the decimator: exactly every d-th valid sample is written,
      floor((c + n) / d) of them, and the counter is c + n modulo d, so its eight bits never overflow. */
  lemma {:induction false} EveryNthIsWritten(g: Gate, w: Times, times: seq<int>, hwPollrate: nat)
    requires hwPollrate > 0 && Counting(g) && Steady(g, w, times) && g.counter < Decimator(g.rate, hwPollrate)
    ensures var d, r := Decimator(g.rate, hwPollrate), Pushes(g, w, times, hwPollrate);
            && r.rate == g.rate && r.pending == g.pending
            && r.counter == (g.counter + |times|) % d
            && r.pipe == g.pipe + EveryNth(times, g.counter, d)
    decreases |times|
  {
    hide Ratio, EveryNth;
    var d, c := Decimator(g.rate, hwPollrate), g.counter;
    if times == [] {
      DivisionIsUnique(c, 0, d, c);
      assert EveryNth(times, c, d) == [];
    } else {
      var n := |times| - 1;
      EveryNthIsWritten(g, w, times[..n], hwPollrate);
      var before := Pushes(g, w, times[..n], hwPollrate);
      assert !Changes(before, times[n]);
      OnePush(before, w, times[n], hwPollrate);
      hide Push, Decimator;
      CountOn(c + n, d);
      OneMoreSample(times, c, d);
    }
  }

  /** One valid sample that changes no rate: the counter goes on by one, back to 0 at the decimator. */
  lemma OnePush(g: Gate, w: Times, time: int, hwPollrate: nat)
    requires hwPollrate > 0 && Counting(g) && ValidDataToPush(w, time) && !Changes(g, time)
    requires g.counter < Decimator(g.rate, hwPollrate)
    ensures var d, r := Decimator(g.rate, hwPollrate), Push(g, w, time, hwPollrate, true);
            && d < 0x100 && r.rate == g.rate && r.pending == g.pending
            && if (g.counter + 1) % d == 0 then r.counter == 0 && r.pipe == g.pipe + [SampleEvent(time)]
               else r.counter == g.counter + 1 && r.pipe == g.pipe
  {
    hide Ratio;
    assert (g.counter + 1) % 0x100 == g.counter + 1;
  }

  /** The period delivered, decimator times the hardware's, lies within one hardware period below 21/20 of
      the wanted one exactly when the ratio of the two is at least 1 and fits eight bits. */
  lemma DeliveredPeriod(rate: nat, hwPollrate: nat)
    requires hwPollrate > 0
    ensures var period := 20 * hwPollrate * Decimator(rate, hwPollrate);
            21 * rate - 20 * hwPollrate < period <= 21 * rate <==> 20 * hwPollrate <= 21 * rate < 20 * hwPollrate * 0x100
  {
    RatioBounds(rate, hwPollrate);
    var m, r, d := 20 * hwPollrate, Ratio(rate, hwPollrate), Decimator(rate, hwPollrate);
    hide Ratio;
    assert m * r <= 21 * rate < m * r + m;
    if r == 0 {
      assert d == 1;
    } else if r < 0x100 {
      assert d == r;
      Grows(m, r, 1);
      Grows(m, 0xFF, r);
    } else {
      assert d <= 0xFF;
      Grows(m, r, 0x100);
      Grows(m, 0xFF, d);
    }
  }

  lemma Grows(m: nat, a: nat, b: nat)
    requires a >= b
    ensures m * a >= m * b
  {
    assert m * (a - b) >= 0;
  }

  /** The first valid sample after a rate change falls due is written at once and counting starts afresh. */
  lemma AfterRateChange(g: Gate, w: Times, time: int, times: seq<int>, hwPollrate: nat)
    requires hwPollrate > 0 && Counting(g) && g.pending != [] && 0 <= g.pending[0].0 < time
    requires if w.enabled > w.disabled then time > w.enabled else w.enabled < time && time < w.disabled
    requires Steady(Push(g, w, time, hwPollrate, true), w, times)
    ensures Pushes(Push(g, w, time, hwPollrate, true), w, times, hwPollrate).pipe
         == g.pipe + [SampleEvent(time)] + EveryNth(times, 0, Decimator(g.pending[0].1, hwPollrate))
  {
    EveryNthIsWritten(Push(g, w, time, hwPollrate, true), w, times, hwPollrate);
  }
}
