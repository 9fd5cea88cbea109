/** What a polled hardware sensor's device makes of the requests: how long samples may wait in its FIFO, and how
    far its sampling frequency may fall short. */
module Batching {
  import opened RateControl
  import opened SensorGraph
  import opened DeviceRates

  /** The watermark register of s was rewritten by a call that led from r to r'. */
  predicate WatermarkRewritten(r: Rates, r': Rates) {
    MinPeriod(r'.period) != 0 && r'.currentTimeout != r.currentTimeout
  }

  /** The promise to one requester: the FIFO is either unused or, when full to the watermark, not late. */
  predicate MeetsTimeout(c: Config, watermark: nat, frequency: real, timeout: int)
    requires frequency > 0.0
  {
    watermark == 1 || (1 < watermark <= c.fifo && watermark as real * (1_000_000_000.0 / frequency) <= (timeout - 500_000_000) as real)
  }

  /** Whenever SetDelay rewrites the watermark, it is 1 or it fits the FIFO, and then that many samples at the
      frequency the device has take no longer than any requester's timeout less half a second. */
  lemma {:induction false} WatermarkMeetsEveryTimeout(g: Graph, io: Platform, w: World, s: nat, h: nat, period: int, timeout: int, k: nat)
    requires WellFormed(g) && AllProgrammed(g, io, w) && s < |g| && h < MAX_DEVICES && k < MAX_DEVICES
    requires g[s].kind.PollHardware? && ValidNarrow(io.narrow)
    requires SetDelay(g, io, w, s, h, period, timeout).ok
    requires WatermarkRewritten(w.rates[s], SetDelay(g, io, w, s, h, period, timeout).world.rates[s])
    ensures var c, r := g[s], SetDelay(g, io, w, s, h, period, timeout).world.rates[s];
            && r.frequency < |c.table| && c.table[r.frequency] > 0.0
            && MeetsTimeout(c, r.watermark, c.table[r.frequency], r.timeout[k])
  {
    assert Usable(g, s);
    var stored := StoredPeriod(g[s], period, timeout);
    var b := BaseSetDelay(g, io, w, s, h, stored, timeout).world;
    assert b.rates[s] == WithSlot(w, s, h, stored, timeout).rates[s];
    var r := SetDelay(g, io, w, s, h, period, timeout).world.rates[s];
    hide BaseSetDelay;
    assert Programmed(g[s], w.rates[s], io.clock(w.ticks));
    RewrittenWatermark(g, io, b, s, h, stored);
    hide SetDelay, Program;
    WatermarkBound(io.narrow, g[s], MinTimeout(r.timeout), r.timeout[k], r.frequency);
  }

  lemma RewrittenWatermark(g: Graph, io: Platform, w: World, s: nat, h: nat, period: int)
    requires WellFormed(g) && Shaped(g, w) && s < |g| && g[s].kind.PollHardware?
    requires var r := w.rates[s]; r.currentPeriod != 0 ==> FirstFast(g[s].table, r.currentPeriod, r.frequency)
    requires Program(g, io, w, s, h, period).ok && WatermarkRewritten(w.rates[s], Program(g, io, w, s, h, period).world.rates[s])
    ensures var c, r := g[s], Program(g, io, w, s, h, period).world.rates[s];
            && r.frequency < |c.table| && c.table[r.frequency] > 0.0
            && r.watermark == WatermarkFor(BufferLength(io.narrow, ShortenTimeout(MinTimeout(r.timeout)), c.table[r.frequency], c.fifo))
  {
    assert Usable(g, s);
    var shortest := MinPeriod(w.rates[s].period);
    if w.rates[s].currentPeriod == shortest {
      FirstFastUnique(g[s].table, shortest, w.rates[s].frequency, FrequencyFor(g[s], shortest));
    }
  }

  /** An accepted new request that leaves a least period rewrites the watermark only if it also changes the time left
      for batching: a new frequency alone leaves the watermark as it was. */
  lemma WatermarkFollowsTimeoutOnly(g: Graph, io: Platform, w: World, s: nat, h: nat, period: int, timeout: int)
    requires WellFormed(g) && Shaped(g, w) && s < |g| && h < MAX_DEVICES && g[s].kind.PollHardware? && g[s].fifo > 0
    requires NewRequest(w.rates[s], h, period, timeout) && SetDelay(g, io, w, s, h, period, timeout).ok
    ensures var r, r' := w.rates[s], SetDelay(g, io, w, s, h, period, timeout).world.rates[s];
            var left := if MinTimeout(r'.timeout) < 500_000_000 then 0 else MinTimeout(r'.timeout) - 500_000_000;
            MinPeriod(r'.period) != 0 ==>
              && (WatermarkRewritten(r, r') <==> left != r.currentTimeout)
              && (left == r.currentTimeout ==> r'.watermark == r.watermark)
  {
    var b := BaseSetDelay(g, io, w, s, h, StoredPeriod(g[s], period, timeout), timeout).world;
    assert b.rates[s] == WithSlot(w, s, h, StoredPeriod(g[s], period, timeout), timeout).rates[s];
    hide BaseSetDelay;
    assert Usable(g, s);
  }

  /** 10 and 100 Hz, and room for 300 samples. */
  const DEEP: Graph := [Config(PollHardware, [], 0, 300, 1, 1_000_000_000, [10.0, 100.0])]

  /** So the promise can fail after such a call: 100 samples wait for a second at 100 Hz, and for ten at 10 Hz, though
      the requester's timeout is still a second and a half. */
  lemma WatermarkGoesStale(io: Platform)
    requires ValidNarrow(io.narrow) && io.accepts(0) && io.accepts(1) && io.accepts(2)
    ensures WellFormed(DEEP)
    ensures var r1 := SetDelay(DEEP, io, Initial(1), 0, 0, 10_000_000, 1_500_000_000);
            var r2 := SetDelay(DEEP, io, r1.world, 0, 0, 100_000_000, 1_500_000_000);
            var r := r2.world.rates[0];
            && r1.ok && r2.ok && MeetsTimeout(DEEP[0], r1.world.rates[0].watermark, 100.0, 1_500_000_000)
            && r.frequency == 0 && r.timeout[0] == 1_500_000_000
            && !MeetsTimeout(DEEP[0], r.watermark, 10.0, 1_500_000_000)
  {
    DeepIsWellFormed();
    hide SetDelay, WellFormed;
    DeepRequest(io, Initial(1), 10_000_000, 1);
    var w1 := SetDelay(DEEP, io, Initial(1), 0, 0, 10_000_000, 1_500_000_000).world;
    DeepRequest(io, w1, 100_000_000, 0);
  }

  lemma DeepIsWellFormed()
    ensures WellFormed(DEEP)
  {
  }

  lemma DeepRequest(io: Platform, w: World, period: int, i: nat)
    requires ValidNarrow(io.narrow) && WellFormed(DEEP) && Shaped(DEEP, w)
    requires io.accepts(w.writes) && (w.rates[0].currentTimeout == 1_000_000_000 || io.accepts(w.writes + 1))
    requires 1 <= period <= 1_000_000_000 && FirstFast([10.0, 100.0], period, i)
    requires period !in {w.rates[0].period[0], w.rates[0].currentPeriod}
    requires forall x :: 0 < x < MAX_DEVICES ==> w.rates[0].period[x] == 0 && w.rates[0].timeout[x] == INT64_MAX
    ensures var r := SetDelay(DEEP, io, w, 0, 0, period, 1_500_000_000); var r0, r1 := w.rates[0], r.world.rates[0];
            && r.ok && r1.period == r0.period[0 := period] && r1.timeout == r0.timeout[0 := 1_500_000_000]
            && r1.frequency == i && r1.currentPeriod == period && r1.currentTimeout == 1_000_000_000
            && r1.watermark == (if r0.currentTimeout == 1_000_000_000 then r0.watermark else if i == 0 then 10 else 100)
            && r.world.writes == w.writes + if r0.currentTimeout == 1_000_000_000 then 1 else 2
  {
    var w1 := WithSlot(w, 0, 0, period, 1_500_000_000);
    assert PushDelays(DEEP, io, w1, 0, 0) == (w1, 0);
    assert BaseSetDelay(DEEP, io, w, 0, 0, period, 1_500_000_000) == Outcome(w1, true);
    assert w1.rates[0].period[0] == period && w1.rates[0].timeout[0] == 1_500_000_000;
    MinPeriodUnique(w1.rates[0].period, period);
    MinTimeoutUnique(w1.rates[0].timeout, 1_500_000_000);
    FirstFastUnique([10.0, 100.0], period, i, FrequencyFor(DEEP[0], period));
    hide FirstFast, FrequencyFor, PushDelays, BaseSetDelay, MinPeriod, MinTimeout;
    assert SamplePeriod(10.0) == 100_000_000.0 && SamplePeriod(100.0) == 10_000_000.0;
    assert BufferLength(io.narrow, 1_000_000_000, 10.0, 300) == 10 && BufferLength(io.narrow, 1_000_000_000, 100.0, 300) == 100;
  }

  lemma {:induction false} WatermarkBound(narrow: int -> nat, c: Config, least: int, timeout: int, i: nat)
    requires ValidNarrow(narrow) && i < |c.table| && c.table[i] > 0.0 && least <= timeout
    ensures MeetsTimeout(c, WatermarkFor(BufferLength(narrow, ShortenTimeout(least), c.table[i], c.fifo)), c.table[i], timeout)
  {
    var time := ShortenTimeout(least);
    WatermarkFits(narrow, time, c.table[i], c.fifo);
    if least < TRANSFER_DELAY {
      assert 0 as real / SamplePeriod(c.table[i]) == 0.0;
      assert narrow(0) == 0;
    }
  }

  /** Does the sampling frequency f serve the period? */
  predicate Serves(f: real, period: int) {
    f * period as real >= 1_000_000_000.0
  }

  /** The request cut to whole Hz, in real terms. */
  lemma WholeHertz(period: int)
    requires period > 0
    ensures var wanted := 1_000_000_000 / period;
            wanted as real * period as real <= 1_000_000_000.0 < (wanted as real + 1.0) * period as real
  {
    var wanted := 1_000_000_000 / period;
    assert wanted as real * period as real == (wanted * period) as real;
    assert (wanted as real + 1.0) * period as real == ((wanted + 1) * period) as real;
  }

  lemma Scaled(x: real, y: real, p: real)
    requires p > 0.0
    ensures x >= y <==> x * p >= y * p
  {
  }

  lemma ServesMonotone(f: real, faster: real, period: int)
    requires period > 0 && f <= faster && Serves(f, period)
    ensures Serves(faster, period)
  {
    Scaled(faster, f, period as real);
  }

  lemma TopReaches(top: real, period: int)
    requires period > 0 && Serves(top, period)
    ensures top >= (1_000_000_000 / period) as real
  {
    WholeHertz(period);
    Scaled(top, (1_000_000_000 / period) as real, period as real);
  }

  /** The device serves the period in force, from an ascending table whose greatest entry is fast enough for it. */
  ghost predicate ServedFromTable(c: Config, r: Rates, now: int) {
    && Programmed(c, r, now) && r.currentPeriod != 0 && |c.table| > 0
    && (forall a, b :: 0 <= a < b < |c.table| ==> c.table[a] <= c.table[b])
    && Serves(c.table[|c.table| - 1], r.currentPeriod)
  }

  /** The frequency the device has falls short of the period in force by less than 1 Hz (the request is cut to
      whole Hz). */
  lemma ServedWithinOneHertz(c: Config, r: Rates, now: int)
    requires ServedFromTable(c, r, now)
    ensures r.frequency < |c.table| && (c.table[r.frequency] + 1.0) * r.currentPeriod as real > 1_000_000_000.0
  {
    var period := r.currentPeriod;
    TopReaches(c.table[|c.table| - 1], period);
    WholeHertz(period);
    Scaled(c.table[r.frequency] + 1.0, (1_000_000_000 / period) as real + 1.0, period as real);
  }

  /** The period is served in full exactly when every entry that reaches the request cut to whole Hz also reaches
      the request itself. */
  lemma ServedInFull(c: Config, r: Rates, now: int)
    requires ServedFromTable(c, r, now)
    ensures r.frequency < |c.table|
    ensures Serves(c.table[r.frequency], r.currentPeriod) <==>
            forall k :: 0 <= k < |c.table| && c.table[k] >= (1_000_000_000 / r.currentPeriod) as real ==> Serves(c.table[k], r.currentPeriod)
  {
    var period, f := r.currentPeriod, c.table[r.frequency];
    TopReaches(c.table[|c.table| - 1], period);
    hide Serves;
    if Serves(f, period) {
      forall k | 0 <= k < |c.table| && c.table[k] >= (1_000_000_000 / period) as real ensures Serves(c.table[k], period) {
        assert k >= r.frequency && f <= c.table[k];
        ServesMonotone(f, c.table[k], period);
      }
    }
  }

  /** A table and a period that fall short: 6 Hz is what a device with 6 and 13 Hz gets for a period of 150 ms. */
  lemma ServedShort(c: Config, r: Rates, now: int)
    requires c.table == [6.0, 13.0] && Programmed(c, r, now) && r.currentPeriod == 150_000_000
    ensures ServedFromTable(c, r, now) && !Serves(c.table[r.frequency], 150_000_000)
  {
    assert 1_000_000_000 / 150_000_000 == 6;
    FirstFastUnique(c.table, 150_000_000, r.frequency, 0);
  }
}
