/** With the base SetDelay at every sensor, a rate change that some sensor refuses leaves every
    slot of the whole graph as it was: the restoring calls cannot themselves be refused. */
module FailedRateChange {
  import opened RateControl
  import opened SensorGraph
  import opened PowerTheorem

  ghost predicate AllBase(g: Graph) {
    WellFormed(g) && forall s {:trigger g[s]} :: 0 <= s < |g| ==> g[s].kind.BaseSoftware?
  }

  /** The slot of x at y, and what x has to offer. */
  function At(w: World, y: nat, x: nat): (int, int)
    requires y < |w.rates| && SlotsShaped(w.rates[y]) && x < MAX_DEVICES
  {
    (w.rates[y].period[x], w.rates[y].timeout[x])
  }

  function Least(w: World, x: nat): (int, int)
    requires x < |w.rates|
  {
    (MinPeriod(w.rates[x].period), MinTimeout(w.rates[x].timeout))
  }

  ghost predicate SlotsAgree(g: Graph, w: World, bound: nat) {
    && WellFormed(g) && Shaped(g, w)
    && forall x: nat, y: nat {:trigger Edge(g, bound, x, y)} :: Edge(g, bound, x, y) ==> y < |g| && At(w, y, x) == Least(w, x)
  }

  /** Everything but the slots owed to edges below the bound is as before, except that the slot of h
      at `targets` now holds `v`. */
  ghost predicate FreeSlotsSet(g: Graph, w: World, w': World, bound: nat, targets: seq<nat>, h: nat, v: (int, int)) {
    && Shaped(g, w) && Shaped(g, w')
    && (forall x: nat, y: nat {:trigger At(w', y, x)} :: x < MAX_DEVICES && y < |g| && !Edge(g, bound, x, y) ==>
          At(w', y, x) == if x == h && y in targets then v else At(w, y, x))
    && (forall y {:trigger w'.rates[y]} :: 0 <= y < |g| ==> w'.rates[y] == w.rates[y].(period := w'.rates[y].period, timeout := w'.rates[y].timeout))
  }

  /** No sensor without a FIFO stores a timeout it would refuse. */
  predicate Acceptable(c: Config, timeout: int) {
    !(c.fifo == 0 && 0 < timeout < INT64_MAX)
  }

  ghost predicate AllAcceptable(g: Graph, w: World) {
    && Shaped(g, w)
    && forall y: nat, h: nat {:trigger w.rates[y].timeout[h]} :: y < |g| && h < MAX_DEVICES ==> Acceptable(g[y], w.rates[y].timeout[h])
  }

  ghost predicate Settled(g: Graph, w: World, bound: nat) {
    AllBase(g) && SlotsAgree(g, w, bound) && AllAcceptable(g, w)
  }

  // ---------------------------------------------------------------- slots are determined

  lemma {:induction false} SlotsDetermined(g: Graph, w: World, w': World, bound: nat)
    requires SlotsAgree(g, w, bound) && SlotsAgree(g, w', bound) && FreeSlotsSet(g, w, w', bound, [], 0, (0, 0))
    ensures w.rates == w'.rates
  {
    SlotsDeterminedFrom(g, w, w', bound, 0);
  }

  lemma {:induction false} SlotsDeterminedFrom(g: Graph, w: World, w': World, bound: nat, k: nat)
    requires SlotsAgree(g, w, bound) && SlotsAgree(g, w', bound) && FreeSlotsSet(g, w, w', bound, [], 0, (0, 0))
    ensures forall y {:trigger w.rates[y]} :: 0 <= y < |g| && g[y].rank >= k ==> w.rates[y] == w'.rates[y]
    decreases bound - k
  {
    if k < bound { SlotsDeterminedFrom(g, w, w', bound, k + 1); }
    forall y | 0 <= y < |g| && g[y].rank >= k ensures w.rates[y] == w'.rates[y] {
      forall x: nat | x < MAX_DEVICES ensures At(w, y, x) == At(w', y, x) {
        if Edge(g, bound, x, y) { EdgeRank(g, bound, x, y); }
      }
      SamePairs(w, w', y);
    }
  }

  lemma SamePairs(w: World, w': World, y: nat)
    requires y < |w.rates| == |w'.rates| && SlotsShaped(w.rates[y]) && SlotsShaped(w'.rates[y])
    requires forall x: nat :: x < MAX_DEVICES ==> At(w, y, x) == At(w', y, x)
    ensures w.rates[y].period == w'.rates[y].period && w.rates[y].timeout == w'.rates[y].timeout
  {
    forall x: nat | x < MAX_DEVICES
      ensures w.rates[y].period[x] == w'.rates[y].period[x] && w.rates[y].timeout[x] == w'.rates[y].timeout[x]
    {
      assert At(w, y, x) == At(w', y, x);
    }
  }

  // ---------------------------------------------------------------- a successful call

  lemma {:induction false} SuccessEffect(g: Graph, io: Platform, w: World, s: nat, h: nat, period: int, timeout: int)
    requires AllBase(g) && s < |g| && h < MAX_DEVICES && Settled(g, w, g[s].rank + 1)
    requires !Edge(g, g[s].rank + 1, h, s)
    requires SetDelay(g, io, w, s, h, period, timeout).ok
    ensures var w' := SetDelay(g, io, w, s, h, period, timeout).world;
            Settled(g, w', g[s].rank + 1) && FreeSlotsSet(g, w, w', g[s].rank + 1, [s], h, (period, timeout))
    decreases g[s].rank, 2, 0
  {
    assert g[s].kind.BaseSoftware?;
    var w1 := WithSlot(w, s, h, period, timeout);
    SlotWritten(g, w, s, h, period, timeout);
    PushSuccess(g, io, w1, s, 0);
    var w2 := PushDelays(g, io, w1, s, 0).0;
    assert g[s].deps[0..] == g[s].deps;
    SlotsClosed(g, w, w1, w2, s, h, period, timeout);
  }

  lemma SlotWritten(g: Graph, w: World, s: nat, h: nat, period: int, timeout: int)
    requires AllBase(g) && s < |g| && h < MAX_DEVICES && Settled(g, w, g[s].rank + 1)
    requires Acceptable(g[s], timeout)
    ensures Settled(g, WithSlot(w, s, h, period, timeout), g[s].rank)
  {
    var w1 := WithSlot(w, s, h, period, timeout);
    forall x: nat, y: nat | Edge(g, g[s].rank, x, y) ensures y < |g| && At(w1, y, x) == Least(w1, x) {
      EdgeRank(g, g[s].rank, x, y);
      assert Edge(g, g[s].rank + 1, x, y);
    }
  }

  lemma SlotsClosed(g: Graph, w: World, w1: World, w2: World, s: nat, h: nat, period: int, timeout: int)
    requires AllBase(g) && s < |g| && h < MAX_DEVICES && SlotsAgree(g, w, g[s].rank + 1) && SlotsAgree(g, w2, g[s].rank)
    requires !Edge(g, g[s].rank + 1, h, s)
    requires w1 == WithSlot(w, s, h, period, timeout) && RatesBelow(g, w1, w2, s) && w2.rates[s] == w1.rates[s]
    requires FreeSlotsSet(g, w1, w2, g[s].rank, g[s].deps, s, Least(w1, s))
    ensures SlotsAgree(g, w2, g[s].rank + 1)
    ensures FreeSlotsSet(g, w, w2, g[s].rank + 1, [s], h, (period, timeout))
  {
    forall x: nat, y: nat | Edge(g, g[s].rank + 1, x, y) ensures y < |g| && At(w2, y, x) == Least(w2, x) {
      EdgeRank(g, g[s].rank + 1, x, y);
      if g[x].rank < g[s].rank {
        assert Edge(g, g[s].rank, x, y);
      } else if x != s {
        assert !Edge(g, g[s].rank, x, y);
        assert w2.rates[x] == w1.rates[x] == w.rates[x];
      }
    }
    forall x: nat, y: nat | x < MAX_DEVICES && y < |g| && !Edge(g, g[s].rank + 1, x, y)
      ensures At(w2, y, x) == if x == h && y in [s] then (period, timeout) else At(w, y, x)
    {
      assert !Edge(g, g[s].rank, x, y);
      assert At(w2, y, x) == At(w1, y, x);
    }
  }

  lemma {:induction false} PushSuccess(g: Graph, io: Platform, w: World, s: nat, i: nat)
    requires AllBase(g) && s < |g| && i <= |g[s].deps| && Settled(g, w, g[s].rank)
    requires PushDelays(g, io, w, s, i).1 == |g[s].deps|
    ensures var w' := PushDelays(g, io, w, s, i).0;
            Settled(g, w', g[s].rank) && FreeSlotsSet(g, w, w', g[s].rank, g[s].deps[i..], s, Least(w, s))
    decreases g[s].rank, 1, |g[s].deps| - i
  {
    hide SetDelay;
    if i == |g[s].deps| { return; }
    StepSuccess(g, io, w, s, i, Least(w, s));
    var w1 := SetDelay(g, io, w, g[s].deps[i], s, Least(w, s).0, Least(w, s).1).world;
    PushSuccess(g, io, w1, s, i + 1);
    SetChain(g, w, w1, PushDelays(g, io, w1, s, i + 1).0, s, i, Least(w, s));
  }

  lemma SetChain(g: Graph, w: World, w1: World, w2: World, s: nat, i: nat, v: (int, int))
    requires s < |g| && i < |g[s].deps|
    requires FreeSlotsSet(g, w, w1, g[s].rank, [g[s].deps[i]], s, v)
    requires FreeSlotsSet(g, w1, w2, g[s].rank, g[s].deps[i + 1..], s, v)
    ensures FreeSlotsSet(g, w, w2, g[s].rank, g[s].deps[i..], s, v)
  {
    assert g[s].deps[i..] == [g[s].deps[i]] + g[s].deps[i + 1..];
    forall x: nat, y: nat | x < MAX_DEVICES && y < |g| && !Edge(g, g[s].rank, x, y)
      ensures At(w2, y, x) == if x == s && y in g[s].deps[i..] then v else At(w, y, x)
    {
      assert At(w1, y, x) == if x == s && y in [g[s].deps[i]] then v else At(w, y, x);
    }
  }

  /** A successful offer of s to its i-th dependency, seen from s. */
  lemma {:induction false} StepSuccess(g: Graph, io: Platform, w: World, s: nat, i: nat, v: (int, int))
    requires AllBase(g) && s < |g| && i < |g[s].deps| && Settled(g, w, g[s].rank)
    requires SetDelay(g, io, w, g[s].deps[i], s, v.0, v.1).ok
    ensures var w' := SetDelay(g, io, w, g[s].deps[i], s, v.0, v.1).world;
            Settled(g, w', g[s].rank) && FreeSlotsSet(g, w, w', g[s].rank, [g[s].deps[i]], s, v) && w'.rates[s] == w.rates[s]
    decreases g[s].rank, 0, 0
  {
    hide SetDelay;
    var d := g[s].deps[i];
    EdgeRank(g, g[s].rank + 1, s, d);
    SettledBelow(g, w, g[s].rank, g[d].rank + 1);
    SuccessEffect(g, io, w, d, s, v.0, v.1);
    SetSeenFrom(g, w, SetDelay(g, io, w, d, s, v.0, v.1).world, g[s].rank, d, s, v);
  }

  lemma SettledBelow(g: Graph, w: World, bound: nat, lower: nat)
    requires Settled(g, w, bound) && lower <= bound
    ensures Settled(g, w, lower)
  {
    forall x: nat, y: nat | Edge(g, lower, x, y) ensures y < |g| && At(w, y, x) == Least(w, x) {
      assert Edge(g, bound, x, y);
    }
  }

  lemma SetSeenFrom(g: Graph, w: World, w': World, bound: nat, d: nat, h: nat, v: (int, int))
    requires AllBase(g) && d < |g| && h < MAX_DEVICES && g[d].rank < bound && RatesBelow(g, w, w', d)
    requires SlotsAgree(g, w, bound) && SlotsAgree(g, w', g[d].rank + 1) && FreeSlotsSet(g, w, w', g[d].rank + 1, [d], h, v)
    requires !Edge(g, bound, h, d)
    ensures SlotsAgree(g, w', bound) && FreeSlotsSet(g, w, w', bound, [d], h, v)
  {
    forall x: nat, y: nat | Edge(g, bound, x, y) ensures y < |g| && At(w', y, x) == Least(w', x) {
      EdgeRank(g, bound, x, y);
      if g[x].rank > g[d].rank {
        assert !Edge(g, g[d].rank + 1, x, y);
        assert w'.rates[x] == w.rates[x];
        assert At(w', y, x) == At(w, y, x);
      } else {
        assert Edge(g, g[d].rank + 1, x, y);
      }
    }
    forall x: nat, y: nat | x < MAX_DEVICES && y < |g| && !Edge(g, bound, x, y)
      ensures At(w', y, x) == if x == h && y in [d] then v else At(w, y, x)
    {
      assert !Edge(g, g[d].rank + 1, x, y);
    }
  }

  // ---------------------------------------------------------------- between two settled worlds

  /** Slot by slot, `mix` holds a value of `a` or of `b`. */
  predicate Between(a: seq<int>, b: seq<int>, mix: seq<int>) {
    |a| == |b| == |mix| && forall i :: 0 <= i < |mix| ==> mix[i] == a[i] || mix[i] == b[i]
  }

  /** Where they differ, `low` holds v and `high` something greater. */
  predicate DifferAt(low: seq<int>, high: seq<int>, v: int) {
    |low| == |high| && forall i :: 0 <= i < |low| ==> low[i] == high[i] || (low[i] == v < high[i])
  }

  predicate Mixable(a: seq<int>, b: seq<int>, v: int) {
    DifferAt(a, b, v) || DifferAt(b, a, v)
  }

  lemma MinOfMix(a: seq<int>, b: seq<int>, mix: seq<int>, v: int)
    requires Between(a, b, mix) && Mixable(a, b, v)
    ensures MinTimeout(mix) == MinTimeout(a) || MinTimeout(mix) == MinTimeout(b)
  {
    if DifferAt(b, a, v) { MinOfLowHigh(b, a, mix, v); } else { MinOfLowHigh(a, b, mix, v); }
  }

  lemma MinOfLowHigh(low: seq<int>, high: seq<int>, mix: seq<int>, v: int)
    requires Between(low, high, mix) && DifferAt(low, high, v)
    ensures MinTimeout(mix) == MinTimeout(low) || MinTimeout(mix) == MinTimeout(high)
  {
    if forall i :: 0 <= i < |mix| ==> mix[i] == high[i] {
      assert mix == high;
    } else {
      var i :| 0 <= i < |mix| && mix[i] != high[i];
      assert mix[i] == low[i] == v;
      var m := MinTimeout(low);
      assert m <= v;
      if m != INT64_MAX && m < v {
        var j :| 0 <= j < |low| && low[j] == m;
        assert mix[j] == m;
      }
      MinTimeoutUnique(mix, m);
    }
  }

  lemma MinsDiffer(low: seq<int>, high: seq<int>, v: int)
    requires DifferAt(low, high, v)
    ensures MinTimeout(low) == MinTimeout(high) || MinTimeout(low) == v < MinTimeout(high)
  {
    var m, n := MinTimeout(low), MinTimeout(high);
    if m != INT64_MAX { var j :| 0 <= j < |low| && low[j] == m; }
    if n != INT64_MAX { var j :| 0 <= j < |high| && high[j] == n; assert low[j] == n || low[j] == v; }
  }

  ghost predicate MixableFrom(g: Graph, a: World, b: World, v: int, low: bool, k: nat) {
    && Shaped(g, a) && Shaped(g, b)
    && forall y {:trigger a.rates[y]} :: 0 <= y < |g| && g[y].rank >= k ==>
         if low then DifferAt(a.rates[y].timeout, b.rates[y].timeout, v) else DifferAt(b.rates[y].timeout, a.rates[y].timeout, v)
  }

  /** Two settled worlds with one free slot between them differ, everywhere, in one direction. */
  lemma {:induction false} OneSlotApart(g: Graph, a: World, b: World, bound: nat, d: nat, h: nat, t: (int, int), low: bool, k: nat)
    requires SlotsAgree(g, a, bound) && SlotsAgree(g, b, bound) && FreeSlotsSet(g, a, b, bound, [d], h, t)
    requires d < |g| && h < MAX_DEVICES && !Edge(g, bound, h, d)
    requires low == (a.rates[d].timeout[h] <= t.1)
    ensures MixableFrom(g, a, b, if low then a.rates[d].timeout[h] else t.1, low, k)
    decreases bound - k
  {
    var v := if low then a.rates[d].timeout[h] else t.1;
    if k < bound { OneSlotApart(g, a, b, bound, d, h, t, low, k + 1); }
    forall y | 0 <= y < |g| && g[y].rank >= k
      ensures if low then DifferAt(a.rates[y].timeout, b.rates[y].timeout, v) else DifferAt(b.rates[y].timeout, a.rates[y].timeout, v)
    {
      forall x: nat | x < MAX_DEVICES
        ensures At(a, y, x).1 == At(b, y, x).1 || (if low then At(a, y, x).1 == v < At(b, y, x).1 else At(b, y, x).1 == v < At(a, y, x).1)
      {
        if Edge(g, bound, x, y) {
          EdgeRank(g, bound, x, y);
          if low {
            MinsDiffer(a.rates[x].timeout, b.rates[x].timeout, v);
          } else {
            MinsDiffer(b.rates[x].timeout, a.rates[x].timeout, v);
          }
        } else {
          assert At(b, y, x) == if x == h && y in [d] then t else At(a, y, x);
        }
      }
      assert forall x: nat :: x < MAX_DEVICES ==> At(a, y, x).1 == a.rates[y].timeout[x] && At(b, y, x).1 == b.rates[y].timeout[x];
    }
  }

  ghost predicate MixOf(g: Graph, a: World, b: World, w: World) {
    && Shaped(g, a) && Shaped(g, b) && Shaped(g, w)
    && forall y {:trigger w.rates[y]} :: 0 <= y < |g| ==> Between(a.rates[y].timeout, b.rates[y].timeout, w.rates[y].timeout)
  }

  ghost predicate MinsFromEither(g: Graph, a: World, b: World, v: int) {
    && Shaped(g, a) && Shaped(g, b)
    && forall y {:trigger a.rates[y]} :: 0 <= y < |g| ==> Mixable(a.rates[y].timeout, b.rates[y].timeout, v)
  }

  /** While the slots are a mixture of two settled worlds, no offer taken from them is refused. */
  lemma {:induction false} MixAccepted(g: Graph, io: Platform, a: World, b: World, v: int, w: World, s: nat, h: nat, period: int, timeout: int)
    requires s < |g| && h < MAX_DEVICES && Settled(g, a, g[s].rank + 1) && Settled(g, b, g[s].rank + 1)
    requires MinsFromEither(g, a, b, v) && MixOf(g, a, b, w)
    requires timeout == a.rates[s].timeout[h] || timeout == b.rates[s].timeout[h]
    ensures var r := SetDelay(g, io, w, s, h, period, timeout); r.ok && MixOf(g, a, b, r.world)
    decreases g[s].rank, 2, 0
  {
    assert g[s].kind.BaseSoftware?;
    assert Acceptable(g[s], timeout);
    MixPushAccepted(g, io, a, b, v, WithSlot(w, s, h, period, timeout), s, 0);
  }

  lemma {:induction false} MixPushAccepted(g: Graph, io: Platform, a: World, b: World, v: int, w: World, s: nat, i: nat)
    requires s < |g| && i <= |g[s].deps| && Settled(g, a, g[s].rank + 1) && Settled(g, b, g[s].rank + 1)
    requires MinsFromEither(g, a, b, v) && MixOf(g, a, b, w)
    ensures var (w', k) := PushDelays(g, io, w, s, i); k == |g[s].deps| && MixOf(g, a, b, w')
    decreases g[s].rank, 1, |g[s].deps| - i
  {
    hide SetDelay;
    if i < |g[s].deps| {
      var d := g[s].deps[i];
      MixedOffer(g, a, b, v, w, s, i);
      MixAccepted(g, io, a, b, v, w, d, s, Least(w, s).0, Least(w, s).1);
      MixPushAccepted(g, io, a, b, v, SetDelay(g, io, w, d, s, Least(w, s).0, Least(w, s).1).world, s, i + 1);
    }
  }

  /** What s offers out of a mixture is what its dependency stores in one of the two worlds. */
  lemma MixedOffer(g: Graph, a: World, b: World, v: int, w: World, s: nat, i: nat)
    requires s < |g| && i < |g[s].deps| && Settled(g, a, g[s].rank + 1) && Settled(g, b, g[s].rank + 1)
    requires MinsFromEither(g, a, b, v) && MixOf(g, a, b, w)
    ensures var d := g[s].deps[i];
            && d < |g| && g[d].rank < g[s].rank && Settled(g, a, g[d].rank + 1) && Settled(g, b, g[d].rank + 1)
            && (Least(w, s).1 == a.rates[d].timeout[s] || Least(w, s).1 == b.rates[d].timeout[s])
  {
    StoredAtDependency(g, a, s, i);
    StoredAtDependency(g, b, s, i);
    LeastFromEither(g, a, b, v, w, s);
  }

  lemma LeastFromEither(g: Graph, a: World, b: World, v: int, w: World, s: nat)
    requires s < |g| && MinsFromEither(g, a, b, v) && MixOf(g, a, b, w)
    ensures Least(w, s).1 == Least(a, s).1 || Least(w, s).1 == Least(b, s).1
  {
    assert Mixable(a.rates[s].timeout, b.rates[s].timeout, v);
    assert Between(a.rates[s].timeout, b.rates[s].timeout, w.rates[s].timeout);
    MinOfMix(a.rates[s].timeout, b.rates[s].timeout, w.rates[s].timeout, v);
  }

  lemma StoredAtDependency(g: Graph, a: World, s: nat, i: nat)
    requires s < |g| && i < |g[s].deps| && Settled(g, a, g[s].rank + 1)
    ensures var d := g[s].deps[i];
            && d < |g| && g[d].rank < g[s].rank && Settled(g, a, g[d].rank + 1) && a.rates[d].timeout[s] == Least(a, s).1
  {
    var d := g[s].deps[i];
    EdgeRank(g, g[s].rank + 1, s, d);
    SettledBelow(g, a, g[s].rank + 1, g[d].rank + 1);
    assert Edge(g, g[s].rank + 1, s, d);
    assert At(a, d, s) == Least(a, s);
  }

  // ---------------------------------------------------------------- pushing forward and restoring

  /** The graph after the first j dependencies of s have been offered v. */
  function Forward(g: Graph, io: Platform, w: World, s: nat, v: (int, int), j: nat): (r: World)
    requires WellFormed(g) && Shaped(g, w) && s < |g| && j <= |g[s].deps|
    ensures Shaped(g, r)
  {
    if j == 0 then w else SetDelay(g, io, Forward(g, io, w, s, v, j - 1), g[s].deps[j - 1], s, v.0, v.1).world
  }

  ghost predicate ForwardAccepted(g: Graph, io: Platform, w: World, s: nat, v: (int, int), j: nat)
    requires WellFormed(g) && Shaped(g, w) && s < |g| && j <= |g[s].deps|
  {
    j == 0 || (ForwardAccepted(g, io, w, s, v, j - 1) && SetDelay(g, io, Forward(g, io, w, s, v, j - 1), g[s].deps[j - 1], s, v.0, v.1).ok)
  }

  lemma {:induction false} ForwardEffect(g: Graph, io: Platform, w: World, s: nat, v: (int, int), j: nat)
    requires AllBase(g) && s < |g| && j <= |g[s].deps| && Settled(g, w, g[s].rank) && ForwardAccepted(g, io, w, s, v, j)
    ensures var f := Forward(g, io, w, s, v, j);
            Settled(g, f, g[s].rank) && FreeSlotsSet(g, w, f, g[s].rank, g[s].deps[..j], s, v) && f.rates[s] == w.rates[s]
  {
    hide SetDelay;
    if j > 0 {
      ForwardEffect(g, io, w, s, v, j - 1);
      var before := Forward(g, io, w, s, v, j - 1);
      StepSuccess(g, io, before, s, j - 1, v);
      SetChainLast(g, w, before, Forward(g, io, w, s, v, j), s, j, v);
    }
  }

  lemma SetChainLast(g: Graph, w: World, w1: World, w2: World, s: nat, j: nat, v: (int, int))
    requires s < |g| && 0 < j <= |g[s].deps|
    requires FreeSlotsSet(g, w, w1, g[s].rank, g[s].deps[..j - 1], s, v)
    requires FreeSlotsSet(g, w1, w2, g[s].rank, [g[s].deps[j - 1]], s, v)
    ensures FreeSlotsSet(g, w, w2, g[s].rank, g[s].deps[..j], s, v)
  {
    assert g[s].deps[..j] == g[s].deps[..j - 1] + [g[s].deps[j - 1]];
    forall x: nat, y: nat | x < MAX_DEVICES && y < |g| && !Edge(g, g[s].rank, x, y)
      ensures At(w2, y, x) == if x == s && y in g[s].deps[..j] then v else At(w, y, x)
    {
      assert At(w1, y, x) == if x == s && y in g[s].deps[..j - 1] then v else At(w, y, x);
    }
  }

  /** A push that stops at dependency k made k successful offers, and the next one was refused. */
  lemma {:induction false} PushStopsAt(g: Graph, io: Platform, w: World, s: nat, i: nat)
    requires AllBase(g) && s < |g| && i <= |g[s].deps| && Settled(g, w, g[s].rank)
    requires ForwardAccepted(g, io, w, s, Least(w, s), i)
    requires PushDelays(g, io, Forward(g, io, w, s, Least(w, s), i), s, i).1 < |g[s].deps|
    ensures var (w', k) := PushDelays(g, io, Forward(g, io, w, s, Least(w, s), i), s, i);
            var f := Forward(g, io, w, s, Least(w, s), k);
            ForwardAccepted(g, io, w, s, Least(w, s), k)
            && SetDelay(g, io, f, g[s].deps[k], s, Least(w, s).0, Least(w, s).1) == Outcome(w', false)
    decreases |g[s].deps| - i
  {
    hide SetDelay;
    var v := Least(w, s);
    ForwardEffect(g, io, w, s, v, i);
    var f := Forward(g, io, w, s, v, i);
    if i < |g[s].deps| && SetDelay(g, io, f, g[s].deps[i], s, v.0, v.1).ok {
      PushStopsAt(g, io, w, s, i + 1);
    }
  }

  /** w and f hold the same rates everywhere but at s. */
  ghost predicate SameButAt(w: World, f: World, s: nat) {
    |w.rates| == |f.rates| && forall y {:trigger w.rates[y]} :: 0 <= y < |w.rates| && y != s ==> w.rates[y] == f.rates[y]
  }

  function WithRatesOf(w: World, w0: World, s: nat): World
    requires s < |w.rates| == |w0.rates|
  {
    w.(rates := w.rates[s := w0.rates[s]])
  }

  lemma SettledButAt(g: Graph, w0: World, f: World, x: World, s: nat)
    requires AllBase(g) && s < |g| && Settled(g, f, g[s].rank) && AllAcceptable(g, w0)
    requires Shaped(g, x) && SameButAt(x, f, s) && x.rates[s] == w0.rates[s]
    ensures Settled(g, x, g[s].rank)
  {
    forall a: nat, y: nat | Edge(g, g[s].rank, a, y) ensures y < |g| && At(x, y, a) == Least(x, a) {
      EdgeRank(g, g[s].rank, a, y);
      assert x.rates[y] == f.rates[y] && x.rates[a] == f.rates[a];
    }
  }

  /** One restoring call: it is accepted, and it takes the graph back by one offer. */
  lemma {:induction false} RestoringCall(g: Graph, io: Platform, w0: World, w1: World, x: World, s: nat, v: (int, int), j: nat)
    requires AllBase(g) && s < |g| && 0 < j <= |g[s].deps| && Settled(g, w0, g[s].rank + 1) && Settled(g, w1, g[s].rank)
    requires SameButAt(w0, w1, s) && ForwardAccepted(g, io, w1, s, v, j)
    requires Shaped(g, x) && SameButAt(x, Forward(g, io, w1, s, v, j), s) && x.rates[s] == w0.rates[s]
    ensures var r := SetDelay(g, io, x, g[s].deps[j - 1], s, Least(x, s).0, Least(x, s).1);
            SameButAt(r.world, Forward(g, io, w1, s, v, j - 1), s) && r.world.rates[s] == w0.rates[s]
  {
    hide SetDelay;
    var d := g[s].deps[j - 1];
    var was := Least(w0, s);
    EdgeRank(g, g[s].rank + 1, s, d);
    assert Edge(g, g[s].rank + 1, s, d) && !Edge(g, g[s].rank, s, d);
    var target := WithRatesOf(Forward(g, io, w1, s, v, j - 1), w0, s);
    BeforeTheOffer(g, io, w0, w1, x, s, v, j);
    var low := x.rates[d].timeout[s] <= was.1;
    var pivot := if low then x.rates[d].timeout[s] else was.1;
    OneSlotApart(g, x, target, g[s].rank, d, s, was, low, 0);
    SettledBelow(g, x, g[s].rank, g[d].rank + 1);
    SettledBelow(g, target, g[s].rank, g[d].rank + 1);
    assert At(target, d, s) == was;
    MixAccepted(g, io, x, target, pivot, x, d, s, was.0, was.1);
    StepSuccess(g, io, x, s, j - 1, was);
    var x' := SetDelay(g, io, x, d, s, was.0, was.1).world;
    BackAgain(g, x, target, x', g[s].rank, d, s, was);
  }

  lemma BackAgain(g: Graph, x: World, target: World, x': World, bound: nat, d: nat, h: nat, v: (int, int))
    requires d < |g| && SlotsAgree(g, target, bound) && SlotsAgree(g, x', bound)
    requires FreeSlotsSet(g, x, target, bound, [d], h, v) && FreeSlotsSet(g, x, x', bound, [d], h, v)
    ensures x'.rates == target.rates
  {
    forall a: nat, y: nat | a < MAX_DEVICES && y < |g| && !Edge(g, bound, a, y) ensures At(x', y, a) == At(target, y, a) {
    }
    SlotsDetermined(g, target, x', bound);
  }

  /** The world one offer earlier, with the slots of s restored, is settled and one slot away. */
  lemma {:induction false} BeforeTheOffer(g: Graph, io: Platform, w0: World, w1: World, x: World, s: nat, v: (int, int), j: nat)
    requires AllBase(g) && s < |g| && 0 < j <= |g[s].deps| && Settled(g, w0, g[s].rank + 1) && Settled(g, w1, g[s].rank)
    requires SameButAt(w0, w1, s) && ForwardAccepted(g, io, w1, s, v, j)
    requires Shaped(g, x) && SameButAt(x, Forward(g, io, w1, s, v, j), s) && x.rates[s] == w0.rates[s]
    ensures var target := WithRatesOf(Forward(g, io, w1, s, v, j - 1), w0, s);
            Settled(g, x, g[s].rank) && Settled(g, target, g[s].rank)
            && FreeSlotsSet(g, x, target, g[s].rank, [g[s].deps[j - 1]], s, Least(w0, s))
  {
    hide SetDelay;
    var d := g[s].deps[j - 1];
    var before := Forward(g, io, w1, s, v, j - 1);
    var after := Forward(g, io, w1, s, v, j);
    var target := WithRatesOf(before, w0, s);
    ForwardEffect(g, io, w1, s, v, j);
    ForwardEffect(g, io, w1, s, v, j - 1);
    StepSuccess(g, io, before, s, j - 1, v);
    SettledButAt(g, w0, after, x, s);
    SettledButAt(g, w0, before, target, s);
    OldSlotStillThere(g, w0, w1, before, s, v, j);
    EdgeRank(g, g[s].rank + 1, s, d);
    forall a: nat, y: nat | a < MAX_DEVICES && y < |g| && !Edge(g, g[s].rank, a, y)
      ensures At(target, y, a) == if a == s && y in [d] then Least(w0, s) else At(x, y, a)
    {
      if y != s {
        assert x.rates[y] == after.rates[y];
        assert At(after, y, a) == if a == s && y in [d] then v else At(before, y, a);
      }
    }
    forall y | 0 <= y < |g|
      ensures target.rates[y] == x.rates[y].(period := target.rates[y].period, timeout := target.rates[y].timeout)
    {
      if y != s {
        assert x.rates[y] == after.rates[y];
        assert after.rates[y] == before.rates[y].(period := after.rates[y].period, timeout := after.rates[y].timeout);
      }
    }
  }

  lemma OldSlotStillThere(g: Graph, w0: World, w1: World, before: World, s: nat, v: (int, int), j: nat)
    requires AllBase(g) && s < |g| && 0 < j <= |g[s].deps| && Settled(g, w0, g[s].rank + 1) && Shaped(g, w1) && SameButAt(w0, w1, s)
    requires FreeSlotsSet(g, w1, before, g[s].rank, g[s].deps[..j - 1], s, v)
    ensures g[s].deps[j - 1] < |g| && At(before, g[s].deps[j - 1], s) == Least(w0, s)
  {
    var d := g[s].deps[j - 1];
    EdgeRank(g, g[s].rank + 1, s, d);
    assert Edge(g, g[s].rank + 1, s, d) && !Edge(g, g[s].rank, s, d);
    assert w0.rates[d] == w1.rates[d];
    if d in g[s].deps[..j - 1] {
      var i :| 0 <= i < j - 1 && g[s].deps[i] == d;
      assert Repeats(g, s, i, j - 1);
    }
    assert At(before, d, s) == At(w1, d, s);
  }

  lemma {:induction false} RestoreUndoes(g: Graph, io: Platform, w0: World, w1: World, x: World, s: nat, v: (int, int), j: nat)
    requires AllBase(g) && s < |g| && j <= |g[s].deps| && Settled(g, w0, g[s].rank + 1) && Settled(g, w1, g[s].rank)
    requires SameButAt(w0, w1, s) && ForwardAccepted(g, io, w1, s, v, j)
    requires Shaped(g, x) && SameButAt(x, Forward(g, io, w1, s, v, j), s) && x.rates[s] == w0.rates[s]
    ensures RestoreDelays(g, io, x, s, j).rates == w0.rates
    decreases j
  {
    hide SetDelay;
    if j == 0 {
      forall y | 0 <= y < |g| ensures x.rates[y] == w0.rates[y] {
        if y != s { assert w0.rates[y] == w1.rates[y]; }
      }
    } else {
      RestoringCall(g, io, w0, w1, x, s, v, j);
      RestoreUndoes(g, io, w0, w1, SetDelay(g, io, x, g[s].deps[j - 1], s, Least(x, s).0, Least(x, s).1).world, s, v, j - 1);
    }
  }

  // ---------------------------------------------------------------- the theorem

  /** A refused rate change leaves every period and every timeout in the graph as it was. */
  lemma {:induction false} RefusalUndoesItself(g: Graph, io: Platform, w: World, s: nat, h: nat, period: int, timeout: int)
    requires AllBase(g) && s < |g| && h < MAX_DEVICES && Settled(g, w, g[s].rank + 1)
    requires !SetDelay(g, io, w, s, h, period, timeout).ok
    ensures SetDelay(g, io, w, s, h, period, timeout).world.rates == w.rates
    decreases g[s].rank
  {
    assert g[s].kind.BaseSoftware?;
    if Acceptable(g[s], timeout) {
      var w1 := WithSlot(w, s, h, period, timeout);
      SlotWritten(g, w, s, h, period, timeout);
      RefusedPush(g, io, w, w1, s, h);
    }
  }

  lemma SlotPutBack(w: World, w1: World, w2: World, s: nat, h: nat)
    requires s < |w.rates| == |w1.rates| == |w2.rates| && h < MAX_DEVICES
    requires SlotsShaped(w.rates[s]) && SlotsShaped(w1.rates[s]) && w2.rates[s] == w1.rates[s]
    requires w1.rates[s] == w.rates[s].(period := w.rates[s].period[h := w1.rates[s].period[h]],
                                        timeout := w.rates[s].timeout[h := w1.rates[s].timeout[h]])
    ensures WithSlot(w2, s, h, w.rates[s].period[h], w.rates[s].timeout[h]).rates[s] == w.rates[s]
  {
    var r := WithSlot(w2, s, h, w.rates[s].period[h], w.rates[s].timeout[h]).rates[s];
    assert r.period == w.rates[s].period && r.timeout == w.rates[s].timeout;
  }

  lemma {:induction false} RefusedPush(g: Graph, io: Platform, w: World, w1: World, s: nat, h: nat)
    requires AllBase(g) && s < |g| && h < MAX_DEVICES && Settled(g, w, g[s].rank + 1) && Settled(g, w1, g[s].rank)
    requires SameButAt(w, w1, s) && w1.rates[s] == w.rates[s].(period := w.rates[s].period[h := w1.rates[s].period[h]],
                                                               timeout := w.rates[s].timeout[h := w1.rates[s].timeout[h]])
    requires PushDelays(g, io, w1, s, 0).1 < |g[s].deps|
    ensures var (w2, k) := PushDelays(g, io, w1, s, 0);
            RestoreDelays(g, io, WithSlot(w2, s, h, w.rates[s].period[h], w.rates[s].timeout[h]), s, k).rates == w.rates
    decreases g[s].rank, 0
  {
    hide SetDelay;
    PushStopsAt(g, io, w1, s, 0);
    var (w2, k) := PushDelays(g, io, w1, s, 0);
    var v := Least(w1, s);
    var f := Forward(g, io, w1, s, v, k);
    ForwardEffect(g, io, w1, s, v, k);
    var d := g[s].deps[k];
    EdgeRank(g, g[s].rank + 1, s, d);
    SettledBelow(g, f, g[s].rank, g[d].rank + 1);
    RefusalUndoesItself(g, io, f, d, s, v.0, v.1);
    var x := WithSlot(w2, s, h, w.rates[s].period[h], w.rates[s].timeout[h]);
    SlotPutBack(w, w1, w2, s, h);
    RestoreUndoes(g, io, w, w1, x, s, v, k);
  }

  /** Over any run of client rate changes from the initial state, refused ones included: a refused
      call changes no slot of any sensor. */
  lemma {:induction false} EveryRefusalUndoesItself(g: Graph, io: Platform, top: nat, calls: seq<Call>, c: Call)
    requires AllBase(g) && Covers(g, top) && CallsFit(g, calls) && (forall b :: b in calls ==> b.Batch?) && c.Batch? && c.sensor < |g|
    ensures var w := Run(g, io, Initial(|g|), {}, calls).0;
            !Perform(g, io, w, c).ok ==> Perform(g, io, w, c).world.rates == w.rates
  {
    InitiallySettled(g, top);
    RunStaysSettled(g, io, Initial(|g|), top, calls);
    var w := Run(g, io, Initial(|g|), {}, calls).0;
    SettledBelow(g, w, top, g[c.sensor].rank + 1);
    if !Perform(g, io, w, c).ok {
      RefusalUndoesItself(g, io, w, c.sensor, c.sensor, c.period, c.timeout);
    }
  }

  lemma InitiallySettled(g: Graph, top: nat)
    requires AllBase(g)
    ensures Settled(g, Initial(|g|), top)
  {
    MinPeriodUnique(IDLE_RATES.period, 0);
    MinTimeoutUnique(IDLE_RATES.timeout, INT64_MAX);
    forall x: nat, y: nat | Edge(g, top, x, y) ensures y < |g| && At(Initial(|g|), y, x) == Least(Initial(|g|), x) {
      EdgeRank(g, top, x, y);
    }
  }

  lemma {:induction false} RunStaysSettled(g: Graph, io: Platform, w: World, top: nat, calls: seq<Call>)
    requires AllBase(g) && Covers(g, top) && Settled(g, w, top) && CallsFit(g, calls) && forall b :: b in calls ==> b.Batch?
    ensures Settled(g, Run(g, io, w, {}, calls).0, top)
    decreases |calls|
  {
    if calls != [] {
      var c := calls[0];
      var r := Perform(g, io, w, c);
      SettledBelow(g, w, top, g[c.sensor].rank + 1);
      NoLoop(g, top, c.sensor);
      if r.ok {
        SuccessEffect(g, io, w, c.sensor, c.sensor, c.period, c.timeout);
        SetSeenFrom(g, w, r.world, top, c.sensor, c.sensor, (c.period, c.timeout));
      } else {
        RefusalUndoesItself(g, io, w, c.sensor, c.sensor, c.period, c.timeout);
        SameSlots(g, w, r.world, top);
      }
      RunStaysSettled(g, io, r.world, top, calls[1..]);
    }
  }

  lemma SameSlots(g: Graph, w: World, w': World, top: nat)
    requires Settled(g, w, top) && Shaped(g, w') && w'.rates == w.rates
    ensures Settled(g, w', top)
  {
    forall x: nat, y: nat | Edge(g, top, x, y) ensures y < |g| && At(w', y, x) == Least(w', x) {
      assert At(w, y, x) == Least(w, x);
    }
  }
}
