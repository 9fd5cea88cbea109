/** Periods over the whole graph: what reaches each sensor is the least client request, clamped
    at every sensor on the way. */
module RateTheorem {
  import opened RateControl
  import opened SensorGraph
  import opened PowerTheorem

  /** What a sensor stores for a requested period that comes with a finite timeout. */
  function Offered(c: Config, period: int): int {
    if c.kind.EventHardware? then 0
    else if c.kind.BaseSoftware? || period <= 0 then period
    else ClampTo(c.minNs, c.maxNs, period)
  }

  /** Every polled sensor has a usable delay range. */
  ghost predicate DelaysUsable(g: Graph) {
    forall s {:trigger g[s]} :: 0 <= s < |g| && (g[s].kind.PollHardware? || g[s].kind.PollSoftware?) ==> 0 <= g[s].minNs && 0 < g[s].maxNs
  }

  /** A stored period is one the sensor would store again, and a positive one has a finite timeout. */
  ghost predicate Tidy(g: Graph, w: World) {
    && WellFormed(g) && DelaysUsable(g) && Shaped(g, w)
    && forall y, h {:trigger w.rates[y].period[h]} :: 0 <= y < |g| && 0 <= h < MAX_DEVICES ==>
         && Offered(g[y], w.rates[y].period[h]) == w.rates[y].period[h]
         && (w.rates[y].period[h] > 0 ==> w.rates[y].timeout[h] < INT64_MAX)
  }

  /** Along every edge below the bound, y stores what x's least period becomes at y. */
  ghost predicate RatesAgree(g: Graph, w: World, bound: nat) {
    && WellFormed(g) && Shaped(g, w)
    && forall x: nat, y: nat {:trigger Edge(g, bound, x, y)} :: Edge(g, bound, x, y) ==>
         y < |g| && w.rates[y].period[x] == Offered(g[y], MinPeriod(w.rates[x].period))
  }

  /** The slots not owed to an edge below the bound are as before, except that `period` was offered
      to the slot of h at the sensors in `targets`. */
  ghost predicate FreeSlots(g: Graph, w: World, w': World, bound: nat, targets: seq<nat>, h: nat, period: int) {
    && Shaped(g, w) && Shaped(g, w')
    && forall x: nat, y: nat {:trigger w'.rates[y].period[x]} ::
         x < MAX_DEVICES && y < |g| && !Edge(g, bound, x, y) ==>
         w'.rates[y].period[x] == if x == h && y in targets then Offered(g[y], period) else w.rates[y].period[x]
  }

  ghost predicate RatesSound(g: Graph, w: World, bound: nat) {
    Tidy(g, w) && RatesAgree(g, w, bound)
  }

  lemma FinitePeriodFiniteTimeout(g: Graph, w: World, s: nat)
    requires Tidy(g, w) && s < |g| && MinPeriod(w.rates[s].period) > 0
    ensures MinTimeout(w.rates[s].timeout) < INT64_MAX
  {
    var h :| 0 <= h < MAX_DEVICES && w.rates[s].period[h] == MinPeriod(w.rates[s].period);
    assert w.rates[s].timeout[h] < INT64_MAX;
  }

  // ---------------------------------------------------------------- one call

  lemma {:induction false} SetDelayEffect(g: Graph, io: Platform, w: World, s: nat, h: nat, period: int, timeout: int)
    requires WellFormed(g) && s < |g| && h < MAX_DEVICES && RatesSound(g, w, g[s].rank + 1)
    requires !Edge(g, g[s].rank + 1, h, s)
    requires period > 0 ==> timeout < INT64_MAX
    requires SetDelay(g, io, w, s, h, period, timeout).ok
    ensures var w' := SetDelay(g, io, w, s, h, period, timeout).world;
            RatesSound(g, w', g[s].rank + 1) && FreeSlots(g, w, w', g[s].rank + 1, [s], h, period)
    decreases g[s].rank, 3, 0
  {
    if g[s].kind.EventHardware? {
      SlotsOnlyKept(g, w, EventSetDelay(g, io, w, s, timeout).world, g[s].rank + 1, s);
    } else if g[s].kind.BaseSoftware? {
      BaseSetDelayEffect(g, io, w, s, h, period, timeout);
    } else if w.rates[s].period[h] == period && w.rates[s].timeout[h] == timeout {
      assert Offered(g[s], period) == period;
    } else {
      PolledEffect(g, io, w, s, h, period, timeout);
    }
  }

  lemma OfferedTwice(c: Config, period: int)
    requires c.minNs <= c.maxNs
    ensures Offered(c, Offered(c, period)) == Offered(c, period)
  {
  }

  lemma {:induction false} PolledEffect(g: Graph, io: Platform, w: World, s: nat, h: nat, period: int, timeout: int)
    requires WellFormed(g) && s < |g| && h < MAX_DEVICES && RatesSound(g, w, g[s].rank + 1)
    requires !Edge(g, g[s].rank + 1, h, s)
    requires period > 0 ==> timeout < INT64_MAX
    requires g[s].kind.PollHardware? || g[s].kind.PollSoftware?
    requires w.rates[s].period[h] != period || w.rates[s].timeout[h] != timeout
    requires SetDelay(g, io, w, s, h, period, timeout).ok
    ensures var w' := SetDelay(g, io, w, s, h, period, timeout).world;
            RatesSound(g, w', g[s].rank + 1) && FreeSlots(g, w, w', g[s].rank + 1, [s], h, period)
    decreases g[s].rank, 2, 1
  {
    var kept := if g[s].kind.PollSoftware? && period > 0 then ShortenTimeout(timeout) else timeout;
    var stored := StoredPeriod(g[s], period, timeout);
    assert Usable(g, s);
    OfferedTwice(g[s], period);
    assert stored == Offered(g[s], period);
    BaseSetDelayEffect(g, io, w, s, h, stored, kept);
    var w1 := BaseSetDelay(g, io, w, s, h, stored, kept).world;
    var w' := SetDelay(g, io, w, s, h, period, timeout).world;
    if g[s].kind.PollHardware? {
      assert w' == Program(g, io, w1, s, h, stored).world;
    } else {
      assert w' == NoteMinima(g, io, w1, s, h, stored);
    }
    SlotsOnlyKept(g, w1, w', g[s].rank + 1, s);
    SameOffer(g, w, w1, w', g[s].rank + 1, s, h, stored, period);
  }

  lemma SameOffer(g: Graph, w: World, w1: World, w': World, bound: nat, s: nat, h: nat, stored: int, period: int)
    requires s < |g| && FreeSlots(g, w, w1, bound, [s], h, stored) && FreeSlots(g, w1, w', bound, [], 0, 0)
    requires Offered(g[s], stored) == Offered(g[s], period)
    ensures FreeSlots(g, w, w', bound, [s], h, period)
  {
    forall x: nat, y: nat | x < MAX_DEVICES && y < |g| && !Edge(g, bound, x, y)
      ensures w'.rates[y].period[x] == if x == h && y in [s] then Offered(g[y], period) else w.rates[y].period[x]
    {
      assert w'.rates[y].period[x] == w1.rates[y].period[x];
    }
  }

  /** Steps that touch no slot keep everything. */
  lemma SlotsOnlyKept(g: Graph, w: World, w': World, bound: nat, s: nat)
    requires s < |g| && RatesSound(g, w, bound) && RatesBelow(g, w, w', s) && SlotsKept(w.rates[s], w'.rates[s])
    requires w'.rates == w.rates[s := w'.rates[s]]
    ensures RatesSound(g, w', bound) && FreeSlots(g, w, w', bound, [], 0, 0)
  {
    forall y | 0 <= y < |g| ensures w'.rates[y].period == w.rates[y].period && w'.rates[y].timeout == w.rates[y].timeout {
    }
  }

  lemma {:induction false} BaseSetDelayEffect(g: Graph, io: Platform, w: World, s: nat, h: nat, period: int, timeout: int)
    requires WellFormed(g) && s < |g| && h < MAX_DEVICES && RatesSound(g, w, g[s].rank + 1)
    requires !Edge(g, g[s].rank + 1, h, s)
    requires Offered(g[s], period) == period && (period > 0 ==> timeout < INT64_MAX)
    requires BaseSetDelay(g, io, w, s, h, period, timeout).ok
    ensures var w' := BaseSetDelay(g, io, w, s, h, period, timeout).world;
            RatesSound(g, w', g[s].rank + 1) && FreeSlots(g, w, w', g[s].rank + 1, [s], h, period)
    decreases g[s].rank, 2, 0
  {
    var w1 := WithSlot(w, s, h, period, timeout);
    forall x: nat, y: nat | Edge(g, g[s].rank, x, y)
      ensures y < |g| && w1.rates[y].period[x] == Offered(g[y], MinPeriod(w1.rates[x].period))
    {
      EdgeRank(g, g[s].rank, x, y);
      assert Edge(g, g[s].rank + 1, x, y);
    }
    PushDelaysEffect(g, io, w1, s, 0);
    var w2 := PushDelays(g, io, w1, s, 0).0;
    assert g[s].deps[0..] == g[s].deps;
    CloseRates(g, w, w1, w2, s, h, period);
  }

  /** Once every dependency has been offered the new minimum, the edges of s agree too. */
  lemma CloseRates(g: Graph, w: World, w1: World, w2: World, s: nat, h: nat, period: int)
    requires WellFormed(g) && s < |g| && h < MAX_DEVICES && RatesAgree(g, w, g[s].rank + 1) && RatesAgree(g, w2, g[s].rank)
    requires !Edge(g, g[s].rank + 1, h, s) && Offered(g[s], period) == period
    requires Shaped(g, w1) && w1.rates == w.rates[s := w1.rates[s]] && w1.rates[s].period == w.rates[s].period[h := period]
    requires w2.rates[s] == w1.rates[s]
    requires forall x {:trigger w2.rates[x]} :: 0 <= x < |g| && x != s && g[x].rank >= g[s].rank ==> w2.rates[x] == w1.rates[x]
    requires FreeSlots(g, w1, w2, g[s].rank, g[s].deps, s, MinPeriod(w1.rates[s].period))
    ensures RatesAgree(g, w2, g[s].rank + 1)
    ensures FreeSlots(g, w, w2, g[s].rank + 1, [s], h, period)
  {
    forall x: nat, y: nat | Edge(g, g[s].rank + 1, x, y)
      ensures y < |g| && w2.rates[y].period[x] == Offered(g[y], MinPeriod(w2.rates[x].period))
    {
      EdgeRank(g, g[s].rank + 1, x, y);
      if g[x].rank < g[s].rank {
        assert Edge(g, g[s].rank, x, y);
      } else {
        assert !Edge(g, g[s].rank, x, y);
        if x != s {
          assert w2.rates[x] == w1.rates[x] == w.rates[x];
        }
      }
    }
    forall x: nat, y: nat | x < MAX_DEVICES && y < |g| && !Edge(g, g[s].rank + 1, x, y)
      ensures w2.rates[y].period[x] == if x == h && y in [s] then Offered(g[y], period) else w.rates[y].period[x]
    {
      assert !Edge(g, g[s].rank, x, y);
      assert !(x == s && y in g[s].deps);
    }
  }

  lemma {:induction false} PushDelaysEffect(g: Graph, io: Platform, w: World, s: nat, i: nat)
    requires WellFormed(g) && s < |g| && i <= |g[s].deps| && RatesSound(g, w, g[s].rank)
    requires PushDelays(g, io, w, s, i).1 == |g[s].deps|
    ensures var w' := PushDelays(g, io, w, s, i).0;
            RatesSound(g, w', g[s].rank)
            && FreeSlots(g, w, w', g[s].rank, g[s].deps[i..], s, MinPeriod(w.rates[s].period))
    decreases g[s].rank, 1, |g[s].deps| - i
  {
    if i == |g[s].deps| { return; }
    var d := g[s].deps[i];
    var least := MinPeriod(w.rates[s].period);
    EdgeRank(g, g[s].rank + 1, s, d);
    if least > 0 { FinitePeriodFiniteTimeout(g, w, s); }
    SetDelaySeenFrom(g, io, w, g[s].rank, d, s, least, MinTimeout(w.rates[s].timeout));
    var w1 := SetDelay(g, io, w, d, s, least, MinTimeout(w.rates[s].timeout)).world;
    PushDelaysEffect(g, io, w1, s, i + 1);
    PushSlotsChain(g, w, w1, PushDelays(g, io, w1, s, i + 1).0, s, i, least);
  }

  lemma PushSlotsChain(g: Graph, w: World, w1: World, w2: World, s: nat, i: nat, period: int)
    requires s < |g| && i < |g[s].deps|
    requires FreeSlots(g, w, w1, g[s].rank, [g[s].deps[i]], s, period)
    requires FreeSlots(g, w1, w2, g[s].rank, g[s].deps[i + 1..], s, period)
    ensures FreeSlots(g, w, w2, g[s].rank, g[s].deps[i..], s, period)
  {
    assert g[s].deps[i..] == [g[s].deps[i]] + g[s].deps[i + 1..];
    FreeSlotsChain(g, w, w1, w2, g[s].rank, [g[s].deps[i]], g[s].deps[i + 1..], s, period);
  }

  lemma {:induction false} SetDelaySeenFrom(g: Graph, io: Platform, w: World, bound: nat, d: nat, h: nat, period: int, timeout: int)
    requires WellFormed(g) && d < |g| && h < MAX_DEVICES && g[d].rank < bound && RatesSound(g, w, bound)
    requires !Edge(g, bound, h, d)
    requires period > 0 ==> timeout < INT64_MAX
    requires SetDelay(g, io, w, d, h, period, timeout).ok
    ensures var w' := SetDelay(g, io, w, d, h, period, timeout).world;
            RatesSound(g, w', bound) && FreeSlots(g, w, w', bound, [d], h, period)
    decreases g[d].rank, 4, 0
  {
    RatesLowerBound(g, w, bound, g[d].rank + 1);
    SetDelayEffect(g, io, w, d, h, period, timeout);
    RatesSeenFrom(g, w, SetDelay(g, io, w, d, h, period, timeout).world, bound, d, h, period);
  }

  lemma RatesSeenFrom(g: Graph, w: World, w': World, bound: nat, d: nat, h: nat, period: int)
    requires WellFormed(g) && d < |g| && h < MAX_DEVICES && g[d].rank < bound
    requires RatesAgree(g, w, bound) && RatesAgree(g, w', g[d].rank + 1) && FreeSlots(g, w, w', g[d].rank + 1, [d], h, period)
    requires !Edge(g, bound, h, d)
    requires forall x {:trigger w'.rates[x]} :: 0 <= x < |g| && x != d && g[x].rank >= g[d].rank ==> w'.rates[x] == w.rates[x]
    ensures RatesAgree(g, w', bound) && FreeSlots(g, w, w', bound, [d], h, period)
  {
    forall x: nat, y: nat | Edge(g, bound, x, y)
      ensures y < |g| && w'.rates[y].period[x] == Offered(g[y], MinPeriod(w'.rates[x].period))
    {
      EdgeRank(g, bound, x, y);
      if g[x].rank > g[d].rank {
        assert !Edge(g, g[d].rank + 1, x, y);
        assert w'.rates[x] == w.rates[x];
      } else {
        assert Edge(g, g[d].rank + 1, x, y);
      }
    }
    forall x: nat, y: nat | x < MAX_DEVICES && y < |g| && !Edge(g, bound, x, y)
      ensures w'.rates[y].period[x] == if x == h && y in [d] then Offered(g[y], period) else w.rates[y].period[x]
    {
      assert !Edge(g, g[d].rank + 1, x, y);
    }
  }

  lemma RatesLowerBound(g: Graph, w: World, bound: nat, lower: nat)
    requires RatesAgree(g, w, bound) && lower <= bound
    ensures RatesAgree(g, w, lower)
  {
    forall x: nat, y: nat | Edge(g, lower, x, y)
      ensures y < |g| && w.rates[y].period[x] == Offered(g[y], MinPeriod(w.rates[x].period))
    {
      assert Edge(g, bound, x, y);
    }
  }

  // ---------------------------------------------------------------- the effect of switching off

  /** What a disable may touch: `reach` is closed under dependencies, and `emptied` are those sensors among
      them that nothing but the origin's own enabling keeps in use. */
  datatype Scope = Scope(reach: set<nat>, emptied: set<nat>, origin: nat)

  ghost predicate Closed(g: Graph, sc: Scope) {
    && sc.emptied <= sc.reach
    && forall x: nat, y: nat {:trigger Below(g, x, y)} :: Below(g, x, y) && x in sc.reach ==> y in sc.reach
  }

  predicate Below(g: Graph, x: nat, y: nat) {
    x < |g| && y in g[x].deps
  }

  /** The bit of h at d may be taken away. */
  predicate Removable(sc: Scope, d: nat, h: nat) {
    h in sc.emptied || (d == sc.origin && h == sc.origin)
  }

  /** Every other sensor in reach has a bit that stays. */
  ghost predicate Anchored(g: Graph, m: Masks, sc: Scope) {
    && |m| == |g|
    && forall y {:trigger m[y]} :: 0 <= y < |g| && y in sc.reach && y !in sc.emptied ==> exists b :: b in m[y] && !Removable(sc, y, b)
  }

  /** A sensor without a sampling rate stores no period. */
  predicate Stores(c: Config) {
    !c.kind.EventHardware?
  }

  /** Has y a dependency that stores what y passes on? */
  predicate PassesOn(g: Graph, y: nat) {
    y < |g| && exists d :: d in g[y].deps && d < |g| && Stores(g[d])
  }

  /** Where the mask empties, every period that is passed on belongs to a requester that holds a bit. */
  ghost predicate Held(g: Graph, w: World, sc: Scope) {
    && Shaped(g, w)
    && forall y, h: nat {:trigger w.rates[y].period[h]} ::
         0 <= y < |g| && y in sc.emptied && PassesOn(g, y) && h < MAX_DEVICES && Counts(w.rates[y].period[h]) ==> h in w.masks[y]
  }

  /** The minimum of s leaves no trace at its dependencies. */
  ghost predicate NothingToPass(g: Graph, w: World, s: nat)
    requires s < |g| && Shaped(g, w)
  {
    forall d {:trigger d in g[s].deps} :: d in g[s].deps && d < |g| ==> Offered(g[d], MinPeriod(w.rates[s].period)) == 0
  }

  /** Outside the reach nothing changes: it is determined by slots that do not. */
  lemma {:induction false} PeriodsOutside(g: Graph, w: World, w': World, bound: nat, s: nat, h: nat, period: int, sc: Scope, k: nat)
    requires WellFormed(g) && Closed(g, sc) && s in sc.reach
    requires RatesAgree(g, w, bound) && RatesAgree(g, w', bound) && FreeSlots(g, w, w', bound, [s], h, period)
    ensures forall y {:trigger w'.rates[y]} :: 0 <= y < |g| && y !in sc.reach && g[y].rank >= k ==> w'.rates[y].period == w.rates[y].period
    decreases bound - k
  {
    if k < bound { PeriodsOutside(g, w, w', bound, s, h, period, sc, k + 1); }
    forall y | 0 <= y < |g| && y !in sc.reach && g[y].rank >= k ensures w'.rates[y].period == w.rates[y].period {
      forall x: nat | x < MAX_DEVICES ensures w'.rates[y].period[x] == w.rates[y].period[x] {
        if Edge(g, bound, x, y) {
          EdgeRank(g, bound, x, y);
          assert Below(g, x, y);
          assert w'.rates[x].period == w.rates[x].period;
        }
      }
    }
  }

  lemma {:induction false} MasksOutside(g: Graph, m: Masks, m': Masks, bound: nat, s: nat, h: nat, sc: Scope, k: nat)
    requires WellFormed(g) && Closed(g, sc) && s in sc.reach
    requires EdgesAgree(g, m, bound) && EdgesAgree(g, m', bound) && FreeBits(g, m, m', bound, [s], h, false)
    ensures forall y {:trigger m'[y]} :: 0 <= y < |g| && y !in sc.reach && g[y].rank >= k ==> m'[y] == m[y]
    decreases bound - k
  {
    if k < bound { MasksOutside(g, m, m', bound, s, h, sc, k + 1); }
    forall y | 0 <= y < |g| && y !in sc.reach && g[y].rank >= k ensures m'[y] == m[y] {
      forall x: nat ensures x in m'[y] <==> x in m[y] {
        if Edge(g, bound, x, y) {
          EdgeRank(g, bound, x, y);
          assert Below(g, x, y);
          assert m'[x] == m[x];
        }
      }
    }
  }

  /** The bits that stay are there after the call. */
  lemma {:induction false} AnchorsStay(g: Graph, m: Masks, m': Masks, bound: nat, s: nat, h: nat, sc: Scope, k: nat)
    requires WellFormed(g) && Closed(g, sc) && s in sc.reach && Removable(sc, s, h) && Anchored(g, m, sc)
    requires EdgesAgree(g, m, bound) && EdgesAgree(g, m', bound) && FreeBits(g, m, m', bound, [s], h, false)
    ensures forall y: nat, b {:trigger b in m'[y]} ::
              y < |g| && y in sc.reach && g[y].rank >= k && b in m[y] && !Removable(sc, y, b) ==> b in m'[y]
    decreases bound - k
  {
    if k < bound { AnchorsStay(g, m, m', bound, s, h, sc, k + 1); }
    forall y: nat, b | y < |g| && y in sc.reach && g[y].rank >= k && b in m[y] && !Removable(sc, y, b) ensures b in m'[y] {
      if Edge(g, bound, b, y) {
        EdgeRank(g, bound, b, y);
        if b in sc.reach {
          var c :| c in m[b] && !Removable(sc, b, c);
          assert c in m'[b];
        } else {
          MasksOutside(g, m, m', bound, s, h, sc, 0);
          assert m'[b] == m[b];
        }
      }
    }
  }

  lemma StillAnchored(g: Graph, m: Masks, m': Masks, bound: nat, s: nat, h: nat, sc: Scope)
    requires WellFormed(g) && Closed(g, sc) && s in sc.reach && Removable(sc, s, h) && Anchored(g, m, sc)
    requires EdgesAgree(g, m, bound) && EdgesAgree(g, m', bound) && FreeBits(g, m, m', bound, [s], h, false)
    ensures Anchored(g, m', sc)
  {
    AnchorsStay(g, m, m', bound, s, h, sc, 0);
    forall y | 0 <= y < |g| && y in sc.reach && y !in sc.emptied ensures exists b :: b in m'[y] && !Removable(sc, y, b) {
      var b :| b in m[y] && !Removable(sc, y, b);
      assert b in m'[y];
    }
  }

  /** After the slot of h at s is cleared, the periods where masks empty still belong to holders of a bit. */
  lemma {:induction false} HeldAfterClear(g: Graph, w: World, v: World, bound: nat, s: nat, h: nat, sc: Scope, k: nat)
    requires WellFormed(g) && Quiet(g, w, bound, sc) && s in sc.reach && v.masks == w.masks
    requires RatesAgree(g, v, bound) && FreeSlots(g, w, v, bound, [s], h, 0)
    ensures forall y, x: nat {:trigger v.rates[y].period[x]} ::
              0 <= y < |g| && y in sc.emptied && PassesOn(g, y) && g[y].rank >= k && x < MAX_DEVICES && Counts(v.rates[y].period[x]) ==>
                x in v.masks[y]
    decreases bound - k
  {
    if k < bound { HeldAfterClear(g, w, v, bound, s, h, sc, k + 1); }
    forall y, x: nat | 0 <= y < |g| && y in sc.emptied && PassesOn(g, y) && g[y].rank >= k && x < MAX_DEVICES && Counts(v.rates[y].period[x])
      ensures x in v.masks[y]
    {
      if Edge(g, bound, x, y) {
        EdgeRank(g, bound, x, y);
        if x !in sc.reach {
          PeriodsOutside(g, w, v, bound, s, h, 0, sc, 0);
          assert v.rates[x].period == w.rates[x].period;
        } else if x in sc.emptied {
          var least := MinPeriod(v.rates[x].period);
          var hh: nat :| hh < MAX_DEVICES && v.rates[x].period[hh] == least;
          assert hh in v.masks[x];
        } else {
          var b :| b in v.masks[x] && !Removable(sc, x, b);
        }
      }
    }
  }

  lemma NoPeriodWithoutBit(g: Graph, w: World, s: nat, sc: Scope)
    requires Held(g, w, sc) && s < |g| && s in sc.emptied && w.masks[s] == {}
    ensures NothingToPass(g, w, s)
  {
    if PassesOn(g, s) {
      forall h: nat | h < MAX_DEVICES ensures !Counts(w.rates[s].period[h]) {
        assert h !in w.masks[s];
      }
      assert MinPeriod(w.rates[s].period) == 0;
    }
  }

  lemma FreeSlotsChain(g: Graph, w: World, w1: World, w2: World, bound: nat, a: seq<nat>, b: seq<nat>, h: nat, period: int)
    requires FreeSlots(g, w, w1, bound, a, h, period) && FreeSlots(g, w1, w2, bound, b, h, period)
    ensures FreeSlots(g, w, w2, bound, a + b, h, period)
  {
    forall x: nat, y: nat | x < MAX_DEVICES && y < |g| && !Edge(g, bound, x, y)
      ensures w2.rates[y].period[x] == if x == h && y in a + b then Offered(g[y], period) else w.rates[y].period[x]
    {
      assert w1.rates[y].period[x] == if x == h && y in a then Offered(g[y], period) else w.rates[y].period[x];
    }
  }

  ghost predicate Quiet(g: Graph, w: World, bound: nat, sc: Scope) {
    Consistent(g, w, bound) && RatesSound(g, w, bound) && Held(g, w, sc) && Anchored(g, w.masks, sc) && Closed(g, sc)
  }

  /** A successful disable clears exactly one free slot, and the rates still agree along every edge. */
  lemma {:induction false} DisableEffect(g: Graph, io: Platform, w: World, s: nat, h: nat, sc: Scope)
    requires WellFormed(g) && s < |g| && h < MAX_DEVICES && Quiet(g, w, g[s].rank + 1, sc)
    requires !Edge(g, g[s].rank + 1, h, s) && h in w.masks[s] && s in sc.reach && Removable(sc, s, h)
    requires Enable(g, io, w, s, h, false).ok
    ensures var w' := Enable(g, io, w, s, h, false).world;
            Quiet(g, w', g[s].rank + 1, sc) && FreeSlots(g, w, w', g[s].rank + 1, [s], h, 0)
            && OthersKept(g, w, w', s)
    decreases g[s].rank, 3, 0
  {
    EnableEffect(g, io, w, s, h, false);
    StillAnchored(g, w.masks, Enable(g, io, w, s, h, false).world.masks, g[s].rank + 1, s, h, sc);
    ClearedSlot(g, io, w, s, h, sc);
    var v := SetDelay(g, io, w, s, h, 0, INT64_MAX).world;
    if Switches(w.masks[s], h, false) {
      SwitchesThrough(g, io, w, s, h, false);
      assert w.masks[s] - {h} == {};
      assert s in sc.emptied;
      SwitchOffRates(g, io, w, v, s, h, sc);
    }
  }

  lemma {:induction false} ClearedSlot(g: Graph, io: Platform, w: World, s: nat, h: nat, sc: Scope)
    requires WellFormed(g) && s < |g| && h < MAX_DEVICES && Quiet(g, w, g[s].rank + 1, sc)
    requires !Edge(g, g[s].rank + 1, h, s) && s in sc.reach
    requires SetDelay(g, io, w, s, h, 0, INT64_MAX).ok
    ensures var v := SetDelay(g, io, w, s, h, 0, INT64_MAX).world;
            Quiet(g, v, g[s].rank + 1, sc) && FreeSlots(g, w, v, g[s].rank + 1, [s], h, 0)
            && Held(g, WithBit(v, s, h, false), sc)
  {
    SetDelayEffect(g, io, w, s, h, 0, INT64_MAX);
    var v := SetDelay(g, io, w, s, h, 0, INT64_MAX).world;
    HeldAfterClear(g, w, v, g[s].rank + 1, s, h, sc, 0);
    assert v.rates[s].period[h] == 0;
  }

  /** The rates of sensors outside the reach of a call on s. */
  ghost predicate OthersKept(g: Graph, w: World, w': World, s: nat) {
    && |w.rates| == |w'.rates| == |g|
    && forall x {:trigger w'.rates[x]} :: 0 <= x < |g| && x != s && s < |g| && g[x].rank >= g[s].rank ==> w'.rates[x] == w.rates[x]
  }

  lemma {:induction false} SwitchOffRates(g: Graph, io: Platform, w: World, v: World, s: nat, h: nat, sc: Scope)
    requires WellFormed(g) && s < |g| && h < MAX_DEVICES && Quiet(g, v, g[s].rank + 1, sc)
    requires !Edge(g, g[s].rank + 1, h, s) && h in v.masks[s] && Switches(v.masks[s], h, false)
    requires FreeSlots(g, w, v, g[s].rank + 1, [s], h, 0) && Held(g, WithBit(v, s, h, false), sc)
    requires s in sc.emptied && Removable(sc, s, h)
    requires PushEnables(g, io, WithBit(v, s, h, false), s, false, 0).1 == |g[s].deps|
    ensures var w2 := PushEnables(g, io, WithBit(v, s, h, false), s, false, 0).0;
            RatesSound(g, w2, g[s].rank + 1) && Held(g, w2, sc) && FreeSlots(g, w, w2, g[s].rank + 1, [s], h, 0)
            && OthersKept(g, v, w2, s)
    decreases g[s].rank, 2, 0
  {
    var w1 := WithBit(v, s, h, false);
    ReadyToSwitchOff(g, v, s, h, sc);
    PushDisablesEffect(g, io, w1, s, 0, sc);
    SwitchedOff(g, w, v, w1, PushEnables(g, io, w1, s, false, 0).0, s, h);
  }

  lemma ReadyToSwitchOff(g: Graph, v: World, s: nat, h: nat, sc: Scope)
    requires WellFormed(g) && s < |g| && h < MAX_DEVICES && Quiet(g, v, g[s].rank + 1, sc)
    requires !Edge(g, g[s].rank + 1, h, s) && h in v.masks[s] && Switches(v.masks[s], h, false)
    requires Held(g, WithBit(v, s, h, false), sc) && s in sc.emptied && Removable(sc, s, h)
    ensures var w1 := WithBit(v, s, h, false);
            Quiet(g, w1, g[s].rank, sc) && NothingToPass(g, w1, s)
            && forall j :: 0 <= j < |g[s].deps| ==> s in w1.masks[g[s].deps[j]]
  {
    var w1 := WithBit(v, s, h, false);
    OwnBitChanged(g, v, w1, s, h, false);
    forall i | 0 <= i < |g[s].deps| ensures s in w1.masks[g[s].deps[i]] {
      assert Edge(g, g[s].rank + 1, s, g[s].deps[i]);
    }
    NoPeriodWithoutBit(g, w1, s, sc);
    forall y | 0 <= y < |g| && y in sc.reach && y !in sc.emptied ensures exists b :: b in w1.masks[y] && !Removable(sc, y, b) {
      assert w1.masks[y] == v.masks[y];
    }
    RatesLowerBound(g, v, g[s].rank + 1, g[s].rank);
  }

  lemma SwitchedOff(g: Graph, w: World, v: World, w1: World, w2: World, s: nat, h: nat)
    requires WellFormed(g) && s < |g| && h < MAX_DEVICES && RatesSound(g, v, g[s].rank + 1) && RatesSound(g, w2, g[s].rank)
    requires !Edge(g, g[s].rank + 1, h, s) && v.rates[s].period[h] == 0 && NothingToPass(g, v, s)
    requires FreeSlots(g, w, v, g[s].rank + 1, [s], h, 0) && Shaped(g, w1) && w1.rates == v.rates
    requires FreeSlots(g, w1, w2, g[s].rank, g[s].deps[0..], s, 0)
    requires OthersKept(g, w1, w2, s) && w2.rates[s] == w1.rates[s]
    ensures RatesSound(g, w2, g[s].rank + 1) && FreeSlots(g, w, w2, g[s].rank + 1, [s], h, 0)
  {
    assert g[s].deps[0..] == g[s].deps;
    assert FreeSlots(g, w1, w2, g[s].rank, g[s].deps, s, MinPeriod(w1.rates[s].period));
    CloseRates(g, v, w1, w2, s, h, 0);
    forall x: nat, y: nat | x < MAX_DEVICES && y < |g| && !Edge(g, g[s].rank + 1, x, y)
      ensures w2.rates[y].period[x] == if x == h && y in [s] then Offered(g[y], 0) else w.rates[y].period[x]
    {
      assert w2.rates[y].period[x] == if x == h && y in [s] then Offered(g[y], 0) else v.rates[y].period[x];
    }
  }

  lemma {:induction false} PushDisablesEffect(g: Graph, io: Platform, w: World, s: nat, i: nat, sc: Scope)
    requires WellFormed(g) && s < |g| && i <= |g[s].deps| && Quiet(g, w, g[s].rank, sc)
    requires s in sc.emptied
    requires forall j :: i <= j < |g[s].deps| ==> s in w.masks[g[s].deps[j]]
    requires PushEnables(g, io, w, s, false, i).1 == |g[s].deps|
    ensures var w' := PushEnables(g, io, w, s, false, i).0;
            Quiet(g, w', g[s].rank, sc) && FreeSlots(g, w, w', g[s].rank, g[s].deps[i..], s, 0)
            && OthersKept(g, w, w', s) && w'.rates[s] == w.rates[s]
    decreases g[s].rank, 1, |g[s].deps| - i
  {
    if i == |g[s].deps| { return; }
    var d := g[s].deps[i];
    EdgeRank(g, g[s].rank + 1, s, d);
    assert Below(g, s, d);
    DisableSeenFrom(g, io, w, g[s].rank, d, s, sc);
    EnableSeenFrom(g, io, w, g[s].rank, d, s, false);
    var w1 := Enable(g, io, w, d, s, false).world;
    OtherDependencies(g, w.masks, w1.masks, s, i, i + 1, |g[s].deps|, true, false);
    PushDisablesEffect(g, io, w1, s, i + 1, sc);
    PushSlotsChain(g, w, w1, PushEnables(g, io, w1, s, false, i + 1).0, s, i, 0);
  }

  lemma {:induction false} DisableSeenFrom(g: Graph, io: Platform, w: World, bound: nat, d: nat, h: nat, sc: Scope)
    requires WellFormed(g) && d < |g| && h < MAX_DEVICES && g[d].rank < bound && Quiet(g, w, bound, sc)
    requires !Edge(g, bound, h, d) && h in w.masks[d] && d in sc.reach && Removable(sc, d, h)
    requires Enable(g, io, w, d, h, false).ok
    ensures var w' := Enable(g, io, w, d, h, false).world;
            Quiet(g, w', bound, sc) && FreeSlots(g, w, w', bound, [d], h, 0) && OthersKept(g, w, w', d)
    decreases g[d].rank, 4, 0
  {
    LowerBound(g, w, bound, g[d].rank + 1);
    RatesLowerBound(g, w, bound, g[d].rank + 1);
    DisableEffect(g, io, w, d, h, sc);
    EnableSeenFrom(g, io, w, bound, d, h, false);
    RatesSeenFrom(g, w, Enable(g, io, w, d, h, false).world, bound, d, h, 0);
  }

  lemma {:induction false} EnableKeepsRates(g: Graph, io: Platform, w: World, s: nat, h: nat)
    requires WellFormed(g) && Shaped(g, w) && s < |g| && h < MAX_DEVICES && Enable(g, io, w, s, h, true).ok
    ensures Enable(g, io, w, s, h, true).world.rates == w.rates
    decreases g[s].rank, 3, 0
  {
    if !(h == s && h in w.masks[s]) && Switches(w.masks[s], h, true) {
      SwitchesThrough(g, io, w, s, h, true);
      PushKeepsRates(g, io, WithReset(WithBit(w, s, h, true), s), s, 0);
    }
  }

  lemma {:induction false} PushKeepsRates(g: Graph, io: Platform, w: World, s: nat, i: nat)
    requires WellFormed(g) && Shaped(g, w) && s < |g| && i <= |g[s].deps|
    requires PushEnables(g, io, w, s, true, i).1 == |g[s].deps|
    ensures PushEnables(g, io, w, s, true, i).0.rates == w.rates
    decreases g[s].rank, 1, |g[s].deps| - i
  {
    if i < |g[s].deps| {
      EnableKeepsRates(g, io, w, g[s].deps[i], s);
      PushKeepsRates(g, io, Enable(g, io, w, g[s].deps[i], s, true).world, s, i + 1);
    }
  }
}
