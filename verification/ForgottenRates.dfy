/** What a sensor that goes out of use leaves behind: its dependencies forget its rate, and the rates agree
    afterwards exactly when it had none to forget. */
module ForgottenRates {
  import opened RateControl
  import opened SensorGraph
  import opened PowerTheorem
  import opened RateTheorem

  // ---------------------------------------------------------------- what a call does not touch

  /** The slots of requesters that hold no bit are as before. */
  ghost predicate UnheldKept(g: Graph, w: World, w': World) {
    && Shaped(g, w) && Shaped(g, w')
    && forall y, x: nat {:trigger w'.rates[y].period[x]} ::
         0 <= y < |g| && x < MAX_DEVICES && x !in w.masks[y] ==> w'.rates[y].period[x] == w.rates[y].period[x]
  }

  lemma {:induction false} SetDelayKeepsUnheld(g: Graph, io: Platform, w: World, s: nat, h: nat, period: int, timeout: int)
    requires WellFormed(g) && Shaped(g, w) && s < |g| && h < MAX_DEVICES
    requires EdgesAgree(g, w.masks, g[s].rank + 1) && h in w.masks[s]
    ensures UnheldKept(g, w, SetDelay(g, io, w, s, h, period, timeout).world)
    decreases g[s].rank, 3, 0
  {
    hide BaseSetDelay;
    if g[s].kind.PollSoftware? {
      var kept := if period > 0 && timeout < INT64_MAX then ShortenTimeout(timeout) else timeout;
      BaseSetDelayKeepsUnheld(g, io, w, s, h, StoredPeriod(g[s], period, timeout), kept);
    } else if g[s].kind.PollHardware? {
      BaseSetDelayKeepsUnheld(g, io, w, s, h, StoredPeriod(g[s], period, timeout), timeout);
    } else {
      BaseSetDelayKeepsUnheld(g, io, w, s, h, period, timeout);
    }
  }

  lemma {:induction false} BaseSetDelayKeepsUnheld(g: Graph, io: Platform, w: World, s: nat, h: nat, period: int, timeout: int)
    requires WellFormed(g) && Shaped(g, w) && s < |g| && h < MAX_DEVICES
    requires EdgesAgree(g, w.masks, g[s].rank + 1) && h in w.masks[s]
    ensures UnheldKept(g, w, BaseSetDelay(g, io, w, s, h, period, timeout).world)
    decreases g[s].rank, 2, 0
  {
    var w1 := WithSlot(w, s, h, period, timeout);
    var (w2, done) := PushDelays(g, io, w1, s, 0);
    PushKeepsUnheld(g, io, w1, s, 0);
    var w3 := WithSlot(w2, s, h, w.rates[s].period[h], w.rates[s].timeout[h]);
    RestoreKeepsUnheld(g, io, w3, s, done);
  }

  lemma {:induction false} PushKeepsUnheld(g: Graph, io: Platform, w: World, s: nat, i: nat)
    requires WellFormed(g) && Shaped(g, w) && s < |g| && i <= |g[s].deps|
    requires EdgesAgree(g, w.masks, g[s].rank + 1) && w.masks[s] != {}
    ensures UnheldKept(g, w, PushDelays(g, io, w, s, i).0)
    decreases g[s].rank, 1, |g[s].deps| - i
  {
    if i < |g[s].deps| {
      OfferKeepsUnheld(g, io, w, s, i);
      var r := SetDelay(g, io, w, g[s].deps[i], s, MinPeriod(w.rates[s].period), MinTimeout(w.rates[s].timeout));
      if r.ok { PushKeepsUnheld(g, io, r.world, s, i + 1); }
    }
  }

  lemma {:induction false} RestoreKeepsUnheld(g: Graph, io: Platform, w: World, s: nat, i: nat)
    requires WellFormed(g) && Shaped(g, w) && s < |g| && i <= |g[s].deps|
    requires EdgesAgree(g, w.masks, g[s].rank + 1) && w.masks[s] != {}
    ensures UnheldKept(g, w, RestoreDelays(g, io, w, s, i))
    decreases g[s].rank, 1, i
  {
    if i > 0 {
      OfferKeepsUnheld(g, io, w, s, i - 1);
      var r := SetDelay(g, io, w, g[s].deps[i - 1], s, MinPeriod(w.rates[s].period), MinTimeout(w.rates[s].timeout));
      RestoreKeepsUnheld(g, io, r.world, s, i - 1);
    }
  }

  lemma {:induction false} OfferKeepsUnheld(g: Graph, io: Platform, w: World, s: nat, i: nat)
    requires WellFormed(g) && Shaped(g, w) && s < |g| && i < |g[s].deps|
    requires EdgesAgree(g, w.masks, g[s].rank + 1) && w.masks[s] != {}
    ensures var r := SetDelay(g, io, w, g[s].deps[i], s, MinPeriod(w.rates[s].period), MinTimeout(w.rates[s].timeout));
            UnheldKept(g, w, r.world)
    decreases g[s].rank, 0, 0
  {
    var d := g[s].deps[i];
    assert Edge(g, g[s].rank + 1, s, d);
    EdgeRank(g, g[s].rank + 1, s, d);
    EdgesBelow(g, w.masks, g[s].rank + 1, g[d].rank + 1);
    SetDelayKeepsUnheld(g, io, w, d, s, MinPeriod(w.rates[s].period), MinTimeout(w.rates[s].timeout));
  }

  lemma EdgesBelow(g: Graph, m: Masks, bound: nat, lower: nat)
    requires EdgesAgree(g, m, bound) && lower <= bound
    ensures EdgesAgree(g, m, lower)
  {
    forall x: nat, y: nat | Edge(g, lower, x, y) ensures y < |g| && (x in m[y] <==> m[x] != {}) {
      assert Edge(g, bound, x, y);
    }
  }

  // ---------------------------------------------------------------- what an accepted disable leaves

  /** Masks only lose bits, slots of requesters without a bit are as before, and a sensor that has gone out
      of use has no period at the dependencies that store periods. */
  ghost predicate Withdrawn(g: Graph, w: World, w': World) {
    && UnheldKept(g, w, w')
    && (forall y {:trigger w'.masks[y]} :: 0 <= y < |g| ==> w'.masks[y] <= w.masks[y])
    && forall y: nat, d: nat {:trigger Below(g, y, d)} ::
         Below(g, y, d) && d < |g| && y < MAX_DEVICES && Stores(g[d]) && w.masks[y] != {} && w'.masks[y] == {} ==> w'.rates[d].period[y] == 0
  }

  /** A request withdrawn with success is gone from its slot. */
  lemma SlotCleared(g: Graph, io: Platform, w: World, s: nat, h: nat)
    requires WellFormed(g) && Shaped(g, w) && s < |g| && h < MAX_DEVICES && Stores(g[s])
    requires SetDelay(g, io, w, s, h, 0, INT64_MAX).ok
    ensures SetDelay(g, io, w, s, h, 0, INT64_MAX).world.rates[s].period[h] == 0
  {
    hide BaseSetDelay;
  }

  lemma {:induction false} DisableWithdraws(g: Graph, io: Platform, w: World, s: nat, h: nat)
    requires WellFormed(g) && s < |g| && h < MAX_DEVICES && Consistent(g, w, g[s].rank + 1)
    requires !Edge(g, g[s].rank + 1, h, s) && h in w.masks[s] && Enable(g, io, w, s, h, false).ok
    ensures var w' := Enable(g, io, w, s, h, false).world;
            Withdrawn(g, w, w') && (Stores(g[s]) ==> w'.rates[s].period[h] == 0)
    decreases g[s].rank, 3, 0
  {
    SetDelayKeepsUnheld(g, io, w, s, h, 0, INT64_MAX);
    var v := SetDelay(g, io, w, s, h, 0, INT64_MAX).world;
    if Stores(g[s]) { SlotCleared(g, io, w, s, h); }
    var w1 := WithBit(v, s, h, false);
    assert UnheldKept(g, w, w1);
    if Switches(w.masks[s], h, false) {
      SwitchesThrough(g, io, w, s, h, false);
      OwnBitChanged(g, v, w1, s, h, false);
      forall i | 0 <= i < |g[s].deps| ensures s in w1.masks[g[s].deps[i]] {
        assert Edge(g, g[s].rank + 1, s, g[s].deps[i]);
      }
      PushWithdraws(g, io, w1, s, 0);
      AllDependencies(g, w, w1, PushEnables(g, io, w1, s, false, 0).0, s, h);
    }
  }

  lemma AllDependencies(g: Graph, w: World, w1: World, w2: World, s: nat, h: nat)
    requires s < |g| && UnheldKept(g, w, w1) && w1.masks == w.masks[s := w.masks[s] - {h}]
    requires Withdrawn(g, w1, w2) && w2.masks[s] == w1.masks[s]
    requires forall j :: 0 <= j < |g[s].deps| ==> g[s].deps[j] < |g| && s < MAX_DEVICES && (Stores(g[g[s].deps[j]]) ==> w2.rates[g[s].deps[j]].period[s] == 0)
    ensures Withdrawn(g, w, w2)
  {
    forall y, x: nat | 0 <= y < |g| && x < MAX_DEVICES && x !in w.masks[y] ensures w2.rates[y].period[x] == w.rates[y].period[x] {
      assert x !in w1.masks[y];
      assert w1.rates[y].period[x] == w.rates[y].period[x];
    }
    forall y: nat, d: nat | Below(g, y, d) && d < |g| && y < MAX_DEVICES && Stores(g[d]) && w.masks[y] != {} && w2.masks[y] == {}
      ensures w2.rates[d].period[y] == 0
    {
      if y == s {
        var j :| 0 <= j < |g[s].deps| && g[s].deps[j] == d;
      }
    }
  }

  lemma {:induction false} PushWithdraws(g: Graph, io: Platform, w: World, s: nat, i: nat)
    requires WellFormed(g) && s < |g| && i <= |g[s].deps| && Consistent(g, w, g[s].rank)
    requires forall j :: i <= j < |g[s].deps| ==> s in w.masks[g[s].deps[j]]
    requires PushEnables(g, io, w, s, false, i).1 == |g[s].deps|
    ensures var w' := PushEnables(g, io, w, s, false, i).0;
            && Withdrawn(g, w, w')
            && forall j :: i <= j < |g[s].deps| && Stores(g[g[s].deps[j]]) ==> w'.rates[g[s].deps[j]].period[s] == 0
    decreases g[s].rank, 1, |g[s].deps| - i
  {
    if i == |g[s].deps| { return; }
    var d := g[s].deps[i];
    EdgeRank(g, g[s].rank + 1, s, d);
    WithdrawsSeenFrom(g, io, w, g[s].rank, d, s);
    var w1 := Enable(g, io, w, d, s, false).world;
    OtherDependencies(g, w.masks, w1.masks, s, i, i + 1, |g[s].deps|, true, false);
    PushWithdraws(g, io, w1, s, i + 1);
    hide Enable, PushEnables;
    WithdrawnChain(g, w, w1, PushEnables(g, io, w1, s, false, i + 1).0, g[s].rank);
  }

  lemma {:induction false} WithdrawsSeenFrom(g: Graph, io: Platform, w: World, bound: nat, d: nat, h: nat)
    requires WellFormed(g) && d < |g| && h < MAX_DEVICES && g[d].rank < bound && Consistent(g, w, bound)
    requires !Edge(g, bound, h, d) && h in w.masks[d] && Enable(g, io, w, d, h, false).ok
    ensures var w' := Enable(g, io, w, d, h, false).world;
            && Withdrawn(g, w, w') && (Stores(g[d]) ==> w'.rates[d].period[h] == 0)
            && Consistent(g, w', bound) && FreeBits(g, w.masks, w'.masks, bound, [d], h, false) && h !in w'.masks[d]
            && forall y {:trigger w'.masks[y]} :: 0 <= y < |g| && g[y].rank >= bound ==> w'.masks[y] == w.masks[y]
    decreases g[d].rank, 4, 0
  {
    LowerBound(g, w, bound, g[d].rank + 1);
    DisableWithdraws(g, io, w, d, h);
    EnableSeenFrom(g, io, w, bound, d, h, false);
  }

  lemma WithdrawnChain(g: Graph, w: World, w1: World, w2: World, bound: nat)
    requires WellFormed(g) && Withdrawn(g, w, w1) && Withdrawn(g, w1, w2) && EdgesAgree(g, w1.masks, bound)
    requires forall y {:trigger w1.masks[y]} :: 0 <= y < |g| && g[y].rank >= bound ==> w1.masks[y] == w.masks[y]
    ensures Withdrawn(g, w, w2)
  {
    forall y, x: nat | 0 <= y < |g| && x < MAX_DEVICES && x !in w.masks[y] ensures w2.rates[y].period[x] == w.rates[y].period[x] {
      assert x !in w1.masks[y];
      assert w1.rates[y].period[x] == w.rates[y].period[x];
    }
    forall y: nat, d: nat | Below(g, y, d) && d < |g| && y < MAX_DEVICES && Stores(g[d]) && w.masks[y] != {} && w2.masks[y] == {}
      ensures w2.rates[d].period[y] == 0
    {
      if w1.masks[y] == {} {
        assert Edge(g, bound, y, d);
        assert w1.rates[d].period[y] == 0;
      }
    }
  }

  // ---------------------------------------------------------------- who goes out of use

  ghost predicate UsedByOther(g: Graph, w: World, s: nat, y: nat)
    requires WellFormed(g) && |g| == |w.masks|
  {
    exists x: nat :: x < |g| && x != s && x in w.masks[x] && Reaches(g, x, y)
  }

  lemma {:induction false} LastStep(g: Graph, x: nat, y: nat) returns (u: nat)
    requires WellFormed(g) && x < |g| && Reaches(g, x, y) && x != y
    ensures u < |g| && Reaches(g, x, u) && y in g[u].deps
    decreases g[x].rank
  {
    var i :| 0 <= i < |g[x].deps| && Reaches(g, g[x].deps[i], y);
    var d := g[x].deps[i];
    if d == y {
      u := x;
    } else {
      u := LastStep(g, d, y);
      assert Reaches(g, g[x].deps[i], u);
    }
  }

  ghost function ScopeOf(g: Graph, w: World, s: nat): Scope
    requires WellFormed(g) && s < |g| == |w.masks|
  {
    var reach := set y: nat | y < |g| && Reaches(g, s, y);
    Scope(reach, set y: nat | y in reach && !UsedByOther(g, w, s, y) :: y, s)
  }

  lemma ScopeIsClosed(g: Graph, w: World, s: nat)
    requires WellFormed(g) && s < |g| == |w.masks|
    ensures Closed(g, ScopeOf(g, w, s))
  {
    var sc := ScopeOf(g, w, s);
    forall x: nat, y: nat | Below(g, x, y) && x in sc.reach ensures y in sc.reach {
      var i :| 0 <= i < |g[x].deps| && g[x].deps[i] == y;
      ReachesFurther(g, s, x, y);
    }
  }

  lemma ScopeIsAnchored(g: Graph, w: World, top: nat, s: nat)
    requires WellFormed(g) && Covers(g, top) && Consistent(g, w, top) && s < |g|
    ensures Anchored(g, w.masks, ScopeOf(g, w, s))
  {
    var sc := ScopeOf(g, w, s);
    forall y | 0 <= y < |g| && y in sc.reach && y !in sc.emptied ensures exists b :: b in w.masks[y] && !Removable(sc, y, b) {
      var x: nat :| x < |g| && x != s && x in w.masks[x] && Reaches(g, x, y);
      if x == y {
        assert y in w.masks[y] && !Removable(sc, y, y);
      } else {
        var u := LastStep(g, x, y);
        UsedBelow(g, w, top, x, u);
        assert Edge(g, top, u, y);
        EdgeRank(g, top, u, y);
        assert u in w.masks[y] && !Removable(sc, y, u);
      }
    }
  }

  /** The disabling of s puts y out of use. */
  ghost predicate GoesOut(g: Graph, w: World, s: nat, y: nat)
    requires WellFormed(g) && s < |g| == |w.masks|
  {
    y < |g| && Reaches(g, s, y) && !UsedByOther(g, w, s, y)
  }

  /** ... while y holds the period of a requester that does not use it, and passes it on. */
  ghost predicate Forgets(g: Graph, w: World, s: nat, y: nat, h: nat)
    requires WellFormed(g) && Shaped(g, w) && s < |g|
  {
    GoesOut(g, w, s, y) && PassesOn(g, y) && h < MAX_DEVICES && Counts(w.rates[y].period[h]) && h !in w.masks[y]
  }

  ghost predicate ForgetsNone(g: Graph, w: World, s: nat)
    requires WellFormed(g) && Shaped(g, w) && s < |g|
  {
    forall y: nat, h: nat :: !Forgets(g, w, s, y, h)
  }

  lemma {:induction false} GoneAfter(g: Graph, io: Platform, w: World, wanted: set<nat>, top: nat, s: nat, y: nat)
    requires WellFormed(g) && Covers(g, top) && RunInvariant(g, w, wanted, top) && s < |g| && s in w.masks[s]
    requires Enable(g, io, w, s, s, false).ok && GoesOut(g, w, s, y)
    ensures w.masks[y] != {} && Enable(g, io, w, s, s, false).world.masks[y] == {}
  {
    hide Enable;
    UsedBelow(g, w, top, s, y);
    var c := Activate(s, false);
    var w' := Perform(g, io, w, c).world;
    NoLoop(g, top, s);
    EnableSeenFrom(g, io, w, top, s, s, false);
    PerformKeeps(g, io, w, wanted, top, c);
    if w'.masks[y] != {} {
      var x := UsedBySomeone(g, w', wanted - {s}, top, y);
    }
  }

  /** The rates agree along every edge after an accepted disable exactly when no sensor going out of use forgets
      a rate: the code withdraws it at the dependencies although its own slot keeps it. */
  lemma {:induction false} DisableAgreesExactly(g: Graph, io: Platform, w: World, wanted: set<nat>, top: nat, s: nat)
    requires WellFormed(g) && Covers(g, top) && RunInvariant(g, w, wanted, top) && RatesSound(g, w, top)
    requires s < |g| && s in w.masks[s] && Enable(g, io, w, s, s, false).ok
    ensures RatesAgree(g, Enable(g, io, w, s, s, false).world, top) <==> ForgetsNone(g, w, s)
  {
    if ForgetsNone(g, w, s) {
      NothingForgotten(g, io, w, top, s);
    } else {
      var y: nat, h: nat :| Forgets(g, w, s, y, h);
      SomethingForgotten(g, io, w, wanted, top, s, y, h);
    }
  }

  lemma {:induction false} NothingForgotten(g: Graph, io: Platform, w: World, top: nat, s: nat)
    requires WellFormed(g) && Covers(g, top) && Consistent(g, w, top) && RatesSound(g, w, top)
    requires s < |g| && s in w.masks[s] && Enable(g, io, w, s, s, false).ok
    requires ForgetsNone(g, w, s)
    ensures var w' := Enable(g, io, w, s, s, false).world; RatesSound(g, w', top) && FreeSlots(g, w, w', top, [s], s, 0)
  {
    hide Enable;
    var sc := ScopeOf(g, w, s);
    NoLoop(g, top, s);
    ScopeIsClosed(g, w, s);
    ScopeIsAnchored(g, w, top, s);
    forall y, h: nat | 0 <= y < |g| && y in sc.emptied && PassesOn(g, y) && h < MAX_DEVICES && Counts(w.rates[y].period[h])
      ensures h in w.masks[y]
    {
      assert !Forgets(g, w, s, y, h);
    }
    assert Reaches(g, s, s);
    DisableSeenFrom(g, io, w, top, s, s, sc);
  }

  /** What is forgotten: y still stores the period, and its dependency nothing. */
  lemma {:induction false} SomethingForgotten(g: Graph, io: Platform, w: World, wanted: set<nat>, top: nat, s: nat, y: nat, h: nat)
    requires WellFormed(g) && Covers(g, top) && RunInvariant(g, w, wanted, top) && RatesSound(g, w, top)
    requires s < |g| && s in w.masks[s] && Enable(g, io, w, s, s, false).ok && Forgets(g, w, s, y, h)
    ensures var w' := Enable(g, io, w, s, s, false).world;
            && w'.rates[y].period[h] == w.rates[y].period[h]
            && (forall d {:trigger d in g[y].deps} :: d in g[y].deps && d < |g| && Stores(g[d]) ==> w'.rates[d].period[y] == 0)
            && !RatesAgree(g, w', top)
  {
    hide Enable;
    LowerBound(g, w, top, g[s].rank + 1);
    NoLoop(g, g[s].rank + 1, s);
    DisableWithdraws(g, io, w, s, s);
    GoneAfter(g, io, w, wanted, top, s, y);
    var w' := Enable(g, io, w, s, s, false).world;
    forall d | d in g[y].deps && d < |g| && Stores(g[d]) ensures w'.rates[d].period[y] == 0 {
      assert Below(g, y, d);
    }
    PendingDisagrees(g, w', top, y, h);
  }

  lemma PendingDisagrees(g: Graph, w: World, top: nat, y: nat, h: nat)
    requires WellFormed(g) && DelaysUsable(g) && Covers(g, top) && Shaped(g, w) && PassesOn(g, y) && y < MAX_DEVICES
    requires h < MAX_DEVICES && Counts(w.rates[y].period[h])
    requires forall d {:trigger d in g[y].deps} :: d in g[y].deps && d < |g| && Stores(g[d]) ==> w.rates[d].period[y] == 0
    ensures !RatesAgree(g, w, top)
  {
    var d :| d in g[y].deps && d < |g| && Stores(g[d]);
    assert Edge(g, top, y, d);
    assert MinPeriod(w.rates[y].period) > 0;
    assert Usable(g, d);
  }
}
