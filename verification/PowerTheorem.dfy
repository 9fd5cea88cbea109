/** Enable masks and device power over the whole graph: which sensors are on after any run, and
    what a failed call leaves behind. */
module PowerTheorem {
  import opened RateControl
  import opened SensorGraph

  type Masks = seq<set<nat>>

  /** x depends on y and x is ranked below the bound. */
  ghost predicate Edge(g: Graph, bound: nat, x: nat, y: nat) {
    x < |g| && g[x].rank < bound && y in g[x].deps
  }

  /** Along every edge below the bound: y holds the bit of x exactly when the mask of x is not empty. */
  ghost predicate EdgesAgree(g: Graph, m: Masks, bound: nat) {
    && |m| == |g|
    && forall x: nat, y: nat {:trigger Edge(g, bound, x, y)} :: Edge(g, bound, x, y) ==> y < |g| && (x in m[y] <==> m[x] != {})
  }

  /** Below the bound, a device is on exactly when its sensor's mask is not empty. */
  ghost predicate PowerAgrees(g: Graph, w: World, bound: nat) {
    && Shaped(g, w)
    && forall x {:trigger w.power[x]} :: 0 <= x < |g| && g[x].rank < bound ==> w.power[x] == (g[x].Hardware() && w.masks[x] != {})
  }

  /** The bits that are not owed to an edge below the bound are those of m, except that the bit of h
      at the sensors in `targets` is `bit`. */
  ghost predicate FreeBits(g: Graph, m: Masks, m': Masks, bound: nat, targets: seq<nat>, h: nat, bit: bool) {
    && |m| == |m'| == |g|
    && forall x: nat, y: nat {:trigger x in m'[y]} :: y < |g| && !Edge(g, bound, x, y) ==>
         (x in m'[y] <==> if x == h && y in targets then bit else x in m[y])
  }

  /** Masks are determined by their free bits. */
  lemma {:induction false} FreeBitsDetermine(g: Graph, m: Masks, m': Masks, bound: nat)
    requires WellFormed(g) && EdgesAgree(g, m, bound) && EdgesAgree(g, m', bound)
    requires FreeBits(g, m, m', bound, [], 0, true)
    ensures m == m'
  {
    SameFromRank(g, m, m', bound, 0);
  }

  lemma {:induction false} SameFromRank(g: Graph, m: Masks, m': Masks, bound: nat, k: nat)
    requires WellFormed(g) && EdgesAgree(g, m, bound) && EdgesAgree(g, m', bound)
    requires FreeBits(g, m, m', bound, [], 0, true)
    ensures forall y {:trigger m[y]} :: 0 <= y < |g| && g[y].rank >= k ==> m[y] == m'[y]
    decreases bound - k
  {
    if k < bound {
      SameFromRank(g, m, m', bound, k + 1);
    }
    forall y | 0 <= y < |g| && g[y].rank >= k ensures m[y] == m'[y] {
      forall x: nat ensures x in m[y] <==> x in m'[y] {
        if Edge(g, bound, x, y) {
          EdgeRank(g, bound, x, y);
        }
      }
    }
  }

  lemma EdgeRank(g: Graph, bound: nat, x: nat, y: nat)
    requires WellFormed(g) && Edge(g, bound, x, y)
    ensures y < |g| && g[y].rank < g[x].rank
  {
    var i :| 0 <= i < |g[x].deps| && g[x].deps[i] == y;
  }

  // ---------------------------------------------------------------- one call

  /** Everything the calls below rely on and keep. */
  ghost predicate Consistent(g: Graph, w: World, bound: nat) {
    WellFormed(g) && Shaped(g, w) && !w.lost && EdgesAgree(g, w.masks, bound) && PowerAgrees(g, w, bound)
  }

  /** Disabling a hardware sensor that is already off still writes to its device. */
  predicate IdleDisable(g: Graph, w: World, s: nat, h: nat, enable: bool)
    requires s < |g| == |w.masks|
  {
    !enable && h == s && w.masks[s] == {} && g[s].Hardware()
  }

  ghost predicate Undone(w: World, w': World) {
    w'.masks == w.masks && w'.power == w.power
  }

  lemma {:induction false} EnableEffect(g: Graph, io: Platform, w: World, s: nat, h: nat, enable: bool)
    requires WellFormed(g) && s < |g| && h < MAX_DEVICES && Consistent(g, w, g[s].rank + 1)
    requires !Edge(g, g[s].rank + 1, h, s)
    requires h == s || (h in w.masks[s]) == !enable
    requires !IdleDisable(g, w, s, h, enable)
    ensures var r := Enable(g, io, w, s, h, enable);
            if r.ok then Consistent(g, r.world, g[s].rank + 1)
                         && FreeBits(g, w.masks, r.world.masks, g[s].rank + 1, [s], h, enable)
            else r.world.lost || Undone(w, r.world)
    decreases g[s].rank, 3, 0
  {
    hide BaseEnable;
    if (h in w.masks[s]) == enable {
      AlreadySwitched(g, io, w, s, enable);
      return;
    }
    BaseEnableEffect(g, io, w, s, h, enable);
    var r := BaseEnable(g, io, w, s, h, enable);
    if r.ok {
      if g[s].Hardware() && Switches(w.masks[s], h, enable) && !io.accepts(r.world.writes) {
        RefusedSwitch(g, io, w, r.world, s, h, enable);
      } else {
        SwitchSettles(g, io, w, r.world, s, h, enable);
      }
    }
  }

  /** A call on the sensor's own handle that finds nothing to do only stamps times. */
  lemma AlreadySwitched(g: Graph, io: Platform, w: World, s: nat, enable: bool)
    requires WellFormed(g) && s < |g| && Consistent(g, w, g[s].rank + 1) && (s in w.masks[s]) == enable
    requires !IdleDisable(g, w, s, s, enable) && s < MAX_DEVICES
    ensures var r := Enable(g, io, w, s, s, enable);
            r.ok && r.world.masks == w.masks && r.world.power == w.power && !r.world.lost && Shaped(g, r.world)
  {
    assert BaseEnable(g, io, w, s, s, enable) == SensorGraph.Outcome(w, true);
  }

  /** The device follows the mask, if the sensor has one, and the times are stamped. */
  lemma SwitchSettles(g: Graph, io: Platform, w: World, w1: World, s: nat, h: nat, enable: bool)
    requires WellFormed(g) && s < |g| && Consistent(g, w, g[s].rank + 1) && !w1.lost && Shaped(g, w1)
    requires EdgesAgree(g, w1.masks, g[s].rank + 1) && PowerAgrees(g, w1, g[s].rank)
    requires ChangedBelow(g, w, w1, s) && w1.power[s] == w.power[s] && (h in w.masks[s]) == !enable
    requires FreeBits(g, w.masks, w1.masks, g[s].rank + 1, [s], h, enable) && !Edge(g, g[s].rank + 1, h, s)
    ensures var switched := Switches(w.masks[s], h, enable);
            var w2 := if g[s].Hardware() && switched
                      then Stamped(io, w1.(writes := w1.writes + 1, power := w1.power[s := w1.masks[s] != {}]), s, h, enable, true)
                      else Stamped(io, w1, s, h, enable, switched);
            Consistent(g, w2, g[s].rank + 1) && w2.masks == w1.masks
  {
    if !Switches(w.masks[s], h, enable) {
      KeptInUse(g, w, w1, s, h, enable);
    }
  }

  lemma KeptInUse(g: Graph, w: World, w1: World, s: nat, h: nat, enable: bool)
    requires WellFormed(g) && s < |g| && |w.masks| == |w1.masks| == |g| && EdgesAgree(g, w.masks, g[s].rank + 1)
    requires FreeBits(g, w.masks, w1.masks, g[s].rank + 1, [s], h, enable) && !Switches(w.masks[s], h, enable)
    requires !Edge(g, g[s].rank + 1, h, s)
    ensures w.masks[s] != {} && w1.masks[s] != {}
  {
    if enable {
      assert h in w1.masks[s];
    } else {
      var x :| x in w.masks[s] - {h};
      if Edge(g, g[s].rank + 1, x, s) {
        EdgeRank(g, g[s].rank + 1, x, s);
      }
      assert x in w1.masks[s];
    }
  }

  /** The device refuses the write: undoing the rest restores every mask and device. */
  lemma {:induction false} RefusedSwitch(g: Graph, io: Platform, w: World, w1: World, s: nat, h: nat, enable: bool)
    requires WellFormed(g) && Shaped(g, w1) && s < |g| && h < MAX_DEVICES && Consistent(g, w, g[s].rank + 1) && !w1.lost
    requires !Edge(g, g[s].rank + 1, h, s) && (h in w.masks[s]) == !enable
    requires EdgesAgree(g, w1.masks, g[s].rank + 1) && PowerAgrees(g, w1, g[s].rank)
    requires ChangedBelow(g, w, w1, s) && w1.power[s] == w.power[s]
    requires FreeBits(g, w.masks, w1.masks, g[s].rank + 1, [s], h, enable)
    ensures var undo := BaseEnable(g, io, w1.(writes := w1.writes + 1), s, h, !enable);
            NoteUndo(undo).lost || Undone(w, undo.world)
    decreases g[s].rank, 2, 1
  {
    var w2 := w1.(writes := w1.writes + 1);
    BaseEnableEffect(g, io, w2, s, h, !enable);
    var undo := BaseEnable(g, io, w2, s, h, !enable);
    if undo.ok {
      forall x: nat, y: nat | y < |g| && !Edge(g, g[s].rank + 1, x, y) ensures x in undo.world.masks[y] <==> x in w.masks[y] {
        assert x in w1.masks[y] <==> if x == h && y in [s] then enable else x in w.masks[y];
      }
      FreeBitsDetermine(g, w.masks, undo.world.masks, g[s].rank + 1);
      SamePower(g, w, undo.world, s);
    }
  }

  lemma SamePower(g: Graph, w: World, w': World, s: nat)
    requires WellFormed(g) && s < |g| && PowerAgrees(g, w, g[s].rank) && PowerAgrees(g, w', g[s].rank)
    requires w.masks == w'.masks && ChangedBelow(g, w, w', s) && w'.power[s] == w.power[s]
    ensures Undone(w, w')
  {
    forall x | 0 <= x < |g| ensures w.power[x] == w'.power[x] {
      if g[x].rank >= g[s].rank && x != s { assert w'.masks[x] == w.masks[x]; }
    }
  }

  /** The part of Enable that does not touch the device of s. */
  lemma {:induction false} BaseEnableEffect(g: Graph, io: Platform, w: World, s: nat, h: nat, enable: bool)
    requires WellFormed(g) && Shaped(g, w) && s < |g| && h < MAX_DEVICES && !w.lost
    requires EdgesAgree(g, w.masks, g[s].rank + 1) && PowerAgrees(g, w, g[s].rank)
    requires !Edge(g, g[s].rank + 1, h, s)
    requires (h in w.masks[s]) == !enable
    ensures var r := BaseEnable(g, io, w, s, h, enable);
            if r.ok then !r.world.lost && EdgesAgree(g, r.world.masks, g[s].rank + 1) && PowerAgrees(g, r.world, g[s].rank)
                         && FreeBits(g, w.masks, r.world.masks, g[s].rank + 1, [s], h, enable)
            else r.world.lost || Undone(w, r.world)
    decreases g[s].rank, 2, 0
  {
    hide Enable;
    hide SetDelay;
    var d := if enable then Outcome(w, true) else SetDelay(g, io, w, s, h, 0, INT64_MAX);
    if !d.ok { return; }
    OwnBitChanged(g, w, WithBit(d.world, s, h, enable), s, h, enable);
    if !Switches(w.masks[s], h, enable) { return; }
    var w1 := if enable then WithReset(WithBit(d.world, s, h, enable), s) else WithBit(d.world, s, h, enable);
    forall i | 0 <= i < |g[s].deps| ensures (s in w1.masks[g[s].deps[i]]) == !enable {
      assert Edge(g, g[s].rank + 1, s, g[s].deps[i]);
    }
    PushEffect(g, io, w1, s, enable, 0);
    var (w2, done) := PushEnables(g, io, w1, s, enable, 0);
    if done == |g[s].deps| {
      CloseSwitch(g, w, w1, w2, s, h, enable);
    } else if !w2.lost {
      RestoreEffect(g, io, w2, s, enable, done);
      var w3 := RestoreEnables(g, io, w2, s, enable, done);
      if !w3.lost {
        ReopenSwitch(g, w, w1, w2, w3, s, h, enable, done);
      }
    } else {
      LostStays(g, io, w2, s, enable, done);
    }
  }

  lemma OwnBitChanged(g: Graph, w: World, w1: World, s: nat, h: nat, enable: bool)
    requires WellFormed(g) && Shaped(g, w) && s < |g| && EdgesAgree(g, w.masks, g[s].rank + 1) && PowerAgrees(g, w, g[s].rank)
    requires !Edge(g, g[s].rank + 1, h, s)
    requires (h in w.masks[s]) == !enable
    requires Shaped(g, w1) && w1.power == w.power && w1.masks == w.masks[s := if enable then w.masks[s] + {h} else w.masks[s] - {h}]
    ensures EdgesAgree(g, w1.masks, g[s].rank) && PowerAgrees(g, w1, g[s].rank)
    ensures FreeBits(g, w.masks, w1.masks, g[s].rank + 1, [s], h, enable)
    ensures !Switches(w.masks[s], h, enable) ==> EdgesAgree(g, w1.masks, g[s].rank + 1)
  {
    forall x: nat, y: nat | Edge(g, g[s].rank, x, y) ensures y < |g| && (x in w1.masks[y] <==> w1.masks[x] != {}) {
      EdgeRank(g, g[s].rank, x, y);
      assert Edge(g, g[s].rank + 1, x, y);
    }
    if !Switches(w.masks[s], h, enable) {
      forall x: nat, y: nat | Edge(g, g[s].rank + 1, x, y) ensures y < |g| && (x in w1.masks[y] <==> w1.masks[x] != {}) {
        EdgeRank(g, g[s].rank + 1, x, y);
        if x == s {
          assert w.masks[s] != {} && w1.masks[s] != {};
        }
      }
    }
  }

  /** A call on dependency number i leaves the bits of s at the others alone. */
  lemma OtherDependencies(g: Graph, m: Masks, m1: Masks, s: nat, i: nat, lo: nat, hi: nat, bit: bool, change: bool)
    requires WellFormed(g) && s < |g| && i < |g[s].deps| && lo <= hi <= |g[s].deps| && !(lo <= i < hi)
    requires FreeBits(g, m, m1, g[s].rank, [g[s].deps[i]], s, change)
    requires forall j :: lo <= j < hi ==> (s in m[g[s].deps[j]]) == bit
    ensures forall j :: lo <= j < hi ==> (s in m1[g[s].deps[j]]) == bit
  {
    forall j | lo <= j < hi ensures (s in m1[g[s].deps[j]]) == bit {
      assert !Edge(g, g[s].rank, s, g[s].deps[j]);
      assert !Repeats(g, s, i, j) && !Repeats(g, s, j, i);
    }
  }

  lemma PushChain(g: Graph, m: Masks, m1: Masks, m2: Masks, s: nat, i: nat, k: nat, bit: bool)
    requires s < |g| && i < k <= |g[s].deps|
    requires FreeBits(g, m, m1, g[s].rank, [g[s].deps[i]], s, bit)
    requires FreeBits(g, m1, m2, g[s].rank, g[s].deps[i + 1..k], s, bit)
    ensures FreeBits(g, m, m2, g[s].rank, g[s].deps[i..k], s, bit)
  {
    assert g[s].deps[i..k] == [g[s].deps[i]] + g[s].deps[i + 1..k];
    FreeBitsChain(g, m, m1, m2, g[s].rank, [g[s].deps[i]], g[s].deps[i + 1..k], s, bit);
  }

  lemma RestoreChain(g: Graph, m: Masks, m1: Masks, m2: Masks, s: nat, i: nat, bit: bool)
    requires s < |g| && 0 < i <= |g[s].deps|
    requires FreeBits(g, m, m1, g[s].rank, [g[s].deps[i - 1]], s, bit)
    requires FreeBits(g, m1, m2, g[s].rank, g[s].deps[..i - 1], s, bit)
    ensures FreeBits(g, m, m2, g[s].rank, g[s].deps[..i], s, bit)
  {
    assert g[s].deps[..i] == g[s].deps[..i - 1] + [g[s].deps[i - 1]];
    FreeBitsChain(g, m, m1, m2, g[s].rank, [g[s].deps[i - 1]], g[s].deps[..i - 1], s, bit);
  }

  lemma {:induction false} PushEffect(g: Graph, io: Platform, w: World, s: nat, enable: bool, i: nat)
    requires WellFormed(g) && s < |g| && i <= |g[s].deps| && Consistent(g, w, g[s].rank)
    requires forall j :: i <= j < |g[s].deps| ==> (s in w.masks[g[s].deps[j]]) == !enable
    ensures var (w', k) := PushEnables(g, io, w, s, enable, i);
            if w'.lost then k < |g[s].deps|
            else Consistent(g, w', g[s].rank) && FreeBits(g, w.masks, w'.masks, g[s].rank, g[s].deps[i..k], s, enable)
    decreases g[s].rank, 1, |g[s].deps| - i
  {
    hide Enable;
    if i == |g[s].deps| { return; }
    var d := g[s].deps[i];
    EdgeRank(g, g[s].rank + 1, s, d);
    EnableSeenFrom(g, io, w, g[s].rank, d, s, enable);
    var r := Enable(g, io, w, d, s, enable);
    if r.ok {
      OtherDependencies(g, w.masks, r.world.masks, s, i, i + 1, |g[s].deps|, !enable, enable);
      PushEffect(g, io, r.world, s, enable, i + 1);
      var (w', k) := PushEnables(g, io, r.world, s, enable, i + 1);
      if !w'.lost {
        PushChain(g, w.masks, r.world.masks, w'.masks, s, i, k, enable);
      }
    } else if !r.world.lost {
      SameBits(g, w, r.world, g[s].rank);
    }
  }

  lemma {:induction false} RestoreStep(g: Graph, io: Platform, w: World, s: nat, enable: bool, i: nat)
    requires WellFormed(g) && s < |g| && 0 < i <= |g[s].deps| && Consistent(g, w, g[s].rank)
    requires forall j :: 0 <= j < i ==> (s in w.masks[g[s].deps[j]]) == enable
    ensures var w1 := NoteUndo(Enable(g, io, w, g[s].deps[i - 1], s, !enable));
            w1.lost || (Consistent(g, w1, g[s].rank) && FreeBits(g, w.masks, w1.masks, g[s].rank, [g[s].deps[i - 1]], s, !enable)
                        && forall j :: 0 <= j < i - 1 ==> (s in w1.masks[g[s].deps[j]]) == enable)
    decreases g[s].rank, 0, 0
  {
    var d := g[s].deps[i - 1];
    EdgeRank(g, g[s].rank + 1, s, d);
    EnableSeenFrom(g, io, w, g[s].rank, d, s, !enable);
    var w1 := NoteUndo(Enable(g, io, w, d, s, !enable));
    if !w1.lost {
      OtherDependencies(g, w.masks, w1.masks, s, i - 1, 0, i - 1, enable, !enable);
    }
  }

  lemma {:induction false} RestoreEffect(g: Graph, io: Platform, w: World, s: nat, enable: bool, i: nat)
    requires WellFormed(g) && s < |g| && i <= |g[s].deps| && Consistent(g, w, g[s].rank)
    requires forall j :: 0 <= j < i ==> (s in w.masks[g[s].deps[j]]) == enable
    ensures var w' := RestoreEnables(g, io, w, s, enable, i);
            w'.lost || (Consistent(g, w', g[s].rank) && FreeBits(g, w.masks, w'.masks, g[s].rank, g[s].deps[..i], s, !enable))
    decreases g[s].rank, 1, i
  {
    hide Enable;
    if i == 0 { return; }
    RestoreStep(g, io, w, s, enable, i);
    var w1 := NoteUndo(Enable(g, io, w, g[s].deps[i - 1], s, !enable));
    if w1.lost {
      LostStays(g, io, w1, s, enable, i - 1);
    } else {
      RestoreEffect(g, io, w1, s, enable, i - 1);
      var w' := RestoreEnables(g, io, w1, s, enable, i - 1);
      if !w'.lost {
        RestoreChain(g, w.masks, w1.masks, w'.masks, s, i, !enable);
      }
    }
  }

  /** The same seen from any bound above d: consistency is kept and only the bit of h at d changes freely. */
  lemma {:induction false} EnableSeenFrom(g: Graph, io: Platform, w: World, bound: nat, d: nat, h: nat, enable: bool)
    requires WellFormed(g) && d < |g| && h < MAX_DEVICES && g[d].rank < bound && Consistent(g, w, bound)
    requires !Edge(g, bound, h, d)
    requires h == d || (h in w.masks[d]) == !enable
    requires !IdleDisable(g, w, d, h, enable)
    ensures var r := Enable(g, io, w, d, h, enable);
            if r.ok then Consistent(g, r.world, bound) && FreeBits(g, w.masks, r.world.masks, bound, [d], h, enable)
            else r.world.lost || Undone(w, r.world)
    decreases g[d].rank, 4, 0
  {
    LowerBound(g, w, bound, g[d].rank + 1);
    EnableEffect(g, io, w, d, h, enable);
    var r := Enable(g, io, w, d, h, enable);
    if r.ok {
      forall x: nat, y: nat | Edge(g, bound, x, y) ensures y < |g| && (x in r.world.masks[y] <==> r.world.masks[x] != {}) {
        if g[x].rank > g[d].rank {
          EdgeRank(g, bound, x, y);
          assert !Edge(g, g[d].rank + 1, x, y);
          assert r.world.masks[x] == w.masks[x];
        } else {
          assert Edge(g, g[d].rank + 1, x, y);
        }
      }
      forall x: nat, y: nat | y < |g| && !Edge(g, bound, x, y)
        ensures x in r.world.masks[y] <==> if x == h && y in [d] then enable else x in w.masks[y]
      {
        assert !Edge(g, g[d].rank + 1, x, y);
      }
      forall x | 0 <= x < |g| && g[x].rank < bound
        ensures r.world.power[x] == (g[x].Hardware() && r.world.masks[x] != {})
      {
        if g[x].rank > g[d].rank { assert r.world.masks[x] == w.masks[x]; }
      }
    }
  }

  lemma LowerBound(g: Graph, w: World, bound: nat, lower: nat)
    requires Consistent(g, w, bound) && lower <= bound
    ensures Consistent(g, w, lower)
  {
    forall x: nat, y: nat | Edge(g, lower, x, y) ensures y < |g| && (x in w.masks[y] <==> w.masks[x] != {}) {
      assert Edge(g, bound, x, y);
    }
  }

  lemma SameBits(g: Graph, w: World, w': World, bound: nat)
    requires Consistent(g, w, bound) && Shaped(g, w') && !w'.lost && Undone(w, w')
    ensures Consistent(g, w', bound) && FreeBits(g, w.masks, w'.masks, bound, [], 0, true)
  {
  }

  lemma FreeBitsChain(g: Graph, m: Masks, m1: Masks, m2: Masks, bound: nat, a: seq<nat>, b: seq<nat>, h: nat, bit: bool)
    requires FreeBits(g, m, m1, bound, a, h, bit) && FreeBits(g, m1, m2, bound, b, h, bit)
    ensures FreeBits(g, m, m2, bound, a + b, h, bit) && FreeBits(g, m, m2, bound, b + a, h, bit)
  {
    forall x: nat, y: nat | y < |g| && !Edge(g, bound, x, y)
      ensures x in m2[y] <==> if x == h && y in a + b then bit else x in m[y]
      ensures y in a + b <==> y in b + a
    {
      assert x in m1[y] <==> if x == h && y in a then bit else x in m[y];
    }
  }

  /** Once every dependency holds the new bit, the edges of s agree too. */
  lemma CloseSwitch(g: Graph, w: World, w1: World, w2: World, s: nat, h: nat, enable: bool)
    requires WellFormed(g) && s < |g| && EdgesAgree(g, w.masks, g[s].rank + 1) && Consistent(g, w2, g[s].rank)
    requires !Edge(g, g[s].rank + 1, h, s)
    requires FreeBits(g, w.masks, w1.masks, g[s].rank + 1, [s], h, enable)
    requires FreeBits(g, w1.masks, w2.masks, g[s].rank, g[s].deps[0..|g[s].deps|], s, enable)
    requires ChangedBelow(g, w1, w2, s) && w2.masks[s] == w1.masks[s] && (w2.masks[s] != {}) == enable
    requires forall x {:trigger w1.masks[x]} :: 0 <= x < |g| && x != s ==> w1.masks[x] == w.masks[x]
    ensures EdgesAgree(g, w2.masks, g[s].rank + 1)
    ensures FreeBits(g, w.masks, w2.masks, g[s].rank + 1, [s], h, enable)
  {
    assert g[s].deps[0..|g[s].deps|] == g[s].deps;
    forall x: nat, y: nat | Edge(g, g[s].rank + 1, x, y) ensures y < |g| && (x in w2.masks[y] <==> w2.masks[x] != {}) {
      EdgeRank(g, g[s].rank + 1, x, y);
      if g[x].rank < g[s].rank {
        assert Edge(g, g[s].rank, x, y);
      } else {
        assert !Edge(g, g[s].rank, x, y);
        if x != s { assert w2.masks[x] == w1.masks[x] == w.masks[x]; }
      }
    }
    forall x: nat, y: nat | y < |g| && !Edge(g, g[s].rank + 1, x, y)
      ensures x in w2.masks[y] <==> if x == h && y in [s] then enable else x in w.masks[y]
    {
      assert !Edge(g, g[s].rank, x, y);
      assert !(x == s && y in g[s].deps);
    }
  }

  /** Taking the bit back at every dependency that got it restores all masks. */
  lemma ReopenSwitch(g: Graph, w: World, w1: World, w2: World, w3: World, s: nat, h: nat, enable: bool, done: nat)
    requires WellFormed(g) && s < |g| && Shaped(g, w) && EdgesAgree(g, w.masks, g[s].rank + 1) && PowerAgrees(g, w, g[s].rank)
    requires w1.masks == w.masks[s := if enable then w.masks[s] + {h} else w.masks[s] - {h}] && w1.power == w.power
    requires (h in w.masks[s]) == !enable && Switches(w.masks[s], h, enable)
    requires done <= |g[s].deps| && Consistent(g, w3, g[s].rank)
    requires FreeBits(g, w1.masks, w2.masks, g[s].rank, g[s].deps[0..done], s, enable)
    requires FreeBits(g, w2.masks, w3.masks, g[s].rank, g[s].deps[..done], s, !enable)
    requires ChangedBelow(g, w1, w3, s) && w3.masks[s] == w1.masks[s] && w3.power[s] == w.power[s]
    ensures Undone(w, WithBit(w3, s, h, !enable))
  {
    var w4 := WithBit(w3, s, h, !enable);
    assert g[s].deps[0..done] == g[s].deps[..done];
    assert w4.masks[s] == w.masks[s];
    forall x: nat, y: nat | Edge(g, g[s].rank, x, y)
      ensures y < |g| && (x in w.masks[y] <==> w.masks[x] != {}) && (x in w4.masks[y] <==> w4.masks[x] != {})
    {
      EdgeRank(g, g[s].rank, x, y);
      assert Edge(g, g[s].rank + 1, x, y);
    }
    forall x: nat, y: nat | y < |g| && !Edge(g, g[s].rank, x, y)
      ensures x in w4.masks[y] <==> x in w.masks[y]
    {
      if x == s && y in g[s].deps[..done] {
        assert Edge(g, g[s].rank + 1, s, y);
        EdgeRank(g, g[s].rank + 1, s, y);
      } else if y != s {
        assert x in w2.masks[y] <==> x in w1.masks[y];
      }
    }
    assert FreeBits(g, w.masks, w4.masks, g[s].rank, [], 0, true);
    FreeBitsDetermine(g, w.masks, w4.masks, g[s].rank);
    forall x | 0 <= x < |g| && g[x].rank < g[s].rank
      ensures w4.power[x] == (g[x].Hardware() && w4.masks[x] != {})
    {
      assert w4.masks[x] == w3.masks[x];
    }
    forall x | 0 <= x < |g| ensures w4.power[x] == w.power[x] {
      if x != s && g[x].rank >= g[s].rank { assert w3.masks[x] == w1.masks[x]; }
    }
  }

  // ---------------------------------------------------------------- the monitor only ever rises

  lemma {:induction false} LostStays(g: Graph, io: Platform, w: World, s: nat, enable: bool, i: nat)
    requires WellFormed(g) && Shaped(g, w) && s < |g| && i <= |g[s].deps| && w.lost
    ensures RestoreEnables(g, io, w, s, enable, i).lost
    decreases g[s].rank, 1, i
  {
    hide Enable;
    if i > 0 {
      LostStaysInEnable(g, io, w, g[s].deps[i - 1], s, !enable);
      LostStays(g, io, NoteUndo(Enable(g, io, w, g[s].deps[i - 1], s, !enable)), s, enable, i - 1);
    }
  }

  lemma {:induction false} LostStaysInPush(g: Graph, io: Platform, w: World, s: nat, enable: bool, i: nat)
    requires WellFormed(g) && Shaped(g, w) && s < |g| && i <= |g[s].deps| && w.lost
    ensures PushEnables(g, io, w, s, enable, i).0.lost
    decreases g[s].rank, 1, |g[s].deps| - i
  {
    if i < |g[s].deps| {
      LostStaysInEnable(g, io, w, g[s].deps[i], s, enable);
      var r := Enable(g, io, w, g[s].deps[i], s, enable);
      if r.ok { LostStaysInPush(g, io, r.world, s, enable, i + 1); }
    }
  }

  lemma {:induction false} LostStaysInBase(g: Graph, io: Platform, w: World, s: nat, h: nat, enable: bool)
    requires WellFormed(g) && Shaped(g, w) && s < |g| && h < MAX_DEVICES && w.lost
    ensures BaseEnable(g, io, w, s, h, enable).world.lost
    decreases g[s].rank, 2, 0
  {
    var d := if enable then Outcome(w, true) else SetDelay(g, io, w, s, h, 0, INT64_MAX);
    if d.ok {
      var w1 := if enable then WithReset(WithBit(d.world, s, h, enable), s) else WithBit(d.world, s, h, enable);
      LostStaysInPush(g, io, w1, s, enable, 0);
      var (w2, done) := PushEnables(g, io, w1, s, enable, 0);
      LostStays(g, io, w2, s, enable, done);
    }
  }

  lemma {:induction false} LostStaysInEnable(g: Graph, io: Platform, w: World, s: nat, h: nat, enable: bool)
    requires WellFormed(g) && Shaped(g, w) && s < |g| && h < MAX_DEVICES && w.lost
    ensures Enable(g, io, w, s, h, enable).world.lost
    decreases g[s].rank, 3, 0
  {
    LostStaysInBase(g, io, w, s, h, enable);
    var r := BaseEnable(g, io, w, s, h, enable);
    if r.ok {
      LostStaysInBase(g, io, r.world.(writes := r.world.writes + 1), s, h, !enable);
    }
  }

  // ---------------------------------------------------------------- a failed client call

  /** The bound lies above the whole graph. */
  ghost predicate Covers(g: Graph, top: nat) {
    forall x {:trigger g[x]} :: 0 <= x < |g| ==> g[x].rank < top
  }

  /** A client call that fails, all undo calls having succeeded, leaves every mask and every device
      as it was exactly when it was not the disabling of a hardware sensor that was already off.
      In that one case the "undo" switches the sensor's mask and its dependencies on. */
  lemma {:induction false} FailedActivateUndoesItself(g: Graph, io: Platform, w: World, top: nat, s: nat, enable: bool)
    requires WellFormed(g) && s < |g| && Covers(g, top) && Consistent(g, w, top)
    requires var r := Enable(g, io, w, s, s, enable); !r.ok && !r.world.lost
    ensures Undone(w, Enable(g, io, w, s, s, enable).world) <==> !IdleDisable(g, w, s, s, enable)
  {
    NoLoop(g, top, s);
    if IdleDisable(g, w, s, s, enable) {
      assert BaseEnable(g, io, w, s, s, enable) == Outcome(w, true);
      var w1 := w.(writes := w.writes + 1);
      LowerBound(g, w1, top, g[s].rank + 1);
      NoLoop(g, g[s].rank + 1, s);
      BaseEnableEffect(g, io, w1, s, s, true);
      assert s in BaseEnable(g, io, w1, s, s, true).world.masks[s];
    } else {
      EnableSeenFrom(g, io, w, top, s, s, enable);
    }
  }

  lemma NoLoop(g: Graph, bound: nat, s: nat)
    requires WellFormed(g) && s < |g|
    ensures !Edge(g, bound, s, s)
  {
    if Edge(g, bound, s, s) { EdgeRank(g, bound, s, s); }
  }

  /** The exception is real: one hardware sensor, off, and one refused write. */
  lemma FailedIdleDisableSwitchesOn(fifo: nat)
    ensures var g := [Config(EventHardware, [], 0, fifo, 0, 0, [])];
            var io := Platform((n: nat) => n != 0, (n: nat) => n, (v: int) => if v < 0 then 0 else v);
            var r := Enable(g, io, Initial(1), 0, 0, false);
            !r.ok && !r.world.lost && r.world.masks == [{0}] && r.world.power == [false]
  {
    var g := [Config(EventHardware, [], 0, fifo, 0, 0, [])];
    var io := Platform((n: nat) => n != 0, (n: nat) => n, (v: int) => if v < 0 then 0 else v);
    var w := Initial(1);
    assert BaseEnable(g, io, w, 0, 0, false) == Outcome(w, true);
    var w1 := w.(writes := 1);
    var w2 := WithReset(WithBit(w1, 0, 0, true), 0);
    assert PushEnables(g, io, w2, 0, true, 0) == (w2, 0);
    assert BaseEnable(g, io, w1, 0, 0, true) == Outcome(w2, true);
    assert w2.masks[0] == {0};
    assert w2.masks == [{0}];
  }

  // ---------------------------------------------------------------- runs of client calls

  ghost predicate CallsFit(g: Graph, calls: seq<Call>) {
    forall c :: c in calls ==> c.sensor < |g|
  }

  /** The set of sensors whose last successful activation was an enable. */
  function NextWanted(wanted: set<nat>, c: Call, ok: bool): set<nat> {
    if !ok || !c.Activate? then wanted
    else if c.enable then wanted + {c.sensor} else wanted - {c.sensor}
  }

  function Run(g: Graph, io: Platform, w: World, wanted: set<nat>, calls: seq<Call>): (r: (World, set<nat>))
    requires WellFormed(g) && Shaped(g, w) && CallsFit(g, calls)
    ensures Shaped(g, r.0)
    decreases |calls|
  {
    if calls == [] then (w, wanted)
    else
      var r := Perform(g, io, w, calls[0]);
      Run(g, io, r.world, NextWanted(wanted, calls[0], r.ok), calls[1..])
  }

  /** No call of the run disables an idle hardware sensor whose device then refuses the write. */
  ghost predicate NoRefusedIdleDisable(g: Graph, io: Platform, w: World, calls: seq<Call>)
    requires WellFormed(g) && Shaped(g, w) && CallsFit(g, calls)
    decreases |calls|
  {
    calls == [] ||
    (var c := calls[0];
     && (c.Activate? && IdleDisable(g, w, c.sensor, c.sensor, c.enable) ==> io.accepts(w.writes))
     && NoRefusedIdleDisable(g, io, Perform(g, io, w, c).world, calls[1..]))
  }

  ghost predicate RunInvariant(g: Graph, w: World, wanted: set<nat>, top: nat) {
    && Consistent(g, w, top)
    && (forall s :: s in wanted ==> s < |g|)
    && (forall x: nat, y: nat {:trigger x in w.masks[y]} :: y < |g| && x in w.masks[y] ==> x == y || Edge(g, top, x, y))
    && (forall s: nat {:trigger s in wanted} :: s < |g| ==> (s in wanted <==> s in w.masks[s]))
  }

  lemma {:induction false} PerformKeeps(g: Graph, io: Platform, w: World, wanted: set<nat>, top: nat, c: Call)
    requires WellFormed(g) && Covers(g, top) && RunInvariant(g, w, wanted, top) && c.sensor < |g|
    requires c.Activate? && IdleDisable(g, w, c.sensor, c.sensor, c.enable) ==> io.accepts(w.writes)
    requires !Perform(g, io, w, c).world.lost
    ensures var r := Perform(g, io, w, c); RunInvariant(g, r.world, NextWanted(wanted, c, r.ok), top)
  {
    if c.Activate? {
      var s := c.sensor;
      NoLoop(g, top, s);
      var r := Enable(g, io, w, s, s, c.enable);
      if IdleDisable(g, w, s, s, c.enable) {
        assert BaseEnable(g, io, w, s, s, c.enable) == Outcome(w, true);
        assert r == Concluded(g, io, w, s, s, c.enable, Switches(w.masks[s], s, c.enable));
        assert r.world.masks == w.masks && r.world.power == w.power;
      } else {
        EnableSeenFrom(g, io, w, top, s, s, c.enable);
        if r.ok {
          forall x: nat | x < |g| ensures x in NextWanted(wanted, c, true) <==> x in r.world.masks[x] {
            NoLoop(g, top, x);
          }
        }
      }
    }
  }

  lemma {:induction false} RunKeeps(g: Graph, io: Platform, w: World, wanted: set<nat>, top: nat, calls: seq<Call>)
    requires WellFormed(g) && Covers(g, top) && RunInvariant(g, w, wanted, top) && CallsFit(g, calls)
    requires NoRefusedIdleDisable(g, io, w, calls) && !Run(g, io, w, wanted, calls).0.lost
    ensures var (w', wanted') := Run(g, io, w, wanted, calls); RunInvariant(g, w', wanted', top)
    decreases |calls|
  {
    if calls != [] {
      var r := Perform(g, io, w, calls[0]);
      if r.world.lost { LostStaysInRun(g, io, r.world, NextWanted(wanted, calls[0], r.ok), calls[1..]); }
      PerformKeeps(g, io, w, wanted, top, calls[0]);
      RunKeeps(g, io, r.world, NextWanted(wanted, calls[0], r.ok), top, calls[1..]);
    }
  }

  lemma {:induction false} LostStaysInRun(g: Graph, io: Platform, w: World, wanted: set<nat>, calls: seq<Call>)
    requires WellFormed(g) && Shaped(g, w) && CallsFit(g, calls) && w.lost
    ensures Run(g, io, w, wanted, calls).0.lost
    decreases |calls|
  {
    if calls != [] {
      var c := calls[0];
      if c.Activate? { LostStaysInEnable(g, io, w, c.sensor, c.sensor, c.enable); }
      var r := Perform(g, io, w, c);
      LostStaysInRun(g, io, r.world, NextWanted(wanted, c, r.ok), calls[1..]);
    }
  }

  // ---------------------------------------------------------------- the power theorem

  /** s reaches d along dependencies, itself included. */
  predicate Reaches(g: Graph, s: nat, d: nat)
    requires WellFormed(g) && s < |g|
    decreases g[s].rank
  {
    s == d || exists i :: 0 <= i < |g[s].deps| && Reaches(g, g[s].deps[i], d)
  }

  lemma {:induction false} ReachesFurther(g: Graph, s: nat, x: nat, y: nat)
    requires WellFormed(g) && s < |g| && x < |g| && Reaches(g, s, x) && y in g[x].deps
    ensures Reaches(g, s, y)
    decreases g[s].rank
  {
    if s == x {
      var i :| 0 <= i < |g[x].deps| && g[x].deps[i] == y;
      assert Reaches(g, g[s].deps[i], y);
    } else {
      var i :| 0 <= i < |g[s].deps| && Reaches(g, g[s].deps[i], x);
      ReachesFurther(g, g[s].deps[i], x, y);
    }
  }

  lemma {:induction false} UsedBelow(g: Graph, w: World, top: nat, s: nat, d: nat)
    requires WellFormed(g) && Covers(g, top) && Consistent(g, w, top) && s < |g| && Reaches(g, s, d) && w.masks[s] != {}
    ensures d < |g| && w.masks[d] != {}
    decreases g[s].rank
  {
    if s != d {
      var i :| 0 <= i < |g[s].deps| && Reaches(g, g[s].deps[i], d);
      assert Edge(g, top, s, g[s].deps[i]);
      UsedBelow(g, w, top, g[s].deps[i], d);
    }
  }

  lemma {:induction false} UsedBySomeone(g: Graph, w: World, wanted: set<nat>, top: nat, d: nat) returns (s: nat)
    requires WellFormed(g) && Covers(g, top) && RunInvariant(g, w, wanted, top) && d < |g| && w.masks[d] != {}
    ensures s in wanted && s < |g| && Reaches(g, s, d)
    decreases top - g[d].rank
  {
    var x :| x in w.masks[d];
    if x == d {
      s := d;
    } else {
      EdgeRank(g, top, x, d);
      s := UsedBySomeone(g, w, wanted, top, x);
      ReachesFurther(g, s, x, d);
    }
  }

  /** After any run of client calls from the initial state, failed calls included, in which no undo call failed
      and no device refused the disabling of an idle hardware sensor: a sensor's mask is non-empty exactly when
      some sensor the client has enabled reaches it, and a device is on exactly when its sensor's mask is non-empty. */
  lemma {:induction false} PowerFollowsClients(g: Graph, io: Platform, top: nat, calls: seq<Call>, d: nat)
    requires WellFormed(g) && Covers(g, top) && CallsFit(g, calls) && d < |g|
    requires NoRefusedIdleDisable(g, io, Initial(|g|), calls)
    requires !Run(g, io, Initial(|g|), {}, calls).0.lost
    ensures var (w, wanted) := Run(g, io, Initial(|g|), {}, calls);
            && (w.masks[d] != {} <==> exists s :: s in wanted && s < |g| && Reaches(g, s, d))
            && (w.power[d] <==> g[d].Hardware() && exists s :: s in wanted && s < |g| && Reaches(g, s, d))
  {
    RunKeeps(g, io, Initial(|g|), {}, top, calls);
    var (w, wanted) := Run(g, io, Initial(|g|), {}, calls);
    if w.masks[d] != {} {
      var s := UsedBySomeone(g, w, wanted, top, d);
    }
    forall s | s in wanted && s < |g| && Reaches(g, s, d) ensures w.masks[d] != {} {
      UsedBelow(g, w, top, s, d);
    }
  }
}
