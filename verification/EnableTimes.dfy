/** The times that Enable stamps: when a sensor came into use and went out of it, and when its own client
    enabled and disabled it.  By these times the data threads decide which samples reach the client. */
module EnableTimes {
  import opened RateControl
  import opened SensorGraph
  import opened PowerTheorem
  import opened Decimation

  /** Every time stamped so far is earlier than the next reading of the clock. */
  ghost predicate Past(io: Platform, w: World) {
    forall x {:trigger w.marks[x]} :: 0 <= x < |w.marks| ==>
      var m := w.marks[x]; var now := io.clock(w.ticks);
      m.globalEnable < now && m.globalDisable < now && m.myEnable < now && m.myDisable < now
  }

  /** Below the bound, a sensor came into use later than it last went out of it exactly when it is in use. */
  ghost predicate UseTimed(g: Graph, w: World, bound: nat) {
    && Shaped(g, w)
    && forall x {:trigger w.marks[x]} {:trigger w.masks[x]} :: 0 <= x < |g| && g[x].rank < bound ==>
         (w.marks[x].globalEnable > w.marks[x].globalDisable <==> w.masks[x] != {})
  }

  /** The times of the clients' own calls are as before, except perhaps at sensor `e`. */
  ghost predicate OwnTimesKept(w: World, w': World, e: nat) {
    && |w.marks| == |w'.marks|
    && forall x {:trigger w'.marks[x]} :: 0 <= x < |w.marks| && x != e ==>
         w'.marks[x].myEnable == w.marks[x].myEnable && w'.marks[x].myDisable == w.marks[x].myDisable
  }

  predicate SameTimes(m: Marks, m': Marks) {
    m'.globalEnable == m.globalEnable && m'.globalDisable == m.globalDisable && m'.myEnable == m.myEnable && m'.myDisable == m.myDisable
  }

  // ---------------------------------------------------------------- one call

  /** What a call does to the marks of s before anything is stamped: the flush stack is reset when s comes into
      use, and that is all. */
  lemma BaseKeepsTimes(g: Graph, io: Platform, w: World, s: nat, h: nat, enable: bool)
    requires WellFormed(g) && Shaped(g, w) && s < |g| && h < MAX_DEVICES
    ensures var m, m' := w.marks[s], BaseEnable(g, io, w, s, h, enable).world.marks[s];
            SameTimes(m, m') && m'.stackResets == m.stackResets + if enable && w.masks[s] == {} then 1 else 0
  {
    hide SetDelay, SwitchOver;
  }

  /** An accepted call stamps readings of the clock made during the call: coming into use or going out of it when
      the call brought that about, the client's own enabling or disabling when the client itself called.  All
      other times of the sensor stay, and its flush stack is reset exactly when it came into use. */
  lemma AcceptedCallStamps(g: Graph, io: Platform, w: World, s: nat, h: nat, enable: bool)
    requires WellFormed(g) && Shaped(g, w) && s < |g| && h < MAX_DEVICES && Enable(g, io, w, s, h, enable).ok
    ensures var w' := Enable(g, io, w, s, h, enable).world; var m, m' := w.marks[s], w'.marks[s];
            && (if enable && w.masks[s] == {} then exists n: nat :: w.ticks <= n < w'.ticks && m'.globalEnable == io.clock(n)
                else m'.globalEnable == m.globalEnable)
            && (if !enable && w.masks[s] - {h} == {} then exists n: nat :: w.ticks <= n < w'.ticks && m'.globalDisable == io.clock(n)
                else m'.globalDisable == m.globalDisable)
            && (if enable && h == s then exists n: nat :: w.ticks <= n < w'.ticks && m'.myEnable == io.clock(n)
                else m'.myEnable == m.myEnable)
            && (if !enable && h == s then exists n: nat :: w.ticks <= n < w'.ticks && m'.myDisable == io.clock(n)
                else m'.myDisable == m.myDisable)
            && m'.stackResets == m.stackResets + if enable && w.masks[s] == {} then 1 else 0
  {
    hide BaseEnable;
    BaseKeepsTimes(g, io, w, s, h, enable);
    var r := BaseEnable(g, io, w, s, h, enable);
    var n: nat := r.world.ticks;
    var switched := Switches(w.masks[s], h, enable);
    var later: nat := if switched then n + 1 else n;
    assert w.ticks <= n;
    hide ChangedBelow;
  }

  // ---------------------------------------------------------------- at any depth

  lemma {:induction false} EnableKeepsTimed(g: Graph, io: Platform, w: World, s: nat, h: nat, enable: bool)
    requires Rising(io) && WellFormed(g) && s < |g| && h < MAX_DEVICES && Consistent(g, w, g[s].rank + 1)
    requires !Edge(g, g[s].rank + 1, h, s)
    requires h == s || (h in w.masks[s]) == !enable
    requires !IdleDisable(g, w, s, h, enable)
    requires UseTimed(g, w, g[s].rank + 1) && Past(io, w)
    ensures var r := Enable(g, io, w, s, h, enable);
            r.world.lost || (UseTimed(g, r.world, g[s].rank + 1) && Past(io, r.world)
                             && OwnTimesKept(w, r.world, if h == s && r.ok then s else |g|))
    decreases g[s].rank, 3, 0
  {
    if (h in w.masks[s]) == enable {
      AlreadyTimed(g, io, w, s, enable);
      return;
    }
    EnableEffect(g, io, w, s, h, enable);
    BaseKeepsTimed(g, io, w, s, h, enable);
    BaseEnableEffect(g, io, w, s, h, enable);
    var b := BaseEnable(g, io, w, s, h, enable);
    if b.ok { OwnMaskSwitched(g, io, w, s, h, enable); }
    hide BaseEnable, UseTimed, Past, OwnTimesKept, Consistent, EdgesAgree, PowerAgrees, Rising, ChangedBelow, Concluded;
    if !b.ok {
      if !b.world.lost { SameUse(g, w, b.world, s); }
    } else if g[s].Hardware() && Switches(w.masks[s], h, enable) && !io.accepts(b.world.writes) {
      RefusedTimed(g, io, w, b.world, s, h, enable);
    } else {
      ConcludedTimed(g, io, w, b.world, s, h, enable);
      OwnTimesChain(w, b.world, Enable(g, io, w, s, h, enable).world, if h == s then s else |g|);
    }
  }

  /** The device refuses: the call is undone and nothing is stamped at s. */
  lemma {:induction false} RefusedTimed(g: Graph, io: Platform, w: World, b: World, s: nat, h: nat, enable: bool)
    requires Rising(io) && WellFormed(g) && s < |g| && h < MAX_DEVICES && Shaped(g, b) && !b.lost
    requires EdgesAgree(g, b.masks, g[s].rank + 1) && PowerAgrees(g, b, g[s].rank)
    requires !Edge(g, g[s].rank + 1, h, s) && (h in b.masks[s]) == enable
    requires UseTimed(g, w, g[s].rank + 1) && ChangedBelow(g, w, b, s) && SameTimes(w.marks[s], b.marks[s])
    requires UseTimed(g, b, g[s].rank) && Past(io, b) && OwnTimesKept(w, b, |g|)
    requires g[s].Hardware() && !io.accepts(b.writes)
    requires var r := Concluded(g, io, b, s, h, enable, true); r.world.lost || r.world.masks == w.masks
    ensures var r := Concluded(g, io, b, s, h, enable, true);
            !r.ok && (r.world.lost || (UseTimed(g, r.world, g[s].rank + 1) && Past(io, r.world) && OwnTimesKept(w, r.world, |g|)))
    decreases g[s].rank, 2, 1
  {
    var w2 := b.(writes := b.writes + 1);
    TimedAfterWrite(g, io, b, g[s].rank);
    BaseKeepsTimed(g, io, w2, s, h, !enable);
    var undo := BaseEnable(g, io, w2, s, h, !enable);
    hide BaseEnable, EdgesAgree, PowerAgrees, Rising;
    if !NoteUndo(undo).lost {
      TimedUndo(g, io, w2, undo, g[s].rank);
      OwnTimesChain(w, b, NoteUndo(undo), |g|);
      SameUse(g, w, NoteUndo(undo), s);
    }
  }

  lemma AlreadyTimed(g: Graph, io: Platform, w: World, s: nat, enable: bool)
    requires Rising(io) && WellFormed(g) && s < |g| && Shaped(g, w) && (s in w.masks[s]) == enable
    requires IdleDisable(g, w, s, s, enable) ==> io.accepts(w.writes)
    requires UseTimed(g, w, g[s].rank + 1) && Past(io, w)
    ensures var r := Enable(g, io, w, s, s, enable);
            && r.ok && r.world.masks == w.masks && r.world.lost == w.lost
            && UseTimed(g, r.world, g[s].rank + 1) && Past(io, r.world) && OwnTimesKept(w, r.world, s)
  {
    hide Rising, Past, StampedMarks;
    assert BaseEnable(g, io, w, s, s, enable) == Outcome(w, true);
    ConcludedTimed(g, io, w, w, s, s, enable);
  }

  lemma OwnMaskSwitched(g: Graph, io: Platform, w: World, s: nat, h: nat, enable: bool)
    requires WellFormed(g) && Shaped(g, w) && s < |g| && h < MAX_DEVICES
    requires (h in w.masks[s]) == !enable && BaseEnable(g, io, w, s, h, enable).ok
    ensures BaseEnable(g, io, w, s, h, enable).world.masks[s] == if enable then w.masks[s] + {h} else w.masks[s] - {h}
  {
    hide SetDelay, PushEnables, RestoreEnables;
    if Switches(w.masks[s], h, enable) { SwitchesThrough(g, io, w, s, h, enable); }
  }

  lemma OwnTimesChain(w: World, w1: World, w2: World, e: nat)
    requires OwnTimesKept(w, w1, |w1.marks|) && OwnTimesKept(w1, w2, e)
    ensures OwnTimesKept(w, w2, e)
  {
    forall x {:trigger w2.marks[x]} | 0 <= x < |w.marks| && x != e
      ensures w2.marks[x].myEnable == w.marks[x].myEnable && w2.marks[x].myDisable == w.marks[x].myDisable
    {
      assert w1.marks[x].myEnable == w.marks[x].myEnable;
    }
  }

  /** A device write changes nothing that is timed. */
  lemma TimedAfterWrite(g: Graph, io: Platform, w: World, bound: nat)
    requires UseTimed(g, w, bound) && Past(io, w)
    ensures var w2 := w.(writes := w.writes + 1); UseTimed(g, w2, bound) && Past(io, w2)
  {
  }

  /** Masks as before and times of s as before, and all that is ranked below s still timed. */
  lemma SameUse(g: Graph, w: World, w': World, s: nat)
    requires s < |g| && UseTimed(g, w, g[s].rank + 1) && UseTimed(g, w', g[s].rank) && ChangedBelow(g, w, w', s)
    requires w'.masks[s] == w.masks[s] && SameTimes(w.marks[s], w'.marks[s])
    ensures UseTimed(g, w', g[s].rank + 1)
  {
  }

  /** The stamps that conclude an accepted call. */
  lemma ConcludedTimed(g: Graph, io: Platform, w: World, b: World, s: nat, h: nat, enable: bool)
    requires Rising(io) && WellFormed(g) && s < |g| && h < MAX_DEVICES && Shaped(g, b) && Past(io, b)
    requires UseTimed(g, w, g[s].rank + 1) && UseTimed(g, b, g[s].rank) && ChangedBelow(g, w, b, s) && SameTimes(w.marks[s], b.marks[s])
    requires b.masks[s] == if enable then w.masks[s] + {h} else w.masks[s] - {h}
    requires (h in w.masks[s]) == enable ==> b == w
    requires var switched := Switches(w.masks[s], h, enable); g[s].Hardware() && switched ==> io.accepts(b.writes)
    ensures var r := Concluded(g, io, b, s, h, enable, Switches(w.masks[s], h, enable));
            UseTimed(g, r.world, g[s].rank + 1) && Past(io, r.world) && OwnTimesKept(b, r.world, if h == s then s else |g|)
  {
    var switched := Switches(w.masks[s], h, enable);
    var r := Concluded(g, io, b, s, h, enable, switched);
    StampedOnly(g, io, b, s, h, enable, switched);
    MarksLater(io, b, r.world, s);
    SwitchIsTimed(io, w.masks[s], b.marks[s], b.ticks, s, h, enable);
    hide Concluded, StampedMarks, Rising, Past;
    forall x | 0 <= x < |g| && g[x].rank < g[s].rank + 1
      ensures r.world.marks[x].globalEnable > r.world.marks[x].globalDisable <==> r.world.masks[x] != {}
    {
      if x != s && g[x].rank == g[s].rank { assert b.marks[x] == w.marks[x]; }
    }
  }

  lemma StampedOnly(g: Graph, io: Platform, b: World, s: nat, h: nat, enable: bool, switched: bool)
    requires Rising(io) && WellFormed(g) && Shaped(g, b) && Past(io, b) && s < |g| && h < MAX_DEVICES
    requires g[s].Hardware() && switched ==> io.accepts(b.writes)
    ensures var w' := Concluded(g, io, b, s, h, enable, switched).world; var (m, ticks) := StampedMarks(io, b.marks[s], b.ticks, h == s, enable, switched);
            && w'.masks == b.masks && w'.marks == b.marks[s := m] && w'.ticks == ticks >= b.ticks
            && m.globalEnable < io.clock(ticks) && m.globalDisable < io.clock(ticks)
            && m.myEnable < io.clock(ticks) && m.myDisable < io.clock(ticks)
            && (h != s ==> m.myEnable == b.marks[s].myEnable && m.myDisable == b.marks[s].myDisable)
  {
    var n: nat := b.ticks;
    assert io.clock(n) < io.clock(n + 1) < io.clock(n + 2);
  }

  lemma MarksLater(io: Platform, b: World, w': World, s: nat)
    requires Rising(io) && Past(io, b) && s < |b.marks| == |w'.marks| && w'.ticks >= b.ticks && w'.marks == b.marks[s := w'.marks[s]]
    requires var m, now := w'.marks[s], io.clock(w'.ticks);
             m.globalEnable < now && m.globalDisable < now && m.myEnable < now && m.myDisable < now
    ensures Past(io, w')
  {
    assert io.clock(b.ticks) <= io.clock(w'.ticks);
  }

  /** Whatever the mask was, after the stamps the later of the two times of use says whether it is empty. */
  lemma SwitchIsTimed(io: Platform, mask: set<nat>, m: Marks, n: nat, s: nat, h: nat, enable: bool)
    requires m.globalEnable < io.clock(n) && m.globalDisable < io.clock(n)
    requires m.globalEnable > m.globalDisable <==> mask != {}
    ensures var m' := StampedMarks(io, m, n, h == s, enable, Switches(mask, h, enable)).0;
            m'.globalEnable > m'.globalDisable <==> (if enable then mask + {h} else mask - {h}) != {}
  {
  }

  lemma {:induction false} BaseKeepsTimed(g: Graph, io: Platform, w: World, s: nat, h: nat, enable: bool)
    requires Rising(io) && WellFormed(g) && Shaped(g, w) && s < |g| && h < MAX_DEVICES && !w.lost
    requires EdgesAgree(g, w.masks, g[s].rank + 1) && PowerAgrees(g, w, g[s].rank)
    requires !Edge(g, g[s].rank + 1, h, s) && (h in w.masks[s]) == !enable
    requires UseTimed(g, w, g[s].rank) && Past(io, w)
    ensures var r := BaseEnable(g, io, w, s, h, enable);
            r.world.lost || (UseTimed(g, r.world, g[s].rank) && Past(io, r.world) && OwnTimesKept(w, r.world, |g|)
                             && SameTimes(w.marks[s], r.world.marks[s]))
    decreases g[s].rank, 2, 0
  {
    var d := if enable then Outcome(w, true) else SetDelay(g, io, w, s, h, 0, INT64_MAX);
    BaseKeepsTimes(g, io, w, s, h, enable);
    CarriedTimed(g, io, w, d.world, s);
    if !d.ok { return; }
    OwnBitChanged(g, w, WithBit(d.world, s, h, enable), s, h, enable);
    CarriedTimed(g, io, w, WithBit(d.world, s, h, enable), s);
    if !Switches(w.masks[s], h, enable) { return; }
    var w1 := BeforeSwitchOver(g, io, w, s, h, enable);
    forall i | 0 <= i < |g[s].deps| ensures (s in w1.masks[g[s].deps[i]]) == !enable {
      assert Edge(g, g[s].rank + 1, s, g[s].deps[i]);
    }
    CarriedTimed(g, io, w, w1, s);
    SwitchTimed(g, io, w, w1, s, h, enable);
  }

  lemma {:induction false} SwitchTimed(g: Graph, io: Platform, w: World, w1: World, s: nat, h: nat, enable: bool)
    requires Rising(io) && WellFormed(g) && Shaped(g, w) && s < |g| && h < MAX_DEVICES
    requires (h in w.masks[s]) == !enable && Switches(w.masks[s], h, enable)
    requires enable || SetDelay(g, io, w, s, h, 0, INT64_MAX).ok
    requires w1 == BeforeSwitchOver(g, io, w, s, h, enable) && Consistent(g, w1, g[s].rank)
    requires UseTimed(g, w1, g[s].rank) && Past(io, w1) && OwnTimesKept(w, w1, |g|)
    requires forall j :: 0 <= j < |g[s].deps| ==> (s in w1.masks[g[s].deps[j]]) == !enable
    ensures var r := BaseEnable(g, io, w, s, h, enable);
            r.world.lost || (UseTimed(g, r.world, g[s].rank) && Past(io, r.world) && OwnTimesKept(w, r.world, |g|))
    decreases g[s].rank, 1, |g[s].deps| + 2
  {
    SwitchesThrough(g, io, w, s, h, enable);
    SwitchOverTimed(g, io, w1, s, enable);
    hide BaseEnable, BeforeSwitchOver, PushEnables, RestoreEnables, UseTimed, Past, OwnTimesKept, EdgesAgree, PowerAgrees, Rising;
    var b := BaseEnable(g, io, w, s, h, enable);
    var (w2, done) := PushEnables(g, io, w1, s, enable, 0);
    var w3 := RestoreEnables(g, io, w2, s, enable, done);
    if b.ok {
      if !w2.lost { OwnTimesChain(w, w1, w2, |g|); }
    } else if !w3.lost {
      if w2.lost { LostStays(g, io, w2, s, enable, done); }
      OwnTimesChain(w, w1, w3, |g|);
      CarriedTimed(g, io, w3, b.world, s);
      OwnTimesChain(w, w3, b.world, |g|);
    }
  }

  /** Nothing timed has changed, but for the mask and the flush stack of s. */
  lemma CarriedTimed(g: Graph, io: Platform, w: World, w': World, s: nat)
    requires Rising(io) && s < |g| && Shaped(g, w') && UseTimed(g, w, g[s].rank) && Past(io, w) && w'.ticks >= w.ticks
    requires w'.masks == w.masks[s := w'.masks[s]] && w'.marks == w.marks[s := w'.marks[s]] && SameTimes(w.marks[s], w'.marks[s])
    ensures UseTimed(g, w', g[s].rank) && Past(io, w') && OwnTimesKept(w, w', |g|)
  {
    assert io.clock(w.ticks) <= io.clock(w'.ticks);
  }

  lemma {:induction false} SwitchOverTimed(g: Graph, io: Platform, w: World, s: nat, enable: bool)
    requires Rising(io) && WellFormed(g) && s < |g| && Consistent(g, w, g[s].rank) && UseTimed(g, w, g[s].rank) && Past(io, w)
    requires forall j :: 0 <= j < |g[s].deps| ==> (s in w.masks[g[s].deps[j]]) == !enable
    ensures var (w2, done) := PushEnables(g, io, w, s, enable, 0);
            w2.lost || (UseTimed(g, w2, g[s].rank) && Past(io, w2) && OwnTimesKept(w, w2, |g|)
                        && var w3 := RestoreEnables(g, io, w2, s, enable, done);
                           w3.lost || (UseTimed(g, w3, g[s].rank) && Past(io, w3) && OwnTimesKept(w, w3, |g|)))
    decreases g[s].rank, 1, |g[s].deps| + 1
  {
    PushTimed(g, io, w, s, enable, 0);
    PushEffect(g, io, w, s, enable, 0);
    hide PushEnables, RestoreEnables, UseTimed, Past, OwnTimesKept, Rising, EdgesAgree, PowerAgrees;
    var (w2, done) := PushEnables(g, io, w, s, enable, 0);
    if !w2.lost {
      forall j | 0 <= j < done ensures (s in w2.masks[g[s].deps[j]]) == enable {
        assert g[s].deps[j] in g[s].deps[0..done];
        assert !Edge(g, g[s].rank, s, g[s].deps[j]);
      }
      RestoreTimed(g, io, w2, s, enable, done);
      if !RestoreEnables(g, io, w2, s, enable, done).lost {
        OwnTimesChain(w, w2, RestoreEnables(g, io, w2, s, enable, done), |g|);
      }
    }
  }

  lemma {:induction false} PushTimed(g: Graph, io: Platform, w: World, s: nat, enable: bool, i: nat)
    requires Rising(io) && WellFormed(g) && s < |g| && i <= |g[s].deps|
    requires Consistent(g, w, g[s].rank) && UseTimed(g, w, g[s].rank) && Past(io, w)
    requires forall j :: i <= j < |g[s].deps| ==> (s in w.masks[g[s].deps[j]]) == !enable
    ensures var w' := PushEnables(g, io, w, s, enable, i).0;
            w'.lost || (UseTimed(g, w', g[s].rank) && Past(io, w') && OwnTimesKept(w, w', |g|))
    decreases g[s].rank, 1, |g[s].deps| - i
  {
    hide Enable;
    if i == |g[s].deps| { return; }
    var d := g[s].deps[i];
    EdgeRank(g, g[s].rank + 1, s, d);
    TimedSeenFrom(g, io, w, g[s].rank, d, s, enable);
    EnableSeenFrom(g, io, w, g[s].rank, d, s, enable);
    var r := Enable(g, io, w, d, s, enable);
    if r.ok {
      OtherDependencies(g, w.masks, r.world.masks, s, i, i + 1, |g[s].deps|, !enable, enable);
      PushTimed(g, io, r.world, s, enable, i + 1);
    }
  }

  lemma {:induction false} RestoreTimed(g: Graph, io: Platform, w: World, s: nat, enable: bool, i: nat)
    requires Rising(io) && WellFormed(g) && s < |g| && i <= |g[s].deps|
    requires Consistent(g, w, g[s].rank) && UseTimed(g, w, g[s].rank) && Past(io, w)
    requires forall j :: 0 <= j < i ==> (s in w.masks[g[s].deps[j]]) == enable
    ensures var w' := RestoreEnables(g, io, w, s, enable, i);
            w'.lost || (UseTimed(g, w', g[s].rank) && Past(io, w') && OwnTimesKept(w, w', |g|))
    decreases g[s].rank, 1, i
  {
    hide Enable, UseTimed, Past, OwnTimesKept, Rising, Consistent;
    if i == 0 {
      OwnTimesSame(w);
      return;
    }
    RestoreStep(g, io, w, s, enable, i);
    RestoreStepTimed(g, io, w, s, enable, i);
    var w1 := NoteUndo(Enable(g, io, w, g[s].deps[i - 1], s, !enable));
    if w1.lost {
      LostStays(g, io, w1, s, enable, i - 1);
    } else {
      RestoreTimed(g, io, w1, s, enable, i - 1);
      if !RestoreEnables(g, io, w1, s, enable, i - 1).lost {
        OwnTimesChain(w, w1, RestoreEnables(g, io, w1, s, enable, i - 1), |g|);
      }
    }
  }

  lemma OwnTimesSame(w: World)
    ensures OwnTimesKept(w, w, |w.marks|)
  {
  }

  lemma {:induction false} RestoreStepTimed(g: Graph, io: Platform, w: World, s: nat, enable: bool, i: nat)
    requires Rising(io) && WellFormed(g) && s < |g| && 0 < i <= |g[s].deps|
    requires Consistent(g, w, g[s].rank) && UseTimed(g, w, g[s].rank) && Past(io, w)
    requires forall j :: 0 <= j < i ==> (s in w.masks[g[s].deps[j]]) == enable
    ensures var w1 := NoteUndo(Enable(g, io, w, g[s].deps[i - 1], s, !enable));
            w1.lost || (UseTimed(g, w1, g[s].rank) && Past(io, w1) && OwnTimesKept(w, w1, |g|))
    decreases g[s].rank, 0, 0
  {
    hide Enable, UseTimed, Past, OwnTimesKept, Rising;
    var d := g[s].deps[i - 1];
    EdgeRank(g, g[s].rank + 1, s, d);
    TimedSeenFrom(g, io, w, g[s].rank, d, s, !enable);
    var undo := Enable(g, io, w, d, s, !enable);
    if !NoteUndo(undo).lost { TimedUndo(g, io, w, undo, g[s].rank); }
  }

  lemma TimedUndo(g: Graph, io: Platform, w: World, undo: Outcome, bound: nat)
    requires UseTimed(g, undo.world, bound) && Past(io, undo.world) && OwnTimesKept(w, undo.world, |g|)
    ensures UseTimed(g, NoteUndo(undo), bound) && Past(io, NoteUndo(undo)) && OwnTimesKept(w, NoteUndo(undo), |g|)
  {
  }

  /** The same seen from any bound above d. */
  lemma {:induction false} TimedSeenFrom(g: Graph, io: Platform, w: World, bound: nat, d: nat, h: nat, enable: bool)
    requires Rising(io) && WellFormed(g) && d < |g| && h < MAX_DEVICES && g[d].rank < bound && Consistent(g, w, bound)
    requires !Edge(g, bound, h, d)
    requires h == d || (h in w.masks[d]) == !enable
    requires !IdleDisable(g, w, d, h, enable) && UseTimed(g, w, bound) && Past(io, w)
    ensures var r := Enable(g, io, w, d, h, enable);
            r.world.lost || (UseTimed(g, r.world, bound) && Past(io, r.world)
                             && OwnTimesKept(w, r.world, if h == d && r.ok then d else |g|))
    decreases g[d].rank, 4, 0
  {
    LowerBound(g, w, bound, g[d].rank + 1);
    EnableKeepsTimed(g, io, w, d, h, enable);
    hide Enable;
    var r := Enable(g, io, w, d, h, enable);
    if !r.world.lost {
      forall x | 0 <= x < |g| && g[d].rank < g[x].rank < bound
        ensures r.world.marks[x].globalEnable > r.world.marks[x].globalDisable <==> r.world.masks[x] != {}
      {
        assert r.world.masks[x] == w.masks[x];
      }
    }
  }

  // ---------------------------------------------------------------- runs

  /** What the times say over a whole run: of use, of the clients' own wishes, and that all of them are past. */
  ghost predicate TimesInvariant(g: Graph, io: Platform, w: World, wanted: set<nat>, top: nat) {
    && RunInvariant(g, w, wanted, top) && UseTimed(g, w, top) && Past(io, w)
    && forall x: nat {:trigger x in wanted} {:trigger w.marks[x]} :: x < |g| ==> (x in wanted <==> w.marks[x].myEnable > w.marks[x].myDisable)
  }

  lemma {:induction false} PerformKeepsTimes(g: Graph, io: Platform, w: World, wanted: set<nat>, top: nat, c: Call)
    requires Rising(io) && WellFormed(g) && Covers(g, top) && TimesInvariant(g, io, w, wanted, top) && c.sensor < |g|
    requires c.Activate? && IdleDisable(g, w, c.sensor, c.sensor, c.enable) ==> io.accepts(w.writes)
    requires !Perform(g, io, w, c).world.lost
    ensures var r := Perform(g, io, w, c); TimesInvariant(g, io, r.world, NextWanted(wanted, c, r.ok), top)
  {
    PerformKeeps(g, io, w, wanted, top, c);
    if c.Activate? {
      ActivateKeepsTimes(g, io, w, wanted, top, c.sensor, c.enable);
    } else {
      var w' := Perform(g, io, w, c).world;
      assert w'.marks == w.marks && w'.ticks >= w.ticks;
      assert io.clock(w.ticks) <= io.clock(w'.ticks);
    }
  }

  lemma {:induction false} ActivateKeepsTimes(g: Graph, io: Platform, w: World, wanted: set<nat>, top: nat, s: nat, enable: bool)
    requires Rising(io) && WellFormed(g) && Covers(g, top) && TimesInvariant(g, io, w, wanted, top) && s < |g|
    requires IdleDisable(g, w, s, s, enable) ==> io.accepts(w.writes)
    requires !Enable(g, io, w, s, s, enable).world.lost
    ensures var r := Enable(g, io, w, s, s, enable);
            && UseTimed(g, r.world, top) && Past(io, r.world) && OwnTimesKept(w, r.world, if r.ok then s else |g|)
            && (r.ok ==> (enable <==> r.world.marks[s].myEnable > r.world.marks[s].myDisable))
  {
    NoLoop(g, top, s);
    var r := Enable(g, io, w, s, s, enable);
    if IdleDisable(g, w, s, s, enable) {
      AlreadyTimed(g, io, w, s, enable);
      assert r.world.masks == w.masks;
    } else {
      TimedSeenFrom(g, io, w, top, s, s, enable);
    }
    if r.ok { OwnTimesFollow(g, io, w, s, enable); }
  }

  /** The client's latest accepted call is the later of the two. */
  lemma OwnTimesFollow(g: Graph, io: Platform, w: World, s: nat, enable: bool)
    requires Rising(io) && WellFormed(g) && Shaped(g, w) && s < |g| && Past(io, w) && Enable(g, io, w, s, s, enable).ok
    ensures var m := Enable(g, io, w, s, s, enable).world.marks[s]; enable <==> m.myEnable > m.myDisable
  {
    AcceptedCallStamps(g, io, w, s, s, enable);
    hide Enable;
    var m := Enable(g, io, w, s, s, enable).world.marks[s];
    var n: nat :| w.ticks <= n && (if enable then m.myEnable else m.myDisable) == io.clock(n);
    assert io.clock(w.ticks) <= io.clock(n);
  }

  lemma {:induction false} RunKeepsTimes(g: Graph, io: Platform, w: World, wanted: set<nat>, top: nat, calls: seq<Call>)
    requires Rising(io) && WellFormed(g) && Covers(g, top) && TimesInvariant(g, io, w, wanted, top) && CallsFit(g, calls)
    requires NoRefusedIdleDisable(g, io, w, calls) && !Run(g, io, w, wanted, calls).0.lost
    ensures var (w', wanted') := Run(g, io, w, wanted, calls); TimesInvariant(g, io, w', wanted', top)
    decreases |calls|
  {
    assert Shaped(g, w);
    hide TimesInvariant, Rising, Perform;
    if calls != [] {
      var r := Perform(g, io, w, calls[0]);
      if r.world.lost { LostStaysInRun(g, io, r.world, NextWanted(wanted, calls[0], r.ok), calls[1..]); }
      PerformKeepsTimes(g, io, w, wanted, top, calls[0]);
      RunKeepsTimes(g, io, r.world, NextWanted(wanted, calls[0], r.ok), top, calls[1..]);
    }
  }

  /** After any run of client calls with a clock that goes on from above 1, failed calls included, in which no undo call failed and
      no device refused the disabling of an idle hardware sensor: a sensor's client enabled it later than it disabled
      it exactly when the client's last accepted activation was an enable, and the sensor came into use later than it
      went out of it exactly when it is in use.  So of the samples still to come, those reach the client of exactly
      the enabled sensors, and those of its dependencies are accepted by exactly the sensors in use. */
  lemma {:induction false} TimesFollowClients(g: Graph, io: Platform, top: nat, calls: seq<Call>, d: nat)
    requires Rising(io) && io.clock(0) > 1 && WellFormed(g) && Covers(g, top) && CallsFit(g, calls) && d < |g|
    requires NoRefusedIdleDisable(g, io, Initial(|g|), calls)
    requires !Run(g, io, Initial(|g|), {}, calls).0.lost
    ensures var (w, wanted) := Run(g, io, Initial(|g|), {}, calls); var m := w.marks[d];
            && (m.myEnable > m.myDisable <==> d in wanted)
            && (m.globalEnable > m.globalDisable <==> w.masks[d] != {})
            && forall time :: time >= io.clock(w.ticks) ==>
                 && (ValidDataToPush(Times(m.myEnable, m.myDisable), time) <==> d in wanted)
                 && (ValidDataToPush(Times(m.globalEnable, m.globalDisable), time) <==> w.masks[d] != {})
  {
    assert TimesInvariant(g, io, Initial(|g|), {}, top);
    RunKeepsTimes(g, io, Initial(|g|), {}, top, calls);
  }
}
