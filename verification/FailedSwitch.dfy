/** What a call of Enable that fails does to the rates.  Masks and devices are taken back, rates are not: the
    module says which slots a failed call leaves changed, and that no other client's request is among them. */
module FailedSwitch {
  import opened RateControl
  import opened SensorGraph
  import opened PowerTheorem
  import opened RateTheorem
  import opened ForgottenRates

  // ---------------------------------------------------------------- slots no call touches

  /** The slots not owed to an edge below the bound are as before, except that of h at s. */
  ghost predicate OthersUntouched(g: Graph, w: World, w': World, bound: nat, s: nat, h: nat) {
    && Shaped(g, w) && Shaped(g, w')
    && forall x: nat, y: nat {:trigger w'.rates[y].period[x]} {:trigger w'.rates[y].timeout[x]} ::
         x < MAX_DEVICES && y < |g| && !Edge(g, bound, x, y) && !(x == h && y == s) ==>
         w'.rates[y].period[x] == w.rates[y].period[x] && w'.rates[y].timeout[x] == w.rates[y].timeout[x]
  }

  lemma UntouchedFromBelow(g: Graph, w: World, w1: World, w2: World, bound: nat, s: nat, h: nat, d: nat)
    requires WellFormed(g) && s < |g| && d in g[s].deps && d < |g| && g[s].rank < bound
    requires OthersUntouched(g, w, w1, bound, s, h) && OthersUntouched(g, w1, w2, g[d].rank + 1, d, s)
    ensures OthersUntouched(g, w, w2, bound, s, h) && w2.rates[s].period == w1.rates[s].period && w2.rates[s].timeout == w1.rates[s].timeout
  {
    assert Edge(g, bound, s, d);
    EdgeRank(g, bound, s, d);
    forall x: nat, y: nat | x < MAX_DEVICES && y < |g| && !Edge(g, bound, x, y) && !(x == h && y == s)
      ensures w2.rates[y].period[x] == w.rates[y].period[x] && w2.rates[y].timeout[x] == w.rates[y].timeout[x]
    {
      assert !Edge(g, g[d].rank + 1, x, y);
      assert w1.rates[y].period[x] == w.rates[y].period[x];
    }
    forall x: nat | x < MAX_DEVICES
      ensures w2.rates[s].period[x] == w1.rates[s].period[x] && w2.rates[s].timeout[x] == w1.rates[s].timeout[x]
    {
      assert !Edge(g, g[d].rank + 1, x, s);
    }
  }

  lemma {:induction false} SetDelayUntouched(g: Graph, io: Platform, w: World, s: nat, h: nat, period: int, timeout: int)
    requires WellFormed(g) && Shaped(g, w) && s < |g| && h < MAX_DEVICES
    ensures OthersUntouched(g, w, SetDelay(g, io, w, s, h, period, timeout).world, g[s].rank + 1, s, h)
    decreases g[s].rank, 3, 0
  {
    hide BaseSetDelay;
    if g[s].kind.PollSoftware? {
      var kept := if period > 0 && timeout < INT64_MAX then ShortenTimeout(timeout) else timeout;
      BaseSetDelayUntouched(g, io, w, s, h, StoredPeriod(g[s], period, timeout), kept);
    } else if g[s].kind.PollHardware? {
      BaseSetDelayUntouched(g, io, w, s, h, StoredPeriod(g[s], period, timeout), timeout);
    } else {
      BaseSetDelayUntouched(g, io, w, s, h, period, timeout);
    }
  }

  lemma {:induction false} BaseSetDelayUntouched(g: Graph, io: Platform, w: World, s: nat, h: nat, period: int, timeout: int)
    requires WellFormed(g) && Shaped(g, w) && s < |g| && h < MAX_DEVICES
    ensures OthersUntouched(g, w, BaseSetDelay(g, io, w, s, h, period, timeout).world, g[s].rank + 1, s, h)
    decreases g[s].rank, 2, 0
  {
    var w1 := WithSlot(w, s, h, period, timeout);
    PushDelaysUntouched(g, io, w, w1, s, h, 0);
    var (w2, done) := PushDelays(g, io, w1, s, 0);
    var w3 := WithSlot(w2, s, h, w.rates[s].period[h], w.rates[s].timeout[h]);
    RestoreDelaysUntouched(g, io, w, w3, s, h, done);
  }

  lemma {:induction false} PushDelaysUntouched(g: Graph, io: Platform, w: World, w1: World, s: nat, h: nat, i: nat)
    requires WellFormed(g) && s < |g| && h < MAX_DEVICES && i <= |g[s].deps| && OthersUntouched(g, w, w1, g[s].rank + 1, s, h)
    ensures OthersUntouched(g, w, PushDelays(g, io, w1, s, i).0, g[s].rank + 1, s, h)
    decreases g[s].rank, 1, |g[s].deps| - i
  {
    if i < |g[s].deps| {
      var d, least, time := g[s].deps[i], MinPeriod(w1.rates[s].period), MinTimeout(w1.rates[s].timeout);
      SetDelayUntouched(g, io, w1, d, s, least, time);
      var r := SetDelay(g, io, w1, d, s, least, time);
      UntouchedFromBelow(g, w, w1, r.world, g[s].rank + 1, s, h, d);
      if r.ok { PushDelaysUntouched(g, io, w, r.world, s, h, i + 1); }
    }
  }

  lemma {:induction false} RestoreDelaysUntouched(g: Graph, io: Platform, w: World, w1: World, s: nat, h: nat, i: nat)
    requires WellFormed(g) && s < |g| && h < MAX_DEVICES && i <= |g[s].deps| && OthersUntouched(g, w, w1, g[s].rank + 1, s, h)
    ensures OthersUntouched(g, w, RestoreDelays(g, io, w1, s, i), g[s].rank + 1, s, h)
    decreases g[s].rank, 1, i
  {
    hide SetDelay;
    if i > 0 {
      var d, least, time := g[s].deps[i - 1], MinPeriod(w1.rates[s].period), MinTimeout(w1.rates[s].timeout);
      SetDelayUntouched(g, io, w1, d, s, least, time);
      var r := SetDelay(g, io, w1, d, s, least, time);
      UntouchedFromBelow(g, w, w1, r.world, g[s].rank + 1, s, h, d);
      RestoreDelaysUntouched(g, io, w, r.world, s, h, i - 1);
    }
  }

  lemma {:induction false} EnableUntouched(g: Graph, io: Platform, w: World, s: nat, h: nat, enable: bool)
    requires WellFormed(g) && Shaped(g, w) && s < |g| && h < MAX_DEVICES
    ensures OthersUntouched(g, w, Enable(g, io, w, s, h, enable).world, g[s].rank + 1, s, h)
    decreases g[s].rank, 3, 0
  {
    hide BaseEnable;
    BaseEnableUntouched(g, io, w, s, h, enable);
    var w1 := BaseEnable(g, io, w, s, h, enable).world;
    BaseEnableUntouched(g, io, w1.(writes := w1.writes + 1), s, h, !enable);
  }

  lemma {:induction false} BaseEnableUntouched(g: Graph, io: Platform, w: World, s: nat, h: nat, enable: bool)
    requires WellFormed(g) && Shaped(g, w) && s < |g| && h < MAX_DEVICES
    ensures OthersUntouched(g, w, BaseEnable(g, io, w, s, h, enable).world, g[s].rank + 1, s, h)
    decreases g[s].rank, 2, 0
  {
    hide SetDelay, PushEnables, RestoreEnables;
    SetDelayUntouched(g, io, w, s, h, 0, INT64_MAX);
    var v := if enable then w else SetDelay(g, io, w, s, h, 0, INT64_MAX).world;
    var w0 := WithBit(v, s, h, enable);
    var w1 := if enable then WithReset(w0, s) else w0;
    PushEnablesUntouched(g, io, w, w1, s, h, enable, 0);
    var (w2, done) := PushEnables(g, io, w1, s, enable, 0);
    RestoreEnablesUntouched(g, io, w, w2, s, h, enable, done);
  }

  lemma {:induction false} PushEnablesUntouched(g: Graph, io: Platform, w: World, w1: World, s: nat, h: nat, enable: bool, i: nat)
    requires WellFormed(g) && s < |g| && h < MAX_DEVICES && i <= |g[s].deps| && OthersUntouched(g, w, w1, g[s].rank + 1, s, h)
    ensures var w2 := PushEnables(g, io, w1, s, enable, i).0;
            OthersUntouched(g, w, w2, g[s].rank + 1, s, h) && w2.rates[s].period == w1.rates[s].period
    decreases g[s].rank, 1, |g[s].deps| - i
  {
    if i < |g[s].deps| {
      var d := g[s].deps[i];
      EnableUntouched(g, io, w1, d, s, enable);
      var r := Enable(g, io, w1, d, s, enable);
      UntouchedFromBelow(g, w, w1, r.world, g[s].rank + 1, s, h, d);
      if r.ok { PushEnablesUntouched(g, io, w, r.world, s, h, enable, i + 1); }
    }
  }

  lemma {:induction false} RestoreEnablesUntouched(g: Graph, io: Platform, w: World, w1: World, s: nat, h: nat, enable: bool, i: nat)
    requires WellFormed(g) && s < |g| && h < MAX_DEVICES && i <= |g[s].deps| && OthersUntouched(g, w, w1, g[s].rank + 1, s, h)
    ensures var w2 := RestoreEnables(g, io, w1, s, enable, i);
            OthersUntouched(g, w, w2, g[s].rank + 1, s, h) && w2.rates[s].period == w1.rates[s].period
    decreases g[s].rank, 1, i
  {
    hide Enable;
    if i > 0 {
      var d := g[s].deps[i - 1];
      EnableUntouched(g, io, w1, d, s, !enable);
      var w2 := NoteUndo(Enable(g, io, w1, d, s, !enable));
      UntouchedFromBelow(g, w, w1, w2, g[s].rank + 1, s, h, d);
      RestoreEnablesUntouched(g, io, w, w2, s, h, enable, i - 1);
    }
  }

  /** No call of a client, accepted or refused, touches the request of another. */
  lemma {:induction false} OtherRequestsKept(g: Graph, io: Platform, w: World, c: Call, x: nat)
    requires WellFormed(g) && Shaped(g, w) && c.sensor < |g| && x < |g| && x != c.sensor
    ensures var w' := Perform(g, io, w, c).world;
            w'.rates[x].period[x] == w.rates[x].period[x] && w'.rates[x].timeout[x] == w.rates[x].timeout[x]
  {
    hide Enable, SetDelay;
    var s := c.sensor;
    NoLoop(g, g[s].rank + 1, x);
    match c
    case Activate(_, enable) => EnableUntouched(g, io, w, s, s, enable);
    case Batch(_, period, timeout) => SetDelayUntouched(g, io, w, s, s, period, timeout);
  }

  // ---------------------------------------------------------------- the caller's own slot

  lemma WithdrawalExactly(g: Graph, io: Platform, w: World, s: nat, h: nat)
    requires WellFormed(g) && Shaped(g, w) && s < |g| && h < MAX_DEVICES && Stores(g[s])
    ensures var r := SetDelay(g, io, w, s, h, 0, INT64_MAX);
            && r.world.rates[s].period[h] == (if BaseSetDelay(g, io, w, s, h, 0, INT64_MAX).ok then 0 else w.rates[s].period[h])
            && (r.ok ==> r.world.rates[s].period[h] == 0)
  {
    hide PushDelays, RestoreDelays;
  }

  /** Passing a switch on leaves the own slots of s alone: only the withdrawal before a disable touches them. */
  lemma OwnSlotsOnlyWithdrawn(g: Graph, io: Platform, w: World, s: nat, h: nat, enable: bool)
    requires WellFormed(g) && Shaped(g, w) && s < |g| && h < MAX_DEVICES && (enable || h in w.masks[s])
    ensures var v := if enable then w else SetDelay(g, io, w, s, h, 0, INT64_MAX).world;
            BaseEnable(g, io, w, s, h, enable).world.rates[s].period == v.rates[s].period
  {
    hide SetDelay, PushEnables, RestoreEnables;
    var v := if enable then w else SetDelay(g, io, w, s, h, 0, INT64_MAX).world;
    var w0 := WithBit(v, s, h, enable);
    var w1 := if enable then WithReset(w0, s) else w0;
    PushEnablesUntouched(g, io, v, w1, s, h, enable, 0);
    var (w2, done) := PushEnables(g, io, w1, s, enable, 0);
    RestoreEnablesUntouched(g, io, v, w2, s, h, enable, done);
  }

  /** A failed disable leaves the caller's period as it was exactly when there was none, or when it was the
      withdrawal of the period that a dependency refused.  Otherwise the period is gone. */
  lemma FailedDisableWithdraws(g: Graph, io: Platform, w: World, s: nat, h: nat)
    requires WellFormed(g) && Shaped(g, w) && s < |g| && h < MAX_DEVICES && Stores(g[s]) && h in w.masks[s]
    requires !Enable(g, io, w, s, h, false).ok
    ensures var before, after := w.rates[s].period[h], Enable(g, io, w, s, h, false).world.rates[s].period[h];
            && (after == before || after == 0)
            && (after == before <==> before == 0 || !BaseSetDelay(g, io, w, s, h, 0, INT64_MAX).ok)
  {
    hide SetDelay, BaseSetDelay, BaseEnable;
    WithdrawalExactly(g, io, w, s, h);
    OwnSlotsOnlyWithdrawn(g, io, w, s, h, false);
    var w1 := BaseEnable(g, io, w, s, h, false).world;
    OwnSlotsOnlyWithdrawn(g, io, w1.(writes := w1.writes + 1), s, h, true);
  }

  /** A failed enable, the undoing having succeeded, leaves the caller's period as it was exactly when there was
      none, or when a dependency refused.  When the device refused, the undoing has withdrawn the period. */
  lemma FailedEnableWithdraws(g: Graph, io: Platform, w: World, s: nat, h: nat)
    requires WellFormed(g) && Shaped(g, w) && s < |g| && h < MAX_DEVICES && Stores(g[s]) && h !in w.masks[s]
    requires var r := Enable(g, io, w, s, h, true); !r.ok && !r.world.lost
    ensures var before, after := w.rates[s].period[h], Enable(g, io, w, s, h, true).world.rates[s].period[h];
            && (after == before || after == 0)
            && (after == before <==> before == 0 || !BaseEnable(g, io, w, s, h, true).ok)
  {
    hide SetDelay, BaseSetDelay, PushEnables, RestoreEnables;
    OwnSlotsOnlyWithdrawn(g, io, w, s, h, true);
    var b := BaseEnable(g, io, w, s, h, true);
    if b.ok {
      var w1 := b.world.(writes := b.world.writes + 1);
      assert h in w1.masks[s];
      WithdrawalExactly(g, io, w1, s, h);
      OwnSlotsOnlyWithdrawn(g, io, w1, s, h, false);
    }
  }

  // ---------------------------------------------------------------- the slots at the dependencies

  /** The dependencies before number k store no period for s. */
  ghost predicate NothingFrom(g: Graph, w: World, s: nat, k: nat)
    requires s < |g| && Shaped(g, w) && WellFormed(g)
  {
    forall j {:trigger g[s].deps[j]} :: 0 <= j < |g[s].deps| && j < k && Stores(g[g[s].deps[j]]) ==> w.rates[g[s].deps[j]].period[s] == 0
  }

  /** One call on a dependency leaves the slots of s at the others alone. */
  lemma OtherOffersKept(g: Graph, w: World, w1: World, s: nat, i: nat, j: nat)
    requires WellFormed(g) && s < |g| && i < |g[s].deps| && j < |g[s].deps| && i != j
    requires OthersUntouched(g, w, w1, g[g[s].deps[i]].rank + 1, g[s].deps[i], s)
    ensures w1.rates[g[s].deps[j]].period[s] == w.rates[g[s].deps[j]].period[s]
  {
    assert !Repeats(g, s, i, j) && !Repeats(g, s, j, i);
  }

  lemma DisabledHasNothing(g: Graph, io: Platform, w: World, d: nat, h: nat)
    requires WellFormed(g) && Shaped(g, w) && d < |g| && h < MAX_DEVICES && h != d && Stores(g[d])
    requires Enable(g, io, w, d, h, false).ok
    ensures Enable(g, io, w, d, h, false).world.rates[d].period[h] == 0
  {
    hide SetDelay, PushEnables, RestoreEnables;
    WithdrawalExactly(g, io, w, d, h);
    var v := SetDelay(g, io, w, d, h, 0, INT64_MAX).world;
    PushEnablesUntouched(g, io, v, WithBit(v, d, h, false), d, h, false, 0);
    if Switches(w.masks[d], h, false) { SwitchesThrough(g, io, w, d, h, false); }
  }

  /** Going forward: what has accepted the disable has nothing from s. */
  lemma {:induction false} PushLeavesNothing(g: Graph, io: Platform, w: World, s: nat, i: nat)
    requires WellFormed(g) && Shaped(g, w) && s < |g| && i <= |g[s].deps| && NothingFrom(g, w, s, i)
    ensures var (w', k) := PushEnables(g, io, w, s, false, i); NothingFrom(g, w', s, k)
    decreases |g[s].deps| - i
  {
    hide Enable;
    if i < |g[s].deps| {
      var d := g[s].deps[i];
      EnableUntouched(g, io, w, d, s, false);
      var r := Enable(g, io, w, d, s, false);
      forall j | 0 <= j < i ensures r.world.rates[g[s].deps[j]].period[s] == w.rates[g[s].deps[j]].period[s] {
        OtherOffersKept(g, w, r.world, s, i, j);
      }
      if r.ok {
        if Stores(g[d]) { DisabledHasNothing(g, io, w, d, s); }
        PushLeavesNothing(g, io, r.world, s, i + 1);
      }
    }
  }

  /** Undoing a disable enables again, which restores no rate. */
  lemma {:induction false} UndoRestoresNoRate(g: Graph, io: Platform, w: World, s: nat, i: nat)
    requires WellFormed(g) && Shaped(g, w) && s < |g| && i <= |g[s].deps| && !RestoreEnables(g, io, w, s, false, i).lost
    ensures RestoreEnables(g, io, w, s, false, i).rates == w.rates
    decreases i
  {
    hide Enable;
    if i > 0 {
      var d := g[s].deps[i - 1];
      var r := Enable(g, io, w, d, s, true);
      if NoteUndo(r).lost { LostStays(g, io, NoteUndo(r), s, false, i - 1); }
      EnableKeepsRates(g, io, w, d, s);
      UndoRestoresNoRate(g, io, NoteUndo(r), s, i - 1);
    }
  }

  /** After a failed disable of a sensor going out of use the dependencies that had accepted it store no period
      for s, although s is in use again; when the device refused, all of them. */
  lemma FailedDisableForgets(g: Graph, io: Platform, w: World, s: nat, h: nat)
    requires WellFormed(g) && Shaped(g, w) && s < |g| && h < MAX_DEVICES && h in w.masks[s] && Switches(w.masks[s], h, false)
    requires SetDelay(g, io, w, s, h, 0, INT64_MAX).ok
    requires var r := Enable(g, io, w, s, h, false); !r.ok && !r.world.lost
    ensures var v := WithBit(SetDelay(g, io, w, s, h, 0, INT64_MAX).world, s, h, false);
            NothingFrom(g, Enable(g, io, w, s, h, false).world, s, PushEnables(g, io, v, s, false, 0).1)
  {
    hide SetDelay;
    var v := WithBit(SetDelay(g, io, w, s, h, 0, INT64_MAX).world, s, h, false);
    PushLeavesNothing(g, io, v, s, 0);
    SwitchesThrough(g, io, w, s, h, false);
    hide PushEnables, RestoreEnables;
    var (w2, done) := PushEnables(g, io, v, s, false, 0);
    if done < |g[s].deps| {
      UndoRestoresNoRate(g, io, w2, s, done);
    } else {
      RefusedDeviceRestoresNoRate(g, io, w2.(writes := w2.writes + 1), s, h);
    }
  }

  lemma RefusedDeviceRestoresNoRate(g: Graph, io: Platform, w: World, s: nat, h: nat)
    requires WellFormed(g) && Shaped(g, w) && s < |g| && h < MAX_DEVICES && BaseEnable(g, io, w, s, h, true).ok
    ensures BaseEnable(g, io, w, s, h, true).world.rates == w.rates
  {
    hide PushEnables;
    var w1 := WithReset(WithBit(w, s, h, true), s);
    if PushEnables(g, io, w1, s, true, 0).1 == |g[s].deps| { PushKeepsRates(g, io, w1, s, 0); }
  }

  /** Undoing an enable disables again, which withdraws what s had asked of its dependencies. */
  lemma {:induction false} UndoLeavesNothing(g: Graph, io: Platform, w: World, s: nat, i: nat)
    requires WellFormed(g) && Shaped(g, w) && s < |g| && i <= |g[s].deps| && !RestoreEnables(g, io, w, s, true, i).lost
    ensures NothingFrom(g, RestoreEnables(g, io, w, s, true, i), s, i)
    decreases i
  {
    hide Enable;
    if i > 0 {
      var d := g[s].deps[i - 1];
      var r := Enable(g, io, w, d, s, false);
      if NoteUndo(r).lost { LostStays(g, io, NoteUndo(r), s, true, i - 1); }
      if Stores(g[d]) { DisabledHasNothing(g, io, w, d, s); }
      UndoLeavesNothing(g, io, NoteUndo(r), s, i - 1);
      OffersKeptByUndo(g, io, NoteUndo(r), s, i - 1, i - 1);
    }
  }

  lemma {:induction false} OffersKeptByUndo(g: Graph, io: Platform, w: World, s: nat, i: nat, j: nat)
    requires WellFormed(g) && Shaped(g, w) && s < |g| && i <= j < |g[s].deps|
    ensures RestoreEnables(g, io, w, s, true, i).rates[g[s].deps[j]].period[s] == w.rates[g[s].deps[j]].period[s]
    decreases i
  {
    hide Enable;
    if i > 0 {
      var d := g[s].deps[i - 1];
      EnableUntouched(g, io, w, d, s, false);
      var w1 := NoteUndo(Enable(g, io, w, d, s, false));
      OtherOffersKept(g, w, w1, s, i - 1, j);
      OffersKeptByUndo(g, io, w1, s, i - 1, j);
    }
  }

  /** After an enable that a dependency refused, the dependencies before it store no period for s, whose own
      slots still hold what was asked of it. */
  lemma FailedEnableForgets(g: Graph, io: Platform, w: World, s: nat, h: nat)
    requires WellFormed(g) && Shaped(g, w) && s < |g| && h < MAX_DEVICES && w.masks[s] == {}
    requires var r := BaseEnable(g, io, w, s, h, true); !r.ok && !r.world.lost
    ensures var w1, w' := WithReset(WithBit(w, s, h, true), s), Enable(g, io, w, s, h, true).world;
            NothingFrom(g, w', s, PushEnables(g, io, w1, s, true, 0).1) && w'.rates[s].period == w.rates[s].period
  {
    hide PushEnables, RestoreEnables, SetDelay;
    var w1 := WithReset(WithBit(w, s, h, true), s);
    var (w2, done) := PushEnables(g, io, w1, s, true, 0);
    UndoLeavesNothing(g, io, w2, s, done);
    OwnSlotsOnlyWithdrawn(g, io, w, s, h, true);
  }

  // ---------------------------------------------------------------- the loss is real

  const LONE: Graph := [Config(PollHardware, [], 0, 0, 1000, 2000, [100.0])]

  lemma LoneDelay(io: Platform, w: World, period: int, timeout: int)
    requires WellFormed(LONE) && Shaped(LONE, w) && w.rates[0].period[0] != period
    requires forall x :: 0 < x < MAX_DEVICES ==> w.rates[0].period[x] == 0
    requires (period == 0 && timeout == INT64_MAX)
             || (1000 <= period <= 2000 && timeout == 0 && io.accepts(w.writes) && w.rates[0].currentPeriod == 0)
    ensures var r := SetDelay(LONE, io, w, 0, 0, period, timeout);
            && r.ok && r.world.masks == w.masks && r.world.power == w.power && r.world.lost == w.lost
            && r.world.writes == w.writes + (if period > 0 then 1 else 0)
            && r.world.rates[0].period == w.rates[0].period[0 := period]
  {
    var w1 := WithSlot(w, 0, 0, period, timeout);
    assert PushDelays(LONE, io, w1, 0, 0) == (w1, 0);
    assert BaseSetDelay(LONE, io, w, 0, 0, period, timeout) == Outcome(w1, true);
    assert w1.rates[0].period[0] == period;
    MinPeriodUnique(w1.rates[0].period, period);
  }

  /** Switching the lone sensor on, or undoing the switching off. */
  lemma LoneSwitch(io: Platform, w: World)
    requires WellFormed(LONE) && Shaped(LONE, w) && w.masks[0] == {}
    ensures var r := BaseEnable(LONE, io, w, 0, 0, true);
            && r.ok && r.world.masks[0] == {0} && r.world.power == w.power && r.world.lost == w.lost
            && r.world.writes == w.writes && r.world.rates == w.rates
  {
    var w1 := WithReset(WithBit(w, 0, 0, true), 0);
    assert PushEnables(LONE, io, w1, 0, true, 0) == (w1, 0);
  }

  lemma LoneIsWellFormed()
    ensures WellFormed(LONE)
  {
  }

  /** A client asks for a period and switches the sensor on; its device refuses the switching off, which fails.
      The sensor is still on and enabled, and nobody asks it for any period. */
  lemma RefusedDisableLeavesNoRate(io: Platform, period: int)
    requires 1000 <= period <= 2000 && io.accepts(0) && io.accepts(1) && !io.accepts(2)
    ensures WellFormed(LONE)
    ensures var r1 := Perform(LONE, io, Initial(1), Batch(0, period, 0));
            var r2 := Perform(LONE, io, r1.world, Activate(0, true));
            var r3 := Perform(LONE, io, r2.world, Activate(0, false));
            && r1.ok && r2.ok && !r3.ok && !r3.world.lost
            && r2.world.rates[0].period[0] == period && r3.world.masks[0] == {0} && r3.world.power[0]
            && r3.world.rates[0].period[0] == 0
  {
    LoneIsWellFormed();
    hide SetDelay, BaseEnable, WellFormed;
    LoneDelay(io, Initial(1), period, 0);
    var w1 := SetDelay(LONE, io, Initial(1), 0, 0, period, 0).world;
    LoneSwitch(io, w1);
    var w2 := Enable(LONE, io, w1, 0, 0, true).world;
    LoneRefuses(io, w2, period);
  }

  lemma LoneRefuses(io: Platform, w: World, period: int)
    requires WellFormed(LONE) && Shaped(LONE, w) && w.masks[0] == {0} && w.power[0] && !w.lost && !io.accepts(w.writes) && period != 0
    requires forall x :: 0 <= x < MAX_DEVICES ==> w.rates[0].period[x] == if x == 0 then period else 0
    ensures var r := Enable(LONE, io, w, 0, 0, false);
            !r.ok && !r.world.lost && r.world.masks[0] == {0} && r.world.power[0] && r.world.rates[0].period[0] == 0
  {
    hide SetDelay, WellFormed;
    LoneDelay(io, w, 0, INT64_MAX);
    var v := SetDelay(LONE, io, w, 0, 0, 0, INT64_MAX).world;
    var w1 := WithBit(v, 0, 0, false);
    assert w1.masks[0] == {} by { assert {0} - {0} == {}; }
    assert PushEnables(LONE, io, w1, 0, false, 0) == (w1, 0);
    LoneSwitch(io, w1.(writes := w1.writes + 1));
  }

  /** A client asks for a period and switches the sensor on; its device refuses, and undoing the call has
      withdrawn the period: when the next attempt succeeds, the sensor runs and nobody asks it for a period. */
  lemma RefusedEnableLeavesNoRate(io: Platform, period: int)
    requires 1000 <= period <= 2000 && io.accepts(0) && !io.accepts(1) && io.accepts(2)
    ensures WellFormed(LONE)
    ensures var r1 := Perform(LONE, io, Initial(1), Batch(0, period, 0));
            var r2 := Perform(LONE, io, r1.world, Activate(0, true));
            var r3 := Perform(LONE, io, r2.world, Activate(0, true));
            && r1.ok && !r2.ok && r3.ok && r1.world.rates[0].period[0] == period
            && r3.world.masks[0] == {0} && r3.world.power[0] && r3.world.rates[0].period[0] == 0
  {
    LoneIsWellFormed();
    hide SetDelay, BaseEnable, WellFormed;
    LoneDelay(io, Initial(1), period, 0);
    var w1 := SetDelay(LONE, io, Initial(1), 0, 0, period, 0).world;
    LoneSwitch(io, w1);
    var b := BaseEnable(LONE, io, w1, 0, 0, true).world;
    LoneTakenBack(io, b.(writes := b.writes + 1), period);
    LoneSwitch(io, Enable(LONE, io, w1, 0, 0, true).world);
  }

  lemma LoneTakenBack(io: Platform, w: World, period: int)
    requires WellFormed(LONE) && Shaped(LONE, w) && w.masks[0] == {0} && period != 0
    requires forall x :: 0 <= x < MAX_DEVICES ==> w.rates[0].period[x] == if x == 0 then period else 0
    ensures var r := BaseEnable(LONE, io, w, 0, 0, false);
            r.ok && r.world.masks[0] == {} && r.world.writes == w.writes && r.world.rates[0].period[0] == 0
  {
    hide SetDelay, WellFormed;
    LoneDelay(io, w, 0, INT64_MAX);
    var w1 := WithBit(SetDelay(LONE, io, w, 0, 0, 0, INT64_MAX).world, 0, 0, false);
    assert w1.masks[0] == {} by { assert {0} - {0} == {}; }
    assert PushEnables(LONE, io, w1, 0, false, 0) == (w1, 0);
  }
}
