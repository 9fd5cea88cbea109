/** What is programmed into the devices of polled hardware sensors, and which changes of rate are queued: what
    every call keeps, accepted or refused, and what an accepted call leaves. */
module DeviceRates {
  import opened RateControl
  import opened SensorGraph
  import opened PowerTheorem

  /** Entry i of the table is the first that reaches the period in whole Hz, or the last if none does. */
  ghost predicate FirstFast(table: seq<real>, period: int, i: nat) {
    && 0 < period && i < |table|
    && (forall k :: 0 <= k < i ==> table[k] < (1_000_000_000 / period) as real)
    && (table[i] >= (1_000_000_000 / period) as real || i == |table| - 1)
  }

  lemma FirstFastUnique(table: seq<real>, period: int, i: nat, j: nat)
    requires FirstFast(table, period, i) && FirstFast(table, period, j)
    ensures i == j
  {
  }

  /** Changes queued with rising times, all of them past. */
  ghost predicate InTime(q: seq<(int, int)>, now: int) {
    && (forall i, j :: 0 <= i < j < |q| ==> q[i].0 < q[j].0)
    && (forall i :: 0 <= i < |q| ==> q[i].0 < now)
  }

  /** While a period is in force, the device has the frequency for it, and while none is, no timeout is in force
      either; the last change handed to the data thread is the sampling period of the frequency the device has. */
  ghost predicate Programmed(c: Config, r: Rates, now: int) {
    && (if r.currentPeriod == 0 then r.currentTimeout == 0x7FFF_FFFF_FFFF_FFFF
        else FirstFast(c.table, r.currentPeriod, r.frequency) && r.odrSwitch != [])
    && (r.odrSwitch != [] ==>
          && r.frequency < |c.table| && c.table[r.frequency] > 0.0
          && r.odrSwitch[|r.odrSwitch| - 1].1 == (1_000_000_000.0 / c.table[r.frequency]).Floor)
    && InTime(r.odrSwitch, now) && InTime(r.odrStack, now)
  }

  ghost predicate AllProgrammed(g: Graph, io: Platform, w: World) {
    && Shaped(g, w)
    && forall s {:trigger w.rates[s]} :: 0 <= s < |g| ==>
         && InTime(w.rates[s].odrStack, io.clock(w.ticks))
         && (g[s].kind.PollHardware? ==> Programmed(g[s], w.rates[s], io.clock(w.ticks)))
  }

  // ---------------------------------------------------------------- one step

  /** A step that changes no device and queues nothing. */
  lemma NothingProgrammed(g: Graph, io: Platform, w: World, w': World)
    requires Rising(io) && AllProgrammed(g, io, w) && Shaped(g, w') && w'.ticks >= w.ticks
    requires forall s {:trigger w'.rates[s]} :: 0 <= s < |g| ==>
               var r, r' := w.rates[s], w'.rates[s];
               r'.odrStack == r.odrStack
               && (g[s].kind.PollHardware? ==>
                     && r'.currentPeriod == r.currentPeriod && (r'.currentPeriod == 0 ==> r'.currentTimeout == r.currentTimeout)
                     && r'.frequency == r.frequency && r'.odrSwitch == r.odrSwitch)
    ensures AllProgrammed(g, io, w')
  {
    assert io.clock(w.ticks) <= io.clock(w'.ticks);
  }

  /** A step that programs one sensor. */
  lemma OneProgrammed(g: Graph, io: Platform, w: World, w': World, s: nat)
    requires Rising(io) && AllProgrammed(g, io, w) && Shaped(g, w') && w'.ticks >= w.ticks
    requires s < |g| && w'.rates == w.rates[s := w'.rates[s]] && InTime(w'.rates[s].odrStack, io.clock(w'.ticks))
    requires g[s].kind.PollHardware? ==> Programmed(g[s], w'.rates[s], io.clock(w'.ticks))
    ensures AllProgrammed(g, io, w')
  {
    var w1 := w.(ticks := w'.ticks);
    NothingProgrammed(g, io, w, w1);
    hide Programmed, InTime;
  }

  lemma Later(q: seq<(int, int)>, now: int, x: (int, int), next: int)
    requires InTime(q, now) && x.0 == now < next
    ensures InTime(q + [x], next)
  {
  }

  lemma ProgramKeeps(g: Graph, io: Platform, w: World, s: nat, h: nat, period: int)
    requires Rising(io) && WellFormed(g) && AllProgrammed(g, io, w) && s < |g| && g[s].kind.PollHardware?
    ensures AllProgrammed(g, io, Program(g, io, w, s, h, period).world)
  {
    var shortest := MinPeriod(w.rates[s].period);
    assert Usable(g, s);
    if shortest == 0 {
      PeriodDropped(g, io, w, s);
    } else {
      var i := FrequencyFor(g[s], shortest);
      FrequencyKeeps(g, io, w, s, h, period, shortest, i);
      var r := ProgramFrequency(g, io, w, s, h, period, shortest, i);
      assert r.ok ==> r.world.rates[s].currentPeriod == shortest;
      hide AllProgrammed, Rising, ProgramFrequency;
      if r.ok {
        WatermarkKeeps(g, io, r.world, s, i);
      }
    }
  }

  lemma PeriodDropped(g: Graph, io: Platform, w: World, s: nat)
    requires AllProgrammed(g, io, w) && s < |g|
    ensures AllProgrammed(g, io, w.(rates := w.rates[s := w.rates[s].(currentPeriod := 0, currentTimeout := INT64_MAX)]))
  {
  }

  lemma WatermarkKeeps(g: Graph, io: Platform, w: World, s: nat, i: nat)
    requires Rising(io) && WellFormed(g) && AllProgrammed(g, io, w) && s < |g| && g[s].kind.PollHardware? && i < |g[s].table|
    requires w.rates[s].currentPeriod != 0
    ensures AllProgrammed(g, io, ProgramWatermark(g, io, w, s, i).world)
  {
    NothingProgrammed(g, io, w, ProgramWatermark(g, io, w, s, i).world);
  }

  lemma FrequencyKeeps(g: Graph, io: Platform, w: World, s: nat, h: nat, period: int, shortest: int, i: nat)
    requires Rising(io) && WellFormed(g) && AllProgrammed(g, io, w) && s < |g| && g[s].kind.PollHardware?
    requires FirstFast(g[s].table, shortest, i)
    ensures AllProgrammed(g, io, ProgramFrequency(g, io, w, s, h, period, shortest, i).world)
  {
    assert Usable(g, s) && i < |g[s].table|;
    hide FirstFast;
    var r, now := w.rates[s], io.clock(w.ticks);
    var n: nat := w.ticks;
    var w' := ProgramFrequency(g, io, w, s, h, period, shortest, i).world;
    if r.currentPeriod == shortest || !io.accepts(w.writes) {
      NothingProgrammed(g, io, w, w');
    } else {
      var next := io.clock(n + 1);
      assert now < next;
      var whole := WholePeriod(g[s].table[i]);
      Later(r.odrSwitch, now, (now, whole), next);
      Later(r.odrStack, now, (now, period), next);
      assert Programmed(g[s], w'.rates[s], next);
      hide Programmed, Rising;
      OneProgrammed(g, io, w, w', s);
    }
  }

  lemma NotingKeeps(g: Graph, io: Platform, w: World, s: nat, h: nat, period: int)
    requires Rising(io) && WellFormed(g) && AllProgrammed(g, io, w) && s < |g| && !g[s].kind.PollHardware?
    ensures AllProgrammed(g, io, NoteMinima(g, io, w, s, h, period))
  {
    var r, now := w.rates[s], io.clock(w.ticks);
    var n: nat := w.ticks;
    assert now < io.clock(n + 1);
    Later(r.odrStack, now, (now, period), io.clock(n + 1));
    hide Programmed, Rising;
    OneProgrammed(g, io, w, NoteMinima(g, io, w, s, h, period), s);
  }

  // ---------------------------------------------------------------- every call, accepted or refused

  lemma {:induction false} SetDelayKeeps(g: Graph, io: Platform, w: World, s: nat, h: nat, period: int, timeout: int)
    requires Rising(io) && WellFormed(g) && AllProgrammed(g, io, w) && s < |g| && h < MAX_DEVICES
    ensures AllProgrammed(g, io, SetDelay(g, io, w, s, h, period, timeout).world)
    decreases g[s].rank, 3, 0
  {
    hide BaseSetDelay, Program, NoteMinima, AllProgrammed, Rising;
    var stored := StoredPeriod(g[s], period, timeout);
    var kept := if g[s].kind.PollSoftware? && period > 0 && timeout < INT64_MAX then ShortenTimeout(timeout) else timeout;
    if g[s].kind.EventHardware? {
      EventKeeps(g, io, w, s, timeout);
    } else if g[s].kind.BaseSoftware? {
      BaseSetDelayKeeps(g, io, w, s, h, period, timeout);
    } else {
      BaseSetDelayKeeps(g, io, w, s, h, stored, kept);
      var b := BaseSetDelay(g, io, w, s, h, stored, kept).world;
      if g[s].kind.PollHardware? { ProgramKeeps(g, io, b, s, h, stored); } else { NotingKeeps(g, io, b, s, h, stored); }
    }
  }

  lemma EventKeeps(g: Graph, io: Platform, w: World, s: nat, timeout: int)
    requires Rising(io) && WellFormed(g) && AllProgrammed(g, io, w) && s < |g| && g[s].kind.EventHardware?
    ensures AllProgrammed(g, io, EventSetDelay(g, io, w, s, timeout).world)
  {
    NothingProgrammed(g, io, w, EventSetDelay(g, io, w, s, timeout).world);
  }

  lemma SlotKeeps(g: Graph, io: Platform, w: World, s: nat, h: nat, period: int, timeout: int)
    requires Rising(io) && AllProgrammed(g, io, w) && s < |g| && h < MAX_DEVICES
    ensures AllProgrammed(g, io, WithSlot(w, s, h, period, timeout))
  {
    NothingProgrammed(g, io, w, WithSlot(w, s, h, period, timeout));
  }

  lemma {:induction false} BaseSetDelayKeeps(g: Graph, io: Platform, w: World, s: nat, h: nat, period: int, timeout: int)
    requires Rising(io) && WellFormed(g) && AllProgrammed(g, io, w) && s < |g| && h < MAX_DEVICES
    ensures AllProgrammed(g, io, BaseSetDelay(g, io, w, s, h, period, timeout).world)
    decreases g[s].rank, 2, 0
  {
    var w1 := WithSlot(w, s, h, period, timeout);
    SlotKeeps(g, io, w, s, h, period, timeout);
    PushDelaysKeeps(g, io, w1, s, 0);
    var (w2, done) := PushDelays(g, io, w1, s, 0);
    SlotKeeps(g, io, w2, s, h, w.rates[s].period[h], w.rates[s].timeout[h]);
    RestoreDelaysKeeps(g, io, WithSlot(w2, s, h, w.rates[s].period[h], w.rates[s].timeout[h]), s, done);
  }

  lemma {:induction false} PushDelaysKeeps(g: Graph, io: Platform, w: World, s: nat, i: nat)
    requires Rising(io) && WellFormed(g) && AllProgrammed(g, io, w) && s < |g| && i <= |g[s].deps|
    ensures AllProgrammed(g, io, PushDelays(g, io, w, s, i).0)
    decreases g[s].rank, 1, |g[s].deps| - i
  {
    hide SetDelay, Rising;
    if i < |g[s].deps| {
      var d, least, time := g[s].deps[i], MinPeriod(w.rates[s].period), MinTimeout(w.rates[s].timeout);
      SetDelayKeeps(g, io, w, d, s, least, time);
      var r := SetDelay(g, io, w, d, s, least, time);
      if r.ok { PushDelaysKeeps(g, io, r.world, s, i + 1); }
    }
  }

  lemma {:induction false} RestoreDelaysKeeps(g: Graph, io: Platform, w: World, s: nat, i: nat)
    requires Rising(io) && WellFormed(g) && AllProgrammed(g, io, w) && s < |g| && i <= |g[s].deps|
    ensures AllProgrammed(g, io, RestoreDelays(g, io, w, s, i))
    decreases g[s].rank, 1, i
  {
    hide SetDelay, Rising;
    if i > 0 {
      var d, least, time := g[s].deps[i - 1], MinPeriod(w.rates[s].period), MinTimeout(w.rates[s].timeout);
      SetDelayKeeps(g, io, w, d, s, least, time);
      RestoreDelaysKeeps(g, io, SetDelay(g, io, w, d, s, least, time).world, s, i - 1);
    }
  }

  lemma RatesAlone(g: Graph, io: Platform, w: World, w': World)
    requires Rising(io) && AllProgrammed(g, io, w) && Shaped(g, w') && w'.rates == w.rates && w'.ticks >= w.ticks
    ensures AllProgrammed(g, io, w')
  {
    NothingProgrammed(g, io, w, w');
  }

  lemma {:induction false} EnableKeeps(g: Graph, io: Platform, w: World, s: nat, h: nat, enable: bool)
    requires Rising(io) && WellFormed(g) && AllProgrammed(g, io, w) && s < |g| && h < MAX_DEVICES
    ensures AllProgrammed(g, io, Enable(g, io, w, s, h, enable).world)
    decreases g[s].rank, 3, 0
  {
    hide BaseEnable, AllProgrammed, Rising;
    BaseEnableKeeps(g, io, w, s, h, enable);
    var r := BaseEnable(g, io, w, s, h, enable);
    if r.ok { ConcludedKeeps(g, io, r.world, s, h, enable, Switches(w.masks[s], h, enable)); }
  }

  lemma {:induction false} ConcludedKeeps(g: Graph, io: Platform, w: World, s: nat, h: nat, enable: bool, switched: bool)
    requires Rising(io) && WellFormed(g) && AllProgrammed(g, io, w) && s < |g| && h < MAX_DEVICES
    ensures AllProgrammed(g, io, Concluded(g, io, w, s, h, enable, switched).world)
    decreases g[s].rank, 2, 1
  {
    var w' := Concluded(g, io, w, s, h, enable, switched).world;
    if g[s].Hardware() && switched && !io.accepts(w.writes) {
      var w1 := w.(writes := w.writes + 1);
      RatesAlone(g, io, w, w1);
      hide AllProgrammed, Rising, BaseEnable;
      BaseEnableKeeps(g, io, w1, s, h, !enable);
      var undo := BaseEnable(g, io, w1, s, h, !enable);
      RatesAlone(g, io, undo.world, NoteUndo(undo));
    } else {
      RatesAlone(g, io, w, w');
    }
  }

  lemma {:induction false} BaseEnableKeeps(g: Graph, io: Platform, w: World, s: nat, h: nat, enable: bool)
    requires Rising(io) && WellFormed(g) && AllProgrammed(g, io, w) && s < |g| && h < MAX_DEVICES
    ensures AllProgrammed(g, io, BaseEnable(g, io, w, s, h, enable).world)
    decreases g[s].rank, 2, 0
  {
    hide SetDelay, SwitchOver, AllProgrammed, Rising;
    SetDelayKeeps(g, io, w, s, h, 0, INT64_MAX);
    var v := if enable then w else SetDelay(g, io, w, s, h, 0, INT64_MAX).world;
    var w0 := WithBit(v, s, h, enable);
    RatesAlone(g, io, v, w0);
    var w1 := if enable then WithReset(w0, s) else w0;
    RatesAlone(g, io, w0, w1);
    SwitchOverKeeps(g, io, w1, s, h, enable);
  }

  lemma {:induction false} SwitchOverKeeps(g: Graph, io: Platform, w: World, s: nat, h: nat, enable: bool)
    requires Rising(io) && WellFormed(g) && AllProgrammed(g, io, w) && s < |g| && h < MAX_DEVICES
    ensures AllProgrammed(g, io, SwitchOver(g, io, w, s, h, enable).world)
    decreases g[s].rank, 1, |g[s].deps| + 1
  {
    hide PushEnables, RestoreEnables, AllProgrammed, Rising;
    PushEnablesKeeps(g, io, w, s, enable, 0);
    var (w2, done) := PushEnables(g, io, w, s, enable, 0);
    RestoreEnablesKeeps(g, io, w2, s, enable, done);
    var w3 := RestoreEnables(g, io, w2, s, enable, done);
    RatesAlone(g, io, w3, WithBit(w3, s, h, !enable));
  }

  lemma {:induction false} PushEnablesKeeps(g: Graph, io: Platform, w: World, s: nat, enable: bool, i: nat)
    requires Rising(io) && WellFormed(g) && AllProgrammed(g, io, w) && s < |g| && i <= |g[s].deps|
    ensures AllProgrammed(g, io, PushEnables(g, io, w, s, enable, i).0)
    decreases g[s].rank, 1, |g[s].deps| - i
  {
    hide Enable, Rising;
    if i < |g[s].deps| {
      EnableKeeps(g, io, w, g[s].deps[i], s, enable);
      var r := Enable(g, io, w, g[s].deps[i], s, enable);
      if r.ok { PushEnablesKeeps(g, io, r.world, s, enable, i + 1); }
    }
  }

  lemma {:induction false} RestoreEnablesKeeps(g: Graph, io: Platform, w: World, s: nat, enable: bool, i: nat)
    requires Rising(io) && WellFormed(g) && AllProgrammed(g, io, w) && s < |g| && i <= |g[s].deps|
    ensures AllProgrammed(g, io, RestoreEnables(g, io, w, s, enable, i))
    decreases g[s].rank, 1, i
  {
    hide Enable, Rising, AllProgrammed;
    if i > 0 {
      EnableKeeps(g, io, w, g[s].deps[i - 1], s, !enable);
      var undo := Enable(g, io, w, g[s].deps[i - 1], s, !enable);
      RatesAlone(g, io, undo.world, NoteUndo(undo));
      RestoreEnablesKeeps(g, io, NoteUndo(undo), s, enable, i - 1);
    }
  }

  /** After any run of client calls, accepted or refused: while a period is in force at a polled hardware sensor its
      device has the first frequency of the table that reaches the period in whole Hz, or the last if none does; the
      last change handed to its data thread is the sampling period of that frequency; and changes are queued with
      rising times. */
  lemma {:induction false} DevicesAreProgrammed(g: Graph, io: Platform, w: World, wanted: set<nat>, calls: seq<Call>)
    requires Rising(io) && WellFormed(g) && AllProgrammed(g, io, w) && CallsFit(g, calls)
    ensures AllProgrammed(g, io, Run(g, io, w, wanted, calls).0)
    decreases |calls|
  {
    assert Shaped(g, w);
    hide AllProgrammed, Rising, SetDelay, Enable;
    if calls != [] {
      var c := calls[0];
      match c {
        case Activate(s, enable) => EnableKeeps(g, io, w, s, s, enable);
        case Batch(s, period, timeout) => SetDelayKeeps(g, io, w, s, s, period, timeout);
      }
      var r := Perform(g, io, w, c);
      DevicesAreProgrammed(g, io, r.world, NextWanted(wanted, c, r.ok), calls[1..]);
    }
  }

  lemma InitiallyProgrammed(g: Graph, io: Platform)
    ensures AllProgrammed(g, io, Initial(|g|))
  {
  }

  // ---------------------------------------------------------------- accepted calls

  /** What was last programmed is what the slots ask for now. */
  ghost predicate Current(c: Config, r: Rates) {
    && r.currentPeriod == MinPeriod(r.period)
    && (MinPeriod(r.period) != 0 && c.kind.PollHardware? && c.fifo > 0 ==>
          r.currentTimeout == if MinTimeout(r.timeout) < 500_000_000 then 0 else MinTimeout(r.timeout) - 500_000_000)
    && (MinPeriod(r.period) != 0 && c.kind.PollSoftware? ==> r.currentTimeout == MinTimeout(r.timeout))
  }

  predicate Polled(c: Config) {
    c.kind.PollHardware? || c.kind.PollSoftware?
  }

  ghost predicate CurrentBelow(g: Graph, w: World, bound: nat) {
    && Shaped(g, w)
    && forall s {:trigger w.rates[s]} :: 0 <= s < |g| && g[s].rank < bound && Polled(g[s]) ==> Current(g[s], w.rates[s])
  }

  lemma ProgramIsCurrent(g: Graph, io: Platform, w: World, s: nat, h: nat, period: int)
    requires WellFormed(g) && Shaped(g, w) && s < |g| && g[s].kind.PollHardware? && Program(g, io, w, s, h, period).ok
    ensures Current(g[s], Program(g, io, w, s, h, period).world.rates[s])
  {
    assert Usable(g, s);
  }

  lemma NotingIsCurrent(g: Graph, io: Platform, w: World, s: nat, h: nat, period: int)
    requires WellFormed(g) && Shaped(g, w) && s < |g| && g[s].kind.PollSoftware?
    ensures Current(g[s], NoteMinima(g, io, w, s, h, period).rates[s])
  {
  }

  lemma {:induction false} SetDelayCurrent(g: Graph, io: Platform, w: World, s: nat, h: nat, period: int, timeout: int)
    requires WellFormed(g) && s < |g| && h < MAX_DEVICES && CurrentBelow(g, w, g[s].rank + 1)
    requires SetDelay(g, io, w, s, h, period, timeout).ok
    ensures CurrentBelow(g, SetDelay(g, io, w, s, h, period, timeout).world, g[s].rank + 1)
    decreases g[s].rank, 3, 0
  {
    hide Current, BaseSetDelay, Program, NoteMinima;
    if g[s].kind.EventHardware? || (Polled(g[s]) && w.rates[s].period[h] == period && w.rates[s].timeout[h] == timeout) { return; }
    var stored := if Polled(g[s]) then StoredPeriod(g[s], period, timeout) else period;
    var kept := if g[s].kind.PollSoftware? && period > 0 && timeout < INT64_MAX then ShortenTimeout(timeout) else timeout;
    BaseSetDelayCurrent(g, io, w, s, h, stored, kept);
    var b := BaseSetDelay(g, io, w, s, h, stored, kept).world;
    if g[s].kind.PollHardware? {
      ProgramIsCurrent(g, io, b, s, h, stored);
    } else if g[s].kind.PollSoftware? {
      NotingIsCurrent(g, io, b, s, h, stored);
    }
    OwnNowCurrent(g, w, b, SetDelay(g, io, w, s, h, period, timeout).world, s);
  }

  lemma OwnNowCurrent(g: Graph, w: World, b: World, w': World, s: nat)
    requires s < |g| && CurrentBelow(g, w, g[s].rank + 1) && CurrentBelow(g, b, g[s].rank)
    requires RatesBelow(g, w, b, s) && Shaped(g, w') && w'.rates == b.rates[s := w'.rates[s]]
    requires Polled(g[s]) ==> Current(g[s], w'.rates[s])
    ensures CurrentBelow(g, w', g[s].rank + 1)
  {
    hide Current;
    forall x | 0 <= x < |g| && g[x].rank < g[s].rank + 1 && Polled(g[x]) ensures Current(g[x], w'.rates[x]) {
      if x != s {
        assert w'.rates[x] == b.rates[x];
        if g[x].rank == g[s].rank { assert b.rates[x] == w.rates[x]; }
      }
    }
  }

  lemma {:induction false} BaseSetDelayCurrent(g: Graph, io: Platform, w: World, s: nat, h: nat, period: int, timeout: int)
    requires WellFormed(g) && s < |g| && h < MAX_DEVICES && CurrentBelow(g, w, g[s].rank + 1)
    requires BaseSetDelay(g, io, w, s, h, period, timeout).ok
    ensures CurrentBelow(g, BaseSetDelay(g, io, w, s, h, period, timeout).world, g[s].rank)
    decreases g[s].rank, 2, 0
  {
    hide Current;
    var w1 := WithSlot(w, s, h, period, timeout);
    assert CurrentBelow(g, w1, g[s].rank);
    PushDelaysCurrent(g, io, w1, s, 0);
  }

  lemma {:induction false} PushDelaysCurrent(g: Graph, io: Platform, w: World, s: nat, i: nat)
    requires WellFormed(g) && s < |g| && i <= |g[s].deps| && CurrentBelow(g, w, g[s].rank)
    requires PushDelays(g, io, w, s, i).1 == |g[s].deps|
    ensures CurrentBelow(g, PushDelays(g, io, w, s, i).0, g[s].rank)
    decreases g[s].rank, 1, |g[s].deps| - i
  {
    hide SetDelay, Current;
    if i < |g[s].deps| {
      var d, least, time := g[s].deps[i], MinPeriod(w.rates[s].period), MinTimeout(w.rates[s].timeout);
      SetDelayCurrent(g, io, w, d, s, least, time);
      PushDelaysCurrent(g, io, SetDelay(g, io, w, d, s, least, time).world, s, i + 1);
    }
  }

  lemma {:induction false} EnableCurrent(g: Graph, io: Platform, w: World, s: nat, h: nat, enable: bool)
    requires WellFormed(g) && s < |g| && h < MAX_DEVICES && CurrentBelow(g, w, g[s].rank + 1)
    requires Enable(g, io, w, s, h, enable).ok
    ensures CurrentBelow(g, Enable(g, io, w, s, h, enable).world, g[s].rank + 1)
    decreases g[s].rank, 3, 0
  {
    if h == s && enable == (h in w.masks[s]) {
      assert BaseEnable(g, io, w, s, h, enable) == Outcome(w, true);
      return;
    }
    hide SetDelay, Current;
    if !enable { SetDelayCurrent(g, io, w, s, h, 0, INT64_MAX); }
    if Switches(w.masks[s], h, enable) {
      SwitchesThrough(g, io, w, s, h, enable);
      PushEnablesCurrent(g, io, BeforeSwitchOver(g, io, w, s, h, enable), s, enable, 0, g[s].rank + 1);
    }
  }

  lemma {:induction false} PushEnablesCurrent(g: Graph, io: Platform, w: World, s: nat, enable: bool, i: nat, bound: nat)
    requires WellFormed(g) && s < |g| && i <= |g[s].deps| && g[s].rank < bound && CurrentBelow(g, w, bound)
    requires PushEnables(g, io, w, s, enable, i).1 == |g[s].deps|
    ensures CurrentBelow(g, PushEnables(g, io, w, s, enable, i).0, bound)
    decreases g[s].rank, 1, |g[s].deps| - i
  {
    if i < |g[s].deps| {
      hide Current;
      var d := g[s].deps[i];
      EnableCurrent(g, io, w, d, s, enable);
      hide Enable;
      var w1 := Enable(g, io, w, d, s, enable).world;
      forall x | 0 <= x < |g| && g[x].rank < bound && Polled(g[x]) ensures Current(g[x], w1.rates[x]) {
        if g[x].rank > g[d].rank { assert w1.rates[x] == w.rates[x]; }
      }
      PushEnablesCurrent(g, io, w1, s, enable, i + 1, bound);
    }
  }

  /** Every call of the run is accepted. */
  ghost predicate AllAccepted(g: Graph, io: Platform, w: World, calls: seq<Call>)
    requires WellFormed(g) && Shaped(g, w) && CallsFit(g, calls)
    decreases |calls|
  {
    calls == [] || (Perform(g, io, w, calls[0]).ok && AllAccepted(g, io, Perform(g, io, w, calls[0]).world, calls[1..]))
  }

  lemma {:induction false} AcceptedRunIsCurrent(g: Graph, io: Platform, w: World, wanted: set<nat>, calls: seq<Call>, top: nat)
    requires WellFormed(g) && Covers(g, top) && CurrentBelow(g, w, top) && CallsFit(g, calls) && AllAccepted(g, io, w, calls)
    ensures CurrentBelow(g, Run(g, io, w, wanted, calls).0, top)
    decreases |calls|
  {
    hide Current, SetDelay, Enable;
    if calls != [] {
      var c := calls[0];
      var s, w1 := c.sensor, Perform(g, io, w, c).world;
      match c {
        case Activate(_, enable) => EnableCurrent(g, io, w, s, s, enable);
        case Batch(_, period, timeout) => SetDelayCurrent(g, io, w, s, s, period, timeout);
      }
      forall x | 0 <= x < |g| && Polled(g[x]) ensures Current(g[x], w1.rates[x]) {
        if g[x].rank > g[s].rank { assert w1.rates[x] == w.rates[x]; }
      }
      AcceptedRunIsCurrent(g, io, w1, NextWanted(wanted, c, true), calls[1..], top);
    }
  }

  /** After any run of accepted calls the device of a polled hardware sensor that somebody asks for a period has the
      frequency for the least one asked for, and its data thread has been told that frequency's period last. */
  lemma DevicesServeTheLeast(g: Graph, io: Platform, calls: seq<Call>, top: nat, s: nat)
    requires Rising(io) && WellFormed(g) && Covers(g, top) && CallsFit(g, calls) && AllAccepted(g, io, Initial(|g|), calls)
    requires s < |g| && g[s].kind.PollHardware?
    ensures var r := Run(g, io, Initial(|g|), {}, calls).0.rates[s];
            MinPeriod(r.period) != 0 ==>
              && FirstFast(g[s].table, MinPeriod(r.period), r.frequency)
              && r.odrSwitch != [] && g[s].table[r.frequency] > 0.0
              && r.odrSwitch[|r.odrSwitch| - 1].1 == (1_000_000_000.0 / g[s].table[r.frequency]).Floor
  {
    InitiallyProgrammed(g, io);
    DevicesAreProgrammed(g, io, Initial(|g|), {}, calls);
    InitiallyCurrent(g, top);
    AcceptedRunIsCurrent(g, io, Initial(|g|), {}, calls, top);
    assert Polled(g[s]);
  }

  lemma InitiallyCurrent(g: Graph, top: nat)
    ensures CurrentBelow(g, Initial(|g|), top)
  {
    MinPeriodUnique(IDLE_RATES.period, 0);
  }

  // ---------------------------------------------------------------- what one accepted call queues and stores

  predicate NewRequest(r: Rates, h: nat, period: int, timeout: int)
    requires SlotsShaped(r) && h < MAX_DEVICES
  {
    r.period[h] != period || r.timeout[h] != timeout
  }

  /** An accepted request tells the data thread the new sampling period, and the caller's samples the stored period
      if the caller is the sensor's own client, both with one reading of the clock; exactly when it leaves a least
      period that is not the one in force. */
  lemma HardwareChangeQueued(g: Graph, io: Platform, w: World, s: nat, h: nat, period: int, timeout: int)
    requires WellFormed(g) && Shaped(g, w) && s < |g| && h < MAX_DEVICES && g[s].kind.PollHardware?
    requires NewRequest(w.rates[s], h, period, timeout) && SetDelay(g, io, w, s, h, period, timeout).ok
    ensures var w' := SetDelay(g, io, w, s, h, period, timeout).world; var r, r' := w.rates[s], w'.rates[s];
            if MinPeriod(r'.period) in {0, r.currentPeriod} then r'.odrSwitch == r.odrSwitch && r'.odrStack == r.odrStack
            else r'.frequency < |g[s].table| && g[s].table[r'.frequency] > 0.0 &&
                 exists n: nat :: w.ticks <= n < w'.ticks
                   && r'.odrSwitch == r.odrSwitch + [(io.clock(n), (1_000_000_000.0 / g[s].table[r'.frequency]).Floor)]
                   && r'.odrStack == r.odrStack + if h == s then [(io.clock(n), r'.period[h])] else []
  {
    var stored := StoredPeriod(g[s], period, timeout);
    var b := BaseSetDelay(g, io, w, s, h, stored, timeout).world;
    assert b.rates[s] == WithSlot(w, s, h, stored, timeout).rates[s];
    hide BaseSetDelay;
    assert Usable(g, s);
    var n: nat := b.ticks;
    assert w.ticks <= n;
  }

  /** The same for a software sensor, which has no device: its own client's samples are told when the least period or
      the least timeout changed. */
  lemma SoftwareChangeQueued(g: Graph, io: Platform, w: World, s: nat, h: nat, period: int, timeout: int)
    requires WellFormed(g) && Shaped(g, w) && s < |g| && h < MAX_DEVICES && g[s].kind.PollSoftware?
    requires NewRequest(w.rates[s], h, period, timeout) && SetDelay(g, io, w, s, h, period, timeout).ok
    ensures var w' := SetDelay(g, io, w, s, h, period, timeout).world; var r, r' := w.rates[s], w'.rates[s];
            if h != s || MinPeriod(r'.period) == 0
               || (MinPeriod(r'.period) == r.currentPeriod && MinTimeout(r'.timeout) == r.currentTimeout)
            then r'.odrStack == r.odrStack
            else exists n: nat :: w.ticks <= n < w'.ticks && r'.odrStack == r.odrStack + [(io.clock(n), r'.period[h])]
  {
    var stored := StoredPeriod(g[s], period, timeout);
    var kept := if period > 0 && timeout < INT64_MAX then ShortenTimeout(timeout) else timeout;
    var b := BaseSetDelay(g, io, w, s, h, stored, kept).world;
    assert b.rates[s] == WithSlot(w, s, h, stored, kept).rates[s];
    hide BaseSetDelay;
    var n: nat := b.ticks;
    assert w.ticks <= n;
  }

  /** What an accepted new request leaves in the slots of the caller: a positive period with a finite timeout is
      brought into the sensor's range, and a software sensor keeps half a second of the timeout for itself. */
  lemma RequestStored(g: Graph, io: Platform, w: World, s: nat, h: nat, period: int, timeout: int)
    requires WellFormed(g) && Shaped(g, w) && s < |g| && h < MAX_DEVICES && !g[s].kind.EventHardware?
    requires NewRequest(w.rates[s], h, period, timeout) && SetDelay(g, io, w, s, h, period, timeout).ok
    ensures var c, r := g[s], SetDelay(g, io, w, s, h, period, timeout).world.rates[s];
            var clamps := Polled(c) && period > 0 && timeout < 0x7FFF_FFFF_FFFF_FFFF && 0 < c.maxNs;
            && (clamps ==> r.period[h] == if period > c.maxNs then c.maxNs else if period < c.minNs then c.minNs else period)
            && (!Polled(c) || period <= 0 || timeout >= 0x7FFF_FFFF_FFFF_FFFF ==> r.period[h] == period)
            && r.timeout[h] == (if c.kind.PollSoftware? && period > 0 && timeout < 0x7FFF_FFFF_FFFF_FFFF
                                then (if timeout < 500_000_000 then 0 else timeout - 500_000_000) else timeout)
  {
    assert Usable(g, s);
    hide PushDelays, RestoreDelays;
  }

  /** A sensor without a rate gets one FIFO place per whole second of the timeout, at least 1 and as many as there are. */
  lemma EventWatermark(g: Graph, io: Platform, w: World, s: nat, h: nat, period: int, timeout: int)
    requires WellFormed(g) && Shaped(g, w) && s < |g| && h < MAX_DEVICES && g[s].kind.EventHardware?
    requires ValidNarrow(io.narrow) && 0 <= timeout < 0x7FFF_FFFF_FFFF_FFFF && SetDelay(g, io, w, s, h, period, timeout).ok
    ensures var r, r' := w.rates[s], SetDelay(g, io, w, s, h, period, timeout).world.rates[s];
            && r'.period == r.period && r'.timeout == r.timeout
            && (g[s].fifo == 0 ==> r' == r && timeout == 0)
            && (g[s].fifo > 0 ==> 1 <= r'.watermark <= g[s].fifo && (r'.watermark == 1 || 1_000_000_000 * r'.watermark <= timeout))
            && (g[s].fifo > 0 && timeout < 4_000_000_000_000_000_000 ==>
                  r'.watermark == g[s].fifo || timeout < 1_000_000_000 * (r'.watermark + 1))
  {
    var seconds := timeout / 1_000_000_000;
    assert SamplePeriod(1.0) == 1_000_000_000.0;
    assert (timeout as real / 1_000_000_000.0).Floor == seconds;
  }
}
