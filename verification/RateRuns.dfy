/** Whole runs of client calls seen through the periods they leave at every sensor. */
module RateRuns {
  import opened RateControl
  import opened SensorGraph
  import opened PowerTheorem
  import opened RateTheorem
  import opened ForgottenRates

  // ---------------------------------------------------------------- paths

  /** A path leads from a sensor down to one it depends on, directly or not. */
  ghost predicate Path(g: Graph, path: seq<nat>) {
    && |path| > 0
    && (forall i :: 0 <= i < |path| ==> path[i] < |g|)
    && (forall i :: 1 <= i < |path| ==> path[i] in g[path[i - 1]].deps)
  }

  /** A stored period as the minimum sees it. */
  function Seen(period: int): (p: int)
    ensures p == 0 || Counts(p)
  {
    if Counts(period) then period else 0
  }

  /** What a request made at the start of the path asks of its end: clamped at every sensor passed. */
  ghost function Delivered(g: Graph, path: seq<nat>, request: int): (p: int)
    requires Path(g, path)
    ensures p == 0 || Counts(p)
  {
    var last := |path| - 1;
    if last == 0 then Seen(Offered(g[path[0]], request))
    else
      ShorterPath(g, path);
      Seen(Offered(g[path[last]], Delivered(g, path[..last], request)))
  }

  lemma ShorterPath(g: Graph, path: seq<nat>)
    requires Path(g, path) && |path| > 1
    ensures Path(g, path[..|path| - 1])
  {
    var shorter := path[..|path| - 1];
    assert forall i :: 0 <= i < |shorter| ==> shorter[i] == path[i];
  }

  /** What the clients want: `requests[s]` is the period last asked for at s and not withdrawn since. */
  ghost predicate RatesInvariant(g: Graph, w: World, requests: seq<int>, top: nat) {
    && RatesSound(g, w, top) && |requests| == |g|
    && (forall s {:trigger requests[s]} :: 0 <= s < |g| ==> w.rates[s].period[s] == Offered(g[s], requests[s]))
    && (forall x: nat, y: nat {:trigger w.rates[y].period[x]} ::
          x < MAX_DEVICES && y < |g| && x != y && !Edge(g, top, x, y) ==> w.rates[y].period[x] == 0)
  }

  lemma OfferedMonotone(g: Graph, d: nat, p: int, q: int)
    requires WellFormed(g) && DelaysUsable(g) && d < |g| && Counts(p) && p <= q && Counts(q) && Counts(Offered(g[d], q))
    ensures Counts(Offered(g[d], p)) && Offered(g[d], p) <= Offered(g[d], q)
  {
    assert Usable(g, d);
  }

  /** No request asks for more than the sensor's least period serves. */
  lemma {:induction false} LeastIsAtMost(g: Graph, w: World, requests: seq<int>, top: nat, path: seq<nat>)
    requires WellFormed(g) && Covers(g, top) && RatesInvariant(g, w, requests, top) && Path(g, path)
    requires Delivered(g, path, requests[path[0]]) > 0
    ensures var least := MinPeriod(w.rates[path[|path| - 1]].period);
            0 < least <= Delivered(g, path, requests[path[0]])
    decreases |path|
  {
    var last := |path| - 1;
    var request := requests[path[0]];
    if last == 0 {
      SlotBounds(w.rates[path[0]].period, path[0]);
    } else {
      ShorterPath(g, path);
      LeastIsAtMost(g, w, requests, top, path[..last]);
      OneStepFurther(g, w, top, path[last - 1], path[last], Delivered(g, path[..last], request));
    }
  }

  lemma SlotBounds(slots: seq<int>, h: nat)
    requires h < |slots| && Counts(slots[h])
    ensures 0 < MinPeriod(slots) <= slots[h]
  {
  }

  lemma OneStepFurther(g: Graph, w: World, top: nat, x: nat, d: nat, v: int)
    requires WellFormed(g) && Covers(g, top) && RatesSound(g, w, top) && x < |g| && d < |g| && d in g[x].deps
    requires 0 < MinPeriod(w.rates[x].period) <= v && Counts(v) && Counts(Offered(g[d], v))
    ensures 0 < MinPeriod(w.rates[d].period) <= Offered(g[d], v)
  {
    assert Edge(g, top, x, d);
    OfferedMonotone(g, d, MinPeriod(w.rates[x].period), v);
    SlotBounds(w.rates[d].period, x);
  }

  /** The least period is the one some request asks for. */
  lemma {:induction false} LeastIsAttained(g: Graph, w: World, requests: seq<int>, top: nat, d: nat) returns (path: seq<nat>)
    requires WellFormed(g) && Covers(g, top) && RatesInvariant(g, w, requests, top) && d < |g|
    requires MinPeriod(w.rates[d].period) != 0
    ensures Path(g, path) && path[|path| - 1] == d
    ensures Delivered(g, path, requests[path[0]]) == MinPeriod(w.rates[d].period)
    decreases top - g[d].rank
  {
    var least := MinPeriod(w.rates[d].period);
    var x: nat :| x < MAX_DEVICES && w.rates[d].period[x] == least;
    if x == d {
      path := [d];
    } else {
      assert Edge(g, top, x, d);
      EdgeRank(g, top, x, d);
      var shorter := LeastIsAttained(g, w, requests, top, x);
      path := ExtendedPath(g, shorter, d, requests[shorter[0]]);
    }
  }

  lemma ExtendedPath(g: Graph, shorter: seq<nat>, d: nat, request: int) returns (path: seq<nat>)
    requires Path(g, shorter) && d < |g| && d in g[shorter[|shorter| - 1]].deps
    ensures Path(g, path) && path == shorter + [d] && path[0] == shorter[0]
    ensures Delivered(g, path, request) == Seen(Offered(g[d], Delivered(g, shorter, request)))
  {
    path := shorter + [d];
    assert path[..|path| - 1] == shorter;
  }

  // ---------------------------------------------------------------- runs

  function NextRequests(w: World, requests: seq<int>, c: Call): seq<int>
    requires c.sensor < |requests| == |w.masks|
  {
    match c
    case Batch(s, period, _) => requests[s := period]
    case Activate(s, enable) => if !enable && s in w.masks[s] then requests[s := 0] else requests
  }

  /** No sensor that only s keeps in use has a rate pending from another client. */
  ghost predicate LeavesNoPending(g: Graph, w: World, requests: seq<int>, s: nat)
    requires WellFormed(g) && s < |g| && |requests| == |g| == |w.masks|
  {
    forall z: nat, y: nat {:trigger Reaches(g, z, y)} ::
      z < |g| && y < |g| && z != s && requests[z] > 0 && Reaches(g, z, y) && Reaches(g, s, y) ==> UsedByOther(g, w, s, y)
  }

  /** The clients use a finite timeout with every positive period, no call fails, and no sensor is switched
      off whose going out of use makes a rate forgotten. */
  ghost predicate Regular(g: Graph, io: Platform, w: World, c: Call)
    requires WellFormed(g) && Shaped(g, w)
  {
    && c.sensor < |g|
    && Perform(g, io, w, c).ok
    && (c.Batch? && c.period > 0 ==> c.timeout < INT64_MAX)
    && (c.Activate? && !c.enable && c.sensor in w.masks[c.sensor] ==> ForgetsNone(g, w, c.sensor))
  }

  ghost predicate RegularRun(g: Graph, io: Platform, w: World, calls: seq<Call>)
    requires WellFormed(g) && Shaped(g, w)
    decreases |calls|
  {
    calls == [] ||
    (Regular(g, io, w, calls[0]) && RegularRun(g, io, Perform(g, io, w, calls[0]).world, calls[1..]))
  }

  ghost function RequestsAfter(g: Graph, io: Platform, w: World, requests: seq<int>, calls: seq<Call>): (r: (World, seq<int>))
    requires WellFormed(g) && Shaped(g, w) && |requests| == |g| && CallsFit(g, calls)
    ensures Shaped(g, r.0) && |r.1| == |g|
    decreases |calls|
  {
    if calls == [] then (w, requests)
    else RequestsAfter(g, io, Perform(g, io, w, calls[0]).world, NextRequests(w, requests, calls[0]), calls[1..])
  }

  ghost predicate Sound(g: Graph, w: World, wanted: set<nat>, requests: seq<int>, top: nat) {
    Covers(g, top) && RunInvariant(g, w, wanted, top) && RatesInvariant(g, w, requests, top)
  }

  lemma {:induction false} BatchKeeps(g: Graph, io: Platform, w: World, wanted: set<nat>, requests: seq<int>, top: nat, c: Call)
    requires WellFormed(g) && Sound(g, w, wanted, requests, top) && Regular(g, io, w, c) && c.Batch?
    ensures RatesInvariant(g, Perform(g, io, w, c).world, NextRequests(w, requests, c), top)
  {
    NoLoop(g, top, c.sensor);
    SetDelaySeenFrom(g, io, w, top, c.sensor, c.sensor, c.period, c.timeout);
    FreeSlotsInvariant(g, w, Perform(g, io, w, c).world, requests, top, c.sensor, c.period);
  }

  lemma FreeSlotsInvariant(g: Graph, w: World, w': World, requests: seq<int>, top: nat, s: nat, period: int)
    requires WellFormed(g) && s < |g| && RatesInvariant(g, w, requests, top)
    requires RatesSound(g, w', top) && FreeSlots(g, w, w', top, [s], s, period)
    ensures RatesInvariant(g, w', requests[s := period], top)
  {
    forall x | 0 <= x < |g| ensures w'.rates[x].period[x] == Offered(g[x], requests[s := period][x]) {
      NoLoop(g, top, x);
    }
  }

  lemma {:induction false} DisableKeeps(g: Graph, io: Platform, w: World, wanted: set<nat>, requests: seq<int>, top: nat, c: Call)
    requires WellFormed(g) && Sound(g, w, wanted, requests, top) && Regular(g, io, w, c)
    requires c.Activate? && !c.enable && c.sensor in w.masks[c.sensor]
    ensures RatesInvariant(g, Perform(g, io, w, c).world, NextRequests(w, requests, c), top)
  {
    NothingForgotten(g, io, w, top, c.sensor);
    FreeSlotsInvariant(g, w, Perform(g, io, w, c).world, requests, top, c.sensor, 0);
  }

  lemma {:induction false} RegularKeeps(g: Graph, io: Platform, w: World, wanted: set<nat>, requests: seq<int>, top: nat, c: Call)
    requires WellFormed(g) && Sound(g, w, wanted, requests, top) && Regular(g, io, w, c)
    ensures Sound(g, Perform(g, io, w, c).world, NextWanted(wanted, c, true), NextRequests(w, requests, c), top)
  {
    var s := c.sensor;
    var r := Perform(g, io, w, c);
    NoLoop(g, top, s);
    if c.Activate? {
      if !IdleDisable(g, w, s, s, c.enable) { EnableSeenFrom(g, io, w, top, s, s, c.enable); }
      if c.enable {
        EnableKeepsRates(g, io, w, s, s);
        SameRates(g, w, r.world, requests, top);
      } else if s in w.masks[s] {
        DisableKeeps(g, io, w, wanted, requests, top, c);
      } else {
        assert BaseEnable(g, io, w, s, s, false) == Outcome(w, true);
        assert r == Concluded(g, io, w, s, s, false, Switches(w.masks[s], s, false));
        SameRates(g, w, r.world, requests, top);
      }
    } else {
      BatchKeeps(g, io, w, wanted, requests, top, c);
    }
    PerformKeeps(g, io, w, wanted, top, c);
  }

  lemma SameRates(g: Graph, w: World, w': World, requests: seq<int>, top: nat)
    requires RatesInvariant(g, w, requests, top) && Shaped(g, w') && w'.rates == w.rates
    ensures RatesInvariant(g, w', requests, top)
  {
  }

  lemma {:induction false} RegularRunKeeps(g: Graph, io: Platform, w: World, wanted: set<nat>, requests: seq<int>, top: nat, calls: seq<Call>)
    requires WellFormed(g) && Sound(g, w, wanted, requests, top) && CallsFit(g, calls) && RegularRun(g, io, w, calls)
    ensures var (w', requests') := RequestsAfter(g, io, w, requests, calls); RatesInvariant(g, w', requests', top)
    decreases |calls|
  {
    if calls != [] {
      RegularKeeps(g, io, w, wanted, requests, top, calls[0]);
      var w1 := Perform(g, io, w, calls[0]).world;
      RegularRunKeeps(g, io, w1, NextWanted(wanted, calls[0], true), NextRequests(w, requests, calls[0]), top, calls[1..]);
    }
  }

  /** After any regular run the least period at d serves every request that reaches d along any
      path, clamped on the way, and is itself what one such request asks for. */
  lemma {:induction false} RatesFollowClients(g: Graph, io: Platform, top: nat, calls: seq<Call>, d: nat)
    requires WellFormed(g) && DelaysUsable(g) && Covers(g, top) && CallsFit(g, calls) && d < |g|
    requires RegularRun(g, io, Initial(|g|), calls)
    ensures var (w, requests) := RequestsAfter(g, io, Initial(|g|), seq(|g|, _ => 0), calls);
            var least := MinPeriod(w.rates[d].period);
            && (forall path :: Path(g, path) && path[|path| - 1] == d && Delivered(g, path, requests[path[0]]) > 0 ==>
                  0 < least <= Delivered(g, path, requests[path[0]]))
            && (least != 0 ==> exists path :: Path(g, path) && path[|path| - 1] == d && Delivered(g, path, requests[path[0]]) == least)
  {
    var none := seq(|g|, _ => 0);
    InitiallySound(g, top);
    RegularRunKeeps(g, io, Initial(|g|), {}, none, top, calls);
    var (w, requests) := RequestsAfter(g, io, Initial(|g|), none, calls);
    forall path | Path(g, path) && path[|path| - 1] == d && Delivered(g, path, requests[path[0]]) > 0
      ensures 0 < MinPeriod(w.rates[d].period) <= Delivered(g, path, requests[path[0]])
    {
      LeastIsAtMost(g, w, requests, top, path);
    }
    if MinPeriod(w.rates[d].period) != 0 {
      var path := LeastIsAttained(g, w, requests, top, d);
    }
  }

  lemma InitiallySound(g: Graph, top: nat)
    requires WellFormed(g) && DelaysUsable(g) && Covers(g, top)
    ensures Sound(g, Initial(|g|), {}, seq(|g|, _ => 0), top)
  {
    var w := Initial(|g|);
    MinPeriodUnique(IDLE_RATES.period, 0);
    forall x: nat, y: nat | Edge(g, top, x, y)
      ensures y < |g| && w.rates[y].period[x] == Offered(g[y], MinPeriod(w.rates[x].period))
    {
      EdgeRank(g, top, x, y);
    }
  }

  /** What a polled sensor stores for a positive request that it accepts and has not stored already is the
      clamped period exactly when the timeout is finite or the request lies within the range. */
  lemma StoredIsClamped(g: Graph, io: Platform, w: World, s: nat, h: nat, period: int, timeout: int)
    requires WellFormed(g) && Shaped(g, w) && s < |g| && h < MAX_DEVICES && period > 0
    requires g[s].kind.PollHardware? || g[s].kind.PollSoftware?
    requires w.rates[s].period[h] != period || w.rates[s].timeout[h] != timeout
    requires SetDelay(g, io, w, s, h, period, timeout).ok
    ensures SetDelay(g, io, w, s, h, period, timeout).world.rates[s].period[h] == ClampTo(g[s].minNs, g[s].maxNs, period)
            <==> timeout < INT64_MAX || g[s].minNs <= period <= g[s].maxNs
  {
    assert Usable(g, s);
    hide BaseSetDelay;
  }

  /** Without a finite timeout a period is not clamped: the restriction on clients is needed. */
  lemma UnclampedWithoutTimeout(io: Platform, period: int)
    requires io.accepts(0) && 2000 < period < INT64_MAX
    ensures var g := [Config(PollHardware, [], 0, 0, 1000, 2000, [100.0])];
            var r := SetDelay(g, io, Initial(1), 0, 0, period, INT64_MAX);
            WellFormed(g) && DelaysUsable(g) && r.ok && r.world.rates[0].period[0] == period != Offered(g[0], period)
  {
    var g := [Config(PollHardware, [], 0, 0, 1000, 2000, [100.0])];
    var w1 := WithSlot(Initial(1), 0, 0, period, INT64_MAX);
    LoneProgram(g, io, w1, period);
    hide Program;
    assert PushDelays(g, io, w1, 0, 0) == (w1, 0);
    assert BaseSetDelay(g, io, Initial(1), 0, 0, period, INT64_MAX) == Outcome(w1, true);
  }

  lemma LoneProgram(g: Graph, io: Platform, w: World, period: int)
    requires g == [Config(PollHardware, [], 0, 0, 1000, 2000, [100.0])] && Shaped(g, w) && io.accepts(w.writes)
    ensures WellFormed(g) && Program(g, io, w, 0, 0, period).ok
  {
  }

  // ---------------------------------------------------------------- rates that are forgotten

  /** A rate asked for arrives along the path at a sensor that does not use the last step of it. */
  ghost predicate Pending(g: Graph, w: World, requests: seq<int>, path: seq<nat>)
    requires Shaped(g, w) && |requests| == |g|
  {
    && Path(g, path) && Delivered(g, path, requests[path[0]]) > 0
    && (if |path| == 1 then path[0] !in w.masks[path[0]] else w.masks[path[|path| - 2]] == {})
  }

  /** In terms of the clients: disabling s makes a rate forgotten exactly when a request not withdrawn is pending
      at a sensor that goes out of use and passes rates on. */
  lemma ForgetsExactlyPending(g: Graph, w: World, wanted: set<nat>, requests: seq<int>, top: nat, s: nat)
    requires WellFormed(g) && Sound(g, w, wanted, requests, top) && s < |g|
    ensures ForgetsNone(g, w, s) <==>
            forall path :: Pending(g, w, requests, path) && GoesOut(g, w, s, path[|path| - 1]) ==> !PassesOn(g, path[|path| - 1])
  {
    forall y: nat, h: nat | Forgets(g, w, s, y, h)
      ensures exists path :: Pending(g, w, requests, path) && path[|path| - 1] == y
    {
      var path := PendingPath(g, w, requests, top, y, h);
    }
    forall path | Pending(g, w, requests, path) && GoesOut(g, w, s, path[|path| - 1]) && PassesOn(g, path[|path| - 1])
      ensures exists y: nat, h: nat :: Forgets(g, w, s, y, h)
    {
      var h := PendingSlot(g, w, requests, top, path);
      assert Forgets(g, w, s, path[|path| - 1], h);
    }
  }

  lemma PendingPath(g: Graph, w: World, requests: seq<int>, top: nat, y: nat, h: nat) returns (path: seq<nat>)
    requires WellFormed(g) && Covers(g, top) && Consistent(g, w, top) && RatesInvariant(g, w, requests, top)
    requires y < |g| && h < MAX_DEVICES && Counts(w.rates[y].period[h]) && h !in w.masks[y]
    ensures Pending(g, w, requests, path) && path[|path| - 1] == y
  {
    if h == y {
      path := [y];
    } else {
      assert Edge(g, top, h, y);
      EdgeRank(g, top, h, y);
      var shorter := LeastIsAttained(g, w, requests, top, h);
      path := ExtendedPath(g, shorter, y, requests[shorter[0]]);
    }
  }

  lemma PendingSlot(g: Graph, w: World, requests: seq<int>, top: nat, path: seq<nat>) returns (h: nat)
    requires WellFormed(g) && Covers(g, top) && Consistent(g, w, top) && RatesInvariant(g, w, requests, top)
    requires Pending(g, w, requests, path)
    ensures var y := path[|path| - 1];
            h < MAX_DEVICES && Counts(w.rates[y].period[h]) && h !in w.masks[y]
  {
    var last := |path| - 1;
    if last == 0 {
      h := path[0];
    } else {
      h := path[last - 1];
      assert Edge(g, top, h, path[last]);
      ShorterPath(g, path);
      LeastIsAtMost(g, w, requests, top, path[..last]);
      OfferedMonotone(g, path[last], MinPeriod(w.rates[h].period), Delivered(g, path[..last], requests[path[0]]));
    }
  }

  // ---------------------------------------------------------------- a run that forgets

  /** Software sensors with a FIFO accept every call. */
  ghost predicate NeverRefuses(g: Graph) {
    WellFormed(g) && forall s {:trigger g[s]} :: 0 <= s < |g| ==> g[s].kind.BaseSoftware? && g[s].fifo > 0
  }

  lemma {:induction false} DelayAccepted(g: Graph, io: Platform, w: World, s: nat, h: nat, period: int, timeout: int)
    requires NeverRefuses(g) && Shaped(g, w) && s < |g| && h < MAX_DEVICES
    ensures SetDelay(g, io, w, s, h, period, timeout).ok
    decreases g[s].rank, 2, 0
  {
    DelaysAccepted(g, io, WithSlot(w, s, h, period, timeout), s, 0);
  }

  lemma {:induction false} DelaysAccepted(g: Graph, io: Platform, w: World, s: nat, i: nat)
    requires NeverRefuses(g) && Shaped(g, w) && s < |g| && i <= |g[s].deps|
    ensures PushDelays(g, io, w, s, i).1 == |g[s].deps|
    decreases g[s].rank, 1, |g[s].deps| - i
  {
    if i < |g[s].deps| {
      var d, least, time := g[s].deps[i], MinPeriod(w.rates[s].period), MinTimeout(w.rates[s].timeout);
      DelayAccepted(g, io, w, d, s, least, time);
      DelaysAccepted(g, io, SetDelay(g, io, w, d, s, least, time).world, s, i + 1);
    }
  }

  lemma {:induction false} SwitchAccepted(g: Graph, io: Platform, w: World, s: nat, h: nat, enable: bool)
    requires NeverRefuses(g) && Shaped(g, w) && s < |g| && h < MAX_DEVICES
    ensures Enable(g, io, w, s, h, enable).ok
    decreases g[s].rank, 2, 0
  {
    DelayAccepted(g, io, w, s, h, 0, INT64_MAX);
    var v := if enable then w else SetDelay(g, io, w, s, h, 0, INT64_MAX).world;
    var w0 := WithBit(v, s, h, enable);
    SwitchesAccepted(g, io, if enable then WithReset(w0, s) else w0, s, enable, 0);
    if !(h == s && enable == (h in w.masks[s])) && Switches(w.masks[s], h, enable) { SwitchesThrough(g, io, w, s, h, enable); }
  }

  lemma {:induction false} SwitchesAccepted(g: Graph, io: Platform, w: World, s: nat, enable: bool, i: nat)
    requires NeverRefuses(g) && Shaped(g, w) && s < |g| && i <= |g[s].deps|
    ensures PushEnables(g, io, w, s, enable, i).1 == |g[s].deps|
    decreases g[s].rank, 1, |g[s].deps| - i
  {
    if i < |g[s].deps| {
      SwitchAccepted(g, io, w, g[s].deps[i], s, enable);
      SwitchesAccepted(g, io, Enable(g, io, w, g[s].deps[i], s, enable).world, s, enable, i + 1);
    }
  }

  /** 0 <- 1 <- 2. */
  const CHAIN: Graph := [Config(BaseSoftware, [], 0, 1, 0, 1, []),
                         Config(BaseSoftware, [0], 1, 1, 0, 1, []),
                         Config(BaseSoftware, [1], 2, 1, 0, 1, [])]

  lemma ChainNeverRefuses()
    ensures NeverRefuses(CHAIN) && DelaysUsable(CHAIN) && Covers(CHAIN, 3)
  {
  }

  /** The restriction on disabling is needed: the client of 2 asks for a period, the client of 1 switches it on and
      off again, and when 2 is switched on nobody asks 0 for any period, though 2 and 1 have one asked for. */
  lemma DisableForgetsPending(io: Platform, period: int)
    requires 0 < period < INT64_MAX
    ensures WellFormed(CHAIN)
    ensures var r1 := Perform(CHAIN, io, Initial(3), Batch(2, period, 0));
            var r2 := Perform(CHAIN, io, r1.world, Activate(1, true));
            var r3 := Perform(CHAIN, io, r2.world, Activate(1, false));
            var r4 := Perform(CHAIN, io, r3.world, Activate(2, true));
            && r1.ok && r2.ok && r3.ok && r4.ok
            && r4.world.masks[2] != {} && r4.world.masks[1] != {} && r4.world.masks[0] != {}
            && MinPeriod(r4.world.rates[2].period) == period == MinPeriod(r4.world.rates[1].period)
            && MinPeriod(r4.world.rates[0].period) == 0
  {
    hide Perform, Run, WellFormed, MinPeriod, Consistent, RatesSound, SetDelay, Enable;
    ChainNeverRefuses();
    var w2, requests := ChainInUse(io, period);
    ChainForgets(io, w2, requests, period);
    var w3 := Perform(CHAIN, io, w2, Activate(1, false)).world;
    ChainSwitchedOn(io, w3);
  }

  /** After the first two calls 2 waits with its period, and 1 is in use. */
  lemma ChainInUse(io: Platform, period: int) returns (w2: World, requests: seq<int>)
    requires NeverRefuses(CHAIN) && DelaysUsable(CHAIN) && Covers(CHAIN, 3) && 0 < period < INT64_MAX
    ensures var r1 := Perform(CHAIN, io, Initial(3), Batch(2, period, 0)); var r2 := Perform(CHAIN, io, r1.world, Activate(1, true));
            r1.ok && r2.ok && w2 == r2.world && requests == [0, 0, period] && Sound(CHAIN, w2, {1}, requests, 3)
  {
    hide Enable, SetDelay, RatesInvariant;
    InitiallySound(CHAIN, 3);
    var w, none := Initial(3), seq(3, _ => 0);
    var c1, c2 := Batch(2, period, 0), Activate(1, true);
    DelayAccepted(CHAIN, io, w, 2, 2, period, 0);
    RegularKeeps(CHAIN, io, w, {}, none, 3, c1);
    var w1 := Perform(CHAIN, io, w, c1).world;
    SwitchAccepted(CHAIN, io, w1, 1, 1, true);
    requests := NextRequests(w, none, c1);
    RegularKeeps(CHAIN, io, w1, {}, requests, 3, c2);
    w2 := Perform(CHAIN, io, w1, c2).world;
    assert {} + {1} == {1};
  }

  lemma ChainEdges(x: nat, y: nat)
    ensures Edge(CHAIN, 3, x, y) <==> (x == 1 && y == 0) || (x == 2 && y == 1)
  {
  }

  /** The period of 2 waits at 2 and at 1, and neither uses it. */
  lemma ChainPending(w: World, requests: seq<int>, period: int)
    requires 0 < period < INT64_MAX && requests == [0, 0, period] && Sound(CHAIN, w, {1}, requests, 3)
    ensures w.masks[2] == {} && 2 !in w.masks[1] && 1 in w.masks[1]
    ensures forall x: nat {:trigger x in w.masks[0]} :: x != 1 ==> x !in w.masks[0]
    ensures forall x: nat {:trigger w.rates[1].period[x]} :: x < MAX_DEVICES ==> w.rates[1].period[x] == if x == 2 then period else 0
    ensures forall x: nat {:trigger w.rates[2].period[x]} :: x < MAX_DEVICES ==> w.rates[2].period[x] == if x == 2 then period else 0
    ensures forall x: nat {:trigger w.rates[0].period[x]} :: x < MAX_DEVICES && x != 1 ==> w.rates[0].period[x] == 0
  {
    forall x: nat, y: nat ensures Edge(CHAIN, 3, x, y) <==> (x == 1 && y == 0) || (x == 2 && y == 1) { ChainEdges(x, y); }
    assert Edge(CHAIN, 3, 2, 1);
    var wanted := {1};
    assert 0 !in wanted && 1 in wanted && 2 !in wanted;
    assert forall x: nat :: x !in w.masks[2];
    assert requests[0] == 0 && requests[1] == 0 && requests[2] == period;
    OnlyPeriod(w.rates[2].period, 2, period);
  }

  lemma OnlyPeriod(slots: seq<int>, h: nat, period: int)
    requires h < |slots| && 0 < period < INT64_MAX && slots[h] == period
    requires forall x :: 0 <= x < |slots| && x != h ==> slots[x] == 0
    ensures MinPeriod(slots) == period
  {
    MinPeriodUnique(slots, period);
  }

  lemma ChainForgets(io: Platform, w: World, requests: seq<int>, period: int)
    requires NeverRefuses(CHAIN) && Covers(CHAIN, 3) && 0 < period < INT64_MAX && requests == [0, 0, period] && Sound(CHAIN, w, {1}, requests, 3)
    ensures var r := Perform(CHAIN, io, w, Activate(1, false));
            && r.ok && RunInvariant(CHAIN, r.world, {}, 3)
            && MinPeriod(r.world.rates[2].period) == period == MinPeriod(r.world.rates[1].period)
            && MinPeriod(r.world.rates[0].period) == 0
  {
    hide Enable, RatesInvariant;
    ChainPending(w, requests, period);
    SwitchAccepted(CHAIN, io, w, 1, 1, false);
    ChainOff(io, w);
    var w' := Enable(CHAIN, io, w, 1, 1, false).world;
    OnlyPeriod(w'.rates[2].period, 2, period);
    OnlyPeriod(w'.rates[1].period, 2, period);
    MinPeriodUnique(w'.rates[0].period, 0);
  }

  lemma ChainOff(io: Platform, w: World)
    requires NeverRefuses(CHAIN) && Covers(CHAIN, 3) && RunInvariant(CHAIN, w, {1}, 3) && Enable(CHAIN, io, w, 1, 1, false).ok
    ensures var w' := Enable(CHAIN, io, w, 1, 1, false).world;
            RunInvariant(CHAIN, w', {}, 3) && UnheldKept(CHAIN, w, w') && w'.rates[1].period[1] == 0 && w'.rates[0].period[1] == 0
  {
    hide Enable;
    NoLoop(CHAIN, 3, 1);
    NoLoop(CHAIN, 2, 1);
    EnableSeenFrom(CHAIN, io, w, 3, 1, 1, false);
    PerformKeeps(CHAIN, io, w, {1}, 3, Activate(1, false));
    assert {1} - {1} == {};
    LowerBound(CHAIN, w, 3, 2);
    DisableWithdraws(CHAIN, io, w, 1, 1);
    var wanted := {1};
    assert 0 !in wanted && 2 !in wanted;
    assert Reaches(CHAIN, 1, 1);
    GoneAfter(CHAIN, io, w, {1}, 3, 1, 1);
    assert Below(CHAIN, 1, 0);
  }

  lemma ChainSwitchedOn(io: Platform, w: World)
    requires NeverRefuses(CHAIN) && Covers(CHAIN, 3) && RunInvariant(CHAIN, w, {}, 3)
    ensures var r := Perform(CHAIN, io, w, Activate(2, true));
            r.ok && r.world.rates == w.rates && r.world.masks[2] != {} && r.world.masks[1] != {} && r.world.masks[0] != {}
  {
    hide Enable;
    var c := Activate(2, true);
    SwitchAccepted(CHAIN, io, w, 2, 2, true);
    NoLoop(CHAIN, 3, 2);
    EnableSeenFrom(CHAIN, io, w, 3, 2, 2, true);
    EnableKeepsRates(CHAIN, io, w, 2, 2);
    PerformKeeps(CHAIN, io, w, {}, 3, c);
    var w' := Perform(CHAIN, io, w, c).world;
    assert 2 in w'.masks[2];
    assert Edge(CHAIN, 3, 2, 1) && Edge(CHAIN, 3, 1, 0);
  }
}
