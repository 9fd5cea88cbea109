/** Client calls made one after the other on the sensor objects: what the theorems about runs say of the objects
    themselves. */
module ClientRuns {
  import opened RateControl
  import opened SensorGraph
  import opened SensorObjects
  import opened PowerTheorem
  import opened RateTheorem
  import opened RateRuns
  import opened EnableTimes
  import opened DeviceRates

  /** Which calls of a run were accepted. */
  function Answers(g: Graph, io: Platform, w: World, calls: seq<Call>): (r: seq<bool>)
    requires WellFormed(g) && Shaped(g, w) && CallsFit(g, calls)
    ensures |r| == |calls|
    decreases |calls|
  {
    if calls == [] then []
    else
      var r := Perform(g, io, w, calls[0]);
      [r.ok] + Answers(g, io, r.world, calls[1..])
  }

  /** A sensor is in use exactly when a sensor that its client has enabled reaches it, and its device is on
      exactly then. */
  ghost predicate InUseExactly(g: Graph, all: seq<Sensor>, wanted: set<nat>)
    requires WellFormed(g) && |all| == |g|
    reads all
  {
    forall d {:trigger all[d]} :: 0 <= d < |all| ==>
      && (all[d].enabledMask != {} <==> exists s :: s in wanted && s < |g| && Reaches(g, s, d))
      && (all[d].powered <==> g[d].Hardware() && exists s :: s in wanted && s < |g| && Reaches(g, s, d))
  }

  /** A client has enabled its sensor later than it disabled it exactly when it has it enabled, and a sensor came into use
      later than it went out of it exactly when it is in use. */
  ghost predicate TimedExactly(all: seq<Sensor>, wanted: set<nat>)
    reads all
  {
    forall d {:trigger all[d]} :: 0 <= d < |all| ==>
      && (all[d].sensorMyEnable > all[d].sensorMyDisable <==> d in wanted)
      && (all[d].sensorGlobalEnable > all[d].sensorGlobalDisable <==> all[d].enabledMask != {})
  }

  /** Every device has the frequency for the period in force at its sensor. */
  ghost predicate DevicesProgrammed(g: Graph, all: seq<Sensor>, now: int)
    requires |all| == |g|
    reads all
  {
    forall d {:trigger all[d]} :: 0 <= d < |all| && g[d].kind.PollHardware? ==> Programmed(g[d], all[d].RatesOf(), now)
  }

  /** The least period of d serves every request that reaches d, and is what one of them asks for. */
  ghost predicate ServedAt(g: Graph, d: nat, least: int, requests: seq<int>)
    requires |requests| == |g|
  {
    && (forall path :: Path(g, path) && path[|path| - 1] == d && Delivered(g, path, requests[path[0]]) > 0 ==>
          0 < least <= Delivered(g, path, requests[path[0]]))
    && (least != 0 ==> exists path :: Path(g, path) && path[|path| - 1] == d && Delivered(g, path, requests[path[0]]) == least)
  }

  ghost predicate ServedEverywhere(g: Graph, all: seq<Sensor>, requests: seq<int>)
    requires |requests| == |g|
    reads all
  {
    forall d {:trigger all[d]} :: 0 <= d < |all| ==> ServedAt(g, d, MinPeriod(all[d].pollrates), requests)
  }

  lemma FirstCall(g: Graph, io: Platform, w: World, wanted: set<nat>, calls: seq<Call>, i: nat)
    requires WellFormed(g) && Shaped(g, w) && i < |calls| && CallsFit(g, calls[i..])
    ensures calls[i].sensor < |g| && CallsFit(g, calls[i + 1..])
    ensures var r := Perform(g, io, w, calls[i]);
            && Run(g, io, w, wanted, calls[i..]) == Run(g, io, r.world, NextWanted(wanted, calls[i], r.ok), calls[i + 1..])
            && Answers(g, io, w, calls[i..]) == [r.ok] + Answers(g, io, r.world, calls[i + 1..])
  {
    hide Perform;
    assert calls[i..][0] == calls[i] && calls[i..][1..] == calls[i + 1..];
  }

  /** The clients' calls, in turn. */
  method PerformAll(ghost g: Graph, all: seq<Sensor>, kernel: Kernel, calls: seq<Call>) returns (answers: seq<bool>)
    requires Linked(g, all, kernel) && Shaped(g, WorldOf(all, kernel)) && CallsFit(g, calls)
    modifies all, kernel
    ensures Linked(g, all, kernel) && Shaped(g, WorldOf(all, kernel))
    ensures WorldOf(all, kernel) == Run(g, kernel.platform, old(WorldOf(all, kernel)), {}, calls).0
    ensures answers == Answers(g, kernel.platform, old(WorldOf(all, kernel)), calls)
  {
    assert WellFormed(g);
    assert calls[0..] == calls;
    hide Linked, WorldOf, Perform, WellFormed, Run, CallsFit, Shaped, NextWanted;
    answers := [];
    ghost var wanted := {};
    ghost var w := WorldOf(all, kernel);
    for i := 0 to |calls|
      invariant Linked(g, all, kernel) && Shaped(g, WorldOf(all, kernel)) && CallsFit(g, calls[i..])
      invariant Run(g, kernel.platform, WorldOf(all, kernel), wanted, calls[i..]) == Run(g, kernel.platform, w, {}, calls)
      invariant answers + Answers(g, kernel.platform, WorldOf(all, kernel), calls[i..]) == Answers(g, kernel.platform, w, calls)
    {
      FirstCall(g, kernel.platform, WorldOf(all, kernel), wanted, calls, i);
      ghost var before := WorldOf(all, kernel);
      var ok := PerformOne(g, all, kernel, calls[i]);
      assert Perform(g, kernel.platform, before, calls[i]) == Outcome(WorldOf(all, kernel), ok);
      ghost var rest := Answers(g, kernel.platform, WorldOf(all, kernel), calls[i + 1..]);
      assert answers + ([ok] + rest) == (answers + [ok]) + rest;
      wanted := NextWanted(wanted, calls[i], ok);
      answers := answers + [ok];
    }
  }

  method PerformOne(ghost g: Graph, all: seq<Sensor>, kernel: Kernel, c: Call) returns (ok: bool)
    requires Linked(g, all, kernel) && Shaped(g, WorldOf(all, kernel)) && c.sensor < |g|
    modifies all, kernel
    ensures Linked(g, all, kernel) && Shaped(g, WorldOf(all, kernel))
    ensures Outcome(WorldOf(all, kernel), ok) == Perform(g, kernel.platform, old(WorldOf(all, kernel)), c)
  {
    assert all[c.sensor].In(g, all);
    match c {
      case Activate(s, enable) => ok := SensorObjects.Activate(g, all, s, enable);
      case Batch(s, period, timeout) => ok := SensorObjects.Batch(g, all, s, period, timeout);
    }
  }

  lemma {:induction false} SameRun(g: Graph, io: Platform, w: World, wanted: set<nat>, requests: seq<int>, calls: seq<Call>)
    requires WellFormed(g) && Shaped(g, w) && |requests| == |g| && CallsFit(g, calls)
    ensures RequestsAfter(g, io, w, requests, calls).0 == Run(g, io, w, wanted, calls).0
    decreases |calls|
  {
    hide Perform;
    if calls != [] {
      var r := Perform(g, io, w, calls[0]);
      SameRun(g, io, r.world, NextWanted(wanted, calls[0], r.ok), NextRequests(w, requests, calls[0]), calls[1..]);
    }
  }

  /** Objects fresh from their constructors, once linked, are in the initial state. */
  lemma FreshObjects(g: Graph, all: seq<Sensor>, kernel: Kernel)
    requires |all| == |g| && kernel.writes == 0 && kernel.ticks == 0 && !kernel.lost
    requires forall s {:trigger all[s]} :: 0 <= s < |all| ==>
               all[s].enabledMask == {} && !all[s].powered && all[s].RatesOf() == IDLE_RATES && all[s].MarksOf() == NEVER_USED
    ensures WorldOf(all, kernel) == Initial(|g|)
  {
    var w, w0 := WorldOf(all, kernel), Initial(|g|);
    assert w.masks == w0.masks && w.power == w0.power && w.rates == w0.rates && w.marks == w0.marks;
  }

  lemma ObjectsInUse(g: Graph, io: Platform, all: seq<Sensor>, kernel: Kernel, calls: seq<Call>, top: nat)
    requires WellFormed(g) && |all| == |g| && CallsFit(g, calls) && Covers(g, top)
    requires WorldOf(all, kernel) == Run(g, io, Initial(|g|), {}, calls).0 && !kernel.lost
    requires NoRefusedIdleDisable(g, io, Initial(|g|), calls)
    ensures InUseExactly(g, all, Run(g, io, Initial(|g|), {}, calls).1)
  {
    var (w, wanted) := Run(g, io, Initial(|g|), {}, calls);
    assert w.lost == kernel.lost;
    hide Run, NoRefusedIdleDisable, WellFormed;
    forall d {:trigger all[d]} | 0 <= d < |all|
      ensures && (all[d].enabledMask != {} <==> exists s :: s in wanted && s < |g| && Reaches(g, s, d))
              && (all[d].powered <==> g[d].Hardware() && exists s :: s in wanted && s < |g| && Reaches(g, s, d))
    {
      PowerFollowsClients(g, io, top, calls, d);
      assert w.masks[d] == all[d].enabledMask && w.power[d] == all[d].powered;
    }
  }

  lemma ObjectsTimed(g: Graph, io: Platform, all: seq<Sensor>, kernel: Kernel, calls: seq<Call>, top: nat)
    requires Rising(io) && io.clock(0) > 1 && WellFormed(g) && |all| == |g| && CallsFit(g, calls) && Covers(g, top)
    requires WorldOf(all, kernel) == Run(g, io, Initial(|g|), {}, calls).0 && !kernel.lost
    requires NoRefusedIdleDisable(g, io, Initial(|g|), calls)
    ensures TimedExactly(all, Run(g, io, Initial(|g|), {}, calls).1)
  {
    var (w, wanted) := Run(g, io, Initial(|g|), {}, calls);
    assert w.lost == kernel.lost;
    hide Run, NoRefusedIdleDisable, WellFormed, Rising;
    forall d {:trigger all[d]} | 0 <= d < |all|
      ensures && (all[d].sensorMyEnable > all[d].sensorMyDisable <==> d in wanted)
              && (all[d].sensorGlobalEnable > all[d].sensorGlobalDisable <==> all[d].enabledMask != {})
    {
      TimesFollowClients(g, io, top, calls, d);
      assert w.masks[d] == all[d].enabledMask && w.marks[d] == all[d].MarksOf();
    }
  }

  lemma ObjectsProgrammed(g: Graph, io: Platform, all: seq<Sensor>, kernel: Kernel, calls: seq<Call>)
    requires Rising(io) && WellFormed(g) && |all| == |g| && CallsFit(g, calls)
    requires WorldOf(all, kernel) == Run(g, io, Initial(|g|), {}, calls).0
    ensures DevicesProgrammed(g, all, io.clock(kernel.ticks))
  {
    InitiallyProgrammed(g, io);
    DevicesAreProgrammed(g, io, Initial(|g|), {}, calls);
    var w := Run(g, io, Initial(|g|), {}, calls).0;
    hide Run, WellFormed, Rising, Programmed;
    assert w.ticks == kernel.ticks;
    forall d {:trigger all[d]} | 0 <= d < |all| && g[d].kind.PollHardware? ensures Programmed(g[d], all[d].RatesOf(), io.clock(kernel.ticks)) {
      assert w.rates[d] == all[d].RatesOf();
    }
  }

  lemma ObjectsServed(g: Graph, io: Platform, all: seq<Sensor>, kernel: Kernel, calls: seq<Call>, top: nat)
    requires WellFormed(g) && DelaysUsable(g) && |all| == |g| && CallsFit(g, calls) && Covers(g, top)
    requires WorldOf(all, kernel) == Run(g, io, Initial(|g|), {}, calls).0 && RegularRun(g, io, Initial(|g|), calls)
    ensures ServedEverywhere(g, all, RequestsAfter(g, io, Initial(|g|), seq(|g|, _ => 0), calls).1)
  {
    var none := seq(|g|, _ => 0);
    SameRun(g, io, Initial(|g|), {}, none, calls);
    var (w, requests) := RequestsAfter(g, io, Initial(|g|), none, calls);
    hide Run, RequestsAfter, RegularRun, WellFormed;
    forall d {:trigger all[d]} | 0 <= d < |all| ensures ServedAt(g, d, MinPeriod(all[d].pollrates), requests) {
      RatesFollowClients(g, io, top, calls, d);
      assert w.rates[d] == all[d].RatesOf();
    }
  }

  /** The clients' calls on fresh objects.  If no undo call failed and no device refused the disabling of an idle
      hardware sensor, masks and devices follow the sensors the clients have enabled, and so do the times if the clock
      goes on; after a regular run the periods the objects hold follow the clients' requests; and every device has the
      frequency for the period in force at its sensor. */
  method ServeClients(ghost g: Graph, all: seq<Sensor>, kernel: Kernel, calls: seq<Call>, ghost top: nat) returns (answers: seq<bool>)
    requires Linked(g, all, kernel) && WorldOf(all, kernel) == Initial(|g|) && CallsFit(g, calls) && Covers(g, top)
    modifies all, kernel
    ensures Linked(g, all, kernel) && answers == Answers(g, kernel.platform, Initial(|g|), calls)
    ensures NoRefusedIdleDisable(g, kernel.platform, Initial(|g|), calls) && !kernel.lost ==>
              InUseExactly(g, all, Run(g, kernel.platform, Initial(|g|), {}, calls).1)
    ensures NoRefusedIdleDisable(g, kernel.platform, Initial(|g|), calls) && !kernel.lost
            && Rising(kernel.platform) && kernel.platform.clock(0) > 1 ==>
              TimedExactly(all, Run(g, kernel.platform, Initial(|g|), {}, calls).1)
    ensures Rising(kernel.platform) ==> DevicesProgrammed(g, all, kernel.platform.clock(kernel.ticks))
    ensures DelaysUsable(g) && RegularRun(g, kernel.platform, Initial(|g|), calls) ==>
              ServedEverywhere(g, all, RequestsAfter(g, kernel.platform, Initial(|g|), seq(|g|, _ => 0), calls).1)
  {
    answers := PerformAll(g, all, kernel, calls);
    ghost var io := kernel.platform;
    hide WorldOf, Run, RequestsAfter, NoRefusedIdleDisable, RegularRun, InUseExactly, ServedEverywhere, TimedExactly, DevicesProgrammed, Rising;
    if NoRefusedIdleDisable(g, io, Initial(|g|), calls) && !kernel.lost {
      ObjectsInUse(g, io, all, kernel, calls, top);
      if Rising(io) && io.clock(0) > 1 { ObjectsTimed(g, io, all, kernel, calls, top); }
    }
    if Rising(io) { ObjectsProgrammed(g, io, all, kernel, calls); }
    if DelaysUsable(g) && RegularRun(g, io, Initial(|g|), calls) {
      ObjectsServed(g, io, all, kernel, calls, top);
    }
  }
}
