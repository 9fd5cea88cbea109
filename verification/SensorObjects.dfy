/** The sensors as objects that update their own fields and call each other, proved to compute the
    functions of module SensorGraph on the state of the whole graph. */
module SensorObjects {
  import opened RateControl
  import opened SensorGraph

  /** The kernel side: device writes and readings of the clock are answered by a script nobody here controls. */
  class Kernel {
    const platform: Platform
    var writes: nat
    var ticks: nat
    ghost var lost: bool

    constructor (platform: Platform)
      ensures this.platform == platform && writes == 0 && ticks == 0 && !lost
    {
      this.platform := platform;
      writes, ticks := 0, 0;
      lost := false;
    }

    /** elapsedRealtimeNano. */
    method Now() returns (t: int)
      modifies this`ticks
      ensures t == platform.clock(old(ticks)) && ticks == old(ticks) + 1
    {
      t := platform.clock(ticks);
      ticks := ticks + 1;
    }

    method Write() returns (ok: bool)
      modifies this`writes
      ensures ok == platform.accepts(old(writes)) && writes == old(writes) + 1
    {
      ok := platform.accepts(writes);
      writes := writes + 1;
    }
  }

  class Sensor {
    const handle: nat
    const config: Config
    const kernel: Kernel
    var dependencies: seq<Sensor>
    var enabledMask: set<nat>
    var powered: bool
    var pollrates: seq<int>
    var timeouts: seq<int>
    var currentMinPollrate: int
    var currentMinTimeout: int
    var frequency: nat
    var watermark: nat
    var odrSwitch: seq<(int, int)>   // rate changes queued so far for the data thread, with their times
    var odrStack: seq<(int, int)>    // ... and for the client's samples
    var sensorGlobalEnable: int
    var sensorGlobalDisable: int
    var sensorMyEnable: int
    var sensorMyDisable: int
    var flushStackResets: nat

    constructor (handle: nat, config: Config, kernel: Kernel)
      ensures this.handle == handle && this.config == config && this.kernel == kernel
      ensures dependencies == [] && enabledMask == {} && !powered && RatesOf() == IDLE_RATES && MarksOf() == NEVER_USED
    {
      this.handle, this.config, this.kernel := handle, config, kernel;
      dependencies, enabledMask, powered := [], {}, false;
      pollrates, timeouts := seq(MAX_DEVICES, _ => 0), seq(MAX_DEVICES, _ => INT64_MAX);
      currentMinPollrate, currentMinTimeout, frequency, watermark := 0, INT64_MAX, 0, 1;
      odrSwitch, odrStack := [], [];
      sensorGlobalEnable, sensorGlobalDisable, sensorMyEnable, sensorMyDisable, flushStackResets := 0, 1, 0, 1, 0;
    }

    ghost function RatesOf(): Rates
      reads this
    {
      Rates(pollrates, timeouts, currentMinPollrate, currentMinTimeout, frequency, watermark, odrSwitch, odrStack)
    }

    ghost function MarksOf(): Marks
      reads this
    {
      Marks(sensorGlobalEnable, sensorGlobalDisable, sensorMyEnable, sensorMyDisable, flushStackResets)
    }

    ghost predicate In(g: Graph, all: seq<Sensor>)
      reads all, kernel
    {
      Linked(g, all, kernel) && Shaped(g, WorldOf(all, kernel)) && handle < |g| && all[handle] == this
    }

    // -------------------------------------------------------------- single updates

    /** This object is linked as the graph says. */
    ghost predicate OwnLinks(g: Graph, all: seq<Sensor>)
      reads this
    {
      && handle < |all| == |g| && all[handle] == this && config == g[handle]
      && |pollrates| == |timeouts| == MAX_DEVICES && |dependencies| == |g[handle].deps|
      && forall i {:trigger dependencies[i]} :: 0 <= i < |dependencies| ==>
           g[handle].deps[i] < |all| && dependencies[i] == all[g[handle].deps[i]]
    }

    /** The other objects are linked as the graph says, and their fields are those of w: nothing that a step
        on this object alone can change. */
    ghost predicate Others(g: Graph, all: seq<Sensor>, w: World)
      reads set x | x in all && x != this
    {
      && WellFormed(g) && |all| == |g| && Shaped(g, w)
      && forall s {:trigger all[s]} :: 0 <= s < |all| ==>
           && all[s].handle == s && all[s].config == g[s] && all[s].kernel == kernel
           && (all[s] != this ==>
                 && |all[s].pollrates| == MAX_DEVICES && |all[s].timeouts| == MAX_DEVICES
                 && |all[s].dependencies| == |g[s].deps|
                 && (forall i {:trigger all[s].dependencies[i]} :: 0 <= i < |g[s].deps| ==>
                       g[s].deps[i] < |all| && all[s].dependencies[i] == all[g[s].deps[i]])
                 && all[s].enabledMask == w.masks[s] && all[s].powered == w.power[s]
                 && all[s].RatesOf() == w.rates[s] && all[s].MarksOf() == w.marks[s])
    }

    lemma Before(g: Graph, all: seq<Sensor>)
      requires In(g, all)
      ensures OwnLinks(g, all) && Others(g, all, WorldOf(all, kernel))
      ensures var w := WorldOf(all, kernel);
              && w.masks[handle] == enabledMask && w.power[handle] == powered
              && w.rates[handle] == RatesOf() && w.marks[handle] == MarksOf()
              && w.writes == kernel.writes && w.ticks == kernel.ticks && w.lost == kernel.lost
    {
    }

    /** A step that wrote only fields of this object, and not its links, changes the state of the graph only
        in its place. */
    lemma Settle(g: Graph, all: seq<Sensor>, w: World)
      requires OwnLinks(g, all) && Others(g, all, w)
      ensures In(g, all)
      ensures var w' := WorldOf(all, kernel);
              && w'.masks == w.masks[handle := enabledMask] && w'.power == w.power[handle := powered]
              && w'.rates == w.rates[handle := RatesOf()] && w'.marks == w.marks[handle := MarksOf()]
              && w'.writes == kernel.writes && w'.ticks == kernel.ticks && w'.lost == kernel.lost
              && (enabledMask == w.masks[handle] ==> w'.masks == w.masks) && (powered == w.power[handle] ==> w'.power == w.power)
              && (RatesOf() == w.rates[handle] ==> w'.rates == w.rates) && (MarksOf() == w.marks[handle] ==> w'.marks == w.marks)
    {
      var w' := WorldOf(all, kernel);
      forall i | 0 <= i < |all|
        ensures w'.masks[i] == w.masks[handle := enabledMask][i] && w'.power[i] == w.power[handle := powered][i]
        ensures w'.rates[i] == w.rates[handle := RatesOf()][i] && w'.marks[i] == w.marks[handle := MarksOf()][i]
      {
        if i != handle { assert all[i].RatesOf() == w.rates[i]; }
      }
      assert Linked(g, all, kernel);
    }

    method StoreSlot(ghost g: Graph, ghost all: seq<Sensor>, h: nat, period: int, timeout: int)
      requires In(g, all) && h < MAX_DEVICES
      modifies this
      ensures In(g, all) && dependencies == old(dependencies)
      ensures WorldOf(all, kernel) == WithSlot(old(WorldOf(all, kernel)), handle, h, period, timeout)
    {
      Before(g, all);
      ghost var w := WorldOf(all, kernel);
      hide Others, OwnLinks, In, WorldOf;
      pollrates := pollrates[h := period];
      timeouts := timeouts[h := timeout];
      Settle(g, all, w);
    }

    method StoreBit(ghost g: Graph, ghost all: seq<Sensor>, h: nat, enable: bool)
      requires In(g, all)
      modifies this
      ensures In(g, all) && dependencies == old(dependencies)
      ensures WorldOf(all, kernel) == WithBit(old(WorldOf(all, kernel)), handle, h, enable)
    {
      Before(g, all);
      ghost var w := WorldOf(all, kernel);
      hide Others, OwnLinks, In, WorldOf;
      enabledMask := if enable then enabledMask + {h} else enabledMask - {h};
      Settle(g, all, w);
    }

    // -------------------------------------------------------------- SetDelay

    method BaseSetDelay(ghost g: Graph, ghost all: seq<Sensor>, h: nat, period: int, timeout: int) returns (ok: bool)
      requires In(g, all) && h < MAX_DEVICES
      modifies all, kernel
      ensures In(g, all)
      ensures Outcome(WorldOf(all, kernel), ok)
              == SensorGraph.BaseSetDelay(g, kernel.platform, old(WorldOf(all, kernel)), handle, h, period, timeout)
      decreases g[handle].rank, 2
    {
      hide SensorGraph.SetDelay;
      if timeout > 0 && timeout < INT64_MAX && config.fifo == 0 {
        return false;
      }
      var restorePeriod, restoreTimeout := pollrates[h], timeouts[h];
      StoreSlot(g, all, h, period, timeout);
      ghost var w1 := WorldOf(all, kernel);
      var i := 0;
      while i < |dependencies|
        invariant In(g, all) && 0 <= i <= |g[handle].deps|
        invariant PushDelays(g, kernel.platform, w1, handle, 0) == PushDelays(g, kernel.platform, WorldOf(all, kernel), handle, i)
      {
        var accepted := OfferTo(g, all, i);
        if !accepted {
          StoreSlot(g, all, h, restorePeriod, restoreTimeout);
          RestoreDependencyDelays(g, all, i);
          return false;
        }
        i := i + 1;
      }
      return true;
    }

    /** Offers the current minima to dependency number i. */
    method OfferTo(ghost g: Graph, ghost all: seq<Sensor>, i: nat) returns (ok: bool)
      requires In(g, all) && i < |g[handle].deps|
      modifies all, kernel
      ensures In(g, all)
      ensures var w := old(WorldOf(all, kernel));
              Outcome(WorldOf(all, kernel), ok)
              == SensorGraph.SetDelay(g, kernel.platform, w, g[handle].deps[i], handle,
                                      MinPeriod(w.rates[handle].period), MinTimeout(w.rates[handle].timeout))
      decreases g[handle].rank, 0
    {
      hide SensorGraph.SetDelay;
      var period := GetMinPeriod(pollrates);
      var timeout := GetMinTimeout(timeouts);
      ok := dependencies[i].SetDelay(g, all, handle, period, timeout);
    }

    /** The restoring loop at the end of SetDelay. */
    method RestoreDependencyDelays(ghost g: Graph, ghost all: seq<Sensor>, done: nat)
      requires In(g, all) && done <= |g[handle].deps|
      modifies all, kernel
      ensures In(g, all)
      ensures WorldOf(all, kernel) == RestoreDelays(g, kernel.platform, old(WorldOf(all, kernel)), handle, done)
      decreases g[handle].rank, 1
    {
      hide SensorGraph.SetDelay;
      var i := done;
      while i > 0
        invariant In(g, all) && 0 <= i <= |g[handle].deps|
        invariant RestoreDelays(g, kernel.platform, old(WorldOf(all, kernel)), handle, done)
                  == RestoreDelays(g, kernel.platform, WorldOf(all, kernel), handle, i)
      {
        i := i - 1;
        var _ := OfferTo(g, all, i);
      }
    }

    method SetDelay(ghost g: Graph, ghost all: seq<Sensor>, h: nat, period: int, timeout: int) returns (ok: bool)
      requires In(g, all) && h < MAX_DEVICES
      modifies all, kernel
      ensures In(g, all)
      ensures Outcome(WorldOf(all, kernel), ok)
              == SensorGraph.SetDelay(g, kernel.platform, old(WorldOf(all, kernel)), handle, h, period, timeout)
      decreases g[handle].rank, 3
    {
      match config.kind
      case BaseSoftware =>
        ok := BaseSetDelay(g, all, h, period, timeout);
      case EventHardware =>
        ok := EventSetDelay(g, all, timeout);
      case PollHardware =>
        if pollrates[h] == period && timeouts[h] == timeout {
          return true;
        }
        ok := BaseSetDelay(g, all, h, StoredPeriod(config, period, timeout), timeout);
        if ok {
          ok := ProgramDevice(g, all, h, StoredPeriod(config, period, timeout));
        }
      case PollSoftware =>
        if pollrates[h] == period && timeouts[h] == timeout {
          return true;
        }
        var kept := if period > 0 && timeout < INT64_MAX then ShortenTimeout(timeout) else timeout;
        ok := BaseSetDelay(g, all, h, StoredPeriod(config, period, timeout), kept);
        if ok {
          RememberMinima(g, all, h, StoredPeriod(config, period, timeout));
        }
    }

    method EventSetDelay(ghost g: Graph, ghost all: seq<Sensor>, timeout: int) returns (ok: bool)
      requires In(g, all)
      modifies this, kernel
      ensures In(g, all)
      ensures Outcome(WorldOf(all, kernel), ok) == SensorGraph.EventSetDelay(g, kernel.platform, old(WorldOf(all, kernel)), handle, timeout)
    {
      if timeout >= INT64_MAX {
        return true;
      }
      if config.fifo == 0 {
        return timeout <= 0;
      }
      ok := ChangeBufferLength(g, all, BufferLength(kernel.platform.narrow, timeout, 1.0, config.fifo));
    }

    method ChangeBufferLength(ghost g: Graph, ghost all: seq<Sensor>, length: nat) returns (ok: bool)
      requires In(g, all)
      modifies this, kernel
      ensures In(g, all) && ok == kernel.platform.accepts(old(kernel.writes))
      ensures var w := old(WorldOf(all, kernel));
              WorldOf(all, kernel) == if ok then w.(writes := w.writes + 1, rates := w.rates[handle := w.rates[handle].(watermark := WatermarkFor(length))])
                                      else w.(writes := w.writes + 1)
    {
      Before(g, all);
      ghost var w := WorldOf(all, kernel);
      hide Others, OwnLinks, In, WorldOf;
      ok := WriteBufferLength(length);
      Settle(g, all, w);
    }

    method WriteBufferLength(length: nat) returns (ok: bool)
      modifies this`watermark, kernel`writes
      ensures ok == kernel.platform.accepts(old(kernel.writes)) && kernel.writes == old(kernel.writes) + 1
      ensures watermark == if ok then WatermarkFor(length) else old(watermark)
    {
      ok := kernel.Write();
      if ok {
        watermark := WatermarkFor(length);
      }
    }

    method ProgramDevice(ghost g: Graph, ghost all: seq<Sensor>, h: nat, period: int) returns (ok: bool)
      requires In(g, all) && config.kind.PollHardware?
      modifies this, kernel
      ensures In(g, all)
      ensures Outcome(WorldOf(all, kernel), ok) == Program(g, kernel.platform, old(WorldOf(all, kernel)), handle, h, period)
    {
      hide ProgramFrequency, ProgramWatermark;
      var shortest := GetMinPeriod(pollrates);
      if shortest == 0 {
        ForgetMinima(g, all);
        return true;
      }
      assert Usable(g, handle);
      var i := FindFrequency(config.table, NS_PER_SECOND / shortest);
      ok := WriteFrequency(g, all, h, period, shortest, i);
      if ok && config.fifo > 0 {
        ok := WriteWatermark(g, all, i);
      }
    }

    method ForgetMinima(ghost g: Graph, ghost all: seq<Sensor>)
      requires In(g, all)
      modifies this
      ensures In(g, all)
      ensures var w := old(WorldOf(all, kernel));
              WorldOf(all, kernel) == w.(rates := w.rates[handle := w.rates[handle].(currentPeriod := 0, currentTimeout := INT64_MAX)])
    {
      Before(g, all);
      ghost var w := WorldOf(all, kernel);
      hide Others, OwnLinks, In, WorldOf;
      currentMinPollrate, currentMinTimeout := 0, INT64_MAX;
      Settle(g, all, w);
    }

    method WriteFrequency(ghost g: Graph, ghost all: seq<Sensor>, h: nat, period: int, shortest: int, i: nat) returns (ok: bool)
      requires In(g, all) && config.kind.PollHardware? && i < |config.table|
      modifies this, kernel
      ensures In(g, all)
      ensures Outcome(WorldOf(all, kernel), ok)
              == ProgramFrequency(g, kernel.platform, old(WorldOf(all, kernel)), handle, h, period, shortest, i)
    {
      hide Requeued;
      assert Usable(g, handle);
      if currentMinPollrate == shortest {
        return true;
      }
      ok := ChangeFrequency(g, all, h, period, shortest, i);
    }

    method ChangeFrequency(ghost g: Graph, ghost all: seq<Sensor>, h: nat, period: int, shortest: int, i: nat) returns (ok: bool)
      requires In(g, all) && i < |config.table| && config.table[i] > 0.0
      modifies this, kernel
      ensures In(g, all) && ok == kernel.platform.accepts(old(kernel.writes))
      ensures var w := old(WorldOf(all, kernel));
              var r := Requeued(w.rates[handle], kernel.platform.clock(w.ticks), h == handle, period, shortest, i, WholePeriod(config.table[i]));
              WorldOf(all, kernel) == if ok then w.(writes := w.writes + 1, ticks := w.ticks + 1, rates := w.rates[handle := r])
                                      else w.(writes := w.writes + 1)
    {
      Before(g, all);
      ghost var w := WorldOf(all, kernel);
      hide Others, OwnLinks, In, WorldOf, Requeued;
      ok := SetSamplingFrequency(h, period, shortest, i);
      Settle(g, all, w);
    }

    /** The device write of a new frequency and, when it succeeds, the two queues. */
    method SetSamplingFrequency(h: nat, period: int, shortest: int, i: nat) returns (ok: bool)
      requires i < |config.table| && config.table[i] > 0.0
      modifies this`odrSwitch, this`odrStack, this`frequency, this`currentMinPollrate, kernel`writes, kernel`ticks
      ensures ok == kernel.platform.accepts(old(kernel.writes)) && kernel.writes == old(kernel.writes) + 1
      ensures kernel.ticks == old(kernel.ticks) + if ok then 1 else 0
      ensures RatesOf() == if ok then Requeued(old(RatesOf()), kernel.platform.clock(old(kernel.ticks)), h == handle, period,
                                               shortest, i, WholePeriod(config.table[i]))
                           else old(RatesOf())
    {
      ok := kernel.Write();
      if ok {
        var timestamp := kernel.Now();
        odrSwitch := odrSwitch + [(timestamp, WholePeriod(config.table[i]))];
        if h == handle {
          odrStack := odrStack + [(timestamp, period)];
        }
        frequency, currentMinPollrate := i, shortest;
      }
    }

    method WriteWatermark(ghost g: Graph, ghost all: seq<Sensor>, i: nat) returns (ok: bool)
      requires In(g, all) && config.kind.PollHardware? && i < |config.table|
      modifies this, kernel
      ensures In(g, all)
      ensures Outcome(WorldOf(all, kernel), ok) == ProgramWatermark(g, kernel.platform, old(WorldOf(all, kernel)), handle, i)
    {
      assert Usable(g, handle);
      var least := GetMinTimeout(timeouts);
      var time := ShortenTimeout(least);
      if currentMinTimeout == time {
        return true;
      }
      ok := ChangeWatermark(g, all, BufferLength(kernel.platform.narrow, time, config.table[i], config.fifo), time);
    }

    method ChangeWatermark(ghost g: Graph, ghost all: seq<Sensor>, length: nat, time: int) returns (ok: bool)
      requires In(g, all)
      modifies this, kernel
      ensures In(g, all) && ok == kernel.platform.accepts(old(kernel.writes))
      ensures var w := old(WorldOf(all, kernel));
              var r := w.rates[handle].(watermark := WatermarkFor(length), currentTimeout := time);
              WorldOf(all, kernel) == if ok then w.(writes := w.writes + 1, rates := w.rates[handle := r])
                                      else w.(writes := w.writes + 1)
    {
      Before(g, all);
      ghost var w := WorldOf(all, kernel);
      hide Others, OwnLinks, In, WorldOf;
      ok := SetWatermark(length, time);
      Settle(g, all, w);
    }

    method SetWatermark(length: nat, time: int) returns (ok: bool)
      modifies this`watermark, this`currentMinTimeout, kernel`writes
      ensures ok == kernel.platform.accepts(old(kernel.writes)) && kernel.writes == old(kernel.writes) + 1
      ensures RatesOf() == if ok then old(RatesOf()).(watermark := WatermarkFor(length), currentTimeout := time) else old(RatesOf())
    {
      ok := WriteBufferLength(length);
      if ok {
        currentMinTimeout := time;
      }
    }

    method RememberMinima(ghost g: Graph, ghost all: seq<Sensor>, h: nat, period: int)
      requires In(g, all)
      modifies this, kernel
      ensures In(g, all)
      ensures WorldOf(all, kernel) == NoteMinima(g, kernel.platform, old(WorldOf(all, kernel)), handle, h, period)
    {
      Before(g, all);
      ghost var w := WorldOf(all, kernel);
      hide Others, OwnLinks, In, WorldOf;
      StoreMinima(h, period);
      Settle(g, all, w);
    }

    /** The minima as last seen; a change of the client's own making is queued. */
    method StoreMinima(h: nat, period: int)
      modifies this`currentMinPollrate, this`currentMinTimeout, this`odrStack, kernel`ticks
      ensures (RatesOf(), kernel.ticks) == Noted(kernel.platform, old(RatesOf()), old(kernel.ticks), h == handle, period)
    {
      var shortest := GetMinPeriod(pollrates);
      var least := GetMinTimeout(timeouts);
      if shortest == 0 {
        currentMinPollrate, currentMinTimeout := 0, INT64_MAX;
      } else if currentMinPollrate != shortest || currentMinTimeout != least {
        currentMinPollrate, currentMinTimeout := shortest, least;
        if h == handle {
          var timestamp := kernel.Now();
          odrStack := odrStack + [(timestamp, period)];
        }
      }
    }

    // -------------------------------------------------------------- Enable

    method BaseEnable(ghost g: Graph, ghost all: seq<Sensor>, h: nat, enable: bool) returns (ok: bool)
      requires In(g, all) && h < MAX_DEVICES
      modifies all, kernel
      ensures In(g, all)
      ensures Outcome(WorldOf(all, kernel), ok)
              == SensorGraph.BaseEnable(g, kernel.platform, old(WorldOf(all, kernel)), handle, h, enable)
      decreases g[handle].rank, 4
    {
      hide SensorGraph.SetDelay, PushEnables, RestoreEnables;
      if h == handle && enable == (h in enabledMask) {
        return true;
      }
      var switches := Switches(enabledMask, h, enable);
      if !enable {
        var cleared := SetDelay(g, all, h, 0, INT64_MAX);
        if !cleared {
          return false;
        }
      }
      StoreBit(g, all, h, enable);
      if !switches {
        return true;
      }
      if enable {
        ResetStack(g, all);
      }
      ok := SwitchDependencies(g, all, h, enable);
    }

    /** The loop over the dependencies, with what follows when one of them fails. */
    method SwitchDependencies(ghost g: Graph, ghost all: seq<Sensor>, h: nat, enable: bool) returns (ok: bool)
      requires In(g, all) && h < MAX_DEVICES
      modifies all, kernel
      ensures In(g, all)
      ensures Outcome(WorldOf(all, kernel), ok) == SwitchOver(g, kernel.platform, old(WorldOf(all, kernel)), handle, h, enable)
      decreases g[handle].rank, 3
    {
      hide SensorGraph.Enable;
      ghost var w := WorldOf(all, kernel);
      var i := 0;
      while i < |dependencies|
        invariant In(g, all) && 0 <= i <= |g[handle].deps|
        invariant PushEnables(g, kernel.platform, w, handle, enable, 0)
                  == PushEnables(g, kernel.platform, WorldOf(all, kernel), handle, enable, i)
      {
        var switched := SwitchDependency(g, all, enable, i);
        if !switched {
          RestoreDependencies(g, all, enable, i);
          StoreBit(g, all, h, !enable);
          return false;
        }
        i := i + 1;
      }
      return true;
    }

    method ResetStack(ghost g: Graph, ghost all: seq<Sensor>)
      requires In(g, all)
      modifies this
      ensures In(g, all) && dependencies == old(dependencies)
      ensures WorldOf(all, kernel) == WithReset(old(WorldOf(all, kernel)), handle)
    {
      Before(g, all);
      ghost var w := WorldOf(all, kernel);
      hide Others, OwnLinks, In, WorldOf;
      CountReset();
      Settle(g, all, w);
    }

    method CountReset()
      modifies this`flushStackResets
      ensures MarksOf() == old(MarksOf()).(stackResets := old(flushStackResets) + 1)
    {
      flushStackResets := flushStackResets + 1;
    }

    method StampTimes(ghost g: Graph, ghost all: seq<Sensor>, h: nat, enable: bool, switched: bool)
      requires In(g, all)
      modifies this, kernel
      ensures In(g, all)
      ensures WorldOf(all, kernel) == Stamped(kernel.platform, old(WorldOf(all, kernel)), handle, h, enable, switched)
    {
      hide StampedMarks;
      Before(g, all);
      ghost var w := WorldOf(all, kernel);
      hide Others, OwnLinks, In, WorldOf;
      StoreTimes(h, enable, switched);
      Settle(g, all, w);
    }

    /** The times a successful Enable leaves. */
    method StoreTimes(h: nat, enable: bool, switched: bool)
      modifies this`sensorGlobalEnable, this`sensorGlobalDisable, this`sensorMyEnable, this`sensorMyDisable, kernel`ticks
      ensures (MarksOf(), kernel.ticks)
              == StampedMarks(kernel.platform, old(MarksOf()), old(kernel.ticks), h == handle, enable, switched)
    {
      if switched {
        var now := kernel.Now();
        if enable { sensorGlobalEnable := now; } else { sensorGlobalDisable := now; }
      }
      if h == handle {
        var now := kernel.Now();
        if enable { sensorMyEnable := now; } else { sensorMyDisable := now; }
      }
    }

    method SwitchDependency(ghost g: Graph, ghost all: seq<Sensor>, enable: bool, i: nat) returns (ok: bool)
      requires In(g, all) && i < |g[handle].deps|
      modifies all, kernel
      ensures In(g, all)
      ensures Outcome(WorldOf(all, kernel), ok)
              == SensorGraph.Enable(g, kernel.platform, old(WorldOf(all, kernel)), g[handle].deps[i], handle, enable)
      decreases g[handle].rank, 0
    {
      hide SensorGraph.Enable;
      ok := dependencies[i].Enable(g, all, handle, enable);
    }

    /** Nobody looks at the result of an undo call; only the ghost monitor does. */
    ghost method NoteUndoResult(g: Graph, all: seq<Sensor>, undone: bool)
      requires In(g, all)
      modifies kernel`lost
      ensures In(g, all)
      ensures WorldOf(all, kernel) == NoteUndo(Outcome(old(WorldOf(all, kernel)), undone))
    {
      Before(g, all);
      ghost var w := WorldOf(all, kernel);
      hide Others, OwnLinks, In, WorldOf;
      kernel.lost := kernel.lost || !undone;
      Settle(g, all, w);
    }

    /** The restoring loop at the end of Enable. */
    method RestoreDependencies(ghost g: Graph, ghost all: seq<Sensor>, enable: bool, done: nat)
      requires In(g, all) && done <= |g[handle].deps|
      modifies all, kernel
      ensures In(g, all)
      ensures WorldOf(all, kernel) == RestoreEnables(g, kernel.platform, old(WorldOf(all, kernel)), handle, enable, done)
      decreases g[handle].rank, 1
    {
      hide SensorGraph.Enable;
      var i := done;
      while i > 0
        invariant In(g, all) && 0 <= i <= |g[handle].deps|
        invariant RestoreEnables(g, kernel.platform, old(WorldOf(all, kernel)), handle, enable, done)
                  == RestoreEnables(g, kernel.platform, WorldOf(all, kernel), handle, enable, i)
      {
        i := i - 1;
        var undone := SwitchDependency(g, all, !enable, i);
        NoteUndoResult(g, all, undone);
      }
    }

    method Enable(ghost g: Graph, ghost all: seq<Sensor>, h: nat, enable: bool) returns (ok: bool)
      requires In(g, all) && h < MAX_DEVICES
      modifies all, kernel
      ensures In(g, all)
      ensures Outcome(WorldOf(all, kernel), ok)
              == SensorGraph.Enable(g, kernel.platform, old(WorldOf(all, kernel)), handle, h, enable)
      decreases g[handle].rank, 6
    {
      hide SensorGraph.BaseEnable, Concluded;
      var switches := Switches(enabledMask, h, enable);
      ok := BaseEnable(g, all, h, enable);
      if ok {
        ok := Conclude(g, all, h, enable, switches);
      }
    }

    /** The device write, its undoing, and the times. */
    method Conclude(ghost g: Graph, ghost all: seq<Sensor>, h: nat, enable: bool, switches: bool) returns (ok: bool)
      requires In(g, all) && h < MAX_DEVICES
      modifies all, kernel
      ensures In(g, all)
      ensures Outcome(WorldOf(all, kernel), ok)
              == Concluded(g, kernel.platform, old(WorldOf(all, kernel)), handle, h, enable, switches)
      decreases g[handle].rank, 5
    {
      hide SensorGraph.BaseEnable, Stamped, NoteUndo;
      if config.Hardware() && switches {
        ok := SwitchDevice(g, all);
        if !ok {
          var undone := BaseEnable(g, all, h, !enable);
          NoteUndoResult(g, all, undone);
          return;
        }
      }
      StampTimes(g, all, h, enable, switches);
      return true;
    }

    method SwitchDevice(ghost g: Graph, ghost all: seq<Sensor>) returns (ok: bool)
      requires In(g, all)
      modifies this, kernel
      ensures In(g, all) && ok == kernel.platform.accepts(old(kernel.writes))
      ensures var w := old(WorldOf(all, kernel));
              WorldOf(all, kernel) == if ok then w.(writes := w.writes + 1, power := w.power[handle := w.masks[handle] != {}])
                                      else w.(writes := w.writes + 1)
    {
      Before(g, all);
      ghost var w := WorldOf(all, kernel);
      hide Others, OwnLinks, In, WorldOf;
      ok := EnableDevice();
      Settle(g, all, w);
    }

    /** The device write of the sensor's new status. */
    method EnableDevice() returns (ok: bool)
      modifies this`powered, kernel`writes
      ensures ok == kernel.platform.accepts(old(kernel.writes)) && kernel.writes == old(kernel.writes) + 1
      ensures powered == if ok then enabledMask != {} else old(powered)
    {
      ok := kernel.Write();
      if ok {
        powered := enabledMask != {};
      }
    }
  }

  // ---------------------------------------------------------------- the whole graph

  /** The objects are those of the graph: each at its handle, with its configuration and its
      dependencies in the listed order. */
  ghost predicate Linked(g: Graph, all: seq<Sensor>, kernel: Kernel)
    reads all
  {
    && WellFormed(g) && |all| == |g|
    && (forall s {:trigger all[s]} :: 0 <= s < |all| ==>
          && all[s].handle == s && all[s].config == g[s] && all[s].kernel == kernel
          && |all[s].pollrates| == MAX_DEVICES && |all[s].timeouts| == MAX_DEVICES
          && |all[s].dependencies| == |g[s].deps|)
    && (forall s, i {:trigger all[s].dependencies[i]} :: 0 <= s < |all| && 0 <= i < |g[s].deps| ==>
          g[s].deps[i] < |all| && all[s].dependencies[i] == all[g[s].deps[i]])
  }

  ghost function WorldOf(all: seq<Sensor>, kernel: Kernel): World
    reads all, kernel
  {
    World(
      seq(|all|, i requires 0 <= i < |all| reads all => all[i].enabledMask),
      seq(|all|, i requires 0 <= i < |all| reads all => all[i].powered),
      seq(|all|, i requires 0 <= i < |all| reads all => all[i].RatesOf()),
      seq(|all|, i requires 0 <= i < |all| reads all => all[i].MarksOf()),
      kernel.writes,
      kernel.ticks,
      kernel.lost)
  }

  // ---------------------------------------------------------------- the entry points

  /** The client's activate and batch calls, always on the sensor's own handle. */
  method Activate(ghost g: Graph, all: seq<Sensor>, s: nat, enable: bool) returns (ok: bool)
    requires s < |all| && all[s].In(g, all)
    modifies all, all[s].kernel
    ensures all[s].In(g, all)
    ensures Outcome(WorldOf(all, all[s].kernel), ok)
            == Perform(g, all[s].kernel.platform, old(WorldOf(all, all[s].kernel)), Call.Activate(s, enable))
  {
    ok := all[s].Enable(g, all, s, enable);
  }

  method Batch(ghost g: Graph, all: seq<Sensor>, s: nat, period: int, timeout: int) returns (ok: bool)
    requires s < |all| && all[s].In(g, all)
    modifies all, all[s].kernel
    ensures all[s].In(g, all)
    ensures Outcome(WorldOf(all, all[s].kernel), ok)
            == Perform(g, all[s].kernel.platform, old(WorldOf(all, all[s].kernel)), Call.Batch(s, period, timeout))
  {
    ok := all[s].SetDelay(g, all, s, period, timeout);
  }
}
