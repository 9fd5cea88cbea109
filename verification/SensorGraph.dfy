/** The dependency graph of sensors and the two recursive protocols that run over it, `SetDelay`
    and `Enable`, as functions from one state of the whole graph to the next.  The methods in
    module SensorObjects are proved to compute these functions. */
module SensorGraph {
  import opened RateControl

  /** `EventHardware` is a HWSensorBase, `PollHardware` a HWSensorBaseWithPollrate,
      `BaseSoftware` a SWSensorBase and `PollSoftware` a SWSensorBaseWithPollrate. */
  datatype Kind = EventHardware | PollHardware | BaseSoftware | PollSoftware

  /** What is fixed once the sensors are linked.  A sensor's handle is its index in the graph. */
  datatype Config = Config(
    kind: Kind,
    deps: seq<nat>,
    rank: nat,
    fifo: nat,
    minNs: int,
    maxNs: int,
    table: seq<real>)
  {
    predicate Hardware() {
      kind.EventHardware? || kind.PollHardware?
    }
  }

  type Graph = seq<Config>

  /** Dependencies lie in the graph and are ranked lower, none is listed twice, and every polled
      hardware sensor has a usable frequency table. */
  ghost predicate WellFormed(g: Graph) {
    && |g| <= MAX_DEVICES
    && (forall s, i {:trigger g[s].deps[i]} :: 0 <= s < |g| && 0 <= i < |g[s].deps| ==>
          g[s].deps[i] < |g| && g[g[s].deps[i]].rank < g[s].rank)
    && (forall s: nat, i: nat, j: nat {:trigger Repeats(g, s, i, j)} :: !Repeats(g, s, i, j))
    && (forall s: nat {:trigger Usable(g, s)} :: s < |g| ==> Usable(g, s))
  }

  predicate Repeats(g: Graph, s: nat, i: nat, j: nat) {
    s < |g| && i < j < |g[s].deps| && g[s].deps[i] == g[s].deps[j]
  }

  predicate Usable(g: Graph, s: nat) {
    s < |g| && g[s].minNs <= g[s].maxNs < INT64_MAX &&
    (g[s].kind.PollHardware? ==> |g[s].table| > 0 && forall i :: 0 <= i < |g[s].table| ==> g[s].table[i] > 0.0)
  }

  /** When a sensor came into use and went out of it, when its own client enabled and disabled it, and how
      often its flush stack has been reset. */
  datatype Marks = Marks(globalEnable: int, globalDisable: int, myEnable: int, myDisable: int, stackResets: nat)

  const NEVER_USED := Marks(0, 1, 0, 1, 0)

  /** The whole graph at one moment.  `masks[s]` is the set of handles whose bit is set in the
      enable mask of s, `power[s]` the state last written to the device of s.  `writes` and `ticks` count
      the device writes and the readings of the clock so far, and `lost` records that an undo call has
      itself returned an error. */
  datatype World = World(
    masks: seq<set<nat>>,
    power: seq<bool>,
    rates: seq<Rates>,
    marks: seq<Marks>,
    writes: nat,
    ticks: nat,
    lost: bool)

  /** The surroundings: the answers to the n-th device write and the n-th reading of the clock, and the
      machine's number conversion. */
  datatype Platform = Platform(accepts: nat -> bool, clock: nat -> int, narrow: int -> nat)

  /** The clock goes on between any two readings. */
  ghost predicate Rising(io: Platform) {
    forall n: nat, m: nat {:trigger io.clock(n), io.clock(m)} :: n < m ==> io.clock(n) < io.clock(m)
  }

  datatype Outcome = Outcome(world: World, ok: bool)

  ghost predicate Shaped(g: Graph, w: World) {
    && |w.masks| == |w.power| == |w.rates| == |w.marks| == |g|
    && forall s {:trigger w.rates[s]} :: 0 <= s < |g| ==> SlotsShaped(w.rates[s])
  }

  function Initial(n: nat): (w: World) {
    World(seq(n, _ => {}), seq(n, _ => false), seq(n, _ => IDLE_RATES), seq(n, _ => NEVER_USED), 0, 0, false)
  }

  // ---------------------------------------------------------------- SetDelay

  function WithSlot(w: World, s: nat, h: nat, period: int, timeout: int): World
    requires s < |w.rates| && SlotsShaped(w.rates[s]) && h < MAX_DEVICES
  {
    var r := w.rates[s];
    w.(rates := w.rates[s := r.(period := r.period[h := period], timeout := r.timeout[h := timeout])])
  }

  lemma SlotRestored(w: World, w': World, s: nat, h: nat, period: int, timeout: int)
    requires s < |w.rates| == |w'.rates| && SlotsShaped(w.rates[s]) && h < MAX_DEVICES
    requires w'.rates[s] == WithSlot(w, s, h, period, timeout).rates[s]
    ensures WithSlot(w', s, h, w.rates[s].period[h], w.rates[s].timeout[h]).rates[s] == w.rates[s]
  {
    var slots := w.rates[s];
    assert slots.period[h := period][h := slots.period[h]] == slots.period;
    assert slots.timeout[h := timeout][h := slots.timeout[h]] == slots.timeout;
  }

  /** Between two worlds only rates and counters may differ, and of the rates only the ones of s and of sensors ranked below s. */
  ghost predicate RatesBelow(g: Graph, w: World, w': World, s: nat) {
    && Shaped(g, w) && Shaped(g, w')
    && w'.masks == w.masks && w'.power == w.power && w'.marks == w.marks && w'.lost == w.lost && w'.ticks >= w.ticks
    && forall x {:trigger w'.rates[x]} :: 0 <= x < |g| && x != s && s < |g| && g[x].rank >= g[s].rank ==> w'.rates[x] == w.rates[x]
  }

  ghost predicate SlotsKept(r: Rates, r': Rates) {
    r'.period == r.period && r'.timeout == r.timeout
  }

  function BaseSetDelay(g: Graph, io: Platform, w: World, s: nat, h: nat, period: int, timeout: int): (r: Outcome)
    requires WellFormed(g) && Shaped(g, w) && s < |g| && h < MAX_DEVICES
    ensures RatesBelow(g, w, r.world, s)
    ensures r.ok ==> r.world.rates[s] == WithSlot(w, s, h, period, timeout).rates[s]
    ensures !r.ok ==> r.world.rates[s] == w.rates[s]
    decreases g[s].rank, 2, 0
  {
    if 0 < timeout < INT64_MAX && g[s].fifo == 0 then
      Outcome(w, false)
    else
      var slots := w.rates[s];
      var w1 := WithSlot(w, s, h, period, timeout);
      var (w2, done) := PushDelays(g, io, w1, s, 0);
      if done == |g[s].deps| then
        Outcome(w2, true)
      else
        var w3 := WithSlot(w2, s, h, slots.period[h], slots.timeout[h]);
        SlotRestored(w, w2, s, h, period, timeout);
        Outcome(RestoreDelays(g, io, w3, s, done), false)
  }

  /** Offers the minima of s to its dependencies from number i on, up to the first one that refuses. */
  function PushDelays(g: Graph, io: Platform, w: World, s: nat, i: nat): (r: (World, nat))
    requires WellFormed(g) && Shaped(g, w) && s < |g| && i <= |g[s].deps|
    ensures i <= r.1 <= |g[s].deps|
    ensures RatesBelow(g, w, r.0, s) && r.0.rates[s] == w.rates[s]
    decreases g[s].rank, 1, |g[s].deps| - i
  {
    if i == |g[s].deps| then (w, i)
    else
      var r := SetDelay(g, io, w, g[s].deps[i], s, MinPeriod(w.rates[s].period), MinTimeout(w.rates[s].timeout));
      if r.ok then PushDelays(g, io, r.world, s, i + 1) else (r.world, i)
  }

  /** Offers the minima of s again to the dependencies before number i, last one first, ignoring errors. */
  function RestoreDelays(g: Graph, io: Platform, w: World, s: nat, i: nat): (r: World)
    requires WellFormed(g) && Shaped(g, w) && s < |g| && i <= |g[s].deps|
    ensures RatesBelow(g, w, r, s) && r.rates[s] == w.rates[s]
    decreases g[s].rank, 1, i
  {
    if i == 0 then w
    else
      var r := SetDelay(g, io, w, g[s].deps[i - 1], s, MinPeriod(w.rates[s].period), MinTimeout(w.rates[s].timeout));
      RestoreDelays(g, io, r.world, s, i - 1)
  }

  function SetDelay(g: Graph, io: Platform, w: World, s: nat, h: nat, period: int, timeout: int): (r: Outcome)
    requires WellFormed(g) && Shaped(g, w) && s < |g| && h < MAX_DEVICES
    ensures RatesBelow(g, w, r.world, s)
    decreases g[s].rank, 3, 0
  {
    match g[s].kind
    case BaseSoftware => BaseSetDelay(g, io, w, s, h, period, timeout)
    case EventHardware => EventSetDelay(g, io, w, s, timeout)
    case PollHardware =>
      if w.rates[s].period[h] == period && w.rates[s].timeout[h] == timeout then Outcome(w, true)
      else
        var r := BaseSetDelay(g, io, w, s, h, StoredPeriod(g[s], period, timeout), timeout);
        if r.ok then Program(g, io, r.world, s, h, StoredPeriod(g[s], period, timeout)) else r
    case PollSoftware =>
      if w.rates[s].period[h] == period && w.rates[s].timeout[h] == timeout then Outcome(w, true)
      else
        var kept := if period > 0 && timeout < INT64_MAX then ShortenTimeout(timeout) else timeout;
        var r := BaseSetDelay(g, io, w, s, h, StoredPeriod(g[s], period, timeout), kept);
        if r.ok then Outcome(NoteMinima(g, io, r.world, s, h, StoredPeriod(g[s], period, timeout)), true) else r
  }

  /** The period a polled sensor stores for a request. */
  function StoredPeriod(c: Config, period: int, timeout: int): int {
    if period > 0 && timeout < INT64_MAX then ClampTo(c.minNs, c.maxNs, period) else period
  }

  /** A sensor without a sampling rate only programs the FIFO for the timeout it is offered. */
  function EventSetDelay(g: Graph, io: Platform, w: World, s: nat, timeout: int): (r: Outcome)
    requires WellFormed(g) && Shaped(g, w) && s < |g|
    ensures RatesBelow(g, w, r.world, s) && SlotsKept(w.rates[s], r.world.rates[s])
    ensures r.world.rates == w.rates[s := r.world.rates[s]]
  {
    if timeout >= INT64_MAX then Outcome(w, true)
    else if g[s].fifo == 0 then Outcome(w, timeout <= 0)
    else
      var length := BufferLength(io.narrow, timeout, 1.0, g[s].fifo);
      if io.accepts(w.writes) then
        Outcome(w.(writes := w.writes + 1, rates := w.rates[s := w.rates[s].(watermark := WatermarkFor(length))]), true)
      else
        Outcome(w.(writes := w.writes + 1), false)
  }

  /** The frequency index that serves the shortest period asked for. */
  function FrequencyFor(c: Config, period: int): (i: nat)
    requires |c.table| > 0 && period > 0
    ensures i < |c.table|
  {
    ChooseFrequency(c.table, NS_PER_SECOND / period, 0)
  }

  /** The batching time left for the FIFO once the transfer delay is taken off. */
  function BatchTime(r: Rates): (t: int)
    ensures t >= 0
  {
    ShortenTimeout(MinTimeout(r.timeout))
  }

  /** The tail of a polled hardware sensor's SetDelay: program the sampling frequency if the
      minimum period changed, then the FIFO watermark if the batching time changed. */
  function Program(g: Graph, io: Platform, w: World, s: nat, h: nat, period: int): (r: Outcome)
    requires WellFormed(g) && Shaped(g, w) && s < |g| && g[s].kind.PollHardware?
    ensures RatesBelow(g, w, r.world, s) && SlotsKept(w.rates[s], r.world.rates[s])
    ensures r.world.rates == w.rates[s := r.world.rates[s]]
  {
    var shortest := MinPeriod(w.rates[s].period);
    if shortest == 0 then
      Outcome(w.(rates := w.rates[s := w.rates[s].(currentPeriod := 0, currentTimeout := INT64_MAX)]), true)
    else
      assert Usable(g, s);
      var i := FrequencyFor(g[s], shortest);
      var r := ProgramFrequency(g, io, w, s, h, period, shortest, i);
      if r.ok && g[s].fifo > 0 then ProgramWatermark(g, io, r.world, s, i) else r
  }

  /** The sampling period of a frequency, in whole nanoseconds. */
  function WholePeriod(frequency: real): int
    requires frequency > 0.0
  {
    SamplePeriod(frequency).Floor
  }

  /** What an accepted change of frequency leaves: it is queued for the data thread with its time, and for the
      client's samples when the client itself asked. */
  function Requeued(r: Rates, now: int, own: bool, period: int, shortest: int, i: nat, whole: int): Rates {
    r.(frequency := i, currentPeriod := shortest, odrSwitch := r.odrSwitch + [(now, whole)],
       odrStack := r.odrStack + if own then [(now, period)] else [])
  }

  function ProgramFrequency(g: Graph, io: Platform, w: World, s: nat, h: nat, period: int, shortest: int, i: nat): (r: Outcome)
    requires WellFormed(g) && Shaped(g, w) && s < |g| && g[s].kind.PollHardware? && i < |g[s].table|
    ensures RatesBelow(g, w, r.world, s) && SlotsKept(w.rates[s], r.world.rates[s])
    ensures r.world.rates == w.rates[s := r.world.rates[s]]
  {
    assert Usable(g, s);
    if w.rates[s].currentPeriod == shortest then Outcome(w, true)
    else if io.accepts(w.writes) then
      var r := Requeued(w.rates[s], io.clock(w.ticks), h == s, period, shortest, i, WholePeriod(g[s].table[i]));
      Outcome(w.(writes := w.writes + 1, ticks := w.ticks + 1, rates := w.rates[s := r]), true)
    else
      Outcome(w.(writes := w.writes + 1), false)
  }

  function ProgramWatermark(g: Graph, io: Platform, w: World, s: nat, i: nat): (r: Outcome)
    requires WellFormed(g) && Shaped(g, w) && s < |g| && g[s].kind.PollHardware? && i < |g[s].table|
    ensures RatesBelow(g, w, r.world, s) && SlotsKept(w.rates[s], r.world.rates[s])
    ensures r.world.rates == w.rates[s := r.world.rates[s]]
  {
    assert Usable(g, s);
    var time := BatchTime(w.rates[s]);
    if w.rates[s].currentTimeout == time then Outcome(w, true)
    else if io.accepts(w.writes) then
      var length := BufferLength(io.narrow, time, g[s].table[i], g[s].fifo);
      Outcome(w.(writes := w.writes + 1,
                 rates := w.rates[s := w.rates[s].(watermark := WatermarkFor(length), currentTimeout := time)]), true)
    else
      Outcome(w.(writes := w.writes + 1), false)
  }

  /** The minima remembered; a new rate is queued for the client's samples when the client itself asked. */
  function Noted(io: Platform, r: Rates, ticks: nat, own: bool, period: int): (n: (Rates, nat)) {
    var shortest, least := MinPeriod(r.period), MinTimeout(r.timeout);
    if shortest == 0 then (r.(currentPeriod := 0, currentTimeout := INT64_MAX), ticks)
    else if r.currentPeriod == shortest && r.currentTimeout == least then (r, ticks)
    else
      var noted := r.(currentPeriod := shortest, currentTimeout := least);
      if own then (noted.(odrStack := r.odrStack + [(io.clock(ticks), period)]), ticks + 1) else (noted, ticks)
  }

  /** The tail of a polled software sensor's SetDelay. */
  function NoteMinima(g: Graph, io: Platform, w: World, s: nat, h: nat, period: int): (r: World)
    requires WellFormed(g) && Shaped(g, w) && s < |g|
    ensures RatesBelow(g, w, r, s) && SlotsKept(w.rates[s], r.rates[s])
    ensures r.rates == w.rates[s := r.rates[s]]
  {
    var (noted, ticks) := Noted(io, w.rates[s], w.ticks, h == s, period);
    w.(rates := w.rates[s := noted], ticks := ticks)
  }

  // ---------------------------------------------------------------- Enable

  function WithBit(w: World, s: nat, h: nat, enable: bool): World
    requires s < |w.masks|
  {
    w.(masks := w.masks[s := if enable then w.masks[s] + {h} else w.masks[s] - {h}])
  }

  /** Only s and sensors ranked below s may differ. */
  ghost predicate ChangedBelow(g: Graph, w: World, w': World, s: nat) {
    && Shaped(g, w) && Shaped(g, w')
    && w'.ticks >= w.ticks
    && forall x {:trigger w'.masks[x]} {:trigger w'.power[x]} {:trigger w'.marks[x]} {:trigger w'.rates[x]} ::
         0 <= x < |g| && x != s && s < |g| && g[x].rank >= g[s].rank ==>
         w'.masks[x] == w.masks[x] && w'.power[x] == w.power[x] && w'.marks[x] == w.marks[x] && w'.rates[x] == w.rates[x]
  }

  /** Does this call switch s from unused to used, or from used by h alone to unused? */
  predicate Switches(mask: set<nat>, h: nat, enable: bool) {
    if enable then mask == {} else mask - {h} == {}
  }

  /** A sensor coming into use has its flush stack reset. */
  function WithReset(w: World, s: nat): World
    requires s < |w.marks|
  {
    w.(marks := w.marks[s := w.marks[s].(stackResets := w.marks[s].stackResets + 1)])
  }

  /** The times that a successful call leaves: of coming into use or going out of it, and of the client's own call. */
  function StampedMarks(io: Platform, m: Marks, ticks: nat, own: bool, enable: bool, switched: bool): (Marks, nat) {
    var now, later := io.clock(ticks), if switched then ticks + 1 else ticks;
    var m1 := if !switched then m else if enable then m.(globalEnable := now) else m.(globalDisable := now);
    if !own then (m1, later)
    else (if enable then m1.(myEnable := io.clock(later)) else m1.(myDisable := io.clock(later)), later + 1)
  }

  function Stamped(io: Platform, w: World, s: nat, h: nat, enable: bool, switched: bool): World
    requires s < |w.marks|
  {
    var (m, ticks) := StampedMarks(io, w.marks[s], w.ticks, h == s, enable, switched);
    w.(marks := w.marks[s := m], ticks := ticks)
  }

  function BaseEnable(g: Graph, io: Platform, w: World, s: nat, h: nat, enable: bool): (r: Outcome)
    requires WellFormed(g) && Shaped(g, w) && s < |g| && h < MAX_DEVICES
    ensures ChangedBelow(g, w, r.world, s) && r.world.power[s] == w.power[s]
    decreases g[s].rank, 2, 0
  {
    if h == s && enable == (h in w.masks[s]) then
      Outcome(w, true)
    else
      var d := if enable then Outcome(w, true) else SetDelay(g, io, w, s, h, 0, INT64_MAX);
      if !d.ok then d
      else
        var w0 := WithBit(d.world, s, h, enable);
        if !Switches(w.masks[s], h, enable) then
          Outcome(w0, true)
        else
          SwitchOver(g, io, if enable then WithReset(w0, s) else w0, s, h, enable)
  }

  /** The switch of s at its dependencies; when one fails, at the others and at s it is taken back. */
  function SwitchOver(g: Graph, io: Platform, w: World, s: nat, h: nat, enable: bool): (r: Outcome)
    requires WellFormed(g) && Shaped(g, w) && s < |g| && h < MAX_DEVICES
    ensures ChangedBelow(g, w, r.world, s) && r.world.power[s] == w.power[s] && r.world.marks[s] == w.marks[s]
    decreases g[s].rank, 1, |g[s].deps| + 1
  {
    var (w2, done) := PushEnables(g, io, w, s, enable, 0);
    if done == |g[s].deps| then
      Outcome(w2, true)
    else
      var w3 := RestoreEnables(g, io, w2, s, enable, done);
      Outcome(WithBit(w3, s, h, !enable), false)
  }

  /** Passes the switch of s on to its dependencies from number i on, up to the first that fails. */
  function PushEnables(g: Graph, io: Platform, w: World, s: nat, enable: bool, i: nat): (r: (World, nat))
    requires WellFormed(g) && Shaped(g, w) && s < |g| && i <= |g[s].deps|
    ensures i <= r.1 <= |g[s].deps|
    ensures ChangedBelow(g, w, r.0, s) && r.0.masks[s] == w.masks[s] && r.0.power[s] == w.power[s]
    ensures r.0.marks[s] == w.marks[s] && r.0.rates[s] == w.rates[s]
    decreases g[s].rank, 1, |g[s].deps| - i
  {
    if i == |g[s].deps| then (w, i)
    else
      var r := Enable(g, io, w, g[s].deps[i], s, enable);
      if r.ok then PushEnables(g, io, r.world, s, enable, i + 1) else (r.world, i)
  }

  /** Takes the switch back at the dependencies before number i, last one first.  The results are
      ignored by the code; `lost` remembers a failure among them. */
  function RestoreEnables(g: Graph, io: Platform, w: World, s: nat, enable: bool, i: nat): (r: World)
    requires WellFormed(g) && Shaped(g, w) && s < |g| && i <= |g[s].deps|
    ensures ChangedBelow(g, w, r, s) && r.masks[s] == w.masks[s] && r.power[s] == w.power[s]
    ensures r.marks[s] == w.marks[s] && r.rates[s] == w.rates[s]
    decreases g[s].rank, 1, i
  {
    if i == 0 then w
    else
      var r := Enable(g, io, w, g[s].deps[i - 1], s, !enable);
      RestoreEnables(g, io, NoteUndo(r), s, enable, i - 1)
  }

  function NoteUndo(undo: Outcome): (w: World)
    ensures w.masks == undo.world.masks && w.power == undo.world.power && w.rates == undo.world.rates
    ensures w.marks == undo.world.marks && w.ticks == undo.world.ticks
    ensures !w.lost ==> undo.ok && !undo.world.lost
  {
    undo.world.(lost := undo.world.lost || !undo.ok)
  }

  /** Enable as dispatched on the kind of s: a hardware sensor also switches its device, and takes
      the whole call back when that write fails. */
  function Enable(g: Graph, io: Platform, w: World, s: nat, h: nat, enable: bool): (r: Outcome)
    requires WellFormed(g) && Shaped(g, w) && s < |g| && h < MAX_DEVICES
    ensures ChangedBelow(g, w, r.world, s)
    decreases g[s].rank, 4, 0
  {
    var r := BaseEnable(g, io, w, s, h, enable);
    if r.ok then Concluded(g, io, r.world, s, h, enable, Switches(w.masks[s], h, enable)) else r
  }

  /** What follows once masks and dependencies are switched: the device write, and the times. */
  function Concluded(g: Graph, io: Platform, w: World, s: nat, h: nat, enable: bool, switched: bool): (r: Outcome)
    requires WellFormed(g) && Shaped(g, w) && s < |g| && h < MAX_DEVICES
    ensures ChangedBelow(g, w, r.world, s)
    decreases g[s].rank, 3, 0
  {
    if !g[s].Hardware() || !switched then Outcome(Stamped(io, w, s, h, enable, switched), true)
    else
      var w1 := w.(writes := w.writes + 1);
      if io.accepts(w.writes) then
        Outcome(Stamped(io, w1.(power := w.power[s := w.masks[s] != {}]), s, h, enable, true), true)
      else
        Outcome(NoteUndo(BaseEnable(g, io, w1, s, h, !enable)), false)
  }

  /** The state in which s passes its switch on. */
  function BeforeSwitchOver(g: Graph, io: Platform, w: World, s: nat, h: nat, enable: bool): (r: World)
    requires WellFormed(g) && Shaped(g, w) && s < |g| && h < MAX_DEVICES
    ensures Shaped(g, r)
  {
    if enable then WithReset(WithBit(w, s, h, true), s)
    else WithBit(SetDelay(g, io, w, s, h, 0, INT64_MAX).world, s, h, false)
  }

  /** A call that switches s comes down to passing the switch on, and the rates are those this leaves. */
  lemma SwitchesThrough(g: Graph, io: Platform, w: World, s: nat, h: nat, enable: bool)
    requires WellFormed(g) && Shaped(g, w) && s < |g| && h < MAX_DEVICES
    requires !(h == s && enable == (h in w.masks[s])) && Switches(w.masks[s], h, enable)
    requires enable || SetDelay(g, io, w, s, h, 0, INT64_MAX).ok
    ensures var b, w1 := BaseEnable(g, io, w, s, h, enable), BeforeSwitchOver(g, io, w, s, h, enable);
            var (w2, done) := PushEnables(g, io, w1, s, enable, 0);
            && b == (if done == |g[s].deps| then Outcome(w2, true)
                     else Outcome(WithBit(RestoreEnables(g, io, w2, s, enable, done), s, h, !enable), false))
            && (b.ok && Enable(g, io, w, s, h, enable).ok ==>
                  Enable(g, io, w, s, h, enable).world.rates == w2.rates && Enable(g, io, w, s, h, enable).world.masks == w2.masks)
  {
    hide SetDelay, PushEnables, RestoreEnables;
    var w1 := BeforeSwitchOver(g, io, w, s, h, enable);
    assert BaseEnable(g, io, w, s, h, enable) == SwitchOver(g, io, w1, s, h, enable);
  }

  // ---------------------------------------------------------------- client calls

  /** The entry points always use the sensor's own handle. */
  datatype Call = Activate(sensor: nat, enable: bool) | Batch(sensor: nat, period: int, timeout: int)

  function Perform(g: Graph, io: Platform, w: World, c: Call): (r: Outcome)
    requires WellFormed(g) && Shaped(g, w) && c.sensor < |g|
    ensures Shaped(g, r.world)
  {
    match c
    case Activate(s, enable) => Enable(g, io, w, s, s, enable)
    case Batch(s, period, timeout) => SetDelay(g, io, w, s, s, period, timeout)
  }
}
