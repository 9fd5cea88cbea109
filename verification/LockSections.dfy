/** The sections that the calls on the sensor graph open.  Between two visits of a sensor other threads may
    change every mask, slot and queue, so whatever a call finds out at a visit is an arbitrary answer; the
    order of the sections and their nesting are those of the code.  All of them keep the lock order. */
module LockSections {
  import opened SensorGraph
  import opened PowerTheorem
  import opened Locking

  /** What a call finds out at one visit of a sensor. */
  datatype Answer = Answer(
    refused: bool,     // SetDelay turns the request down before it takes the mutex
    settled: bool,   // SetDelay or Enable finds nothing to do
    queued: bool,      // SetDelay queues a new rate for the data thread
    rated: bool,       // ... and for the client
    switches: bool,    // Enable switches the sensor on or off
    used: bool,        // FlushData finds the sensor in use
    room: bool,        // ... and room in its request queue
    batching: bool,    // ... and that it batches
    requested: bool,   // ProcessFlushData finds a request
    waits: bool,       // ... that has to wait for its sample
    own: bool,         // ... or is the sensor's own, or not for it
    accepted: bool)    // what the call, the device or the clearing SetDelay answers in the end

  /** The answers at each visit, named by the way there. */
  type Answers = seq<nat> -> Answer

  function Queue(s: nat): seq<Section> {
    [Section(QueueAccess, s, [])]
  }

  // ---------------------------------------------------------------- SetDelay

  function DelaySections(g: Graph, a: Answers, way: seq<nat>, s: nat): seq<Section>
    requires WellFormed(g) && s < |g|
    decreases g[s].rank, 3, 0
  {
    if a(way).refused then [] else [Section(Op.SetDelay, s, DelayInner(g, a, way, s))]
  }

  /** What SetDelay does under the mutex, its own or that of the Enable that calls it. */
  function DelayInner(g: Graph, a: Answers, way: seq<nat>, s: nat): seq<Section>
    requires WellFormed(g) && s < |g|
    decreases g[s].rank, 2, 0
  {
    if g[s].kind.EventHardware? || a(way).settled then []
    else Offers(g, a, way, s, 0) + (if a(way).queued then Queue(s) else []) + (if a(way).rated then Queue(s) else [])
  }

  /** The dependencies are offered the minima in turn, and offered them again when one refuses. */
  function Offers(g: Graph, a: Answers, way: seq<nat>, s: nat, i: nat): seq<Section>
    requires WellFormed(g) && s < |g| && i <= |g[s].deps|
    decreases g[s].rank, 1, |g[s].deps| - i
  {
    if i == |g[s].deps| then []
    else
      DelaySections(g, a, way + [0, i], g[s].deps[i])
      + if a(way + [0, i]).accepted then Offers(g, a, way, s, i + 1) else Reoffers(g, a, way, s, i)
  }

  function Reoffers(g: Graph, a: Answers, way: seq<nat>, s: nat, i: nat): seq<Section>
    requires WellFormed(g) && s < |g| && i <= |g[s].deps|
    decreases g[s].rank, 0, i
  {
    if i == 0 then []
    else DelaySections(g, a, way + [1, i - 1], g[s].deps[i - 1]) + Reoffers(g, a, way, s, i - 1)
  }

  // ---------------------------------------------------------------- Enable

  /** A hardware sensor whose device refuses takes the whole call back. */
  function EnableSection(g: Graph, a: Answers, way: seq<nat>, s: nat, enable: bool): Section
    requires WellFormed(g) && s < |g|
    decreases g[s].rank, 4, 0
  {
    Section(Op.Enable, s,
      EnableInner(g, a, way + [2], s, enable)
      + if g[s].Hardware() && !a(way).accepted then EnableInner(g, a, way + [3], s, !enable) else [])
  }

  function EnableInner(g: Graph, a: Answers, way: seq<nat>, s: nat, enable: bool): seq<Section>
    requires WellFormed(g) && s < |g|
    decreases g[s].rank, 3, 0
  {
    var x := a(way);
    if x.settled then []
    else if enable then (if x.switches then Queue(s) + Switching(g, a, way, s, enable, 0) else [])
    else DelayInner(g, a, way + [4], s) + if x.accepted && x.switches then Switching(g, a, way, s, enable, 0) else []
  }

  function Switching(g: Graph, a: Answers, way: seq<nat>, s: nat, enable: bool, i: nat): seq<Section>
    requires WellFormed(g) && s < |g| && i <= |g[s].deps|
    decreases g[s].rank, 1, |g[s].deps| - i
  {
    if i == |g[s].deps| then []
    else
      [EnableSection(g, a, way + [5, i], g[s].deps[i], enable)]
      + if a(way + [5, i]).accepted then Switching(g, a, way, s, enable, i + 1) else Unswitching(g, a, way, s, enable, i)
  }

  function Unswitching(g: Graph, a: Answers, way: seq<nat>, s: nat, enable: bool, i: nat): seq<Section>
    requires WellFormed(g) && s < |g| && i <= |g[s].deps|
    decreases g[s].rank, 0, i
  {
    if i == 0 then []
    else [EnableSection(g, a, way + [6, i - 1], g[s].deps[i - 1], !enable)] + Unswitching(g, a, way, s, enable, i - 1)
  }

  // ---------------------------------------------------------------- legality

  /** All these sections may be opened by `outer` on s. */
  ghost predicate Fit(g: Graph, outer: Op, s: nat, cs: seq<Section>) {
    s < |g| && forall c <- cs :: MayContain(g, outer, s, c.op, c.sensor) && Legal(g, c)
  }

  lemma Join(g: Graph, outer: Op, s: nat, a: seq<Section>, b: seq<Section>)
    requires Fit(g, outer, s, a) && Fit(g, outer, s, b)
    ensures Fit(g, outer, s, a + b)
  {
  }

  lemma QueueFits(g: Graph, outer: Op, s: nat)
    requires s < |g| && outer != QueueAccess
    ensures Fit(g, outer, s, Queue(s)) && Fit(g, outer, s, [])
  {
  }

  /** One section with fitting contents. */
  lemma Nested(g: Graph, outer: Op, s: nat, inner: Op, d: nat, cs: seq<Section>)
    requires Fit(g, inner, d, cs) && MayContain(g, outer, s, inner, d)
    ensures Fit(g, outer, s, [Section(inner, d, cs)])
  {
  }

  /** The sections SetDelay opens on s may be opened by any call that may open SetDelay on s. */
  lemma {:induction false} SetDelayFits(g: Graph, a: Answers, way: seq<nat>, s: nat, outer: Op, x: nat)
    requires WellFormed(g) && s < |g| && MayContain(g, outer, x, Op.SetDelay, s)
    ensures Fit(g, outer, x, DelaySections(g, a, way, s))
    decreases g[s].rank, 3, 0
  {
    InnerFits(g, a, way, s, Op.SetDelay);
    Nested(g, outer, x, Op.SetDelay, s, DelayInner(g, a, way, s));
  }

  lemma {:induction false} InnerFits(g: Graph, a: Answers, way: seq<nat>, s: nat, outer: Op)
    requires WellFormed(g) && s < |g| && (outer.SetDelay? || outer.Enable?)
    ensures Fit(g, outer, s, DelayInner(g, a, way, s))
    decreases g[s].rank, 2, 0
  {
    hide Fit, Offers;
    QueueFits(g, outer, s);
    OffersFit(g, a, way, s, 0, outer);
    var offers, first, second := Offers(g, a, way, s, 0), if a(way).queued then Queue(s) else [], if a(way).rated then Queue(s) else [];
    Join(g, outer, s, offers, first);
    Join(g, outer, s, offers + first, second);
  }

  lemma {:induction false} OffersFit(g: Graph, a: Answers, way: seq<nat>, s: nat, i: nat, outer: Op)
    requires WellFormed(g) && s < |g| && i <= |g[s].deps| && (outer.SetDelay? || outer.Enable?)
    ensures Fit(g, outer, s, Offers(g, a, way, s, i))
    decreases g[s].rank, 1, |g[s].deps| - i
  {
    hide Fit, DelaySections, Reoffers;
    QueueFits(g, outer, s);
    if i < |g[s].deps| {
      var d := g[s].deps[i];
      SetDelayFits(g, a, way + [0, i], d, outer, s);
      OffersFit(g, a, way, s, i + 1, outer);
      ReoffersFit(g, a, way, s, i, outer);
      var rest := if a(way + [0, i]).accepted then Offers(g, a, way, s, i + 1) else Reoffers(g, a, way, s, i);
      Join(g, outer, s, DelaySections(g, a, way + [0, i], d), rest);
    }
  }

  lemma {:induction false} ReoffersFit(g: Graph, a: Answers, way: seq<nat>, s: nat, i: nat, outer: Op)
    requires WellFormed(g) && s < |g| && i <= |g[s].deps| && (outer.SetDelay? || outer.Enable?)
    ensures Fit(g, outer, s, Reoffers(g, a, way, s, i))
    decreases g[s].rank, 0, i
  {
    hide Fit, DelaySections;
    QueueFits(g, outer, s);
    if i > 0 {
      SetDelayFits(g, a, way + [1, i - 1], g[s].deps[i - 1], outer, s);
      ReoffersFit(g, a, way, s, i - 1, outer);
      Join(g, outer, s, DelaySections(g, a, way + [1, i - 1], g[s].deps[i - 1]), Reoffers(g, a, way, s, i - 1));
    }
  }

  /** The section Enable opens on s is one that the lock order allows. */
  lemma {:induction false} EnableFits(g: Graph, a: Answers, way: seq<nat>, s: nat, enable: bool)
    requires WellFormed(g) && s < |g|
    ensures Legal(g, EnableSection(g, a, way, s, enable))
    decreases g[s].rank, 4, 0
  {
    hide EnableInner;
    EnableInnerFits(g, a, way + [2], s, enable);
    EnableInnerFits(g, a, way + [3], s, !enable);
  }

  lemma {:induction false} EnableInnerFits(g: Graph, a: Answers, way: seq<nat>, s: nat, enable: bool)
    requires WellFormed(g) && s < |g|
    ensures Fit(g, Op.Enable, s, EnableInner(g, a, way, s, enable))
    decreases g[s].rank, 3, 0
  {
    hide Fit, DelayInner, Switching;
    QueueFits(g, Op.Enable, s);
    InnerFits(g, a, way + [4], s, Op.Enable);
    SwitchingFits(g, a, way, s, enable, 0);
    var cleared, switching := DelayInner(g, a, way + [4], s), Switching(g, a, way, s, enable, 0);
    Join(g, Op.Enable, s, Queue(s), switching);
    Join(g, Op.Enable, s, cleared, switching);
    Join(g, Op.Enable, s, cleared, []);
  }

  lemma {:induction false} SwitchingFits(g: Graph, a: Answers, way: seq<nat>, s: nat, enable: bool, i: nat)
    requires WellFormed(g) && s < |g| && i <= |g[s].deps|
    ensures Fit(g, Op.Enable, s, Switching(g, a, way, s, enable, i))
    decreases g[s].rank, 1, |g[s].deps| - i
  {
    if i < |g[s].deps| {
      EnableFits(g, a, way + [5, i], g[s].deps[i], enable);
      SwitchingFits(g, a, way, s, enable, i + 1);
      UnswitchingFits(g, a, way, s, enable, i);
    }
  }

  lemma {:induction false} UnswitchingFits(g: Graph, a: Answers, way: seq<nat>, s: nat, enable: bool, i: nat)
    requires WellFormed(g) && s < |g| && i <= |g[s].deps|
    ensures Fit(g, Op.Enable, s, Unswitching(g, a, way, s, enable, i))
    decreases g[s].rank, 0, i
  {
    if i > 0 {
      EnableFits(g, a, way + [6, i - 1], g[s].deps[i - 1], !enable);
      UnswitchingFits(g, a, way, s, enable, i - 1);
    }
  }

  // ---------------------------------------------------------------- flushing

  /** Each sensor in a push list depends on the one that pushes. */
  ghost predicate PushFits(g: Graph, push: seq<seq<nat>>) {
    |push| == |g| && forall s: nat, t: nat {:trigger t in push[s]} :: s < |g| && t in push[s] ==> t < |g| && s in g[t].deps
  }

  /** FlushData on s.  A hardware sensor asks all its dependencies, a software sensor stops at a failure. */
  ghost function FlushSection(g: Graph, push: seq<seq<nat>>, a: Answers, top: nat, way: seq<nat>, s: nat): Section
    requires WellFormed(g) && PushFits(g, push) && Covers(g, top) && s < |g|
    decreases g[s].rank, 1, 0
  {
    var x := a(way);
    Section(Op.FlushData, s,
      if !x.used then []
      else
        (if g[s].Hardware() then Queue(s) else [])
        + if g[s].Hardware() && !x.room then []
          else if x.batching then FlushAll(g, push, a, top, way, s, 0)
          else ProcessSections(g, push, a, top, way + [1], s))
  }

  function FlushOk(g: Graph, a: Answers, way: seq<nat>, s: nat): bool
    requires WellFormed(g) && s < |g|
    decreases g[s].rank, 1, 0
  {
    var x := a(way);
    x.used && if g[s].Hardware() then x.room && (x.batching ==> x.accepted) else x.batching ==> AllOk(g, a, way, s, 0)
  }

  function AllOk(g: Graph, a: Answers, way: seq<nat>, s: nat, i: nat): bool
    requires WellFormed(g) && s < |g| && i <= |g[s].deps|
    decreases g[s].rank, 0, |g[s].deps| - i
  {
    i < |g[s].deps| ==> FlushOk(g, a, way + [0, i], g[s].deps[i]) && AllOk(g, a, way, s, i + 1)
  }

  ghost function FlushAll(g: Graph, push: seq<seq<nat>>, a: Answers, top: nat, way: seq<nat>, s: nat, i: nat): seq<Section>
    requires WellFormed(g) && PushFits(g, push) && Covers(g, top) && s < |g| && i <= |g[s].deps|
    decreases g[s].rank, 0, |g[s].deps| - i
  {
    if i == |g[s].deps| then []
    else
      [FlushSection(g, push, a, top, way + [0, i], g[s].deps[i])]
      + if g[s].Hardware() || FlushOk(g, a, way + [0, i], g[s].deps[i]) then FlushAll(g, push, a, top, way, s, i + 1) else []
  }

  /** ProcessFlushData on s: a hardware sensor first takes a request off its queue; then, under the sample
      mutex, the flush is stacked, completed, or handed to the sensors served. */
  ghost function ProcessSections(g: Graph, push: seq<seq<nat>>, a: Answers, top: nat, way: seq<nat>, s: nat): seq<Section>
    requires WellFormed(g) && PushFits(g, push) && Covers(g, top) && s < |g|
    decreases top - g[s].rank, 1, 0
  {
    var x := a(way);
    var inner := if x.waits then Queue(s) else if x.own then [] else HandOn(g, push, a, top, way, s, 0);
    if !g[s].Hardware() then [Section(Op.ProcessFlushData, s, inner)]
    else Queue(s) + if x.requested then [Section(Op.ProcessFlushData, s, inner)] else []
  }

  ghost function HandOn(g: Graph, push: seq<seq<nat>>, a: Answers, top: nat, way: seq<nat>, s: nat, j: nat): seq<Section>
    requires WellFormed(g) && PushFits(g, push) && Covers(g, top) && s < |g| && j <= |push[s]|
    decreases top - g[s].rank, 0, |push[s]| - j
  {
    if j == |push[s]| then []
    else
      Served(g, push, s, j);
      ProcessSections(g, push, a, top, way + [2, j], push[s][j]) + HandOn(g, push, a, top, way, s, j + 1)
  }

  lemma Served(g: Graph, push: seq<seq<nat>>, s: nat, j: nat)
    requires WellFormed(g) && PushFits(g, push) && s < |g| && j < |push[s]|
    ensures var t := push[s][j]; t < |g| && s in g[t].deps && g[s].rank < g[t].rank
  {
    var t := push[s][j];
    assert t in push[s];
    var i :| 0 <= i < |g[t].deps| && g[t].deps[i] == s;
  }

  /** What FlushData(s), or ProcessFlushData on a sensor that s serves or s itself, may open. */
  predicate MayProcess(g: Graph, outer: Op, x: nat, s: nat) {
    (outer.FlushData? && x == s) || (outer.ProcessFlushData? && x < |g| && s < |g| && x in g[s].deps)
  }

  lemma {:induction false} ProcessFits(g: Graph, push: seq<seq<nat>>, a: Answers, top: nat, way: seq<nat>, s: nat, outer: Op, x: nat)
    requires WellFormed(g) && PushFits(g, push) && Covers(g, top) && s < |g| && x < |g| && MayProcess(g, outer, x, s)
    ensures Fit(g, outer, x, ProcessSections(g, push, a, top, way, s))
    decreases top - g[s].rank, 1, 0
  {
    hide HandOn;
    HandOnFits(g, push, a, top, way, s, 0);
    QueueFits(g, Op.ProcessFlushData, s);
  }

  lemma {:induction false} HandOnFits(g: Graph, push: seq<seq<nat>>, a: Answers, top: nat, way: seq<nat>, s: nat, j: nat)
    requires WellFormed(g) && PushFits(g, push) && Covers(g, top) && s < |g| && j <= |push[s]|
    ensures Fit(g, Op.ProcessFlushData, s, HandOn(g, push, a, top, way, s, j))
    decreases top - g[s].rank, 0, |push[s]| - j
  {
    hide Fit, ProcessSections;
    QueueFits(g, Op.ProcessFlushData, s);
    if j < |push[s]| {
      Served(g, push, s, j);
      ProcessFits(g, push, a, top, way + [2, j], push[s][j], Op.ProcessFlushData, s);
      HandOnFits(g, push, a, top, way, s, j + 1);
      Join(g, Op.ProcessFlushData, s, ProcessSections(g, push, a, top, way + [2, j], push[s][j]), HandOn(g, push, a, top, way, s, j + 1));
    }
  }

  /** Whatever it finds on its way, a flush only opens sections that the lock order allows. */
  lemma {:induction false} FlushIsLegal(g: Graph, push: seq<seq<nat>>, a: Answers, top: nat, way: seq<nat>, s: nat)
    requires WellFormed(g) && PushFits(g, push) && Covers(g, top) && s < |g|
    ensures Legal(g, FlushSection(g, push, a, top, way, s))
    decreases g[s].rank, 1, 0
  {
    hide ProcessSections, FlushAll;
    QueueFits(g, Op.FlushData, s);
    ProcessFits(g, push, a, top, way + [1], s, Op.FlushData, s);
    FlushAllFits(g, push, a, top, way, s, 0);
  }

  lemma {:induction false} FlushAllFits(g: Graph, push: seq<seq<nat>>, a: Answers, top: nat, way: seq<nat>, s: nat, i: nat)
    requires WellFormed(g) && PushFits(g, push) && Covers(g, top) && s < |g| && i <= |g[s].deps|
    ensures Fit(g, Op.FlushData, s, FlushAll(g, push, a, top, way, s, i))
    decreases g[s].rank, 0, |g[s].deps| - i
  {
    hide Fit, FlushSection, FlushOk;
    QueueFits(g, Op.FlushData, s);
    if i < |g[s].deps| {
      FlushOneFits(g, push, a, top, way + [0, i], s, i);
      FlushAllFits(g, push, a, top, way, s, i + 1);
      Join(g, Op.FlushData, s, [FlushSection(g, push, a, top, way + [0, i], g[s].deps[i])], FlushAll(g, push, a, top, way, s, i + 1));
      Join(g, Op.FlushData, s, [FlushSection(g, push, a, top, way + [0, i], g[s].deps[i])], []);
    }
  }

  lemma {:induction false} FlushOneFits(g: Graph, push: seq<seq<nat>>, a: Answers, top: nat, way: seq<nat>, s: nat, i: nat)
    requires WellFormed(g) && PushFits(g, push) && Covers(g, top) && s < |g| && i < |g[s].deps|
    ensures Fit(g, Op.FlushData, s, [FlushSection(g, push, a, top, way, g[s].deps[i])])
    decreases g[s].rank, 0, 0
  {
    var c := FlushSection(g, push, a, top, way, g[s].deps[i]);
    assert c.op == Op.FlushData && c.sensor == g[s].deps[i];
    FlushIsLegal(g, push, a, top, way, g[s].deps[i]);
  }

  // ---------------------------------------------------------------- threads

  /** What a client, event or data thread asks of a sensor. */
  datatype Job = Switch(sensor: nat, enable: bool) | Delay(sensor: nat) | Flush(sensor: nat) | Process(sensor: nat)

  ghost function JobSections(g: Graph, push: seq<seq<nat>>, a: Answers, top: nat, way: seq<nat>, job: Job): seq<Section>
    requires WellFormed(g) && PushFits(g, push) && Covers(g, top) && job.sensor < |g|
  {
    match job
    case Switch(s, enable) => [EnableSection(g, a, way, s, enable)]
    case Delay(s) => DelaySections(g, a, way, s)
    case Flush(s) => [FlushSection(g, push, a, top, way, s)]
    case Process(s) => ProcessSections(g, push, a, top, way, s)
  }

  lemma JobIsLegal(g: Graph, push: seq<seq<nat>>, a: Answers, top: nat, way: seq<nat>, job: Job)
    requires WellFormed(g) && PushFits(g, push) && Covers(g, top) && job.sensor < |g|
    ensures forall c <- JobSections(g, push, a, top, way, job) :: Legal(g, c)
  {
    hide EnableSection, DelayInner, FlushSection, ProcessSections, Legal;
    match job
    case Switch(s, enable) => EnableFits(g, a, way, s, enable);
    case Delay(s) => DelayIsLegal(g, a, way, s);
    case Flush(s) => FlushIsLegal(g, push, a, top, way, s);
    case Process(s) => ProcessFits(g, push, a, top, way, s, Op.FlushData, s);
  }

  lemma DelayIsLegal(g: Graph, a: Answers, way: seq<nat>, s: nat)
    requires WellFormed(g) && s < |g|
    ensures Legal(g, Section(Op.SetDelay, s, DelayInner(g, a, way, s)))
  {
    hide DelayInner;
    InnerFits(g, a, way, s, Op.SetDelay);
  }

  ghost predicate JobsFit(g: Graph, jobs: seq<Job>) {
    forall j <- jobs :: j.sensor < |g|
  }

  /** The sections thread t opens for its jobs, one job after the other. */
  ghost function ThreadSections(g: Graph, push: seq<seq<nat>>, a: Answers, top: nat, t: nat, jobs: seq<Job>): seq<Section>
    requires WellFormed(g) && PushFits(g, push) && Covers(g, top) && JobsFit(g, jobs)
  {
    if jobs == [] then []
    else
      var last := |jobs| - 1;
      ThreadSections(g, push, a, top, t, jobs[..last]) + JobSections(g, push, a, top, [t, last], jobs[last])
  }

  lemma {:induction false} ThreadIsLegal(g: Graph, push: seq<seq<nat>>, a: Answers, top: nat, t: nat, jobs: seq<Job>)
    requires WellFormed(g) && PushFits(g, push) && Covers(g, top) && JobsFit(g, jobs)
    ensures forall c <- ThreadSections(g, push, a, top, t, jobs) :: Legal(g, c)
  {
    hide JobSections, Legal;
    if jobs != [] {
      var last := |jobs| - 1;
      ThreadIsLegal(g, push, a, top, t, jobs[..last]);
      JobIsLegal(g, push, a, top, [t, last], jobs[last]);
    }
  }

  /** Any threads, each working through any mix of Enable, SetDelay, FlushData and ProcessFlushData calls,
      stopped at any point of any interleaving, whatever they found at each sensor on their way. */
  ghost predicate Working(g: Graph, push: seq<seq<nat>>, a: Answers, top: nat, jobs: seq<seq<Job>>, threads: seq<Thread>)
    requires WellFormed(g) && PushFits(g, push) && Covers(g, top)
  {
    && |threads| == |jobs|
    && forall t {:trigger threads[t]} :: 0 <= t < |threads| ==>
         && JobsFit(g, jobs[t])
         && threads[t].calls == ThreadSections(g, push, a, top, t, jobs[t])
         && threads[t].pc <= |Events(threads[t])|
  }

  lemma WorkingIsRunning(g: Graph, push: seq<seq<nat>>, a: Answers, top: nat, jobs: seq<seq<Job>>, threads: seq<Thread>)
    requires WellFormed(g) && PushFits(g, push) && Covers(g, top) && Working(g, push, a, top, jobs, threads)
    ensures Running(g, threads)
  {
    hide ThreadSections, Legal, Events;
    forall t: nat | t < |threads|
      ensures forall i :: 0 <= i < |threads[t].calls| ==> Legal(g, threads[t].calls[i])
    {
      assert threads[t].calls == ThreadSections(g, push, a, top, t, jobs[t]);
      ThreadIsLegal(g, push, a, top, t, jobs[t]);
    }
  }

  /** Such threads never deadlock: none wants a lock it holds, no chain of waiting threads closes, and while
      one is unfinished some thread can go on. */
  lemma ThreadsNeverDeadlock(g: Graph, push: seq<seq<nat>>, a: Answers, top: nat, jobs: seq<seq<Job>>, threads: seq<Thread>)
    requires WellFormed(g) && PushFits(g, push) && Covers(g, top) && Working(g, push, a, top, jobs, threads)
    ensures Running(g, threads)
    ensures forall t, l :: 0 <= t < |threads| && Wants(threads[t], l) ==> l !in HeldBy(threads[t])
    ensures forall chain: seq<nat> :: WaitingChain(threads, chain) ==> chain[0] != chain[|chain| - 1]
    ensures (exists t :: 0 <= t < |threads| && !Finished(threads[t])) ==> exists u: nat :: CanStep(threads, u)
  {
    hide Legal, Working, Wants, Events, CanStep;
    WorkingIsRunning(g, push, a, top, jobs, threads);
    forall t, l | 0 <= t < |threads| && Wants(threads[t], l) ensures l !in HeldBy(threads[t]) {
      NoSelfDeadlock(g, top, threads, t, l);
    }
    forall chain: seq<nat> | WaitingChain(threads, chain) ensures chain[0] != chain[|chain| - 1] {
      NoCircularWait(g, top, threads, chain);
    }
    if t: nat :| t < |threads| && !Finished(threads[t]) {
      var u := SomeThreadCanStep(g, top, threads, t);
    }
  }

  /** Each thread of the chain waits for the next. */
  ghost predicate WaitingChain(threads: seq<Thread>, chain: seq<nat>) {
    && |chain| > 1 && (forall i :: 0 <= i < |chain| ==> chain[i] < |threads|)
    && forall i :: 1 <= i < |chain| ==> WaitsFor(threads[chain[i - 1]], threads[chain[i]])
  }
}
