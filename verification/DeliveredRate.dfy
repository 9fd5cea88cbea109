/** At which rate each sample is decimated while the client queues changes of rate: the counterpart, for the queue of
    the client's samples, of what RateSwitching proves of the data thread's queue. */
module DeliveredRate {
  import opened Pipe
  import opened Queues
  import opened Decimation
  import opened RateSwitching

  /** The gate with its history: the changes accepted into its queue, those that came into force, and the time of the
      latest sample. */
  datatype Course = Course(gate: Gate, accepted: seq<Switch>, applied: seq<Switch>, latest: int)

  datatype Event =
    | Request(time: int, rate: nat)                                            // SetDelay queues a new rate
    | Deliver(window: Times, time: int, hwPollrate: nat, writes: bool)         // WriteDataToPipe for a sample

  const NOTHING_YET := Course(Gate(0, 0, 1, 0, [], []), [], [], 0)

  function Switches(q: seq<(int, int)>): (r: seq<Switch>)
    ensures |r| == |q| && forall i :: 0 <= i < |q| ==> r[i] == Switch(q[i].0, q[i].1)
  {
    seq(|q|, i requires 0 <= i < |q| => Switch(q[i].0, q[i].1))
  }

  function After(c: Course, e: Event): (r: Course)
    requires Counting(c.gate)
    ensures Counting(r.gate)
  {
    match e
    case Request(time, rate) =>
      if |c.gate.pending| >= ODR_STACK_MAX then c
      else c.(gate := c.gate.(pending := c.gate.pending + [(time, rate)]), accepted := c.accepted + [Switch(time, rate)])
    case Deliver(w, time, hwPollrate, writes) =>
      if hwPollrate == 0 then c
      else
        var g := Push(c.gate, w, time, hwPollrate, writes);
        var removed := |c.gate.pending| - |g.pending|;
        c.(gate := g, latest := time, applied := c.applied + if removed > 0 then [Switches(c.gate.pending)[0]] else [])
  }

  function Run(c: Course, events: seq<Event>): (r: Course)
    requires Counting(c.gate)
    ensures Counting(r.gate)
    decreases |events|
  {
    if events == [] then c else Run(After(c, events[0]), events[1..])
  }

  /** Changes are stamped in order, and samples too. */
  predicate InTurn(c: Course, events: seq<Event>)
    requires Counting(c.gate)
    decreases |events|
  {
    events == [] ||
    ((match events[0]
      case Request(time, _) => time >= 0 && (c.accepted != [] ==> c.accepted[|c.accepted| - 1].timestamp <= time)
      case Deliver(_, time, _, _) => c.latest <= time)
     && InTurn(After(c, events[0]), events[1..]))
  }

  /** The rate in force is that of the last change applied, which was earlier than the latest sample. */
  ghost predicate InForce(c: Course) {
    && Counting(c.gate)
    && c.accepted == c.applied + Switches(c.gate.pending)
    && c.gate.rate == (if c.applied == [] then 0 else c.applied[|c.applied| - 1].rate)
    && (c.applied != [] ==> c.applied[|c.applied| - 1].timestamp < c.latest)
    && Ascending(c.accepted)
    && forall i :: 0 <= i < |c.accepted| ==> c.accepted[i].timestamp >= 0
  }

  lemma RequestKeeps(c: Course, time: int, rate: nat)
    requires InForce(c) && time >= 0 && (c.accepted != [] ==> c.accepted[|c.accepted| - 1].timestamp <= time)
    ensures InForce(After(c, Request(time, rate)))
  {
    if |c.gate.pending| < ODR_STACK_MAX {
      assert Switches(c.gate.pending + [(time, rate)]) == Switches(c.gate.pending) + [Switch(time, rate)];
      assert c.applied + (Switches(c.gate.pending) + [Switch(time, rate)]) == c.accepted + [Switch(time, rate)];
    }
  }

  lemma DeliverKeeps(c: Course, w: Times, time: int, hwPollrate: nat, writes: bool)
    requires InForce(c) && c.latest <= time
    ensures InForce(After(c, Deliver(w, time, hwPollrate, writes)))
  {
    if hwPollrate > 0 {
      PushExactly(c.gate, w, time, hwPollrate, writes);
      hide Push, Ascending, Decimator;
      var q := c.gate.pending;
      if q != [] { OneApplied(c.applied, q); }
    }
  }

  lemma OneApplied(applied: seq<Switch>, q: seq<(int, int)>)
    requires q != []
    ensures (applied + [Switches(q)[0]]) + Switches(q[1..]) == applied + Switches(q)
  {
    assert Switches(q) == [Switches(q)[0]] + Switches(q[1..]);
  }

  lemma {:induction false} RunInForce(c: Course, events: seq<Event>)
    requires InForce(c) && InTurn(c, events)
    ensures InForce(Run(c, events))
    decreases |events|
  {
    assert Counting(c.gate);
    hide InForce, After;
    if events != [] {
      match events[0] {
        case Request(time, rate) => RequestKeeps(c, time, rate);
        case Deliver(w, time, hwPollrate, writes) => DeliverKeeps(c, w, time, hwPollrate, writes);
      }
      RunInForce(After(c, events[0]), events[1..]);
    }
  }

  /** After any run of requests and samples in turn, a sample that leaves no second change older than itself waiting is
      decimated at the rate of the latest change queued before it. */
  lemma DecimatedAtLatestRate(events: seq<Event>, w: Times, time: int, hwPollrate: nat, writes: bool)
    requires InTurn(NOTHING_YET, events) && hwPollrate > 0
    requires var c := Run(NOTHING_YET, events); c.latest <= time && NoBacklog(Switches(c.gate.pending), time)
    ensures var c := Run(NOTHING_YET, events); Push(c.gate, w, time, hwPollrate, writes).rate == RateBefore(c.accepted, time)
  {
    var c := Run(NOTHING_YET, events);
    RunInForce(NOTHING_YET, events);
    RateAtMoment(c.applied, Switches(c.gate.pending), time);
    PushExactly(c.gate, w, time, hwPollrate, writes);
    hide Push, RateBefore, Ascending, Run;
    assert c.gate.pending != [] ==> c.accepted[|c.applied|] == Switches(c.gate.pending)[0];
  }
}
