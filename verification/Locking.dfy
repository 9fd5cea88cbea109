/** Lock order of the sensor graph.  Every lock is taken and given up within one call, so what a thread
    does to locks is a tree of nested sections; the rules below say which section may contain which, and
    module LockSections shows that the calls keep them. */
module Locking {
  import opened SensorGraph
  import opened PowerTheorem

  /** `Enabling` is the enable mutex of a sensor, `Sampling` its sample-in-processing mutex, `Queueing`
      the data mutex of one of its queues or buffers. */
  datatype Lock = Enabling(sensor: nat) | Sampling(sensor: nat) | Queueing(sensor: nat)

  datatype Op = Enable | SetDelay | FlushData | ProcessFlushData | QueueAccess

  /** One call that takes a lock, with the locking calls made while it is held. */
  datatype Section = Section(op: Op, sensor: nat, inner: seq<Section>)

  function LockOf(op: Op, s: nat): Lock {
    match op
    case Enable => Enabling(s)
    case SetDelay => Enabling(s)
    case FlushData => Enabling(s)
    case ProcessFlushData => Sampling(s)
    case QueueAccess => Queueing(s)
  }

  /** May a call `inner` on sensor t happen while `outer` on sensor s holds its lock?  Enable, SetDelay
      and FlushData go down to dependencies, ProcessFlushData goes up to the sensors served. */
  predicate MayContain(g: Graph, outer: Op, s: nat, inner: Op, t: nat) {
    s < |g| && t < |g| &&
    match (outer, inner)
    case (QueueAccess, _) => false
    case (_, QueueAccess) => true
    case (Enable, Enable) => t in g[s].deps
    case (Enable, SetDelay) => t in g[s].deps
    case (SetDelay, SetDelay) => t in g[s].deps
    case (FlushData, FlushData) => t in g[s].deps
    case (FlushData, ProcessFlushData) => t == s
    case (ProcessFlushData, ProcessFlushData) => s in g[t].deps
    case _ => false
  }

  predicate Legal(g: Graph, c: Section)
    decreases c
  {
    c.sensor < |g| && forall i :: 0 <= i < |c.inner| ==> MayContain(g, c.op, c.sensor, c.inner[i].op, c.inner[i].sensor) && Legal(g, c.inner[i])
  }

  // ---------------------------------------------------------------- traces

  datatype Event = Acquire(lock: Lock) | Release(lock: Lock)

  function Trace(c: Section): seq<Event>
    decreases c, 1
  {
    var l := LockOf(c.op, c.sensor);
    [Acquire(l)] + TraceAll(c.inner) + [Release(l)]
  }

  function TraceAll(cs: seq<Section>): seq<Event>
    decreases cs, 0
  {
    if cs == [] then [] else Trace(cs[0]) + TraceAll(cs[1..])
  }

  /** The locks held after the first n events. */
  function Held(tr: seq<Event>, n: nat): set<Lock>
    requires n <= |tr|
  {
    if n == 0 then {}
    else match tr[n - 1] case Acquire(l) => Held(tr, n - 1) + {l} case Release(l) => Held(tr, n - 1) - {l}
  }

  /** Enable mutexes come first, going down the graph, then sample mutexes, going up, then queues. */
  function Level(g: Graph, top: nat, l: Lock): int {
    var rank := if l.sensor < |g| then g[l.sensor].rank else 0;
    match l
    case Enabling(_) => top - rank
    case Sampling(_) => top + 1 + rank
    case Queueing(_) => 2 * top + 2
  }

  /** Each lock is taken above everything held and above the floor, and all are given back. */
  ghost predicate InOrder(g: Graph, top: nat, tr: seq<Event>, floor: int) {
    && (forall n {:trigger tr[n]} :: 0 <= n < |tr| && tr[n].Acquire? ==>
          floor < Level(g, top, tr[n].lock) && forall m :: m in Held(tr, n) ==> Level(g, top, m) < Level(g, top, tr[n].lock))
    && (forall n: nat, m {:trigger m in Held(tr, n)} :: n <= |tr| && m in Held(tr, n) ==> floor < Level(g, top, m))
    && (forall n {:trigger tr[n]} :: 0 <= n < |tr| && tr[n].Release? ==> floor < Level(g, top, tr[n].lock))
    && Held(tr, |tr|) == {}
  }

  // ---------------------------------------------------------------- composing traces

  lemma {:induction false} HeldPrefix(a: seq<Event>, b: seq<Event>, n: nat)
    requires n <= |a|
    ensures Held(a + b, n) == Held(a, n)
  {
    if n > 0 { HeldPrefix(a, b, n - 1); }
  }

  lemma {:induction false} HeldSuffix(a: seq<Event>, b: seq<Event>, n: nat)
    requires n <= |b| && Held(a, |a|) == {}
    ensures Held(a + b, |a| + n) == Held(b, n)
  {
    if n == 0 { HeldPrefix(a, b, |a|); } else { HeldSuffix(a, b, n - 1); }
  }

  lemma {:induction false} HeldInside(l: Lock, b: seq<Event>, n: nat)
    requires n <= |b| && forall i :: 0 <= i < |b| ==> b[i].lock != l
    ensures Held([Acquire(l)] + b + [Release(l)], n + 1) == Held(b, n) + {l}
    ensures l !in Held(b, n)
  {
    var tr := [Acquire(l)] + b + [Release(l)];
    if n == 0 {
      assert Held(tr, 0) == {} && tr[0] == Acquire(l);
    } else {
      HeldInside(l, b, n - 1);
      assert tr[n] == b[n - 1];
    }
  }

  lemma {:induction false} ConcatInOrder(g: Graph, top: nat, a: seq<Event>, b: seq<Event>, floor: int)
    requires InOrder(g, top, a, floor) && InOrder(g, top, b, floor)
    ensures InOrder(g, top, a + b, floor)
  {
    var tr := a + b;
    forall n: nat | n <= |tr| ensures n <= |a| ==> Held(tr, n) == Held(a, n)
                              ensures n >= |a| ==> Held(tr, n) == Held(b, n - |a|) {
      if n <= |a| { HeldPrefix(a, b, n); }
      if n >= |a| { HeldSuffix(a, b, n - |a|); }
    }
    forall n | 0 <= n < |tr| ensures tr[n] == if n < |a| then a[n] else b[n - |a|] {
    }
  }

  lemma {:induction false} WrapInOrder(g: Graph, top: nat, l: Lock, b: seq<Event>, floor: int)
    requires floor < Level(g, top, l) && InOrder(g, top, b, Level(g, top, l))
    ensures InOrder(g, top, [Acquire(l)] + b + [Release(l)], floor)
  {
    var tr := [Acquire(l)] + b + [Release(l)];
    forall n: nat | n <= |b| ensures Held(tr, n + 1) == Held(b, n) + {l} && l !in Held(b, n) {
      HeldInside(l, b, n);
    }
    assert Held(tr, 0) == {};
    assert tr[|b| + 1] == Release(l);
    assert Held(tr, |tr|) == {};
    forall n | 0 <= n < |tr| ensures tr[n] == if n == 0 then Acquire(l) else if n <= |b| then b[n - 1] else Release(l) {
    }
    forall n: nat, m | n <= |tr| && m in Held(tr, n) ensures floor < Level(g, top, m) {
      if 0 < n <= |b| + 1 { assert m in Held(b, n - 1) + {l}; }
    }
    forall n | 0 <= n < |tr| && tr[n].Acquire?
      ensures floor < Level(g, top, tr[n].lock) && forall m :: m in Held(tr, n) ==> Level(g, top, m) < Level(g, top, tr[n].lock)
    {
      if n > 0 { assert tr[n] == b[n - 1] && Held(tr, n) == Held(b, n - 1) + {l}; }
    }
  }

  lemma ContainedIsHigher(g: Graph, top: nat, outer: Op, s: nat, inner: Op, t: nat)
    requires WellFormed(g) && Covers(g, top) && MayContain(g, outer, s, inner, t)
    ensures Level(g, top, LockOf(outer, s)) < Level(g, top, LockOf(inner, t))
  {
    if t in g[s].deps { var i :| 0 <= i < |g[s].deps| && g[s].deps[i] == t; }
    if s in g[t].deps { var i :| 0 <= i < |g[t].deps| && g[t].deps[i] == s; }
  }

  /** Whatever a legal call does, it takes its locks in increasing level and gives them all back. */
  lemma {:induction false} LegalInOrder(g: Graph, top: nat, c: Section, floor: int)
    requires WellFormed(g) && Covers(g, top) && Legal(g, c) && floor < Level(g, top, LockOf(c.op, c.sensor))
    ensures InOrder(g, top, Trace(c), floor)
    decreases c, 1
  {
    var l := LockOf(c.op, c.sensor);
    forall i | 0 <= i < |c.inner|
      ensures Legal(g, c.inner[i]) && Level(g, top, l) < Level(g, top, LockOf(c.inner[i].op, c.inner[i].sensor))
    {
      ContainedIsHigher(g, top, c.op, c.sensor, c.inner[i].op, c.inner[i].sensor);
    }
    AllInOrder(g, top, c.inner, Level(g, top, l));
    WrapInOrder(g, top, l, TraceAll(c.inner), floor);
  }

  lemma {:induction false} AllInOrder(g: Graph, top: nat, cs: seq<Section>, floor: int)
    requires WellFormed(g) && Covers(g, top)
    requires forall i :: 0 <= i < |cs| ==> Legal(g, cs[i]) && floor < Level(g, top, LockOf(cs[i].op, cs[i].sensor))
    ensures InOrder(g, top, TraceAll(cs), floor)
    decreases cs, 0
  {
    if cs != [] {
      LegalInOrder(g, top, cs[0], floor);
      AllInOrder(g, top, cs[1..], floor);
      ConcatInOrder(g, top, Trace(cs[0]), TraceAll(cs[1..]), floor);
    }
  }

  // ---------------------------------------------------------------- many threads

  /** Each thread makes legal calls one after another; `pc` counts the events it has performed. */
  datatype Thread = Thread(calls: seq<Section>, pc: nat)

  function Events(t: Thread): seq<Event> {
    TraceAll(t.calls)
  }

  ghost predicate Running(g: Graph, threads: seq<Thread>) {
    forall t {:trigger threads[t]} :: 0 <= t < |threads| ==>
      threads[t].pc <= |Events(threads[t])| && forall i :: 0 <= i < |threads[t].calls| ==> Legal(g, threads[t].calls[i])
  }

  function HeldBy(t: Thread): set<Lock>
    requires t.pc <= |Events(t)|
  {
    Held(Events(t), t.pc)
  }

  predicate Finished(t: Thread) {
    t.pc >= |Events(t)|
  }

  /** The thread's next event is to take this lock. */
  predicate Wants(t: Thread, l: Lock) {
    !Finished(t) && Events(t)[t.pc] == Acquire(l)
  }

  predicate WaitsFor(t: Thread, u: Thread) {
    u.pc <= |Events(u)| && !Finished(t) && Events(t)[t.pc].Acquire? && Events(t)[t.pc].lock in HeldBy(u)
  }

  /** A thread can go on unless it wants a lock that is held, be it by itself. */
  ghost predicate CanStep(threads: seq<Thread>, t: nat) {
    t < |threads| && !Finished(threads[t]) && forall u {:trigger threads[u]} :: 0 <= u < |threads| ==> !WaitsFor(threads[t], threads[u])
  }

  lemma {:induction false} ThreadInOrder(g: Graph, top: nat, threads: seq<Thread>, t: nat)
    requires WellFormed(g) && Covers(g, top) && Running(g, threads) && t < |threads|
    ensures InOrder(g, top, Events(threads[t]), -1)
  {
    forall i | 0 <= i < |threads[t].calls|
      ensures Legal(g, threads[t].calls[i]) && -1 < Level(g, top, LockOf(threads[t].calls[i].op, threads[t].calls[i].sensor))
    {
      assert threads[t].calls[i].sensor < |g|;
      assert g[threads[t].calls[i].sensor].rank < top;
    }
    AllInOrder(g, top, threads[t].calls, -1);
  }

  /** No thread ever wants a lock that it holds. */
  lemma {:induction false} NoSelfDeadlock(g: Graph, top: nat, threads: seq<Thread>, t: nat, l: Lock)
    requires WellFormed(g) && Covers(g, top) && Running(g, threads) && t < |threads| && Wants(threads[t], l)
    ensures l !in HeldBy(threads[t])
  {
    ThreadInOrder(g, top, threads, t);
  }

  /** Waiting only leads to threads that want a lock of a higher level. */
  lemma {:induction false} WaitingClimbs(g: Graph, top: nat, threads: seq<Thread>, t: nat, u: nat)
    requires WellFormed(g) && Covers(g, top) && Running(g, threads) && t < |threads| && u < |threads|
    requires WaitsFor(threads[t], threads[u])
    ensures !Finished(threads[u])
    ensures Events(threads[u])[threads[u].pc].Acquire? ==>
              Level(g, top, Events(threads[t])[threads[t].pc].lock) < Level(g, top, Events(threads[u])[threads[u].pc].lock)
  {
    ThreadInOrder(g, top, threads, u);
    var tr := Events(threads[u]);
    var n := threads[u].pc;
    var m := Events(threads[t])[threads[t].pc].lock;
    assert m in Held(tr, n);
    if n < |tr| && tr[n].Acquire? {
      assert forall k :: k in Held(tr, n) ==> Level(g, top, k) < Level(g, top, tr[n].lock);
    }
  }

  /** No chain of threads, each waiting for the next, leads back to where it began. */
  lemma {:induction false} NoCircularWait(g: Graph, top: nat, threads: seq<Thread>, chain: seq<nat>)
    requires WellFormed(g) && Covers(g, top) && Running(g, threads)
    requires |chain| > 1 && forall i :: 0 <= i < |chain| ==> chain[i] < |threads|
    requires forall i :: 1 <= i < |chain| ==> WaitsFor(threads[chain[i - 1]], threads[chain[i]])
    ensures chain[0] != chain[|chain| - 1]
  {
    if chain[0] == chain[|chain| - 1] {
      assert WaitsFor(threads[chain[0]], threads[chain[1]]);
      ChainClimbs(g, top, threads, chain);
    }
  }

  lemma {:induction false} ChainClimbs(g: Graph, top: nat, threads: seq<Thread>, chain: seq<nat>)
    requires WellFormed(g) && Covers(g, top) && Running(g, threads)
    requires |chain| > 1 && forall i :: 0 <= i < |chain| ==> chain[i] < |threads|
    requires forall i :: 1 <= i < |chain| ==> WaitsFor(threads[chain[i - 1]], threads[chain[i]])
    ensures var a, b := threads[chain[0]], threads[chain[|chain| - 1]];
            !Finished(a) && Events(a)[a.pc].Acquire? && !Finished(b) &&
            (Events(b)[b.pc].Acquire? ==> Level(g, top, Events(a)[a.pc].lock) < Level(g, top, Events(b)[b.pc].lock))
    decreases |chain|
  {
    assert WaitsFor(threads[chain[1 - 1]], threads[chain[1]]);
    WaitingClimbs(g, top, threads, chain[0], chain[1]);
    if |chain| > 2 {
      assert forall i :: 1 <= i < |chain[1..]| ==> WaitsFor(threads[chain[1..][i - 1]], threads[chain[1..][i]]) by {
        forall i | 1 <= i < |chain[1..]| ensures WaitsFor(threads[chain[1..][i - 1]], threads[chain[1..][i]]) {
          assert WaitsFor(threads[chain[i + 1 - 1]], threads[chain[i + 1]]);
        }
      }
      ChainClimbs(g, top, threads, chain[1..]);
    }
  }

  /** As long as a thread is not finished, following what it waits for leads to one that can go on:
      the system is never stuck. */
  lemma {:induction false} SomeThreadCanStep(g: Graph, top: nat, threads: seq<Thread>, t: nat) returns (u: nat)
    requires WellFormed(g) && Covers(g, top) && Running(g, threads) && t < |threads| && !Finished(threads[t])
    ensures CanStep(threads, u)
    decreases if Events(threads[t])[threads[t].pc].Acquire? then 2 * top + 2 - Level(g, top, Events(threads[t])[threads[t].pc].lock) else -1
  {
    u := t;
    if !CanStep(threads, t) {
      var v: nat :| v < |threads| && WaitsFor(threads[t], threads[v]);
      WaitingClimbs(g, top, threads, t, v);
      LevelBound(g, top, Events(threads[t])[threads[t].pc].lock);
      if Events(threads[v])[threads[v].pc].Acquire? {
        LevelBound(g, top, Events(threads[v])[threads[v].pc].lock);
        u := SomeThreadCanStep(g, top, threads, v);
      } else {
        u := v;
      }
    }
  }

  lemma LevelBound(g: Graph, top: nat, l: Lock)
    requires Covers(g, top)
    ensures Level(g, top, l) <= 2 * top + 2
  {
    if l.sensor < |g| { assert g[l.sensor].rank < top; }
  }
}
