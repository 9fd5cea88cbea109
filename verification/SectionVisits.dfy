/** Which sensors the sections of LockSections visit, and in what order: what the loops of the calls come down to.  The
    lock order would hold of fewer sections just as well. */
module SectionVisits {
  import opened SensorGraph
  import opened PowerTheorem
  import opened Locking
  import opened LockSections

  type Visit = (Op, nat)

  function Visits(cs: seq<Section>): (r: seq<Visit>)
    ensures |r| == |cs|
  {
    seq(|cs|, i requires 0 <= i < |cs| => (cs[i].op, cs[i].sensor))
  }

  lemma VisitsJoin(a: seq<Section>, b: seq<Section>)
    ensures Visits(a + b) == Visits(a) + Visits(b)
  {
  }

  /** The dependencies from number i up to number k, and those before number k in the opposite order. */
  function Forth(g: Graph, s: nat, op: Op, i: nat, k: nat): (r: seq<Visit>)
    requires s < |g| && i <= k <= |g[s].deps|
    ensures |r| == k - i
  {
    seq(k - i, j requires 0 <= j < k - i => (op, g[s].deps[i + j]))
  }

  function Back(g: Graph, s: nat, op: Op, k: nat): (r: seq<Visit>)
    requires s < |g| && k <= |g[s].deps|
    ensures |r| == k
  {
    seq(k, j requires 0 <= j < k => (op, g[s].deps[k - 1 - j]))
  }

  /** A loop over the dependencies that ends at number k: with all of them, or with the one that fails, after which those
      before it are visited again, last one first. */
  function Round(g: Graph, s: nat, op: Op, i: nat, k: nat): seq<Visit>
    requires s < |g| && i <= k <= |g[s].deps|
  {
    if k == |g[s].deps| then Forth(g, s, op, i, k) else Forth(g, s, op, i, k + 1) + Back(g, s, op, k)
  }

  lemma ForthFirst(g: Graph, s: nat, op: Op, i: nat, k: nat)
    requires s < |g| && i < k <= |g[s].deps|
    ensures Forth(g, s, op, i, k) == [(op, g[s].deps[i])] + Forth(g, s, op, i + 1, k)
  {
    var rest := Forth(g, s, op, i + 1, k);
    forall j | 0 <= j < k - i ensures Forth(g, s, op, i, k)[j] == ([(op, g[s].deps[i])] + rest)[j] {
    }
  }

  lemma RoundStep(g: Graph, s: nat, op: Op, i: nat, k: nat)
    requires s < |g| && i < k <= |g[s].deps|
    ensures Round(g, s, op, i, k) == [(op, g[s].deps[i])] + Round(g, s, op, i + 1, k)
  {
    hide Forth, Back;
    ForthFirst(g, s, op, i, if k == |g[s].deps| then k else k + 1);
  }

  lemma RoundEnds(g: Graph, s: nat, op: Op, k: nat)
    requires s < |g| && k <= |g[s].deps|
    ensures Round(g, s, op, k, k) == if k == |g[s].deps| then [] else [(op, g[s].deps[k])] + Back(g, s, op, k)
  {
    hide Back;
    if k < |g[s].deps| { ForthFirst(g, s, op, k, k + 1); }
  }

  lemma BackFirst(g: Graph, s: nat, op: Op, k: nat)
    requires s < |g| && 0 < k <= |g[s].deps|
    ensures Back(g, s, op, k) == [(op, g[s].deps[k - 1])] + Back(g, s, op, k - 1)
  {
    var rest := Back(g, s, op, k - 1);
    forall j | 0 <= j < k ensures Back(g, s, op, k)[j] == ([(op, g[s].deps[k - 1])] + rest)[j] {
    }
  }

  lemma VisitOne(c: Section)
    ensures Visits([c]) == [(c.op, c.sensor)] && Visits([]) == []
  {
  }

  // ---------------------------------------------------------------- Enable

  /** The switch is accepted by the dependencies from number i up to number k, and there the loop ends. */
  ghost predicate SwitchEndsAt(g: Graph, a: Answers, way: seq<nat>, s: nat, i: nat, k: nat)
    requires s < |g|
  {
    && i <= k <= |g[s].deps| && (forall j :: i <= j < k ==> a(way + [5, j]).accepted)
    && (k < |g[s].deps| ==> !a(way + [5, k]).accepted)
  }

  lemma {:induction false} SwitchingVisits(g: Graph, a: Answers, way: seq<nat>, s: nat, enable: bool, i: nat, k: nat)
    requires WellFormed(g) && s < |g| && SwitchEndsAt(g, a, way, s, i, k)
    ensures Visits(Switching(g, a, way, s, enable, i)) == Round(g, s, Op.Enable, i, k)
    decreases k - i
  {
    hide EnableSection, Visits, Round, Back, Forth;
    VisitOne(Section(Op.Enable, s, []));
    if i == k { RoundEnds(g, s, Op.Enable, k); }
    if i < |g[s].deps| {
      var first := [EnableSection(g, a, way + [5, i], g[s].deps[i], enable)];
      HeadOf(g, a, way + [5, i], g[s].deps[i], enable);
      VisitOne(first[0]);
      if i < k {
        VisitsJoin(first, Switching(g, a, way, s, enable, i + 1));
        SwitchingVisits(g, a, way, s, enable, i + 1, k);
        RoundStep(g, s, Op.Enable, i, k);
      } else {
        VisitsJoin(first, Unswitching(g, a, way, s, enable, i));
        UnswitchingVisits(g, a, way, s, enable, i);
      }
    }
  }

  lemma HeadOf(g: Graph, a: Answers, way: seq<nat>, s: nat, enable: bool)
    requires WellFormed(g) && s < |g|
    ensures var c := EnableSection(g, a, way, s, enable); c.op == Op.Enable && c.sensor == s
  {
  }

  lemma {:induction false} UnswitchingVisits(g: Graph, a: Answers, way: seq<nat>, s: nat, enable: bool, k: nat)
    requires WellFormed(g) && s < |g| && k <= |g[s].deps|
    ensures Visits(Unswitching(g, a, way, s, enable, k)) == Back(g, s, Op.Enable, k)
  {
    hide EnableSection, Visits, Back;
    VisitOne(EnableSection(g, a, way, s, enable));
    if k == 0 {
      assert Back(g, s, Op.Enable, 0) == [];
    } else {
      UnswitchingVisits(g, a, way, s, enable, k - 1);
      BackFirst(g, s, Op.Enable, k);
      VisitOne(EnableSection(g, a, way + [6, k - 1], g[s].deps[k - 1], !enable));
      HeadOf(g, a, way + [6, k - 1], g[s].deps[k - 1], !enable);
      VisitsJoin([EnableSection(g, a, way + [6, k - 1], g[s].deps[k - 1], !enable)], Unswitching(g, a, way, s, enable, k - 1));
    }
  }

  /** Enabling s, when it finds something to do: a call that switches s on resets its flush stack and visits every
      dependency in order up to the one that fails, and those before it again; any other visits none. */
  lemma EnableVisits(g: Graph, a: Answers, way: seq<nat>, s: nat, k: nat)
    requires WellFormed(g) && s < |g| && !a(way + [2]).settled && SwitchEndsAt(g, a, way + [2], s, 0, k)
    requires !g[s].Hardware() || a(way).accepted
    ensures var c := EnableSection(g, a, way, s, true);
            && c.op == Op.Enable && c.sensor == s
            && Visits(c.inner) == if a(way + [2]).switches then [(QueueAccess, s)] + Round(g, s, Op.Enable, 0, k) else []
  {
    SwitchingVisits(g, a, way + [2], s, true, 0, k);
    hide Switching, Visits, Round;
    VisitsJoin(Queue(s), Switching(g, a, way + [2], s, true, 0));
    VisitOne(Queue(s)[0]);
  }

  /** Disabling s, when it finds something to do: the period is withdrawn at the dependencies first, and a call that
      switches s off then visits them all. */
  lemma DisableVisits(g: Graph, a: Answers, way: seq<nat>, s: nat, k: nat)
    requires WellFormed(g) && s < |g| && !a(way + [2]).settled && SwitchEndsAt(g, a, way + [2], s, 0, k)
    requires !g[s].Hardware() || a(way).accepted
    ensures var c, x := EnableSection(g, a, way, s, false), a(way + [2]);
            && c.op == Op.Enable && c.sensor == s
            && Visits(c.inner) == Visits(DelayInner(g, a, way + [2, 4], s))
                                  + if x.accepted && x.switches then Round(g, s, Op.Enable, 0, k) else []
  {
    var x := a(way + [2]);
    SwitchingVisits(g, a, way + [2], s, false, 0, k);
    VisitOne(Queue(s)[0]);
    hide Switching, DelayInner, Visits, Round;
    assert way + [2] + [4] == way + [2, 4];
    VisitsJoin(DelayInner(g, a, way + [2, 4], s), if x.accepted && x.switches then Switching(g, a, way + [2], s, false, 0) else []);
  }

  /** When the device then refuses, the opposite call follows under the same mutex. */
  lemma RefusedEnableVisits(g: Graph, a: Answers, way: seq<nat>, s: nat, enable: bool)
    requires WellFormed(g) && s < |g| && g[s].Hardware() && !a(way).accepted
    ensures var c := EnableSection(g, a, way, s, enable);
            c.inner == EnableInner(g, a, way + [2], s, enable) + EnableInner(g, a, way + [3], s, !enable)
  {
  }

  // ---------------------------------------------------------------- SetDelay

  ghost predicate OffersEndAt(g: Graph, a: Answers, way: seq<nat>, s: nat, i: nat, k: nat)
    requires s < |g|
  {
    && i <= k <= |g[s].deps| && (forall j :: i <= j < k ==> a(way + [0, j]).accepted)
    && (k < |g[s].deps| ==> !a(way + [0, k]).accepted)
    && (forall j :: 0 <= j < |g[s].deps| ==> !a(way + [0, j]).refused && !a(way + [1, j]).refused)
  }

  lemma {:induction false} OffersVisit(g: Graph, a: Answers, way: seq<nat>, s: nat, i: nat, k: nat)
    requires WellFormed(g) && s < |g| && OffersEndAt(g, a, way, s, i, k)
    ensures Visits(Offers(g, a, way, s, i)) == Round(g, s, Op.SetDelay, i, k)
    decreases k - i
  {
    hide DelayInner, Visits, Round, Back, Forth;
    VisitOne(Section(Op.SetDelay, s, []));
    if i == k { RoundEnds(g, s, Op.SetDelay, k); }
    if i < |g[s].deps| {
      var first := DelaySections(g, a, way + [0, i], g[s].deps[i]);
      VisitOne(first[0]);
      assert Visits(first) == [(Op.SetDelay, g[s].deps[i])];
      if i < k {
        VisitsJoin(first, Offers(g, a, way, s, i + 1));
        OffersVisit(g, a, way, s, i + 1, k);
        RoundStep(g, s, Op.SetDelay, i, k);
      } else {
        VisitsJoin(first, Reoffers(g, a, way, s, i));
        ReoffersVisit(g, a, way, s, i);
      }
    }
  }

  lemma {:induction false} ReoffersVisit(g: Graph, a: Answers, way: seq<nat>, s: nat, k: nat)
    requires WellFormed(g) && s < |g| && k <= |g[s].deps| && forall j :: 0 <= j < |g[s].deps| ==> !a(way + [1, j]).refused
    ensures Visits(Reoffers(g, a, way, s, k)) == Back(g, s, Op.SetDelay, k)
  {
    hide DelayInner, Visits, Back;
    VisitOne(Section(Op.SetDelay, s, []));
    if k == 0 {
      assert Back(g, s, Op.SetDelay, 0) == [];
    } else {
      ReoffersVisit(g, a, way, s, k - 1);
      BackFirst(g, s, Op.SetDelay, k);
      var first := DelaySections(g, a, way + [1, k - 1], g[s].deps[k - 1]);
      VisitOne(first[0]);
      assert Visits(first) == [(Op.SetDelay, g[s].deps[k - 1])];
      VisitsJoin(first, Reoffers(g, a, way, s, k - 1));
    }
  }

  /** SetDelay on s, when it finds something to do: every dependency is offered the minima in order up to the one that
      refuses, those before it again, and then the queues of rates are written. */
  lemma SetDelayVisits(g: Graph, a: Answers, way: seq<nat>, s: nat, k: nat)
    requires WellFormed(g) && s < |g| && !g[s].kind.EventHardware? && OffersEndAt(g, a, way, s, 0, k)
    requires !a(way).refused && !a(way).settled
    ensures var cs, x := DelaySections(g, a, way, s), a(way);
            && |cs| == 1 && cs[0].op == Op.SetDelay && cs[0].sensor == s
            && Visits(cs[0].inner) == Round(g, s, Op.SetDelay, 0, k)
                                      + (if x.queued then [(QueueAccess, s)] else []) + (if x.rated then [(QueueAccess, s)] else [])
  {
    OffersVisit(g, a, way, s, 0, k);
    hide Offers;
    var x := a(way);
    var offers, first, second := Offers(g, a, way, s, 0), if x.queued then Queue(s) else [], if x.rated then Queue(s) else [];
    VisitsJoin(offers, first);
    VisitsJoin(offers + first, second);
  }

  // ---------------------------------------------------------------- flushing

  lemma {:induction false} FlushAllVisits(g: Graph, push: seq<seq<nat>>, a: Answers, top: nat, way: seq<nat>, s: nat, i: nat)
    requires WellFormed(g) && PushFits(g, push) && Covers(g, top) && s < |g| && i <= |g[s].deps|
    requires forall j :: 0 <= j < |g[s].deps| ==> g[s].Hardware() || FlushOk(g, a, way + [0, j], g[s].deps[j])
    ensures Visits(FlushAll(g, push, a, top, way, s, i)) == Forth(g, s, Op.FlushData, i, |g[s].deps|)
    decreases |g[s].deps| - i
  {
    hide FlushOk, ProcessSections, Visits, Forth;
    VisitOne(Section(Op.FlushData, s, []));
    if i == |g[s].deps| {
      assert Forth(g, s, Op.FlushData, i, i) == [];
    } else {
      ForthFirst(g, s, Op.FlushData, i, |g[s].deps|);
      var first := [FlushSection(g, push, a, top, way + [0, i], g[s].deps[i])];
      VisitOne(first[0]);
      FlushAllVisits(g, push, a, top, way, s, i + 1);
      VisitsJoin(first, FlushAll(g, push, a, top, way, s, i + 1));
    }
  }

  /** FlushData on a sensor in use that batches and has room visits its request queue, if it is a hardware sensor, and
      then every dependency, as far as none of a software sensor's fails. */
  lemma FlushVisits(g: Graph, push: seq<seq<nat>>, a: Answers, top: nat, way: seq<nat>, s: nat)
    requires WellFormed(g) && PushFits(g, push) && Covers(g, top) && s < |g|
    requires a(way).used && a(way).batching && a(way).room
    requires forall j :: 0 <= j < |g[s].deps| ==> g[s].Hardware() || FlushOk(g, a, way + [0, j], g[s].deps[j])
    ensures var c := FlushSection(g, push, a, top, way, s);
            && c.op == Op.FlushData && c.sensor == s
            && Visits(c.inner) == (if g[s].Hardware() then [(QueueAccess, s)] else []) + Forth(g, s, Op.FlushData, 0, |g[s].deps|)
  {
    FlushAllVisits(g, push, a, top, way, s, 0);
    hide FlushAll, FlushOk, ProcessSections, Visits, Forth, Covers, PushFits, WellFormed;
    VisitsJoin(if g[s].Hardware() then Queue(s) else [], FlushAll(g, push, a, top, way, s, 0));
    VisitOne(Queue(s)[0]);
  }

  /** A flush that does not wait and is not the sensor's own visits every sensor served; one that waits, the stack.  A
      hardware sensor looks at its request queue first. */
  lemma ProcessVisits(g: Graph, push: seq<seq<nat>>, a: Answers, top: nat, way: seq<nat>, s: nat)
    requires WellFormed(g) && PushFits(g, push) && Covers(g, top) && s < |g| && a(way).requested
    ensures var cs, x := ProcessSections(g, push, a, top, way, s), a(way);
            && Visits(cs) == (if g[s].Hardware() then [(QueueAccess, s)] else []) + [(Op.ProcessFlushData, s)]
            && var inner := cs[|cs| - 1].inner;
               if x.waits then Visits(inner) == [(QueueAccess, s)]
               else if x.own then inner == []
               else forall j :: 0 <= j < |push[s]| && push[s][j] < |g| && (g[push[s][j]].Hardware() ==> a(way + [2, j]).requested) ==>
                      (Op.ProcessFlushData, push[s][j]) in Visits(inner)
  {
    if !a(way).waits && !a(way).own {
      forall j | 0 <= j < |push[s]| && push[s][j] < |g| && (g[push[s][j]].Hardware() ==> a(way + [2, j]).requested)
        ensures (Op.ProcessFlushData, push[s][j]) in Visits(HandOn(g, push, a, top, way, s, 0))
      {
        HandedOn(g, push, a, top, way, s, 0, j);
      }
    }
  }

  lemma {:induction false} HandedOn(g: Graph, push: seq<seq<nat>>, a: Answers, top: nat, way: seq<nat>, s: nat, i: nat, j: nat)
    requires WellFormed(g) && PushFits(g, push) && Covers(g, top) && s < |g| && i <= j < |push[s]|
    requires push[s][j] in push[s] && (g[push[s][j]].Hardware() ==> a(way + [2, j]).requested)
    ensures (Op.ProcessFlushData, push[s][j]) in Visits(HandOn(g, push, a, top, way, s, i))
    decreases j - i
  {
    hide HandOn;
    Served(g, push, s, i);
    var first := ProcessSections(g, push, a, top, way + [2, i], push[s][i]);
    HandOnUnfolds(g, push, a, top, way, s, i);
    VisitsJoin(first, HandOn(g, push, a, top, way, s, i + 1));
    if i < j {
      HandedOn(g, push, a, top, way, s, i + 1, j);
    } else {
      assert first[|first| - 1].op == Op.ProcessFlushData && first[|first| - 1].sensor == push[s][j];
      assert Visits(first)[|first| - 1] == (Op.ProcessFlushData, push[s][j]);
    }
  }

  lemma HandOnUnfolds(g: Graph, push: seq<seq<nat>>, a: Answers, top: nat, way: seq<nat>, s: nat, i: nat)
    requires WellFormed(g) && PushFits(g, push) && Covers(g, top) && s < |g| && i < |push[s]|
    ensures push[s][i] < |g|
    ensures HandOn(g, push, a, top, way, s, i)
            == ProcessSections(g, push, a, top, way + [2, i], push[s][i]) + HandOn(g, push, a, top, way, s, i + 1)
  {
    Served(g, push, s, i);
    hide ProcessSections;
  }
}
