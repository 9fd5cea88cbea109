/** Which sampling period the data thread attributes to each sample while client threads queue changes
    of rate.  The data thread looks at the oldest change and, in a second locked section, removes it. */
module RateSwitching {
  import opened Queues

  datatype Switch = Switch(timestamp: int, rate: int)

  /** `seen` is the answer of the look: a change's time, or the error code when the queue was empty. */
  datatype Reader = Waiting | Looked(timestamp: int, seen: int, empty: bool)

  /** A sample with the rate attributed to it. */
  datatype Rated = Rated(timestamp: int, rate: int)

  datatype State = State(
    queue: seq<Switch>,
    newRate: int,              // what the last look at a change returned
    oldRate: int,              // the rate in force
    reader: Reader,
    accepted: seq<Switch>,     // history: changes accepted into the queue
    applied: seq<Switch>,      // history: changes that came into force
    lost: seq<Switch>,         // history: changes removed without coming into force
    samples: seq<Rated>)      // history: samples and their rates

  datatype Step =
    | Change(timestamp: int, rate: int)   // SetDelay queues a new rate
    | Look(timestamp: int)                // the data thread, for a sample: readLastElement
    | Attach                              // ... compares, attributes, removes

  const INITIAL := State([], 0, 0, Waiting, [], [], [], [])

  function Next(s: State, step: Step): State {
    match step
    case Change(t, rate) =>
      if |s.queue| >= ODR_STACK_MAX then s
      else s.(queue := Accepted(s.queue, ODR_STACK_MAX, Switch(t, rate)), accepted := s.accepted + [Switch(t, rate)])
    case Look(ts) =>
      if !s.reader.Waiting? then s
      else if s.queue == [] then s.(reader := Looked(ts, -EIO, true))
      else s.(reader := Looked(ts, s.queue[0].timestamp, false), newRate := s.queue[0].rate)
    case Attach =>
      if s.reader.Waiting? then s
      else
        var ts := s.reader.timestamp;
        var s1 := s.(reader := Waiting);
        if ts > s.reader.seen then
          var s2 := s1.(oldRate := s.newRate, samples := s.samples + [Rated(ts, s.newRate)], queue := Rest(s.queue));
          if s.queue == [] then s2
          else if s.reader.empty then s2.(lost := s.lost + [s.queue[0]])
          else s2.(applied := s.applied + [s.queue[0]])
        else s1.(samples := s.samples + [Rated(ts, s.oldRate)])
  }

  function Run(s: State, steps: seq<Step>): State
    decreases |steps|
  {
    if steps == [] then s else Run(Next(s, steps[0]), steps[1..])
  }

  // ---------------------------------------------------------------- what every step keeps

  /** The rate in force is that of the last change applied, and a look at an empty queue cannot have
      changed what is to come into force. */
  ghost predicate Consistent(s: State) {
    && s.oldRate == (if s.applied == [] then 0 else s.applied[|s.applied| - 1].rate)
    && (s.newRate == s.oldRate || (s.queue != [] && s.newRate == s.queue[0].rate))
    && (s.reader.Looked? && s.reader.empty ==> s.newRate == s.oldRate && s.reader.seen == -EIO)
    && (s.reader.Looked? && !s.reader.empty ==> s.queue != [] && s.reader.seen == s.queue[0].timestamp && s.newRate == s.queue[0].rate)
    && (s.lost == [] ==> s.accepted == s.applied + s.queue)
  }

  /** Samples are stamped with times that are never negative. */
  predicate SampleTimes(steps: seq<Step>) {
    forall i :: 0 <= i < |steps| && steps[i].Look? ==> steps[i].timestamp >= 0
  }

  lemma {:induction false} StepKeepsConsistent(s: State, step: Step)
    requires Consistent(s) && (s.reader.Looked? ==> s.reader.timestamp >= 0) && (step.Look? ==> step.timestamp >= 0)
    ensures Consistent(Next(s, step)) && (Next(s, step).reader.Looked? ==> Next(s, step).reader.timestamp >= 0)
  {
    var s' := Next(s, step);
    if s'.lost == [] && s.queue != [] {
      assert s.queue == [s.queue[0]] + s.queue[1..];
      assert s.applied + s.queue == (s.applied + [s.queue[0]]) + s.queue[1..];
    }
    assert step.Change? ==> s.applied + (s.queue + [Switch(step.timestamp, step.rate)]) == (s.applied + s.queue) + [Switch(step.timestamp, step.rate)];
  }

  lemma {:induction false} RunKeepsConsistent(s: State, steps: seq<Step>)
    requires Consistent(s) && (s.reader.Looked? ==> s.reader.timestamp >= 0) && SampleTimes(steps)
    ensures Consistent(Run(s, steps))
    decreases |steps|
  {
    hide Consistent;
    hide Next;
    if steps != [] {
      StepKeepsConsistent(s, steps[0]);
      RunKeepsConsistent(Next(s, steps[0]), steps[1..]);
    }
  }

  /** An empty answer never changes the rate: whenever the data thread has found the queue empty, the
      rate it goes on to attribute is the one already in force. */
  lemma {:induction false} EmptyNeverChangesTheRate(steps: seq<Step>)
    requires SampleTimes(steps)
    ensures var s := Run(INITIAL, steps);
            s.reader.Looked? && s.reader.empty ==> Next(s, Attach).oldRate == s.oldRate
  {
    RunKeepsConsistent(INITIAL, steps);
  }

  // ---------------------------------------------------------------- each change once, in order

  /** The data thread removes a change that came in after it had found the queue empty. */
  predicate LosingAttach(s: State, step: Step) {
    step.Attach? && s.reader.Looked? && s.reader.empty && s.queue != []
  }

  predicate NothingLost(s: State, steps: seq<Step>)
    decreases |steps|
  {
    steps == [] || (!LosingAttach(s, steps[0]) && NothingLost(Next(s, steps[0]), steps[1..]))
  }

  lemma {:induction false} LostExactly(s: State, steps: seq<Step>)
    requires Consistent(s) && (s.reader.Looked? ==> s.reader.timestamp >= 0) && SampleTimes(steps)
    ensures |Run(s, steps).lost| >= |s.lost|
    ensures Run(s, steps).lost == s.lost <==> NothingLost(s, steps)
    decreases |steps|
  {
    if steps != [] {
      StepKeepsConsistent(s, steps[0]);
      assert SampleTimes(steps[1..]) by { assert forall i :: 0 <= i < |steps| - 1 ==> steps[1..][i] == steps[i + 1]; }
      LostExactly(Next(s, steps[0]), steps[1..]);
    }
  }

  /** The accepted changes come into force each once and in queue order exactly when no change slips in
      between an empty look and the removal that follows it. */
  lemma {:induction false} EachChangeOnceInOrder(steps: seq<Step>)
    requires SampleTimes(steps)
    ensures var s := Run(INITIAL, steps);
            s.lost == [] <==> NothingLost(INITIAL, steps)
    ensures var s := Run(INITIAL, steps);
            NothingLost(INITIAL, steps) ==> s.accepted == s.applied + s.queue
  {
    LostExactly(INITIAL, steps);
    RunKeepsConsistent(INITIAL, steps);
  }

  /** Such a change is lost: it leaves the queue and the old rate stays in force. */
  lemma ChangeCanBeLost(ts: int, t: int, rate: int)
    requires ts >= 0 && rate != 0
    ensures var s := Next(Next(Next(INITIAL, Look(ts)), Change(t, rate)), Attach);
            s == Run(INITIAL, [Look(ts), Change(t, rate), Attach])
            && s.queue == [] && s.applied == [] && s.lost == [Switch(t, rate)] && s.oldRate == 0
  {
    var steps := [Look(ts), Change(t, rate), Attach];
    assert steps[1..] == [Change(t, rate), Attach] && steps[1..][1..] == [Attach] && [Attach][1..] == [];
    assert Run(INITIAL, steps) == Run(Next(INITIAL, Look(ts)), [Change(t, rate), Attach]);
    var s := Next(Next(INITIAL, Look(ts)), Change(t, rate));
    assert Run(Next(INITIAL, Look(ts)), [Change(t, rate), Attach]) == Run(s, [Attach]);
    assert s.queue == [Switch(t, rate)];
  }

  // ---------------------------------------------------------------- the rate of a sample

  /** The rate of the latest change before a moment, 0 if there is none. */
  function RateBefore(changes: seq<Switch>, moment: int): int {
    if changes == [] then 0
    else
      var last := changes[|changes| - 1];
      if last.timestamp < moment then last.rate else RateBefore(changes[..|changes| - 1], moment)
  }

  /** Changes are stamped in order, and samples too. */
  predicate InOrder(s: State, steps: seq<Step>)
    decreases |steps|
  {
    steps == [] ||
    ((steps[0].Change? && s.accepted != [] ==> s.accepted[|s.accepted| - 1].timestamp <= steps[0].timestamp)
    && (steps[0].Look? && s.reader.Waiting? && s.samples != [] ==> s.samples[|s.samples| - 1].timestamp <= steps[0].timestamp)
    && InOrder(Next(s, steps[0]), steps[1..]))
  }

  predicate Ascending(changes: seq<Switch>) {
    forall i, j :: 0 <= i < j < |changes| ==> changes[i].timestamp <= changes[j].timestamp
  }

  /** No second change older than the sample is waiting behind the first. */
  predicate NoBacklog(queue: seq<Switch>, moment: int) {
    |queue| < 2 || queue[1].timestamp >= moment
  }

  /** Every change in force is older than every sample to come. */
  ghost predicate Timed(s: State) {
    && Consistent(s)
    && Ascending(s.accepted)
    && (s.reader.Looked? ==> s.reader.timestamp >= 0 && (s.samples != [] ==> s.samples[|s.samples| - 1].timestamp <= s.reader.timestamp))
    && (s.applied != [] ==> s.samples != [] && s.applied[|s.applied| - 1].timestamp < s.samples[|s.samples| - 1].timestamp)
  }

  lemma {:induction false} StepKeepsTimed(s: State, step: Step)
    requires Timed(s)
    requires step.Change? && s.accepted != [] ==> s.accepted[|s.accepted| - 1].timestamp <= step.timestamp
    requires step.Look? ==> step.timestamp >= 0
    requires step.Look? && s.reader.Waiting? && s.samples != [] ==> s.samples[|s.samples| - 1].timestamp <= step.timestamp
    ensures Timed(Next(s, step))
  {
    StepKeepsConsistent(s, step);
    var s' := Next(s, step);
    if step.Change? && |s.queue| < ODR_STACK_MAX {
      forall i, j | 0 <= i < j < |s'.accepted| ensures s'.accepted[i].timestamp <= s'.accepted[j].timestamp {
        if j == |s.accepted| { assert s.accepted[i].timestamp <= s.accepted[|s.accepted| - 1].timestamp; }
      }
    }
  }

  lemma {:induction false} RunKeepsTimed(s: State, steps: seq<Step>)
    requires Timed(s) && InOrder(s, steps) && SampleTimes(steps)
    ensures Timed(Run(s, steps))
    decreases |steps|
  {
    hide Timed;
    hide Next;
    if steps != [] {
      StepKeepsTimed(s, steps[0]);
      assert SampleTimes(steps[1..]) by { assert forall i :: 0 <= i < |steps| - 1 ==> steps[1..][i] == steps[i + 1]; }
      RunKeepsTimed(Next(s, steps[0]), steps[1..]);
    }
  }

  lemma {:induction false} RateBeforeIs(changes: seq<Switch>, moment: int, k: nat)
    requires k <= |changes| && Ascending(changes)
    requires k > 0 ==> changes[k - 1].timestamp < moment
    requires k < |changes| ==> changes[k].timestamp >= moment
    ensures RateBefore(changes, moment) == if k == 0 then 0 else changes[k - 1].rate
  {
    if |changes| > k {
      var shorter := changes[..|changes| - 1];
      assert changes[k].timestamp <= changes[|changes| - 1].timestamp;
      assert Ascending(shorter) by { assert forall i :: 0 <= i < |shorter| ==> shorter[i] == changes[i]; }
      RateBeforeIs(shorter, moment, k);
    }
  }

  /** The changes in force and the oldest one waiting decide the rate at a moment, if no second one waits. */
  lemma {:induction false} RateAtMoment(applied: seq<Switch>, queue: seq<Switch>, moment: int)
    requires Ascending(applied + queue) && NoBacklog(queue, moment)
    requires applied != [] ==> applied[|applied| - 1].timestamp < moment
    ensures RateBefore(applied + queue, moment) ==
            if queue != [] && queue[0].timestamp < moment then queue[0].rate
            else if applied == [] then 0 else applied[|applied| - 1].rate
  {
    hide Ascending, RateBefore;
    var all, n := applied + queue, |applied|;
    assert n > 0 ==> all[n - 1] == applied[n - 1];
    assert |queue| > 0 ==> all[n] == queue[0];
    assert |queue| > 1 ==> all[n + 1] == queue[1];
    RateBeforeIs(all, moment, if queue != [] && queue[0].timestamp < moment then n + 1 else n);
  }

  /** With nothing lost and no backlog, a sample gets the rate of the latest change queued before it; and
      whatever the backlog, no change comes into force for a sample that is not later than it. */
  lemma {:induction false} SampleGetsLatestRate(steps: seq<Step>)
    requires SampleTimes(steps) && InOrder(INITIAL, steps)
    ensures var s := Run(INITIAL, steps); var s' := Next(s, Attach);
            && (s'.applied != s.applied ==> s'.applied[|s'.applied| - 1].timestamp < s'.samples[|s'.samples| - 1].timestamp)
            && (s.reader.Looked? && s'.lost == [] && NoBacklog(s.queue, s.reader.timestamp) ==>
                  s'.samples == s.samples + [Rated(s.reader.timestamp, RateBefore(s.accepted, s.reader.timestamp))])
  {
    RunKeepsTimed(INITIAL, steps);
    AttachGetsLatestRate(Run(INITIAL, steps));
  }

  lemma AttachGetsLatestRate(s: State)
    requires Timed(s)
    ensures var s' := Next(s, Attach);
            && (s'.applied != s.applied ==> s'.applied[|s'.applied| - 1].timestamp < s'.samples[|s'.samples| - 1].timestamp)
            && (s.reader.Looked? && s'.lost == [] && NoBacklog(s.queue, s.reader.timestamp) ==>
                  s'.samples == s.samples + [Rated(s.reader.timestamp, RateBefore(s.accepted, s.reader.timestamp))])
  {
    hide Ascending, RateBefore;
    StepKeepsTimed(s, Attach);
    if s.reader.Looked? && Next(s, Attach).lost == [] && NoBacklog(s.queue, s.reader.timestamp) {
      assert s.accepted == s.applied + s.queue;
      RateAtMoment(s.applied, s.queue, s.reader.timestamp);
    }
  }
}
