/** The resolution loop that links sensors to the sensors they depend on when the HAL is opened. */
module Linking {

  const MAX_LINKS := 6

  /** The sensors as created: the type of each, and the types each one depends on (the positive
      entries at the front of its list).  `allocates(s, k)` says whether the buffer for the k-th
      dependency of s can be allocated. */
  datatype Catalogue = Catalogue(types: seq<int>, lists: seq<seq<int>>, allocates: (nat, nat) -> bool)

  /** Who depends on whom: dependency list, push list and position-by-handle map of every sensor,
      and whether it is still valid.  A sensor is named by its position. */
  datatype Links = Links(deps: seq<seq<nat>>, push: seq<seq<nat>>, position: seq<map<nat, nat>>, valid: seq<bool>)

  ghost predicate WellListed(c: Catalogue) {
    && |c.types| == |c.lists|
    && (forall s {:trigger c.lists[s]} :: 0 <= s < |c.lists| ==> |c.lists[s]| <= MAX_LINKS)
    && (forall s, i, j {:trigger c.lists[s][i], c.lists[s][j]} ::
          0 <= s < |c.lists| && 0 <= i < j < |c.lists[s]| ==> c.lists[s][i] != c.lists[s][j])
  }

  predicate Sized(c: Catalogue, l: Links) {
    |l.deps| == |l.push| == |l.position| == |l.valid| == |c.types| == |c.lists|
  }

  function Unlinked(n: nat): Links {
    Links(seq(n, _ => []), seq(n, _ => []), seq(n, _ => map[]), seq(n, _ => true))
  }

  // ---------------------------------------------------------------- single operations

  /** The first valid sensor of the type, or the number of sensors when there is none. */
  function Find(types: seq<int>, valid: seq<bool>, t: int, from: nat): (d: nat)
    requires |types| == |valid| && from <= |types|
    ensures from <= d <= |types|
    ensures d < |types| ==> types[d] == t && valid[d]
    ensures forall k :: from <= k < d ==> !(types[k] == t && valid[k])
    decreases |types| - from
  {
    if from == |types| || (types[from] == t && valid[from]) then from else Find(types, valid, t, from + 1)
  }

  function Without(q: seq<nat>, x: nat): (r: seq<nat>)
    ensures x !in q ==> r == q
  {
    if q == [] then [] else if q[0] == x then q[1..] else [q[0]] + Without(q[1..], x)
  }

  function Renumbered(m: map<nat, nat>, d: nat, k: nat): map<nat, nat> {
    m[d := k]
  }

  /** AddSensorDependency.  A failed allocation is reported after the link has been made. */
  function Add(c: Catalogue, l: Links, s: nat, d: nat): (r: (Links, bool))
    requires Sized(c, l) && s < |l.deps| && d < |l.deps|
    ensures Sized(c, r.0) && r.0.valid == l.valid
  {
    var k: nat := |l.deps[s]|;
    if k >= MAX_LINKS then (l, false)
    else
      var l1 := l.(position := l.position[s := Renumbered(l.position[s], d, k)]);
      if |l.push[d]| >= MAX_LINKS then (l1, false)
      else (l1.(push := l.push[d := l.push[d] + [s]], deps := l.deps[s := l.deps[s] + [d]]), c.allocates(s, k))
  }

  /** RemoveSensorDependency: the first mention of d goes, together with the first mention of s at d. */
  function Remove(c: Catalogue, l: Links, s: nat, d: nat): (r: Links)
    requires Sized(c, l) && s < |l.deps| && d < |l.deps|
    ensures Sized(c, r) && r.valid == l.valid
  {
    if d !in l.deps[s] then l
    else l.(push := l.push[d := Without(l.push[d], s)], deps := l.deps[s := Without(l.deps[s], d)])
  }

  /** Adds the dependencies of s from its k-th type on; the number is that of the first one that fails. */
  function AddAll(c: Catalogue, l: Links, s: nat, k: nat): (r: (Links, nat))
    requires Sized(c, l) && s < |l.deps| && k <= |c.lists[s]|
    ensures Sized(c, r.0) && r.0.valid == l.valid && k <= r.1 <= |c.lists[s]|
    decreases |c.lists[s]| - k
  {
    if k == |c.lists[s]| then (l, k)
    else
      var d := Find(c.types, l.valid, c.lists[s][k], 0);
      if d == |c.types| then (l, k)
      else
        var (l1, ok) := Add(c, l, s, d);
        if ok then AddAll(c, l1, s, k + 1) else (l1, k)
  }

  /** Removes the dependencies of s for its first k types again, last one first. */
  function RemoveAll(c: Catalogue, l: Links, s: nat, k: nat): (r: Links)
    requires Sized(c, l) && s < |l.deps| && k <= |c.lists[s]|
    ensures Sized(c, r) && r.valid == l.valid
    decreases k
  {
    if k == 0 then l
    else
      var d := Find(c.types, l.valid, c.lists[s][k - 1], 0);
      RemoveAll(c, if d == |c.types| then l else Remove(c, l, s, d), s, k - 1)
  }

  function ResolveOne(c: Catalogue, l: Links, s: nat): (r: Links)
    requires Sized(c, l) && s < |l.deps|
    ensures Sized(c, r)
  {
    var (l1, k) := AddAll(c, l, s, 0);
    if k == |c.lists[s]| then l1
    else
      var l2 := RemoveAll(c, l1, s, k);
      l2.(valid := l2.valid[s := false])
  }

  function ResolveFrom(c: Catalogue, l: Links, s: nat): (r: Links)
    requires Sized(c, l) && s <= |l.deps|
    ensures Sized(c, r)
    decreases |l.deps| - s
  {
    if s == |l.deps| then l else ResolveFrom(c, ResolveOne(c, l, s), s + 1)
  }

  // ---------------------------------------------------------------- what linking keeps

  ghost predicate Distinct(q: seq<nat>) {
    forall i, j :: 0 <= i < j < |q| ==> q[i] != q[j]
  }

  /** Links point both ways, each once. */
  ghost predicate TwoWay(c: Catalogue, l: Links) {
    && Sized(c, l)
    && (forall s {:trigger l.deps[s]} :: 0 <= s < |l.deps| ==> Distinct(l.deps[s]) && forall d :: d in l.deps[s] ==> d < |l.deps|)
    && (forall s {:trigger l.push[s]} :: 0 <= s < |l.deps| ==> Distinct(l.push[s]) && forall d :: d in l.push[s] ==> d < |l.deps|)
    && (forall s, d {:trigger l.deps[s], l.push[d]} :: 0 <= s < |l.deps| && 0 <= d < |l.deps| ==> (d in l.deps[s] <==> s in l.push[d]))
  }

  /** s depends on one sensor for each of its first k types, in order, and the map gives the position of each. */
  ghost predicate LinkedTo(c: Catalogue, l: Links, s: nat, k: nat) {
    && Sized(c, l) && s < |l.deps| && k == |l.deps[s]| <= |c.lists[s]|
    && forall i {:trigger l.deps[s][i]} :: 0 <= i < k ==>
         && l.deps[s][i] < |l.deps| && c.types[l.deps[s][i]] == c.lists[s][i]
         && l.deps[s][i] in l.position[s] && l.position[s][l.deps[s][i]] == i
  }

  /** The allocation of every buffer succeeds. */
  ghost predicate AllocatesAlways(c: Catalogue) {
    forall s: nat, k: nat {:trigger c.allocates(s, k)} :: c.allocates(s, k)
  }

  /** Before s is dealt with, it and the later sensors have no dependencies and are valid; an earlier one
      has all its links, or has failed and keeps at most the one whose buffer could not be allocated. */
  ghost predicate Progress(c: Catalogue, l: Links, s: nat) {
    && WellListed(c) && TwoWay(c, l) && s <= |l.deps|
    && (forall x {:trigger l.deps[x]} :: s <= x < |l.deps| ==> l.deps[x] == [] && l.valid[x])
    && (forall x {:trigger l.deps[x]} :: 0 <= x < s ==> Dealt(c, l, x))
  }

  /** Every link of x is to a sensor of a type it lists. */
  ghost predicate Listed(c: Catalogue, l: Links, x: nat) {
    x < |l.deps| && x < |c.lists| && forall d <- l.deps[x] :: d < |c.types| && c.types[d] in c.lists[x]
  }

  ghost predicate Dealt(c: Catalogue, l: Links, x: nat) {
    && Sized(c, l) && x < |l.deps| && Listed(c, l, x)
    && if l.valid[x] then LinkedTo(c, l, x, |c.lists[x]|) else |l.deps[x]| <= 1 && (AllocatesAlways(c) ==> l.deps[x] == [])
  }

  lemma DistinctAppend(q: seq<nat>, x: nat)
    requires Distinct(q) && x !in q
    ensures Distinct(q + [x])
  {
  }

  /** A sensor of another type than those linked so far is not linked yet. */
  lemma NotYetLinked(c: Catalogue, l: Links, s: nat, k: nat, d: nat)
    requires WellListed(c) && LinkedTo(c, l, s, k) && k < |c.lists[s]| && d < |c.types| && c.types[d] == c.lists[s][k]
    ensures d !in l.deps[s]
  {
    forall i | 0 <= i < k ensures l.deps[s][i] != d {
      assert c.lists[s][i] != c.lists[s][k];
    }
  }

  /** One successful link more. */
  lemma {:induction false} AddLinks(c: Catalogue, l: Links, s: nat, k: nat, d: nat)
    requires WellListed(c) && TwoWay(c, l) && LinkedTo(c, l, s, k) && k < |c.lists[s]|
    requires d < |l.deps| && c.types[d] == c.lists[s][k] && |l.push[d]| < MAX_LINKS
    ensures var l' := Add(c, l, s, d).0;
            TwoWay(c, l') && LinkedTo(c, l', s, k + 1)
            && l'.deps == l.deps[s := l.deps[s] + [d]] && l'.push == l.push[d := l.push[d] + [s]]
            && d !in l.deps[s] && s !in l.push[d]
  {
    var l' := Add(c, l, s, d).0;
    NotYetLinked(c, l, s, k, d);
    assert s !in l.push[d] by { assert d in l.deps[s] <==> s in l.push[d]; }
    DistinctAppend(l.deps[s], d);
    DistinctAppend(l.push[d], s);
    forall x, y | 0 <= x < |l.deps| && 0 <= y < |l.deps| ensures y in l'.deps[x] <==> x in l'.push[y] {
      assert y in l.deps[x] <==> x in l.push[y];
    }
    forall i | 0 <= i < k + 1
      ensures l'.deps[s][i] < |l.deps| && c.types[l'.deps[s][i]] == c.lists[s][i]
              && l'.deps[s][i] in l'.position[s] && l'.position[s][l'.deps[s][i]] == i
    {
      if i < k { assert l'.deps[s][i] == l.deps[s][i] && l.deps[s][i] in l.deps[s]; }
    }
  }

  /** Only s's own entries (and the push lists) may differ. */
  ghost predicate OthersKept(l: Links, l': Links, s: nat) {
    && |l.deps| == |l'.deps| == |l.position| == |l'.position| && l'.valid == l.valid
    && forall x {:trigger l'.deps[x]} {:trigger l'.position[x]} :: 0 <= x < |l.deps| && x != s ==> l'.deps[x] == l.deps[x] && l'.position[x] == l.position[x]
  }

  /** All k links made so far are those the search finds again. */
  ghost predicate FoundAgain(c: Catalogue, l: Links, s: nat, k: nat) {
    LinkedTo(c, l, s, k) && forall i {:trigger l.deps[s][i]} :: 0 <= i < k ==> l.deps[s][i] == Find(c.types, l.valid, c.lists[s][i], 0)
  }

  // ---------------------------------------------------------------- where adding stops

  /** The link for type number k of s can be made: a sensor is found and its push list has room. */
  predicate Opens(c: Catalogue, l: Links, s: nat, k: nat)
    requires Sized(c, l) && s < |l.deps| && k < |c.lists[s]|
  {
    var d := Find(c.types, l.valid, c.lists[s][k], 0);
    d < |c.types| && |l.push[d]| < MAX_LINKS
  }

  /** The first type, from number k on, whose link cannot be made or whose buffer is not allocated. */
  function Stop(c: Catalogue, l: Links, s: nat, k: nat): (n: nat)
    requires Sized(c, l) && s < |l.deps| && k <= |c.lists[s]|
    ensures k <= n <= |c.lists[s]|
    ensures n < |c.lists[s]| ==> !Opens(c, l, s, n) || !c.allocates(s, n)
    ensures forall j :: k <= j < n ==> Opens(c, l, s, j) && c.allocates(s, j)
    decreases |c.lists[s]| - k
  {
    if k < |c.lists[s]| && Opens(c, l, s, k) && c.allocates(s, k) then Stop(c, l, s, k + 1) else k
  }

  /** Whether s fails, seen before it is dealt with. */
  predicate Fails(c: Catalogue, l: Links, s: nat)
    requires Sized(c, l) && s < |l.deps|
  {
    Stop(c, l, s, 0) < |c.lists[s]|
  }

  /** A link for one type does not get in the way of the others. */
  lemma OpensStill(c: Catalogue, l: Links, s: nat, k: nat, j: nat)
    requires WellListed(c) && Sized(c, l) && s < |l.deps| && k < j < |c.lists[s]| && Opens(c, l, s, k)
    ensures Opens(c, Add(c, l, s, Find(c.types, l.valid, c.lists[s][k], 0)).0, s, j) == Opens(c, l, s, j)
  {
    assert c.lists[s][k] != c.lists[s][j];
  }

  lemma {:induction false} StopsStill(c: Catalogue, l: Links, s: nat, k: nat, j: nat)
    requires WellListed(c) && Sized(c, l) && s < |l.deps| && k < j <= |c.lists[s]| && Opens(c, l, s, k)
    ensures Stop(c, Add(c, l, s, Find(c.types, l.valid, c.lists[s][k], 0)).0, s, j) == Stop(c, l, s, j)
    decreases |c.lists[s]| - j
  {
    if j < |c.lists[s]| {
      OpensStill(c, l, s, k, j);
      StopsStill(c, l, s, k, j + 1);
    }
  }

  /** What adding on leaves behind, when it stops at type number n. */
  ghost predicate AddingStopped(c: Catalogue, l0: Links, l: Links, s: nat, n: nat) {
    && TwoWay(c, l) && OthersKept(l0, l, s) && s < |l.deps| && n <= |c.lists[s]|
    && FoundAgain(c, l, s, |l.deps[s]|)
  }

  /** Adding on from type number k goes on to the stop; the link at the stop itself is made if it can be,
      because its buffer is allocated only afterwards. */
  lemma {:induction false} AddAllEffect(c: Catalogue, l: Links, s: nat, k: nat)
    requires WellListed(c) && TwoWay(c, l) && FoundAgain(c, l, s, k) && k <= |c.lists[s]|
    ensures var (l', n) := AddAll(c, l, s, k);
            && n == Stop(c, l, s, k) && AddingStopped(c, l, l', s, n)
            && |l'.deps[s]| == if n < |c.lists[s]| && Opens(c, l, s, n) then n + 1 else n
    decreases |c.lists[s]| - k
  {
    if k < |c.lists[s]| {
      if Opens(c, l, s, k) && c.allocates(s, k) {
        var d := Find(c.types, l.valid, c.lists[s][k], 0);
        MoreLinked(c, l, s, k, d);
        var l1 := Add(c, l, s, d).0;
        assert AddAll(c, l, s, k) == AddAll(c, l1, s, k + 1);
        StopMoves(c, l, s, k);
        hide Add, Find, Opens, Stop, TwoWay, FoundAgain, OthersKept, AddAll;
        AddAllEffect(c, l1, s, k + 1);
        KeptTwice(l, l1, AddAll(c, l1, s, k + 1).0, s);
      } else {
        AddAllStopsHere(c, l, s, k);
      }
    }
  }

  lemma AddAllStopsHere(c: Catalogue, l: Links, s: nat, k: nat)
    requires WellListed(c) && TwoWay(c, l) && FoundAgain(c, l, s, k) && k < |c.lists[s]|
    requires !Opens(c, l, s, k) || !c.allocates(s, k)
    ensures var (l', n) := AddAll(c, l, s, k);
            && n == k == Stop(c, l, s, k) && AddingStopped(c, l, l', s, n)
            && |l'.deps[s]| == if Opens(c, l, s, k) then k + 1 else k
  {
    var d := Find(c.types, l.valid, c.lists[s][k], 0);
    hide Find;
    if d < |c.types| {
      if |l.push[d]| >= MAX_LINKS {
        RefusedAdd(c, l, s, k, d);
      } else {
        MoreLinked(c, l, s, k, d);
      }
      hide Add, TwoWay, FoundAgain, OthersKept;
    }
  }

  lemma KeptTwice(l: Links, l1: Links, l2: Links, s: nat)
    requires OthersKept(l, l1, s) && OthersKept(l1, l2, s)
    ensures OthersKept(l, l2, s)
  {
  }

  lemma StopMoves(c: Catalogue, l: Links, s: nat, k: nat)
    requires WellListed(c) && Sized(c, l) && s < |l.deps| && k < |c.lists[s]| && Opens(c, l, s, k) && c.allocates(s, k)
    ensures var l1 := Add(c, l, s, Find(c.types, l.valid, c.lists[s][k], 0)).0; var n := Stop(c, l, s, k);
            n > k && Stop(c, l1, s, k + 1) == n && (n < |c.lists[s]| ==> Opens(c, l1, s, n) == Opens(c, l, s, n))
  {
    StopsStill(c, l, s, k, k + 1);
    var n := Stop(c, l, s, k + 1);
    if n < |c.lists[s]| { OpensStill(c, l, s, k, n); }
  }

  lemma {:induction false} MoreLinked(c: Catalogue, l: Links, s: nat, k: nat, d: nat)
    requires WellListed(c) && TwoWay(c, l) && FoundAgain(c, l, s, k) && k < |c.lists[s]|
    requires d == Find(c.types, l.valid, c.lists[s][k], 0) < |c.types| && |l.push[d]| < MAX_LINKS
    ensures var (l1, ok) := Add(c, l, s, d);
            TwoWay(c, l1) && FoundAgain(c, l1, s, k + 1) && OthersKept(l, l1, s) && ok == c.allocates(s, k)
  {
    AddLinks(c, l, s, k, d);
    var l1 := Add(c, l, s, d).0;
    forall i | 0 <= i < k + 1 ensures l1.deps[s][i] == Find(c.types, l1.valid, c.lists[s][i], 0) {
      if i < k { assert l1.deps[s][i] == l.deps[s][i]; }
    }
  }

  /** A full push list refuses the link and changes only an entry of the position map. */
  lemma {:induction false} RefusedAdd(c: Catalogue, l: Links, s: nat, k: nat, d: nat)
    requires WellListed(c) && TwoWay(c, l) && FoundAgain(c, l, s, k) && k < |c.lists[s]|
    requires d == Find(c.types, l.valid, c.lists[s][k], 0) < |c.types| && |l.push[d]| >= MAX_LINKS
    ensures var l' := Add(c, l, s, d).0; TwoWay(c, l') && OthersKept(l, l', s) && FoundAgain(c, l', s, k) && l'.deps == l.deps
    ensures var l' := Add(c, l, s, d).0; l'.push == l.push && l'.position[s] == l.position[s][d := |l.deps[s]|]
  {
    var l' := Add(c, l, s, d).0;
    NotYetLinked(c, l, s, k, d);
    forall i | 0 <= i < k ensures l'.deps[s][i] in l'.position[s] && l'.position[s][l'.deps[s][i]] == i {
      assert l.deps[s][i] in l.deps[s];
    }
  }

  // ---------------------------------------------------------------- taking links back

  lemma {:induction false} WithoutIs(q: seq<nat>, x: nat, y: nat)
    requires Distinct(q)
    ensures Distinct(Without(q, x)) && (y in Without(q, x) <==> y in q && y != x)
  {
    if q != [] && q[0] != x {
      assert forall i :: 0 <= i < |q| - 1 ==> q[1..][i] == q[i + 1];
      WithoutIs(q[1..], x, y);
      WithoutIs(q[1..], x, q[0]);
    }
  }

  lemma {:induction false} WithoutAt(q: seq<nat>, k: nat)
    requires Distinct(q) && k < |q|
    ensures Without(q, q[k]) == q[..k] + q[k + 1..]
  {
    if k > 0 {
      TailIsDistinct(q);
      WithoutAt(q[1..], k - 1);
      SplitFirst(q, k);
    }
  }

  lemma TailIsDistinct(q: seq<nat>)
    requires Distinct(q) && q != []
    ensures Distinct(q[1..]) && q[0] !in q[1..]
  {
    assert forall i :: 0 <= i < |q| - 1 ==> q[1..][i] == q[i + 1];
  }

  lemma SplitFirst(q: seq<nat>, k: nat)
    requires 0 < k < |q|
    ensures q[1..][k - 1] == q[k]
    ensures q[..k] + q[k + 1..] == [q[0]] + (q[1..][..k - 1] + q[1..][k..])
  {
    assert q[1..][k..] == q[k + 1..];
  }

  lemma RemoveKeepsTwoWay(c: Catalogue, l: Links, s: nat, d: nat)
    requires TwoWay(c, l) && s < |l.deps| && d in l.deps[s]
    ensures TwoWay(c, Remove(c, l, s, d))
  {
    var r := Remove(c, l, s, d);
    assert d in l.deps[s] <==> s in l.push[d];
    forall y | 0 <= y < |l.deps| ensures (y in r.deps[s] <==> y in l.deps[s] && y != d) && (y in r.push[d] <==> y in l.push[d] && y != s) {
      WithoutIs(l.deps[s], d, y);
      WithoutIs(l.push[d], s, y);
    }
    WithoutIs(l.deps[s], d, 0);
    WithoutIs(l.push[d], s, 0);
    WithoutStays(l.deps[s], d);
    WithoutStays(l.push[d], s);
    forall x, y | 0 <= x < |l.deps| && 0 <= y < |l.deps| ensures y in r.deps[x] <==> x in r.push[y] {
      assert y in l.deps[x] <==> x in l.push[y];
    }
  }

  lemma {:induction false} WithoutStays(q: seq<nat>, x: nat)
    ensures forall y :: y in Without(q, x) ==> y in q
  {
    if q != [] { WithoutStays(q[1..], x); }
  }

  ghost predicate FirstFound(c: Catalogue, l: Links, s: nat, k: nat) {
    && Sized(c, l) && s < |l.deps| && k <= |c.lists[s]| && k <= |l.deps[s]|
    && forall i :: 0 <= i < k ==> l.deps[s][i] == Find(c.types, l.valid, c.lists[s][i], 0)
  }

  lemma RemoveLast(c: Catalogue, l: Links, s: nat, k: nat, d: nat)
    requires TwoWay(c, l) && k > 0 && FirstFound(c, l, s, k) && d == l.deps[s][k - 1] < |l.deps|
    ensures var r := Remove(c, l, s, d);
            && TwoWay(c, r) && OthersKept(l, r, s) && FirstFound(c, r, s, k - 1)
            && r.deps[s] == l.deps[s][..k - 1] + l.deps[s][k..]
  {
    hide Find;
    RemoveKeepsTwoWay(c, l, s, d);
    WithoutAt(l.deps[s], k - 1);
  }

  /** Taking back the first k links, last one first, leaves the others. */
  lemma {:induction false} RemoveAllEffect(c: Catalogue, l: Links, s: nat, k: nat)
    requires TwoWay(c, l) && FirstFound(c, l, s, k)
    ensures var r := RemoveAll(c, l, s, k); TwoWay(c, r) && OthersKept(l, r, s) && r.deps[s] == l.deps[s][k..]
    decreases k
  {
    if k > 0 {
      var d := Find(c.types, l.valid, c.lists[s][k - 1], 0);
      assert l.deps[s][k - 1] == d && d in l.deps[s];
      var l1 := Remove(c, l, s, d);
      RemoveLast(c, l, s, k, d);
      hide TwoWay, FirstFound, Remove, Find;
      RemoveAllEffect(c, l1, s, k - 1);
      assert (l.deps[s][..k - 1] + l.deps[s][k..])[k - 1..] == l.deps[s][k..];
    }
  }

  // ---------------------------------------------------------------- one round

  ghost predicate AfterRound(c: Catalogue, l: Links, r: Links, s: nat)
    requires Sized(c, l) && s < |l.deps|
  {
    && TwoWay(c, r) && |r.valid| == |l.valid|
    && r.valid == l.valid[s := !Fails(c, l, s)]
    && forall x {:trigger r.deps[x]} {:trigger r.position[x]} :: 0 <= x < |l.deps| && x != s ==> r.deps[x] == l.deps[x] && r.position[x] == l.position[x]
  }

  lemma {:induction false} RoundSucceeds(c: Catalogue, l: Links, s: nat)
    requires Progress(c, l, s) && s < |l.deps| && !Fails(c, l, s)
    ensures AfterRound(c, l, ResolveOne(c, l, s), s) && LinkedTo(c, ResolveOne(c, l, s), s, |c.lists[s]|)
    ensures Listed(c, ResolveOne(c, l, s), s)
    ensures ResolveOne(c, l, s) == AddAll(c, l, s, 0).0
  {
    hide AddAll;
    AddAllEffect(c, l, s, 0);
    assert l.valid[s := true] == l.valid;
  }

  lemma {:induction false} RoundFails(c: Catalogue, l: Links, s: nat)
    requires Progress(c, l, s) && s < |l.deps| && Fails(c, l, s)
    ensures var k := Stop(c, l, s, 0);
            && AfterRound(c, l, ResolveOne(c, l, s), s)
            && ResolveOne(c, l, s).deps[s] == if Opens(c, l, s, k) then [Find(c.types, l.valid, c.lists[s][k], 0)] else []
  {
    hide AddAll, RemoveAll;
    AddAllEffect(c, l, s, 0);
    var (l1, k) := AddAll(c, l, s, 0);
    RemoveAllEffect(c, l1, s, k);
  }

  /** A sensor that fails keeps no link exactly when the link at which it stops could not be made; if it
      could, the allocation of the buffer failed, which comes after the link. */
  lemma FailedKeepsNoLink(c: Catalogue, l: Links, s: nat)
    requires Progress(c, l, s) && s < |l.deps| && Fails(c, l, s)
    ensures ResolveOne(c, l, s).deps[s] == [] <==> !Opens(c, l, s, Stop(c, l, s, 0))
    ensures Opens(c, l, s, Stop(c, l, s, 0)) ==> !c.allocates(s, Stop(c, l, s, 0))
  {
    RoundFails(c, l, s);
  }

  lemma {:induction false} RoundKeeps(c: Catalogue, l: Links, s: nat)
    requires Progress(c, l, s) && s < |l.deps|
    ensures Progress(c, ResolveOne(c, l, s), s + 1) && AfterRound(c, l, ResolveOne(c, l, s), s)
  {
    assert Sized(c, l);
    hide ResolveOne, TwoWay;
    var r := ResolveOne(c, l, s);
    OwnRound(c, l, s);
    hide Fails;
    forall x: nat | x < s + 1 ensures Dealt(c, r, x) {
      if x < s { OtherRound(c, l, r, s, x); }
    }
    forall x | s + 1 <= x < |r.deps| ensures r.deps[x] == [] && r.valid[x] {
      assert l.deps[x] == [];
    }
  }

  lemma OwnRound(c: Catalogue, l: Links, s: nat)
    requires Progress(c, l, s) && s < |l.deps|
    ensures AfterRound(c, l, ResolveOne(c, l, s), s) && Dealt(c, ResolveOne(c, l, s), s)
  {
    assert Sized(c, l);
    hide ResolveOne, TwoWay;
    if Fails(c, l, s) {
      RoundFails(c, l, s);
      FailedKeepsNoLink(c, l, s);
      assert AllocatesAlways(c) ==> c.allocates(s, Stop(c, l, s, 0));
    } else {
      RoundSucceeds(c, l, s);
    }
  }

  lemma OtherRound(c: Catalogue, l: Links, r: Links, s: nat, x: nat)
    requires Sized(c, l) && s < |l.deps| && x < |l.deps| && x != s && Dealt(c, l, x) && AfterRound(c, l, r, s)
    ensures Dealt(c, r, x)
  {
    assert r.deps[x] == l.deps[x] && r.position[x] == l.position[x] && r.valid[x] == l.valid[x];
  }

  lemma {:induction false} ResolveKeeps(c: Catalogue, l: Links, s: nat)
    requires Progress(c, l, s)
    ensures Progress(c, ResolveFrom(c, l, s), |l.deps|) && |ResolveFrom(c, l, s).deps| == |l.deps|
    decreases |l.deps| - s
  {
    if s < |l.deps| {
      RoundKeeps(c, l, s);
      ResolveKeeps(c, ResolveOne(c, l, s), s + 1);
    }
  }

  /** After the loop: links point both ways, each once; a valid sensor depends on one sensor for each type it
      lists, at the position its map gives; a failed sensor keeps at most the link whose buffer was not
      allocated, so none at all if every allocation succeeds. */
  lemma LinkingTheorem(c: Catalogue)
    requires WellListed(c)
    ensures var l := ResolveFrom(c, Unlinked(|c.types|), 0);
            && TwoWay(c, l)
            && (forall s :: 0 <= s < |c.types| ==> if l.valid[s] then LinkedTo(c, l, s, |c.lists[s]|) else |l.deps[s]| <= 1)
            && (forall s :: 0 <= s < |c.types| ==> Listed(c, l, s))
            && (AllocatesAlways(c) ==> forall s, d :: 0 <= s < |c.types| && !l.valid[s] && 0 <= d < |c.types| ==>
                  l.deps[s] == [] && s !in l.push[d])
  {
    var l0 := Unlinked(|c.types|);
    assert Progress(c, l0, 0);
    ResolveKeeps(c, l0, 0);
    var l := ResolveFrom(c, l0, 0);
    forall s: nat | s < |c.types| ensures Dealt(c, l, s) {
    }
    forall s, d | 0 <= s < |c.types| && !l.valid[s] && 0 <= d < |c.types| && l.deps[s] == [] ensures s !in l.push[d] {
      assert d in l.deps[s] <==> s in l.push[d];
    }
  }

  // ---------------------------------------------------------------- valid on valid

  ghost predicate ValidOnValid(l: Links) {
    forall s, d {:trigger d in l.deps[s]} :: 0 <= s < |l.deps| == |l.valid| && l.valid[s] && d in l.deps[s] ==> d < |l.valid| && l.valid[d]
  }

  /** A valid sensor depends on s. */
  predicate InUse(c: Catalogue, l: Links, s: nat)
    requires Sized(c, l) && s < |l.deps|
  {
    exists x :: 0 <= x < |l.deps| && l.valid[x] && s in l.deps[x]
  }

  /** No sensor fails on its turn while a valid one depends on it. */
  predicate NoneFailsInUse(c: Catalogue, l: Links, s: nat)
    requires Sized(c, l) && s <= |l.deps|
    decreases |l.deps| - s
  {
    s == |l.deps| || (!(Fails(c, l, s) && InUse(c, l, s)) && NoneFailsInUse(c, ResolveOne(c, l, s), s + 1))
  }

  lemma {:induction false} FoundAreValid(c: Catalogue, l: Links, s: nat)
    requires Progress(c, l, s) && s < |l.deps| && !Fails(c, l, s)
    ensures forall d :: d in ResolveOne(c, l, s).deps[s] ==> d < |l.valid| && l.valid[d]
  {
    AddAllEffect(c, l, s, 0);
  }

  lemma RoundKeepsValidity(c: Catalogue, l: Links, s: nat)
    requires Progress(c, l, s) && s < |l.deps| && ValidOnValid(l)
    ensures ValidOnValid(ResolveOne(c, l, s)) <==> !(Fails(c, l, s) && InUse(c, l, s))
  {
    hide ResolveOne;
    var r := ResolveOne(c, l, s);
    RoundKeeps(c, l, s);
    if Fails(c, l, s) {
      if InUse(c, l, s) {
        var x :| 0 <= x < |l.deps| && l.valid[x] && s in l.deps[x];
        assert x < s && s in r.deps[x];
      }
    } else {
      FoundAreValid(c, l, s);
    }
  }

  /** A valid sensor that has been dealt with and depends on an invalid one. */
  ghost predicate Broken(l: Links, s: nat) {
    exists x, d :: 0 <= x < s <= |l.deps| == |l.valid| && d < |l.valid| && l.valid[x] && d in l.deps[x] && !l.valid[d] && d < s
  }

  lemma {:induction false} BrokenStays(c: Catalogue, l: Links, s: nat)
    requires Progress(c, l, s) && Broken(l, s)
    ensures !ValidOnValid(ResolveFrom(c, l, s))
    decreases |l.deps| - s
  {
    if s < |l.deps| {
      RoundKeeps(c, l, s);
      BrokenOnce(c, l, s);
      hide Broken, Progress, ValidOnValid, ResolveOne;
      BrokenStays(c, ResolveOne(c, l, s), s + 1);
    } else {
      var x, d :| 0 <= x < s && d < s && l.valid[x] && d in l.deps[x] && !l.valid[d];
      assert d in l.deps[x];
    }
  }

  lemma BrokenOnce(c: Catalogue, l: Links, s: nat)
    requires Progress(c, l, s) && Broken(l, s) && s < |l.deps|
    ensures Broken(ResolveOne(c, l, s), s + 1)
  {
    hide ResolveOne, Fails;
    RoundKeeps(c, l, s);
    var x, d :| 0 <= x < s && d < s && l.valid[x] && d in l.deps[x] && !l.valid[d];
    var r := ResolveOne(c, l, s);
    assert r.valid[x] && d in r.deps[x] && !r.valid[d];
  }

  lemma {:induction false} ValidityFrom(c: Catalogue, l: Links, s: nat)
    requires Progress(c, l, s) && ValidOnValid(l)
    ensures ValidOnValid(ResolveFrom(c, l, s)) <==> NoneFailsInUse(c, l, s)
    decreases |l.deps| - s
  {
    if s < |l.deps| {
      RoundKeeps(c, l, s);
      RoundKeepsValidity(c, l, s);
      var r := ResolveOne(c, l, s);
      if Fails(c, l, s) && InUse(c, l, s) {
        FailureBreaks(c, l, s);
        BrokenStays(c, r, s + 1);
      } else {
        hide Progress, ValidOnValid, Fails, InUse, ResolveOne;
        ValidityFrom(c, r, s + 1);
      }
    }
  }

  lemma FailureBreaks(c: Catalogue, l: Links, s: nat)
    requires Progress(c, l, s) && s < |l.deps| && Fails(c, l, s) && InUse(c, l, s)
    ensures Broken(ResolveOne(c, l, s), s + 1)
  {
    hide ResolveOne, Fails;
    RoundKeeps(c, l, s);
    var r := ResolveOne(c, l, s);
    var x :| 0 <= x < |l.deps| && l.valid[x] && s in l.deps[x];
    assert x < s && r.valid[x] && s in r.deps[x] && !r.valid[s];
  }

  /** After the loop valid sensors depend only on valid ones exactly when no sensor failed on its turn while
      a valid one depended on it. */
  lemma ValidDependOnValid(c: Catalogue)
    requires WellListed(c)
    ensures ValidOnValid(ResolveFrom(c, Unlinked(|c.types|), 0)) <==> NoneFailsInUse(c, Unlinked(|c.types|), 0)
  {
    assert Progress(c, Unlinked(|c.types|), 0);
    ValidityFrom(c, Unlinked(|c.types|), 0);
  }

  /** Every sensor that others may depend on and that has dependencies itself comes before them. */
  ghost predicate DependenciesFirst(c: Catalogue) {
    forall s, d, i {:trigger c.types[d], c.lists[s][i]} ::
      0 <= s < |c.lists| && 0 <= d < |c.types| == |c.lists| && 0 <= i < |c.lists[s]| && c.types[d] == c.lists[s][i] ==>
      c.lists[d] == [] || d < s
  }

  lemma {:induction false} FirstNeverFailInUse(c: Catalogue, l: Links, s: nat)
    requires Progress(c, l, s) && DependenciesFirst(c)
    ensures NoneFailsInUse(c, l, s)
    decreases |l.deps| - s
  {
    if s < |l.deps| {
      RoundKeeps(c, l, s);
      FirstIsNotInUse(c, l, s);
      hide Progress, ResolveOne, Fails, InUse;
      FirstNeverFailInUse(c, ResolveOne(c, l, s), s + 1);
    }
  }

  lemma FirstIsNotInUse(c: Catalogue, l: Links, s: nat)
    requires Progress(c, l, s) && s < |l.deps| && DependenciesFirst(c)
    ensures !(Fails(c, l, s) && InUse(c, l, s))
  {
    hide Stop;
    assert Sized(c, l);
    forall x: nat | x < |l.deps| && l.valid[x] && s in l.deps[x] ensures c.lists[s] == [] {
      assert x < s && Dealt(c, l, x) && c.types[s] in c.lists[x];
    }
  }

  /** That is so whenever dependencies come first. */
  lemma DependenciesFirstSuffice(c: Catalogue)
    requires WellListed(c) && DependenciesFirst(c)
    ensures ValidOnValid(ResolveFrom(c, Unlinked(|c.types|), 0))
  {
    assert Progress(c, Unlinked(|c.types|), 0);
    FirstNeverFailInUse(c, Unlinked(|c.types|), 0);
    ValidDependOnValid(c);
  }

  /** The order is needed: a sensor linked to one that comes later stays valid when that one then fails. */
  lemma LateFailureIsNotNoticed(allocates: (nat, nat) -> bool)
    requires allocates(0, 0)
    ensures var c := Catalogue([1, 2], [[2], [3]], allocates);
            var l := ResolveFrom(c, Unlinked(2), 0);
            l.valid[0] && l.deps[0] == [1] && !l.valid[1]
  {
    var c := Catalogue([1, 2], [[2], [3]], allocates);
    var l0 := Unlinked(2);
    assert Find(c.types, l0.valid, 2, 0) == 1;
    var l1 := Add(c, l0, 0, 1).0;
    assert AddAll(c, l0, 0, 0) == AddAll(c, l1, 0, 1) == (l1, 1);
    assert ResolveOne(c, l0, 0) == l1;
    assert Find(c.types, l1.valid, 3, 0) == 2;
    assert AddAll(c, l1, 1, 0) == (l1, 0);
    assert RemoveAll(c, l1, 1, 0) == l1;
    assert ResolveOne(c, l1, 1) == l1.(valid := l1.valid[1 := false]);
    assert ResolveFrom(c, l0, 0) == ResolveFrom(c, l1, 1);
  }
}
