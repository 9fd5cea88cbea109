/** The same resolution loop over sensor objects that hold references to each other. */
module LinkingObjects {
  import opened Linking

  class Node {
    const index: nat
    const typeId: int
    const typeList: seq<int>
    var dependencies: seq<Node>
    var pushData: seq<Node>
    var handleRemapping: map<nat, nat>

    constructor (index: nat, typeId: int, typeList: seq<int>)
      ensures this.index == index && this.typeId == typeId && this.typeList == typeList
      ensures dependencies == [] && pushData == [] && handleRemapping == map[]
    {
      this.index, this.typeId, this.typeList := index, typeId, typeList;
      dependencies, pushData, handleRemapping := [], [], map[];
    }

    ghost predicate In(c: Catalogue, all: seq<Node>)
      reads all
    {
      Placed(c, all) && index < |all| && all[index] == this
    }

    method AddSensorToDataPush(ghost c: Catalogue, ghost all: seq<Node>, t: Node) returns (ok: bool)
      requires In(c, all) && t.In(c, all)
      modifies this`pushData
      ensures Placed(c, all)
      ensures ok == (|old(pushData)| < MAX_LINKS)
      ensures ViewOf(all) == if ok then old(ViewOf(all)).(push := old(ViewOf(all)).push[index := old(ViewOf(all)).push[index] + [t.index]])
                             else old(ViewOf(all))
    {
      if |pushData| >= MAX_LINKS {
        return false;
      }
      NamesAppend(pushData, t);
      pushData := pushData + [t];
      OnlyThisChanged(c, all, old(ViewOf(all)));
      return true;
    }

    method RemoveSensorToDataPush(ghost c: Catalogue, ghost all: seq<Node>, t: Node)
      requires In(c, all) && t.In(c, all)
      modifies this`pushData
      ensures Placed(c, all)
      ensures var l := old(ViewOf(all)); ViewOf(all) == l.(push := l.push[index := Without(l.push[index], t.index)])
    {
      pushData := RemoveFirst(c, all, pushData, t);
      OnlyThisChanged(c, all, old(ViewOf(all)));
    }

    method SetDependencyPosition(ghost c: Catalogue, ghost all: seq<Node>, p: Node, k: nat)
      requires In(c, all) && p.In(c, all)
      modifies this`handleRemapping
      ensures Placed(c, all)
      ensures var l := old(ViewOf(all)); ViewOf(all) == l.(position := l.position[index := Renumbered(l.position[index], p.index, k)])
    {
      handleRemapping := Renumbered(handleRemapping, p.index, k);
      OnlyThisChanged(c, all, old(ViewOf(all)));
    }

    method StoreDependencies(ghost c: Catalogue, ghost all: seq<Node>, q: seq<Node>)
      requires In(c, all) && Members(all, q)
      modifies this`dependencies
      ensures Placed(c, all) && dependencies == q
      ensures var l := old(ViewOf(all)); ViewOf(all) == l.(deps := l.deps[index := Names(q)])
    {
      dependencies := q;
      OnlyThisChanged(c, all, old(ViewOf(all)));
    }

    /** The result tells whether the dependency was added and its buffer allocated. */
    method AddSensorDependency(ghost c: Catalogue, ghost all: seq<Node>, ghost valid: seq<bool>, p: Node, hasBuffer: bool) returns (ok: bool)
      requires In(c, all) && p.In(c, all) && |valid| == |all| && hasBuffer == c.allocates(index, |dependencies|)
      modifies this, p`pushData
      ensures Placed(c, all)
      ensures (LinksOf(all, valid), ok) == Add(c, old(LinksOf(all, valid)), index, p.index)
    {
      hide Names;
      hide Renumbered;
      if |dependencies| >= MAX_LINKS {
        return false;
      }
      SetDependencyPosition(c, all, p, |dependencies|);
      ok := p.AddSensorToDataPush(c, all, this);
      if !ok {
        return;
      }
      NamesAppend(dependencies, p);
      StoreDependencies(c, all, dependencies + [p]);
      ok := hasBuffer;
    }

    method RemoveSensorDependency(ghost c: Catalogue, ghost all: seq<Node>, ghost valid: seq<bool>, p: Node)
      requires In(c, all) && p.In(c, all) && |valid| == |all|
      modifies this`dependencies, p`pushData
      ensures Placed(c, all)
      ensures LinksOf(all, valid) == Remove(c, old(LinksOf(all, valid)), index, p.index)
    {
      hide Names;
      hide Without;
      NamesContain(c, all, dependencies, p);
      if p !in dependencies {
        return;
      }
      p.RemoveSensorToDataPush(c, all, this);
      var q := RemoveFirst(c, all, dependencies, p);
      StoreDependencies(c, all, q);
    }

    /** A step that wrote only this object's fields changes the links only in its place. */
    lemma OnlyThisChanged(c: Catalogue, all: seq<Node>, l: Links)
      requires Located(c, all) && index < |all| && all[index] == this
      requires Members(all, dependencies) && Members(all, pushData)
      requires |l.deps| == |l.push| == |l.position| == |all| && l.valid == []
      requires forall i {:trigger all[i]} :: 0 <= i < |all| && i != index ==>
                 Names(all[i].dependencies) == l.deps[i] && Names(all[i].pushData) == l.push[i] && all[i].handleRemapping == l.position[i]
                 && Members(all, all[i].dependencies) && Members(all, all[i].pushData)
      ensures Placed(c, all)
      ensures ViewOf(all) == Links(l.deps[index := Names(dependencies)], l.push[index := Names(pushData)],
                                   l.position[index := handleRemapping], [])
    {
      var v := ViewOf(all);
      var w := Links(l.deps[index := Names(dependencies)], l.push[index := Names(pushData)], l.position[index := handleRemapping], []);
      forall i | 0 <= i < |all| ensures v.deps[i] == w.deps[i] && v.push[i] == w.push[i] && v.position[i] == w.position[i] {
        assert all[i] == all[i];
      }
      assert v.deps == w.deps && v.push == w.push && v.position == w.position;
    }
  }

  // ---------------------------------------------------------------- names for objects

  ghost predicate Located(c: Catalogue, all: seq<Node>) {
    && |all| == |c.types| == |c.lists|
    && forall s {:trigger all[s]} :: 0 <= s < |all| ==> all[s].index == s && all[s].typeId == c.types[s] && all[s].typeList == c.lists[s]
  }

  ghost predicate Members(all: seq<Node>, q: seq<Node>) {
    forall i {:trigger q[i]} :: 0 <= i < |q| ==> q[i].index < |all| && all[q[i].index] == q[i]
  }

  ghost predicate Placed(c: Catalogue, all: seq<Node>)
    reads all
  {
    Located(c, all) && forall s {:trigger all[s]} :: 0 <= s < |all| ==> Members(all, all[s].dependencies) && Members(all, all[s].pushData)
  }

  function Names(q: seq<Node>): (r: seq<nat>)
    ensures |r| == |q|
  {
    seq(|q|, i requires 0 <= i < |q| => q[i].index)
  }

  /** All links but the validity flags, which live in an array of the loop's own. */
  ghost function ViewOf(all: seq<Node>): Links
    reads all
  {
    Links(seq(|all|, i requires 0 <= i < |all| reads all => Names(all[i].dependencies)),
          seq(|all|, i requires 0 <= i < |all| reads all => Names(all[i].pushData)),
          seq(|all|, i requires 0 <= i < |all| reads all => all[i].handleRemapping),
          [])
  }

  ghost function LinksOf(all: seq<Node>, valid: seq<bool>): Links
    reads all
  {
    ViewOf(all).(valid := valid)
  }

  lemma NamesAppend(q: seq<Node>, x: Node)
    ensures Names(q + [x]) == Names(q) + [x.index]
  {
  }

  lemma NamesContain(c: Catalogue, all: seq<Node>, q: seq<Node>, x: Node)
    requires Located(c, all) && Members(all, q) && x.index < |all| && all[x.index] == x
    ensures x in q <==> x.index in Names(q)
  {
    if x.index in Names(q) {
      var i :| 0 <= i < |q| && Names(q)[i] == x.index;
      assert q[i] == x;
    }
    if x in q {
      var i :| 0 <= i < |q| && q[i] == x;
      assert Names(q)[i] == x.index;
    }
  }

  /** The search loop and the shift loop of both removals. */
  method RemoveFirst(ghost c: Catalogue, ghost all: seq<Node>, q: seq<Node>, x: Node) returns (r: seq<Node>)
    requires Located(c, all) && Members(all, q) && x.index < |all| && all[x.index] == x
    ensures Names(r) == Without(Names(q), x.index) && Members(all, r)
  {
    var i := 0;
    while i < |q| && q[i] != x
      invariant 0 <= i <= |q| && x !in q[..i]
    {
      i := i + 1;
    }
    if i == |q| {
      assert q[..i] == q;
      NamesContain(c, all, q, x);
      return q;
    }
    r := q[..i] + q[i + 1..];
    RemovedAt(c, all, q, x, i);
    assert Members(all, r) by {
      forall j | 0 <= j < |r| ensures r[j].index < |all| && all[r[j].index] == r[j] {
        assert r[j] == if j < i then q[j] else q[j + 1];
      }
    }
  }

  lemma {:induction false} RemovedAt(c: Catalogue, all: seq<Node>, q: seq<Node>, x: Node, i: nat)
    requires Located(c, all) && Members(all, q) && x.index < |all| && all[x.index] == x
    requires i < |q| && q[i] == x && x !in q[..i]
    ensures Names(q[..i] + q[i + 1..]) == Without(Names(q), x.index)
  {
    hide Members, Names;
    NamesTail(q);
    if i == 0 {
      assert q[..0] + q[1..] == q[1..];
    } else {
      FirstIsOther(c, all, q, x, i);
      RemovedAt(c, all, q[1..], x, i - 1);
      SplitFirst(q, i);
      NamesPrepend(q[0], q[1..i] + q[i + 1..]);
    }
  }

  lemma NamesTail(q: seq<Node>)
    requires q != []
    ensures Names(q)[1..] == Names(q[1..]) && Names(q)[0] == q[0].index && |Names(q)| == |q|
  {
  }

  lemma FirstIsOther(c: Catalogue, all: seq<Node>, q: seq<Node>, x: Node, i: nat)
    requires Located(c, all) && Members(all, q) && x.index < |all| && all[x.index] == x
    requires 0 < i < |q| && q[i] == x && x !in q[..i]
    ensures q[0].index != x.index && Members(all, q[1..]) && q[1..][i - 1] == x && x !in q[1..][..i - 1]
  {
    assert q[0] in q[..i];
    assert forall j :: 0 <= j < |q| - 1 ==> q[1..][j] == q[j + 1];
    assert q[1..][..i - 1] == q[..i][1..];
  }

  lemma SplitFirst(q: seq<Node>, i: nat)
    requires 0 < i < |q|
    ensures q[1..][..i - 1] == q[1..i] && q[1..][i..] == q[i + 1..]
    ensures q[..i] + q[i + 1..] == [q[0]] + (q[1..i] + q[i + 1..])
  {
  }

  lemma NamesPrepend(x: Node, q: seq<Node>)
    ensures Names([x] + q) == [x.index] + Names(q)
  {
  }

  // ---------------------------------------------------------------- the loop

  method FindSensor(ghost c: Catalogue, all: seq<Node>, valid: array<bool>, t: int) returns (d: nat)
    requires Placed(c, all) && valid.Length == |all|
    ensures d == Find(c.types, valid[..], t, 0)
  {
    d := 0;
    while d < |all| && !(t == all[d].typeId && valid[d])
      invariant 0 <= d <= |all| && Find(c.types, valid[..], t, 0) == Find(c.types, valid[..], t, d)
    {
      d := d + 1;
    }
  }

  /** The whole nested loop of st_hal_open_sensors.  `allocates(s, k)` is the fate of the k-th buffer of s. */
  method ResolveDependencies(ghost c: Catalogue, all: seq<Node>, valid: array<bool>, allocates: (nat, nat) -> bool)
    requires WellListed(c) && c.allocates == allocates && Placed(c, all) && valid.Length == |all|
    requires forall s :: 0 <= s < |all| ==> all[s].dependencies == []
    modifies all, valid
    ensures Placed(c, all)
    ensures LinksOf(all, valid[..]) == ResolveFrom(c, old(LinksOf(all, valid[..])), 0)
  {
    hide ResolveOne, Names, Members;
    ghost var l0 := LinksOf(all, valid[..]);
    for s := 0 to |all|
      invariant Placed(c, all)
      invariant forall x :: s <= x < |all| ==> all[x].dependencies == []
      invariant ResolveFrom(c, l0, 0) == ResolveFrom(c, LinksOf(all, valid[..]), s)
    {
      ResolveSensor(c, all, valid, allocates, s);
    }
  }

  method ResolveSensor(ghost c: Catalogue, all: seq<Node>, valid: array<bool>, allocates: (nat, nat) -> bool, s: nat)
    requires WellListed(c) && c.allocates == allocates && Placed(c, all) && valid.Length == |all| && s < |all|
    requires all[s].dependencies == []
    modifies all, valid
    ensures Placed(c, all)
    ensures forall x :: 0 <= x < |all| && x != s ==> all[x].dependencies == old(all[x].dependencies)
    ensures LinksOf(all, valid[..]) == ResolveOne(c, old(LinksOf(all, valid[..])), s)
  {
    hide AddAll, RemoveAll, Names, Members;
    var ok, k := AddDependencies(c, all, valid, allocates, s);
    if !ok {
      RemoveDependencies(c, all, valid, s, k);
      valid[s] := false;
      assert valid[..] == old(valid[..])[s := false];
    }
  }

  method AddDependencies(ghost c: Catalogue, all: seq<Node>, valid: array<bool>, allocates: (nat, nat) -> bool, s: nat) returns (ok: bool, k: nat)
    requires WellListed(c) && c.allocates == allocates && Placed(c, all) && valid.Length == |all| && s < |all|
    requires all[s].dependencies == []
    modifies all
    ensures Placed(c, all) && k <= |c.lists[s]| && ok == (k == |c.lists[s]|)
    ensures forall x :: 0 <= x < |all| && x != s ==> all[x].dependencies == old(all[x].dependencies)
    ensures (LinksOf(all, valid[..]), k) == AddAll(c, old(LinksOf(all, valid[..])), s, 0)
  {
    hide Add, Find, Names, Members;
    ghost var l0 := LinksOf(all, valid[..]);
    k := 0;
    while k < |all[s].typeList|
      invariant 0 <= k <= |c.lists[s]| && Placed(c, all)
      invariant forall x :: 0 <= x < |all| && x != s ==> all[x].dependencies == old(all[x].dependencies)
      invariant AddAll(c, l0, s, 0) == AddAll(c, LinksOf(all, valid[..]), s, k)
    {
      var d := FindSensor(c, all, valid, all[s].typeList[k]);
      if d == |all| {
        return false, k;
      }
      var added := all[s].AddSensorDependency(c, all, valid[..], all[d], allocates(s, |all[s].dependencies|));
      if !added {
        return false, k;
      }
      k := k + 1;
    }
    return true, k;
  }

  method RemoveDependencies(ghost c: Catalogue, all: seq<Node>, valid: array<bool>, s: nat, done: nat)
    requires WellListed(c) && Placed(c, all) && valid.Length == |all| && s < |all| && done <= |c.lists[s]|
    modifies all
    ensures Placed(c, all)
    ensures forall x :: 0 <= x < |all| && x != s ==> all[x].dependencies == old(all[x].dependencies)
    ensures LinksOf(all, valid[..]) == RemoveAll(c, old(LinksOf(all, valid[..])), s, done)
  {
    hide Remove, Find, Names, Members;
    var k := done;
    while k > 0
      invariant 0 <= k <= done && Placed(c, all)
      invariant forall x :: 0 <= x < |all| && x != s ==> all[x].dependencies == old(all[x].dependencies)
      invariant RemoveAll(c, LinksOf(all, valid[..]), s, k) == RemoveAll(c, old(LinksOf(all, valid[..])), s, done)
    {
      k := k - 1;
      RemoveDependency(c, all, valid, s, k);
    }
  }

  /** One round of that loop. */
  method RemoveDependency(ghost c: Catalogue, all: seq<Node>, valid: array<bool>, s: nat, k: nat)
    requires WellListed(c) && Placed(c, all) && valid.Length == |all| && s < |all| && k < |c.lists[s]|
    modifies all
    ensures Placed(c, all)
    ensures forall x :: 0 <= x < |all| && x != s ==> all[x].dependencies == old(all[x].dependencies)
    ensures RemoveAll(c, LinksOf(all, valid[..]), s, k) == RemoveAll(c, old(LinksOf(all, valid[..])), s, k + 1)
  {
    hide Remove, Find, Names, Members;
    var d := FindSensor(c, all, valid, all[s].typeList[k]);
    if d < |all| {
      all[s].RemoveSensorDependency(c, all, valid[..], all[d]);
    }
  }
}
