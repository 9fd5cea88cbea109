/** From the resolution loop to the dependency graph: the links it leaves are those of a graph on which
    Enable and SetDelay are defined. */
module LinkedGraph {
  import opened Linking
  import opened SensorGraph
  import RateControl

  /** The configurations of the sensors with the dependencies the loop has given them.  A sensor that lists
      dependencies ranks above those without, and above those created before it. */
  function GraphOf(c: Catalogue, l: Links, configs: seq<Config>): (g: Graph)
    requires Sized(c, l) && |configs| == |c.types|
    ensures |g| == |configs|
  {
    seq(|configs|, s requires 0 <= s < |configs| => configs[s].(deps := l.deps[s], rank := RankOf(c, s)))
  }

  function RankOf(c: Catalogue, s: nat): nat
    requires s < |c.lists|
  {
    if c.lists[s] == [] then 0 else s + 1
  }

  /** If dependencies come first, every dependency of a linked sensor ranks below it: the loop leaves an
      acyclic graph. */
  lemma LinkedGraphIsRanked(c: Catalogue, configs: seq<Config>)
    requires WellListed(c) && DependenciesFirst(c) && |configs| == |c.types| <= RateControl.MAX_DEVICES
    requires forall s: nat :: s < |configs| ==> Usable(configs, s)
    ensures var l := ResolveFrom(c, Unlinked(|c.types|), 0);
            WellFormed(GraphOf(c, l, configs)) && forall s :: 0 <= s < |configs| ==> GraphOf(c, l, configs)[s].deps == l.deps[s]
  {
    var l := ResolveFrom(c, Unlinked(|c.types|), 0);
    var g := GraphOf(c, l, configs);
    LinkingTheorem(c);
    forall s: nat, i: nat | s < |g| && i < |g[s].deps| ensures g[s].deps[i] < |g| && g[g[s].deps[i]].rank < g[s].rank {
      var d := g[s].deps[i];
      assert Listed(c, l, s) && d in l.deps[s];
      var k :| 0 <= k < |c.lists[s]| && c.types[d] == c.lists[s][k];
    }
    forall s: nat, i: nat, j: nat ensures !Repeats(g, s, i, j) {
      if s < |g| && i < j < |g[s].deps| { assert Distinct(l.deps[s]); }
    }
    forall s: nat | s < |g| ensures Usable(g, s) {
      assert Usable(configs, s);
    }
  }
}
