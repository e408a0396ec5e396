/** Depth-first search for a cycle among the automatic nodes. */
module Cycles {
  import opened Definitions
  import opened Graphs

  /** Consecutive nodes are edges, and the walk ends where it began. */
  predicate IsCycle(g: Graph, p: seq<string>) {
    && |p| >= 2 && p[0] == p[|p| - 1]
    && forall i :: 0 <= i < |p| - 1 ==> Edge(g, p[i], p[i + 1])
  }

  ghost predicate Acyclic(g: Graph) { forall p :: !IsCycle(g, p) }

  /** Every edge out of a ranked node leads to a node of smaller rank. */
  ghost predicate Ranks(g: Graph, rank: map<string, nat>) {
    forall x, y :: x in rank && Edge(g, x, y) ==> y in rank && rank[y] < rank[x]
  }

  lemma {:induction false} RankFalls(g: Graph, rank: map<string, nat>, p: seq<string>, n: nat)
    requires Ranks(g, rank) && 0 < n < |p| && p[0] in rank
    requires forall i :: 0 <= i < |p| - 1 ==> Edge(g, p[i], p[i + 1])
    ensures p[n] in rank && rank[p[n]] < rank[p[0]]
  {
    assert Edge(g, p[n - 1], p[n - 1 + 1]);
    if n > 1 { RankFalls(g, rank, p, n - 1); }
  }

  /** A graph whose nodes can be ranked has no cycle. */
  lemma RankedIsAcyclic(g: Graph, rank: map<string, nat>)
    requires Ranks(g, rank) && forall x :: x in g ==> x in rank
    ensures Acyclic(g)
  {
    forall p ensures !IsCycle(g, p) {
      if IsCycle(g, p) {
        assert Edge(g, p[0], p[0 + 1]);
        RankFalls(g, rank, p, |p| - 1);
      }
    }
  }

  datatype Colour = White | Gray | Black

  class CycleFinder {
    const adj: Graph
    var colour: map<string, Colour>
    var path: seq<string>
    var cycle: seq<string>
    /** When each finished node was finished. */
    ghost var rank: map<string, nat>
    ghost var clock: nat

    function ColourOf(x: string): Colour reads this { if x in colour then colour[x] else White }

    ghost predicate OnPath()
      reads this
    {
      && (forall x :: ColourOf(x).Gray? <==> x in path)
      && (forall i :: 0 <= i < |path| - 1 ==> Edge(adj, path[i], path[i + 1]))
      && (forall i, j :: 0 <= i < j < |path| ==> path[i] != path[j])
    }

    ghost predicate Finished()
      reads this
    {
      && (forall x :: ColourOf(x).Black? <==> x in rank)
      && Ranks(adj, rank)
      && (forall x :: x in rank ==> rank[x] < clock)
    }

    ghost predicate Ok() reads this { OnPath() && Finished() }

    ghost function Whites(all: set<string>): set<string> reads this { set x | x in all && ColourOf(x).White? }

    constructor (g: Graph)
      ensures adj == g && path == [] && Ok() && forall x :: ColourOf(x).White?
    {
      adj, colour, path, cycle, rank, clock := g, map[], [], [], map[], 0;
    }

    /** The search came back to `next`, which is still on the path. */
    method CloseCycle(next: string)
      requires OnPath() && path != [] && next in path && Edge(adj, path[|path| - 1], next)
      modifies this`cycle
      ensures IsCycle(adj, cycle)
    {
      var start := 0;
      while path[start] != next
        invariant 0 <= start < |path| && next in path[start..]
        decreases |path| - start
      {
        start := start + 1;
      }
      cycle := path[start..] + [next];
      forall i | 0 <= i < |cycle| - 1 ensures Edge(adj, cycle[i], cycle[i + 1]) {
        if i < |cycle| - 2 { assert Edge(adj, path[start + i], path[start + i + 1]); }
      }
    }

    /** Puts `n` on the path. */
    method Enter(n: string)
      requires Ok() && ColourOf(n).White? && (path != [] ==> Edge(adj, path[|path| - 1], n))
      modifies this`colour, this`path
      ensures Ok() && path == old(path) + [n]
      ensures forall x :: ColourOf(x) == if x == n then Gray else old(ColourOf(x))
    {
      colour := colour[n := Gray];
      path := path + [n];
    }

    /** Takes `n`, all of whose successors are finished, off the path. */
    method Leave(n: string)
      requires Ok() && path != [] && path[|path| - 1] == n && forall y :: Edge(adj, n, y) ==> ColourOf(y).Black?
      modifies this`colour, this`path, this`rank, this`clock
      ensures Ok() && path == old(path)[..|old(path)| - 1]
      ensures forall x :: ColourOf(x) == if x == n then Black else old(ColourOf(x))
    {
      ghost var rest := path[..|path| - 1];
      assert path == rest + [n];
      assert n !in rest;
      assert forall x :: x in path <==> x in rest || x == n;
      path := path[..|path| - 1];
      colour := colour[n := Black];
      rank := rank[n := clock];
      clock := clock + 1;
      forall x ensures ColourOf(x).Gray? <==> x in path { assert x in old(path) <==> x in rest || x == n; }
    }

    /** Visits `n` and everything beyond it; `found` tells a cycle was met. */
    method Visit(n: string, ghost all: set<string>) returns (found: bool)
      requires Ok() && ColourOf(n).White? && n in all && (path != [] ==> Edge(adj, path[|path| - 1], n))
      requires forall x, y :: x in all && Edge(adj, x, y) ==> y in all
      modifies this
      decreases |Whites(all)|
      ensures found ==> IsCycle(adj, cycle)
      ensures !found ==> Ok() && path == old(path) && ColourOf(n).Black?
      ensures !found ==> forall x :: old(ColourOf(x)).Black? ==> ColourOf(x).Black?
      ensures !found ==> Whites(all) <= old(Whites(all))
    {
      hide Ranks;
      hide IsCycle;
      ghost var whites := Whites(all);
      Enter(n);
      assert Whites(all) == whites - {n};
      ghost var mine := path;
      var next := Succ(adj, n);
      var i := 0;
      while i < |next|
        invariant 0 <= i <= |next| && Ok() && path == mine
        invariant forall j :: 0 <= j < i ==> ColourOf(next[j]).Black?
        invariant forall x :: old(ColourOf(x)).Black? ==> ColourOf(x).Black?
        invariant Whites(all) <= whites - {n}
      {
        var y := next[i];
        assert Edge(adj, n, y);
        if ColourOf(y).White? {
          Less(Whites(all), whites, n);
          found := Visit(y, all);
          if found { return; }
        } else if ColourOf(y).Gray? {
          CloseCycle(y);
          return true;
        }
        i := i + 1;
      }
      Leave(n);
      return false;
    }
  }

  lemma Less(a: set<string>, b: set<string>, x: string)
    requires a <= b - {x} && x in b
    ensures |a| < |b|
  {
    var rest := b - a;
    assert b == a + rest && x in rest;
    assert |b| == |a| + |rest|;
  }

  /** Finds a cycle exactly when there is one. */
  method DetectCycle(nodes: seq<string>, adj: Graph) returns (cycle: Option<seq<string>>)
    requires forall x :: x in adj ==> x in nodes
    ensures cycle.Some? ==> IsCycle(adj, cycle.value)
    ensures cycle.None? <==> Acyclic(adj)
  {
    var f := new CycleFinder(adj);
    ghost var all := (set x | x in nodes) + Heads(adj);
    forall x, y | x in all && Edge(adj, x, y) ensures y in all { EdgeHead(adj, x, y); }
    var i := 0;
    while i < |nodes|
      invariant 0 <= i <= |nodes| && f.Ok() && f.path == [] && f.adj == adj
      invariant forall j :: 0 <= j < i ==> f.ColourOf(nodes[j]).Black?
    {
      if f.ColourOf(nodes[i]).White? {
        var found := f.Visit(nodes[i], all);
        if found {
          assert IsCycle(adj, f.cycle);
          return Some(f.cycle);
        }
      }
      assert !f.ColourOf(nodes[i]).Gray?;
      i := i + 1;
    }
    RankedIsAcyclic(adj, f.rank);
    return None;
  }
}
