/** Paths and breadth-first search over adjacency lists of node ids. */
module Graphs {

  type Graph = map<string, seq<string>>

  function Succ(g: Graph, x: string): seq<string> { if x in g then g[x] else [] }

  predicate Edge(g: Graph, a: string, b: string) { b in Succ(g, a) }

  /** Consecutive nodes of `p` are edges, and none of its nodes is in `avoid`. */
  predicate Path(g: Graph, avoid: set<string>, p: seq<string>) {
    && p != []
    && (forall i :: 0 <= i < |p| ==> p[i] !in avoid)
    && (forall i :: 0 <= i < |p| - 1 ==> Edge(g, p[i], p[i + 1]))
  }

  ghost predicate Reach(g: Graph, avoid: set<string>, a: string, b: string) {
    exists p :: Path(g, avoid, p) && p[0] == a && p[|p| - 1] == b
  }

  lemma ReachHere(g: Graph, avoid: set<string>, a: string)
    requires a !in avoid
    ensures Reach(g, avoid, a, a)
  {
    assert Path(g, avoid, [a]);
  }

  lemma ReachOn(g: Graph, avoid: set<string>, a: string, b: string, c: string)
    requires Reach(g, avoid, a, b) && Edge(g, b, c) && c !in avoid
    ensures Reach(g, avoid, a, c)
  {
    var p :| Path(g, avoid, p) && p[0] == a && p[|p| - 1] == b;
    var q := p + [c];
    assert Path(g, avoid, q);
  }

  /** Whatever one step outside `avoid` reaches from `s` is already in `s`. */
  predicate Closed(g: Graph, avoid: set<string>, s: set<string>) {
    forall x, y :: x in s && y in Succ(g, x) ==> y in avoid || y in s
  }

  /** A closed set holding the start holds everything reachable. */
  lemma {:induction false} ClosedHolds(g: Graph, avoid: set<string>, s: set<string>, p: seq<string>)
    requires Path(g, avoid, p) && Closed(g, avoid, s) && p[0] in s
    ensures p[|p| - 1] in s
  {
    if |p| > 1 {
      assert Edge(g, p[0], p[1]);
      ClosedHolds(g, avoid, s, p[1..]);
    }
  }

  lemma ClosedReach(g: Graph, avoid: set<string>, s: set<string>, a: string, b: string)
    requires Reach(g, avoid, a, b) && Closed(g, avoid, s) && a in s
    ensures b in s
  {
    var p :| Path(g, avoid, p) && p[0] == a && p[|p| - 1] == b;
    ClosedHolds(g, avoid, s, p);
  }

  lemma ReachAvoids(g: Graph, avoid: set<string>, a: string, b: string)
    requires Reach(g, avoid, a, b)
    ensures a !in avoid && b !in avoid
  {
  }

  /** Every node an edge leads to. */
  function Heads(g: Graph): set<string> { set x, y | x in g && y in g[x] :: y }

  lemma EdgeHead(g: Graph, a: string, b: string)
    requires Edge(g, a, b)
    ensures b in Heads(g)
  {
  }

  /** What a search from `start` has seen, with `queue` still to expand. */
  ghost predicate Flooding(g: Graph, avoid: set<string>, start: string, seen: set<string>, queue: seq<string>) {
    && start in seen
    && (forall x :: x in seen ==> Reach(g, avoid, start, x))
    && (forall q :: q in queue ==> q in seen)
    && (forall x, y :: x in seen && x !in queue && y in Succ(g, x) ==> y in avoid || y in seen)
  }

  /** One round of the search: `id` is expanded. */
  method Expand(g: Graph, avoid: set<string>, start: string, seen: set<string>, queue: seq<string>)
      returns (seen2: set<string>, queue2: seq<string>)
    requires queue != [] && Flooding(g, avoid, start, seen, queue)
    ensures Flooding(g, avoid, start, seen2, queue2)
    ensures seen <= seen2 <= seen + Heads(g)
    ensures seen2 == seen ==> |queue2| < |queue|
    ensures forall x :: x in seen2 && x !in queue2 ==> x == queue[0] || (x in seen && x !in queue)
  {
    var id := queue[0];
    var next := Succ(g, id);
    seen2, queue2 := seen, queue[1..];
    var i := 0;
    while i < |next|
      invariant 0 <= i <= |next| && seen <= seen2 <= seen + Heads(g)
      invariant forall x :: x in seen2 ==> Reach(g, avoid, start, x)
      invariant forall q :: q in queue2 ==> q in seen2
      invariant forall q :: q in queue[1..] ==> q in queue2
      invariant forall x :: x in seen2 && x !in seen ==> x in queue2
      invariant forall k :: 0 <= k < i ==> next[k] in avoid || next[k] in seen2
      invariant seen2 == seen ==> queue2 == queue[1..]
    {
      var y := next[i];
      if y !in avoid && y !in seen2 {
        EdgeHead(g, id, y);
        ReachOn(g, avoid, start, id, y);
        seen2, queue2 := seen2 + {y}, queue2 + [y];
      }
      i := i + 1;
    }
    forall x, y | x in seen2 && x !in queue2 && y in Succ(g, x) ensures y in avoid || y in seen2 {
      if x != id { assert x !in queue; }
    }
  }

  /** Exactly the nodes reachable from `start` outside `avoid`. */
  method Flood(g: Graph, avoid: set<string>, start: string) returns (seen: set<string>)
    requires start !in avoid
    ensures forall x :: x in seen <==> Reach(g, avoid, start, x)
  {
    seen := {start};
    var queue := [start];
    ReachHere(g, avoid, start);
    ghost var all := {start} + Heads(g);
    while queue != []
      invariant Flooding(g, avoid, start, seen, queue) && seen <= all
      decreases all - seen, |queue|
    {
      ghost var before := seen;
      seen, queue := Expand(g, avoid, start, seen, queue);
      if before != seen { assert all - seen < all - before; }
    }
    forall x ensures x in seen <==> Reach(g, avoid, start, x) {
      if Reach(g, avoid, start, x) { ClosedReach(g, avoid, seen, start, x); }
    }
  }
}
