/** The block structure of a definition: the region each split bounds and the
    innermost branch of a node. */
module Blocks {
  import opened Definitions
  import opened Soundness
  import opened Graphs

  /** The nodes the forward (non-return) transitions of `trs` lead to. */
  function Ahead(trs: seq<Transition>): (next: seq<string>)
    ensures forall x :: x in next <==> exists tr :: tr in trs && !tr.back && tr.to == x
  {
    if trs == [] then []
    else if trs[0].back then
      assert forall tr :: tr in trs && !tr.back ==> tr in trs[1..];
      Ahead(trs[1..])
    else
      assert trs[0] in trs;
      [trs[0].to] + Ahead(trs[1..])
  }

  /** The forward edges between the nodes of a definition. */
  function Forward(d: Definition): Graph {
    map n | n in d.nodes :: n.id := Ahead(Routes(d, n.id))
  }

  lemma ForwardEdge(d: Definition, a: string, b: string)
    ensures Edge(Forward(d), a, b) <==>
      Has(d, a) && exists tr :: tr in d.transitions && !tr.back && tr.from == a && tr.to == b
  {
    if Has(d, a) {
      assert NodeOf(d, a) in d.nodes && a in Forward(d);
      if Edge(Forward(d), a, b) {
        var tr :| tr in Routes(d, a) && !tr.back && tr.to == b;
        assert tr in d.transitions && tr.from == a;
      }
      if tr :| tr in d.transitions && !tr.back && tr.from == a && tr.to == b {
        assert tr in Routes(d, a);
      }
    }
  }

  function Fence(s: Node): set<string> { {s.id, s.join} }

  /** Everything a route of split `s` to `start` can reach before the join. */
  ghost function BranchNodes(g: Graph, s: Node, start: string): (nodes: set<string>)
    ensures forall x :: x in nodes <==> Reach(g, Fence(s), start, x)
  {
    BranchFinite(g, s, start);
    set x | x in {start} + Heads(g) && Reach(g, Fence(s), start, x)
  }

  lemma BranchFinite(g: Graph, s: Node, start: string)
    ensures forall x :: Reach(g, Fence(s), start, x) ==> x in {start} + Heads(g)
  {
    forall x | Reach(g, Fence(s), start, x) ensures x in {start} + Heads(g) {
      var p :| Path(g, Fence(s), p) && p[0] == start && p[|p| - 1] == x;
      if |p| > 1 {
        assert Edge(g, p[|p| - 2], p[|p| - 2 + 1]);
        EdgeHead(g, p[|p| - 2], x);
      }
    }
  }

  datatype Branch = Branch(action: string, nodes: set<string>, reenters: bool)

  datatype Block = Block(split: Node, join: string, branches: seq<Branch>)

  predicate Interior(b: Block, id: string) {
    exists i :: 0 <= i < |b.branches| && id in b.branches[i].nodes
  }

  /** `br` is the branch route `tr` of split `s` opens. */
  ghost predicate IsBranch(g: Graph, s: Node, tr: Transition, br: Branch) {
    && br.action == tr.action && br.nodes == BranchNodes(g, s, tr.to)
    && (br.reenters <==> s.id != s.join && (tr.to == s.id || exists x :: x in br.nodes && Edge(g, x, s.id)))
  }

  /** `b` is the block of split `s`: one branch per outgoing transition. */
  ghost predicate IsBlock(d: Definition, s: Node, b: Block) {
    && b.split == s && b.join == s.join && |b.branches| == |Routes(d, s.id)|
    && forall i :: 0 <= i < |b.branches| ==> IsBranch(Forward(d), s, Routes(d, s.id)[i], b.branches[i])
  }

  /** A split whose `join` field names an existing join node. */
  predicate Joinable(d: Definition, n: Node) {
    n.id != "" && n.kind.IsSplit() && n.join != "" && IsJoinNode(d, n.join)
  }

  /** The splits that name their join, in order. */
  function Named(d: Definition, nodes: seq<Node>): (splits: seq<Node>)
    ensures forall n :: n in splits <==> n in nodes && Joinable(d, n)
  {
    if nodes == [] then []
    else Named(d, nodes[..|nodes| - 1]) + (if Joinable(d, nodes[|nodes| - 1]) then [nodes[|nodes| - 1]] else [])
  }

  lemma {:induction false} NamedDistinct(d: Definition, nodes: seq<Node>, i: nat, k: nat)
    requires forall i, j :: 0 <= i < j < |nodes| ==> nodes[i].id != nodes[j].id
    requires i < k < |Named(d, nodes)|
    ensures Named(d, nodes)[i].id != Named(d, nodes)[k].id
  {
    var n := |nodes| - 1;
    if k < |Named(d, nodes[..n])| {
      NamedDistinct(d, nodes[..n], i, k);
    } else {
      assert Named(d, nodes)[i] in Named(d, nodes[..n]);
      var j :| 0 <= j < n && nodes[..n][j] == Named(d, nodes)[i];
      assert nodes[j].id != nodes[n].id;
    }
  }

  /** `blocks` holds the block of every split that names its join. */
  ghost predicate AreBlocks(d: Definition, blocks: seq<Block>) {
    && |blocks| == |Named(d, d.nodes)|
    && (forall i :: 0 <= i < |blocks| ==> IsBlock(d, Named(d, d.nodes)[i], blocks[i]))
  }

  /** The splits that name `id`. */
  function Naming(splits: seq<Node>, id: string): seq<string> {
    if splits == [] then []
    else Naming(splits[..|splits| - 1],
                id) + (if splits[|splits| - 1].join == id then [splits[|splits| - 1].id] else [])
  }

  lemma {:induction false} NamingOne(splits: seq<Node>, id: string)
    ensures Naming(splits, id) != [] ==> exists i :: 0 <= i < |splits| && splits[i].join == id
    ensures forall i :: 0 <= i < |splits| && splits[i].join == id ==> Naming(splits, id) != []
  {
    if splits != [] {
      var n := |splits| - 1;
      NamingOne(splits[..n], id);
      if Naming(splits[..n], id) != [] {
        var i :| 0 <= i < |splits[..n]| && splits[..n][i].join == id;
        assert splits[i].join == id;
      }
      if splits[n].join == id { assert 0 <= n < |splits|; }
      forall i | 0 <= i < |splits| && splits[i].join == id ensures Naming(splits, id) != [] {
        if i < n { assert splits[..n][i].join == id; }
      }
    }
  }

  lemma {:induction false} NamingTwice(splits: seq<Node>, id: string, i: nat, k: nat)
    requires i < k < |splits| && splits[i].join == id && splits[k].join == id
    ensures |Naming(splits, id)| >= 2
  {
    var n := |splits| - 1;
    if k < n {
      NamingTwice(splits[..n], id, i, k);
    } else {
      assert splits[..n][i].join == id;
      NamingOne(splits[..n], id);
    }
  }

  // ---------------------------------------------------------- building a block

  /** Where a search of one branch stands. */
  ghost predicate Searching(g: Graph, s: Node, start: string, nodes: set<string>, queue: seq<string>, reenters: bool) {
    && (forall x :: x in nodes ==> Reach(g, Fence(s), start, x))
    && (forall q :: q in queue ==> q == start || exists x :: x in nodes && Edge(g, x, q))
    && (start in Fence(s) || start in nodes || start in queue)
    && (forall x, y :: x in nodes && Edge(g, x, y) ==> y in Fence(s) || y in nodes || y in queue)
    && (reenters ==> s.id != s.join && (start == s.id || exists x :: x in nodes && Edge(g, x, s.id)))
    && (s.id != s.join && start == s.id ==> reenters || start in queue)
    && (forall x :: x in nodes && Edge(g, x, s.id) && s.id != s.join ==> reenters || s.id in queue)
  }

  lemma SearchSkips(g: Graph, s: Node, start: string, nodes: set<string>, queue: seq<string>, reenters: bool)
    requires queue != [] && Searching(g, s, start, nodes, queue, reenters)
    requires queue[0] == s.join || queue[0] in nodes
    ensures Searching(g, s, start, nodes, queue[1..], reenters)
  {
    QueueRest(queue);
    forall x | x in nodes ensures x !in Fence(s) { ReachAvoids(g, Fence(s), start, x); }
  }

  lemma QueueRest(queue: seq<string>)
    requires queue != []
    ensures forall q :: q in queue <==> q == queue[0] || q in queue[1..]
  {
  }

  lemma SearchReenters(g: Graph, s: Node, start: string, nodes: set<string>, queue: seq<string>, reenters: bool)
    requires queue != [] && Searching(g, s, start, nodes, queue, reenters)
    requires queue[0] == s.id && s.id != s.join
    ensures Searching(g, s, start, nodes, queue[1..], true)
  {
    QueueRest(queue);
    assert queue[0] in queue;
  }

  lemma SearchTakes(g: Graph, s: Node, start: string, nodes: set<string>, queue: seq<string>, reenters: bool)
    requires queue != [] && Searching(g, s, start, nodes, queue, reenters)
    requires queue[0] !in Fence(s) && queue[0] !in nodes
    ensures Searching(g, s, start, nodes + {queue[0]}, queue[1..] + Succ(g, queue[0]), reenters)
  {
    QueueRest(queue);
    var id := queue[0];
    assert id in queue;
    if id == start {
      ReachHere(g, Fence(s), id);
    } else {
      var x :| x in nodes && Edge(g, x, id);
      ReachOn(g, Fence(s), start, x, id);
    }
    var rest := queue[1..] + Succ(g, id);
    forall q | q in rest ensures q == start || exists x :: x in nodes + {id} && Edge(g, x, q) {
      if q in Succ(g, id) {
        assert Edge(g, id, q);
      } else if q != start {
        var x :| x in nodes && Edge(g, x, q);
        assert x in nodes + {id};
      }
    }
  }

  /** Searches one branch breadth first: what it finds is exactly what the route
      reaches before the join. */
  method BuildBranch(g: Graph, s: Node, tr: Transition) returns (br: Branch)
    ensures IsBranch(g, s, tr, br)
  {
    var nodes: set<string>, queue, reenters := {}, [tr.to], false;
    ghost var all := {tr.to} + Heads(g);
    while queue != []
      invariant Searching(g, s, tr.to, nodes, queue, reenters)
      invariant nodes <= all && forall q :: q in queue ==> q in all
      decreases all - nodes, |queue|
    {
      var id := queue[0];
      QueueRest(queue);
      if id == s.join || id in nodes {
        SearchSkips(g, s, tr.to, nodes, queue, reenters);
        queue := queue[1..];
      } else if id == s.id {
        SearchReenters(g, s, tr.to, nodes, queue, reenters);
        queue, reenters := queue[1..], true;
      } else {
        SearchTakes(g, s, tr.to, nodes, queue, reenters);
        forall y | y in Succ(g, id) ensures y in all { EdgeHead(g, id, y); }
        assert all - (nodes + {id}) < all - nodes by { assert id in all - nodes; }
        nodes, queue := nodes + {id}, queue[1..] + Succ(g, id);
      }
    }
    SearchEnds(g, s, tr.to, nodes, reenters);
    br := Branch(tr.action, nodes, reenters);
  }

  lemma SearchClosed(g: Graph, s: Node, start: string, nodes: set<string>, reenters: bool)
    requires Searching(g, s, start, nodes, [], reenters)
    ensures Closed(g, Fence(s), nodes) && (start in nodes || start in Fence(s))
    ensures forall x :: x in nodes ==> Reach(g, Fence(s), start, x)
  {
    hide Reach;
  }

  lemma SearchEnds(g: Graph, s: Node, start: string, nodes: set<string>, reenters: bool)
    requires Searching(g, s, start, nodes, [], reenters)
    ensures nodes == BranchNodes(g, s, start)
  {
    hide Searching;
    SearchClosed(g, s, start, nodes, reenters);
    hide Closed;
    forall x ensures x in nodes <==> x in BranchNodes(g, s, start) {
      if Reach(g, Fence(s), start, x) {
        ReachAvoids(g, Fence(s), start, x);
        ClosedReach(g, Fence(s), nodes, start, x);
      }
    }
  }

  method BuildBlock(d: Definition, g: Graph, s: Node) returns (b: Block)
    requires g == Forward(d)
    ensures IsBlock(d, s, b)
  {
    var routes := Routes(d, s.id);
    var branches := [];
    while |branches| < |routes|
      invariant |branches| <= |routes|
      invariant forall i :: 0 <= i < |branches| ==> IsBranch(g, s, routes[i], branches[i])
    {
      var br := BuildBranch(g, s, routes[|branches|]);
      branches := branches + [br];
    }
    b := Block(s, s.join, branches);
  }

  // ------------------------------------------------------ the innermost branch

  predicate Holds(blocks: seq<Block>, k: int, i: int, id: string) {
    0 <= k < |blocks| && 0 <= i < |blocks[k].branches| && id in blocks[k].branches[i].nodes
  }

  /** `key` is the smallest branch of `blocks` holding `id`, the earliest if
      several are equally small; `ROOT_KEY` if none holds it. */
  ghost predicate IsInnermost(blocks: seq<Block>, id: string, key: BranchKey) {
    || (key == ROOT_KEY && forall k, i :: !Holds(blocks, k, i, id))
    || exists k, i :: SmallestAt(blocks, id, k, i) && key == BranchKey(blocks[k].split.id, i + 1)
  }

  ghost predicate SmallestAt(blocks: seq<Block>, id: string, k: int, i: int) {
    && Holds(blocks, k, i, id)
    && forall l, j :: Holds(blocks, l, j, id) ==>
         |blocks[k].branches[i].nodes| < |blocks[l].branches[j].nodes|
         || (|blocks[k].branches[i].nodes| == |blocks[l].branches[j].nodes| && (k < l || (k == l && i <= j)))
  }

  lemma InnermostOnce(blocks: seq<Block>, id: string, a: BranchKey, b: BranchKey)
    requires IsInnermost(blocks, id, a) && IsInnermost(blocks, id, b)
    ensures a == b
  {
    if exists k, i :: Holds(blocks, k, i, id) {
      var k, i :| SmallestAt(blocks, id, k, i) && a == BranchKey(blocks[k].split.id, i + 1);
      var l, j :| SmallestAt(blocks, id, l, j) && b == BranchKey(blocks[l].split.id, j + 1);
    }
  }

  /** Branch `i` of `blocks[k]` comes before branch `j` of `blocks[l]`. */
  predicate Before(l: int, j: int, k: int, i: int) { l < k || (l == k && j < i) }

  /** The smallest branch among those before branch `i` of `blocks[k]`. */
  ghost predicate BestSoFar(blocks: seq<Block>, id: string, k: int, i: int, best: BranchKey, size: int) {
    if size < 0 then
      best == ROOT_KEY && forall l, j :: Before(l, j, k, i) ==> !Holds(blocks, l, j, id)
    else
      exists bk, bi :: Before(bk, bi, k, i) && Holds(blocks, bk, bi, id)
        && best == BranchKey(blocks[bk].split.id, bi + 1) && size == |blocks[bk].branches[bi].nodes|
        && forall l, j :: Before(l, j, k, i) && Holds(blocks, l, j, id) ==>
             size < |blocks[l].branches[j].nodes| ||
               (size == |blocks[l].branches[j].nodes| && (bk < l || (bk == l && bi <= j)))
  }

  method InnermostBranch(blocks: seq<Block>, id: string) returns (best: BranchKey)
    ensures IsInnermost(blocks, id, best)
  {
    best := ROOT_KEY;
    var size := -1;
    var k := 0;
    while k < |blocks|
      invariant 0 <= k <= |blocks| && BestSoFar(blocks, id, k, 0, best, size)
    {
      var i := 0;
      while i < |blocks[k].branches|
        invariant 0 <= i <= |blocks[k].branches| && BestSoFar(blocks, id, k, i, best, size)
      {
        var br := blocks[k].branches[i];
        BestNext(blocks, id, k, i, best, size);
        if id in br.nodes && (size < 0 || |br.nodes| < size) {
          best, size := BranchKey(blocks[k].split.id, i + 1), |br.nodes|;
        }
        i := i + 1;
      }
      BestLine(blocks, id, k, i, best, size);
      k := k + 1;
    }
    BestEnds(blocks, id, best, size);
  }

  lemma BestNext(blocks: seq<Block>, id: string, k: int, i: int, best: BranchKey, size: int)
    requires 0 <= k < |blocks| && 0 <= i < |blocks[k].branches| && BestSoFar(blocks, id, k, i, best, size)
    ensures var br := blocks[k].branches[i];
      if id in br.nodes && (size < 0 || |br.nodes| < size)
      then BestSoFar(blocks, id, k, i + 1, BranchKey(blocks[k].split.id, i + 1), |br.nodes|)
      else BestSoFar(blocks, id, k, i + 1, best, size)
  {
    var br := blocks[k].branches[i];
    assert forall l, j :: Before(l, j, k, i + 1) <==> Before(l, j, k, i) || (l == k && j == i);
    assert Before(k, i, k, i + 1);
    if id in br.nodes { assert Holds(blocks, k, i, id); }
  }

  lemma BestLine(blocks: seq<Block>, id: string, k: int, i: int, best: BranchKey, size: int)
    requires 0 <= k < |blocks| && i == |blocks[k].branches| && BestSoFar(blocks, id, k, i, best, size)
    ensures BestSoFar(blocks, id, k + 1, 0, best, size)
  {
    forall l, j | Holds(blocks, l, j, id) ensures Before(l, j, k + 1, 0) <==> Before(l, j, k, i) {}
  }

  lemma BestEnds(blocks: seq<Block>, id: string, best: BranchKey, size: int)
    requires BestSoFar(blocks, id, |blocks|, 0, best, size)
    ensures IsInnermost(blocks, id, best)
  {
    forall l, j | Holds(blocks, l, j, id) ensures Before(l, j, |blocks|, 0) {}
    if size >= 0 {
      var bk, bi :| Before(bk, bi, |blocks|, 0) && Holds(blocks, bk, bi, id)
        && best == BranchKey(blocks[bk].split.id, bi + 1) && size == |blocks[bk].branches[bi].nodes|
        && forall l, j :: Before(l, j, |blocks|, 0) && Holds(blocks, l, j, id) ==>
             size < |blocks[l].branches[j].nodes| ||
               (size == |blocks[l].branches[j].nodes| && (bk < l || (bk == l && bi <= j)));
      assert SmallestAt(blocks, id, bk, bi);
    }
  }

  lemma InnermostExists(blocks: seq<Block>, id: string) returns (best: BranchKey)
    ensures IsInnermost(blocks, id, best)
  {
    best := ROOT_KEY;
    var size := -1;
    for k := 0 to |blocks|
      invariant BestSoFar(blocks, id, k, 0, best, size)
    {
      for i := 0 to |blocks[k].branches|
        invariant BestSoFar(blocks, id, k, i, best, size)
      {
        BestNext(blocks, id, k, i, best, size);
        var br := blocks[k].branches[i];
        if id in br.nodes && (size < 0 || |br.nodes| < size) {
          best, size := BranchKey(blocks[k].split.id, i + 1), |br.nodes|;
        }
      }
      BestLine(blocks, id, k, |blocks[k].branches|, best, size);
    }
    BestEnds(blocks, id, best, size);
  }

  ghost function InnermostOf(blocks: seq<Block>, id: string): (key: BranchKey)
    ensures IsInnermost(blocks, id, key)
  {
    assert exists key :: IsInnermost(blocks, id, key) by { var key := InnermostExists(blocks, id); }
    var key :| IsInnermost(blocks, id, key);
    key
  }

  /** The chart of a definition: each node in its innermost branch. */
  ghost function ChartOf(d: Definition, blocks: seq<Block>): Chart {
    Chart(d, map n | n in d.nodes :: n.id := InnermostOf(blocks, n.id), "")
  }

  /** Nodes in the same branches have the same innermost branch. */
  lemma SameBranches(blocks: seq<Block>, a: string, b: string)
    requires forall k, i :: Holds(blocks, k, i, a) <==> Holds(blocks, k, i, b)
    ensures InnermostOf(blocks, a) == InnermostOf(blocks, b)
  {
    var key := InnermostOf(blocks, a);
    if exists k, i :: SmallestAt(blocks, a, k, i) && key == BranchKey(blocks[k].split.id, i + 1) {
      var k, i :| SmallestAt(blocks, a, k, i) && key == BranchKey(blocks[k].split.id, i + 1);
      assert SmallestAt(blocks, b, k, i);
    }
    InnermostOnce(blocks, b, key, InnermostOf(blocks, b));
  }

  /** A branch strictly smaller than every other branch around a node is its
      innermost one. */
  lemma StrictlySmallest(blocks: seq<Block>, id: string, k: int, i: int)
    requires Holds(blocks, k, i, id)
    requires forall l, j :: Holds(blocks, l, j, id) && (l != k || j != i) ==>
      |blocks[k].branches[i].nodes| < |blocks[l].branches[j].nodes|
    ensures InnermostOf(blocks, id) == BranchKey(blocks[k].split.id, i + 1)
  {
    assert SmallestAt(blocks, id, k, i);
    InnermostOnce(blocks, id, InnermostOf(blocks, id), BranchKey(blocks[k].split.id, i + 1));
  }
}
