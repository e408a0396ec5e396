/** How many gateways one call can pass: in an accepted definition each split is
    entered and each join fires at most once. */
module Budget {
  import opened Definitions
  import opened Soundness
  import opened Tokens
  import opened Replay
  import opened Invariant
  import opened History
  import opened Graphs
  import opened Cycles
  import opened Blocks
  import opened Placement
  import opened Validity

  // -------------------------------------------------------- what lies ahead

  predicate IsGateway(n: Node) { n.kind.IsSplit() || n.kind.Join? }

  function GatewayIds(d: Definition): set<string> { set n | n in d.nodes && IsGateway(n) :: n.id }

  /** The gateways a token may still pass from `y` on without resting, short of
      the nodes in `stops`. */
  ghost function GatewaysAhead(d: Definition, stops: set<string>, y: string): set<string> {
    set x | x in GatewayIds(d) && Reach(Gateways(d), stops, y, x)
  }

  lemma ReachFrom(g: Graph, avoid: set<string>, a: string, b: string, c: string)
    requires Edge(g, a, b) && a !in avoid && Reach(g, avoid, b, c)
    ensures Reach(g, avoid, a, c)
  {
    var p :| Path(g, avoid, p) && p[0] == b && p[|p| - 1] == c;
    var q := [a] + p;
    forall i | 0 <= i < |q| - 1 ensures Edge(g, q[i], q[i + 1]) { if i > 0 { assert Edge(g, p[i - 1], p[i - 1 + 1]); } }
    assert Path(g, avoid, q);
  }

  lemma ReachMore(g: Graph, avoid: set<string>, fewer: set<string>, a: string, b: string)
    requires Reach(g, avoid, a, b) && fewer <= avoid
    ensures Reach(g, fewer, a, b)
  {
    var p :| Path(g, avoid, p) && p[0] == a && p[|p| - 1] == b;
    assert Path(g, fewer, p);
  }

  /** A node no gateway edge leaves reaches only itself. */
  lemma ReachDeadEnd(g: Graph, avoid: set<string>, a: string, b: string)
    requires Reach(g, avoid, a, b) && Succ(g, a) == []
    ensures a == b
  {
    assert Closed(g, avoid, {a});
    ClosedReach(g, avoid, {a}, a, b);
  }

  lemma GatewayEdge(d: Definition, tr: Transition)
    requires !Has(d, "") && tr in d.transitions && Has(d, tr.from) && Has(d, tr.to)
    requires NodeOf(d, tr.from).kind.IsAutomatic() && NodeOf(d, tr.to).kind.IsAutomatic()
    ensures Edge(Gateways(d), tr.from, tr.to)
  {
    assert NodeOf(d, tr.from) in d.nodes && tr in Routes(d, tr.from);
  }

  lemma GatewayEdgeBack(d: Definition, a: string, b: string)
    requires Edge(Gateways(d), a, b)
    ensures Has(d, a) && Has(d, b) && NodeOf(d, a).kind.IsAutomatic() && NodeOf(d, b).kind.IsAutomatic()
    ensures exists tr :: tr in d.transitions && tr.from == a && tr.to == b
  {
    var n :| n in d.nodes && n.id == a;
    var tr :| tr in Routes(d, a) && tr.to == b;
  }

  lemma AheadOfRest(d: Definition, stops: set<string>, y: string)
    requires Unique(d) && !NodeOf(d, y).kind.IsAutomatic()
    ensures GatewaysAhead(d, stops, y) == {}
  {
    if x :| x in GatewaysAhead(d, stops, y) {
      AheadIsGateway(d, stops, y, x);
      assert Succ(Gateways(d), y) == [];
      ReachDeadEnd(Gateways(d), stops, y, x);
    }
  }

  lemma AheadIsGateway(d: Definition, stops: set<string>, y: string, x: string)
    requires Unique(d) && x in GatewaysAhead(d, stops, y)
    ensures IsGateway(NodeOf(d, x))
  {
    var n :| n in d.nodes && IsGateway(n) && n.id == x;
    NodeIs(d, n);
  }

  /** Going on from `y` leads to nothing that was not ahead of it. */
  lemma AheadShrinks(d: Definition, stops: set<string>, tr: Transition)
    requires Unique(d) && tr in d.transitions && Has(d, tr.from) && Has(d, tr.to)
    requires NodeOf(d, tr.from).kind.IsAutomatic() && tr.from !in stops
    ensures GatewaysAhead(d, stops, tr.to) <= GatewaysAhead(d, stops, tr.from)
  {
    if NodeOf(d, tr.to).kind.IsAutomatic() {
      GatewayEdge(d, tr);
      forall x | x in GatewaysAhead(d, stops, tr.to) ensures x in GatewaysAhead(d, stops, tr.from) {
        ReachFrom(Gateways(d), stops, tr.from, tr.to, x);
      }
    } else {
      AheadOfRest(d, stops, tr.to);
    }
  }

  /** A node is not ahead of what follows it. */
  lemma NotAheadAgain(d: Definition, stops: set<string>, tr: Transition)
    requires Unique(d) && Acyclic(Gateways(d)) && tr in d.transitions && Has(d, tr.from) && Has(d, tr.to)
    requires NodeOf(d, tr.from).kind.IsAutomatic()
    ensures tr.from !in GatewaysAhead(d, stops, tr.to)
  {
    if tr.from in GatewaysAhead(d, stops, tr.to) {
      if NodeOf(d, tr.to).kind.IsAutomatic() {
        GatewayEdge(d, tr);
        var p :| Path(Gateways(d), stops, p) && p[0] == tr.to && p[|p| - 1] == tr.from;
        CycleOf(Gateways(d), stops, tr.from, p);
      } else {
        AheadOfRest(d, stops, tr.to);
      }
    }
  }

  lemma CycleOf(g: Graph, stops: set<string>, a: string, p: seq<string>)
    requires Path(g, stops, p) && Edge(g, a, p[0]) && p[|p| - 1] == a
    ensures !Acyclic(g)
  {
    var q := [a] + p;
    forall i | 0 <= i < |q| - 1 ensures Edge(g, q[i], q[i + 1]) { if i > 0 { assert Edge(g, p[i - 1], p[i - 1 + 1]); } }
    assert IsCycle(g, q);
  }

  lemma AheadHere(d: Definition, stops: set<string>, n: Node)
    requires n in d.nodes && IsGateway(n) && n.id !in stops
    ensures n.id in GatewaysAhead(d, stops, n.id)
  {
    ReachHere(Gateways(d), stops, n.id);
  }

  lemma AheadFewer(d: Definition, stops: set<string>, more: set<string>, y: string)
    requires stops <= more
    ensures GatewaysAhead(d, more, y) <= GatewaysAhead(d, stops, y)
  {
    forall x | x in GatewaysAhead(d, more, y) ensures x in GatewaysAhead(d, stops, y) {
      ReachMore(Gateways(d), more, stops, y, x);
    }
  }

  // ------------------------------------------------------ branches stay apart

  /** What one branch of a split may pass before the join, no other branch may
      pass even beyond it. */
  ghost predicate BranchesApart(d: Definition) {
    forall n, a, b :: n in d.nodes && n.kind.IsSplit() && a in Routes(d, n.id) && b in Routes(d, n.id) && a != b ==>
      GatewaysAhead(d, {n.join}, a.to) !! GatewaysAhead(d, {}, b.to)
  }

  /** No return leaves an automatic node. */
  predicate RoutesForward(d: Definition) {
    forall tr :: tr in d.transitions && NodeOf(d, tr.from).kind.IsAutomatic() ==> !tr.back
  }

  lemma GatewayWay(d: Definition, a: string, b: string) returns (tr: Transition)
    requires Edge(Gateways(d), a, b) && RoutesForward(d)
    ensures tr in d.transitions && tr.from == a && tr.to == b && !tr.back && Has(d, a)
  {
    hide Gateways;
    GatewayEdgeBack(d, a, b);
    tr :| tr in d.transitions && tr.from == a && tr.to == b;
  }

  /** A path of gateways that starts in a branch and avoids the join stays in the
      branch. */
  lemma {:induction false} StaysInside(d: Definition, blocks: seq<Block>, k: int, i: int, p: seq<string>, j: nat)
    requires Laid(d, blocks) && 0 <= k < |blocks| && Path(Gateways(d), {blocks[k].join}, p) && Holds(blocks, k, i, p[0])
    requires j < |p|
    requires RoutesForward(d)
    ensures Holds(blocks, k, i, p[j])
  {
    hide Laid;
    hide Gateways;
    hide RoutesForward;
    if j > 0 {
      StaysInside(d, blocks, k, i, p, j - 1);
      assert Edge(Gateways(d), p[j - 1], p[j - 1 + 1]);
      hide Edge;
      var tr := GatewayWay(d, p[j - 1], p[j]);
      StaysInBranch(d, blocks, k, i, tr);
    }
  }

  lemma PathFront(g: Graph, p: seq<string>)
    requires Path(g, {}, p) && |p| > 1
    ensures Path(g, {}, p[..|p| - 1])
  {
    var q := p[..|p| - 1];
    forall i | 0 <= i < |q| - 1 ensures Edge(g, q[i], q[i + 1]) { assert Edge(g, p[i], p[i + 1]); }
  }

  /** A path that gets into a branch from outside passes the split. */
  lemma {:induction false} PassesSplit(d: Definition, blocks: seq<Block>, k: int, i: int, p: seq<string>)
    requires Laid(d, blocks) && 0 <= k < |blocks| && Path(Gateways(d), {}, p)
    requires Holds(blocks, k, i, p[|p| - 1]) && !Holds(blocks, k, i, p[0])
    requires RoutesForward(d)
    ensures Reach(Gateways(d), {}, p[0], blocks[k].split.id)
    decreases |p|
  {
    hide Laid;
    hide Gateways;
    hide RoutesForward;
    hide Edge;
    hide Holds;
    var n := |p| - 1;
    assert Edge(Gateways(d), p[n - 1], p[n - 1 + 1]);
    var tr := GatewayWay(d, p[n - 1], p[n]);
    ComesFrom(d, blocks, k, i, tr);
    PathFront(Gateways(d), p);
    if Holds(blocks, k, i, p[n - 1]) {
      PassesSplit(d, blocks, k, i, p[..n]);
    } else {
      assert p[..n][0] == p[0] && p[..n][n - 1] == blocks[k].split.id;
    }
  }

  lemma InBranch(d: Definition, blocks: seq<Block>, k: int, i: int, a: Transition, x: string)
    requires Laid(d, blocks) && 0 <= k < |blocks| && RoutesForward(d)
    requires 0 <= i < |blocks[k].branches| && i < |Routes(d, blocks[k].split.id)|
    requires a == Routes(d, blocks[k].split.id)[i]
    requires Reach(Gateways(d), {blocks[k].join}, a.to, x)
    ensures Holds(blocks, k, i, x)
  {
    hide Laid;
    hide Gateways;
    hide RoutesForward;
    hide Holds;
    ReachAvoids(Gateways(d), {blocks[k].join}, a.to, x);
    var p :| Path(Gateways(d), {blocks[k].join}, p) && p[0] == a.to && p[|p| - 1] == x;
    EntersBranch(d, blocks, k, i, a);
    StaysInside(d, blocks, k, i, p, |p| - 1);
  }

  lemma ThroughSplit(d: Definition, blocks: seq<Block>, k: int, i: int, a: string, x: string)
    requires Laid(d, blocks) && 0 <= k < |blocks| && RoutesForward(d)
    requires Reach(Gateways(d), {}, a, x) && Holds(blocks, k, i, x) && !Holds(blocks, k, i, a)
    ensures Reach(Gateways(d), {}, a, blocks[k].split.id)
  {
    hide Laid;
    hide Gateways;
    hide RoutesForward;
    hide Holds;
    var p :| Path(Gateways(d), {}, p) && p[0] == a && p[|p| - 1] == x;
    PassesSplit(d, blocks, k, i, p);
  }

  lemma RoutesApart(d: Definition, blocks: seq<Block>, k: int, a: Transition, b: Transition, x: string)
    requires Laid(d, blocks) && 0 <= k < |blocks| && Acyclic(Gateways(d))
    requires RoutesForward(d)
    requires a in d.transitions && b in d.transitions && a.from == b.from == blocks[k].split.id && a != b
    requires x in GatewaysAhead(d, {blocks[k].join}, a.to)
    ensures x !in GatewaysAhead(d, {}, b.to)
  {
    hide Laid;
    hide BlockClean;
    hide Gateways;
    hide Acyclic;
    hide RoutesForward;
    hide Path;
    hide Holds;
    hide IsBlock;
    BlockFacts(d, blocks, k);
    var i := RouteIndex(d, blocks, k, a);
    var j := RouteIndex(d, blocks, k, b);
    InBranch(d, blocks, k, i, a, x);
    if x in GatewaysAhead(d, {}, b.to) {
      OutsideBranch(d, blocks, k, i, j, b);
      ThroughSplit(d, blocks, k, i, b.to, x);
      ReachedAgain(d, blocks, k, b);
    }
  }

  lemma OutsideBranch(d: Definition, blocks: seq<Block>, k: int, i: int, j: int, b: Transition)
    requires Laid(d, blocks) && 0 <= k < |blocks| && 0 <= i < |blocks[k].branches| && 0 <= j < |blocks[k].branches|
    requires i != j
    requires j < |Routes(d, blocks[k].split.id)| && b == Routes(d, blocks[k].split.id)[j]
    ensures !Holds(blocks, k, i, b.to)
  {
    hide Laid;
    if Holds(blocks, k, i, b.to) {
      Fenced(d, blocks, k, i, b.to);
      EntersBranch(d, blocks, k, j, b);
      OneBranch(d, blocks, k, i, j, b.to);
    }
  }

  /** A split its own route leads back to would close a cycle. */
  lemma ReachedAgain(d: Definition, blocks: seq<Block>, k: int, b: Transition)
    requires Laid(d, blocks) && 0 <= k < |blocks| && b in d.transitions && b.from == blocks[k].split.id
    requires Reach(Gateways(d), {}, b.to, b.from)
    ensures !Acyclic(Gateways(d))
  {
    hide Laid;
    hide BlockClean;
    LaidParts(d, blocks);
    BlockFacts(d, blocks, k);
    Known(d, blocks, b);
    assert b.from in GatewaysAhead(d, {}, b.to);
    if Acyclic(Gateways(d)) { NotAheadAgain(d, {}, b); }
  }

  // ---------------------------------------------------------------- the layers

  /** Splits lie deeper than the split around them, and no two name the same
      join. */
  ghost predicate Layered(c: Chart, depth: map<string, nat>) {
    && (forall n :: n in c.d.nodes && n.kind.IsSplit() ==> n.id in depth)
    && (forall n :: n in c.d.nodes && n.kind.IsSplit() && Home(c, n.id).split != "" ==>
          Home(c, n.id).split in depth && depth[Home(c, n.id).split] < depth[n.id])
    && (forall n, m :: n in c.d.nodes && m in c.d.nodes && n.kind.IsSplit() && m.kind.IsSplit() && n.join == m.join ==>
        n.id == m.id)
  }

  /** The blocks around a node. */
  function Around(blocks: seq<Block>, id: string): set<int> {
    set k | 0 <= k < |blocks| && Interior(blocks[k], id)
  }

  lemma AroundGrows(d: Definition, blocks: seq<Block>, k: int, l: int, j: int)
    requires Laid(d, blocks) && 0 <= k < |blocks| && l != k && Holds(blocks, l, j, blocks[k].split.id)
    ensures |Around(blocks, blocks[l].split.id)| < |Around(blocks, blocks[k].split.id)|
  {
    hide Laid;
    var outer, inner := blocks[l].split.id, blocks[k].split.id;
    forall m | m in Around(blocks, outer) ensures m in Around(blocks, inner) && m != l {
      var h :| 0 <= h < |blocks[m].branches| && outer in blocks[m].branches[h].nodes;
      if m == l { Fenced(d, blocks, m, h, outer); }
      Wraps(d, blocks, m, h, l);
      assert Interior(blocks[l], inner);
      assert Member(blocks[l], inner);
      assert Holds(blocks, m, h, inner);
    }
    assert l in Around(blocks, inner) && l !in Around(blocks, outer);
    FewerBlocks(Around(blocks, outer), Around(blocks, inner), l);
  }

  lemma FewerBlocks(a: set<int>, b: set<int>, x: int)
    requires a <= b && x in b && x !in a
    ensures |a| < |b|
  {
    var rest := b - a;
    assert b == a + rest && x in rest;
    assert |b| == |a| + |rest|;
  }

  ghost function Depths(d: Definition, blocks: seq<Block>): map<string, nat> {
    map n | n in d.nodes :: n.id := |Around(blocks, n.id)|
  }

  /** The split around a split holds it in one of its branches. */
  lemma AroundSplit(d: Definition, blocks: seq<Block>, n: Node)
    requires Laid(d, blocks) && n in d.nodes && n.kind.IsSplit() && InnermostOf(blocks, n.id).split != ""
    ensures var h := InnermostOf(blocks, n.id).split;
      h in Depths(d, blocks) && n.id in Depths(d, blocks) && Depths(d, blocks)[h] < Depths(d, blocks)[n.id]
  {
    hide Laid;
    hide BlockClean;
    var key := InnermostOf(blocks, n.id);
    var l, j :| SmallestAt(blocks, n.id, l, j) && key == BranchKey(blocks[l].split.id, j + 1);
    var k := BlockOfSplit(d, blocks, n);
    BlockFacts(d, blocks, l);
    if l == k { Fenced(d, blocks, l, j, n.id); }
    AroundGrows(d, blocks, k, l, j);
  }

  lemma SameJoin(d: Definition, blocks: seq<Block>, n: Node, m: Node)
    requires Laid(d, blocks) && n in d.nodes && m in d.nodes && n.kind.IsSplit() && m.kind.IsSplit() && n.join == m.join
    ensures n.id == m.id
  {
    hide Laid;
    hide BlockClean;
    var k := BlockOfSplit(d, blocks, n);
    var l := BlockOfSplit(d, blocks, m);
    BlockFacts(d, blocks, k);
    BlockFacts(d, blocks, l);
    if k != l { Different(d, blocks, k, l); }
  }

  predicate DistinctRoutes(d: Definition) {
    forall i, j :: 0 <= i < j < |d.transitions| ==> d.transitions[i] != d.transitions[j]
  }

  /** What bounds the gateways of one call. */
  ghost predicate Ranked(c: Chart, depth: map<string, nat>) {
    && Unique(c.d) && KnownEnds(c.d) && DistinctRoutes(c.d)
    && Acyclic(Gateways(c.d)) && BranchesApart(c.d) && Layered(c, depth)
  }

  /** Ranks do not depend on where cases start. */
  lemma RankedAnywhere(c: Chart, depth: map<string, nat>, root: string)
    requires Ranked(c, depth)
    ensures Ranked(c.(root := root), depth)
  {
  }

  lemma AcceptedApart(d: Definition, blocks: seq<Block>)
    requires Laid(d, blocks) && Acyclic(Gateways(d)) && RoutesForward(d)
    ensures BranchesApart(d)
  {
    hide Laid;
    hide Acyclic;
    hide RoutesForward;
    forall n, a, b | n in d.nodes && n.kind.IsSplit() && a in Routes(d, n.id) && b in Routes(d, n.id) && a != b
      ensures GatewaysAhead(d, {n.join}, a.to) !! GatewaysAhead(d, {}, b.to)
    {
      var k := BlockOfSplit(d, blocks, n);
      hide GatewaysAhead;
      forall x | x in GatewaysAhead(d, {n.join}, a.to) ensures x !in GatewaysAhead(d, {}, b.to) {
        JoinOf(d, blocks, k);
        RoutesApart(d, blocks, k, a, b, x);
      }
    }
  }

  lemma JoinOf(d: Definition, blocks: seq<Block>, k: int)
    requires Laid(d, blocks) && 0 <= k < |blocks|
    ensures blocks[k].join == blocks[k].split.join
  {
    hide Laid;
    hide BlockClean;
    hide IsBlock;
    BlockFacts(d, blocks, k);
  }

  lemma LaidUnique(d: Definition, blocks: seq<Block>)
    requires Laid(d, blocks)
    ensures Unique(d)
  {
  }

  lemma AcceptedLayered(d: Definition, blocks: seq<Block>)
    requires Laid(d, blocks)
    ensures Layered(ChartOf(d, blocks), Depths(d, blocks))
  {
    hide Laid;
    hide ChartOf;
    hide InnermostOf;
    LaidUnique(d, blocks);
    ChartIs(d, blocks);
    var c := ChartOf(d, blocks);
    forall n | n in d.nodes && n.kind.IsSplit() && Home(c, n.id).split != ""
      ensures Home(c, n.id).split in Depths(d, blocks)
      ensures Depths(d, blocks)[Home(c, n.id).split] < Depths(d, blocks)[n.id]
    {
      NodeIs(d, n);
      HomeIs(d, blocks, n.id);
      AroundSplit(d, blocks, n);
    }
    forall n, m | n in d.nodes && m in d.nodes && n.kind.IsSplit() && m.kind.IsSplit() && n.join == m.join
      ensures n.id == m.id
    {
      SameJoin(d, blocks, n, m);
    }
  }

  /** An accepted definition bounds its gateways. */
  lemma AcceptedIsRanked(d: Definition, blocks: seq<Block>)
    requires Accepted(d, blocks)
    ensures Ranked(ChartOf(d, blocks), Depths(d, blocks))
  {
    ValidIsLaid(d, blocks);
    TransitionFacts(d, blocks);
    hide Valid;
    hide Laid;
    hide ChartOf;
    hide RoutesForward;
    hide AllReachable;
    hide Layered;
    hide BranchesApart;
    hide Acyclic;
    ChartIs(d, blocks);
    LaidParts(d, blocks);
    AcceptedApart(d, blocks);
    AcceptedLayered(d, blocks);
  }

  lemma TransitionFacts(d: Definition, blocks: seq<Block>)
    requires Valid(d, blocks)
    ensures RoutesForward(d) && DistinctRoutes(d)
  {
    hide BlocksValid;
    hide AreBlocks;
    forall tr | tr in d.transitions && NodeOf(d, tr.from).kind.IsAutomatic()
      ensures !tr.back
    {
      assert TransitionValid(d, tr);
    }
  }

  // ------------------------------------------------------- where a token must stop

  /** The joins that cannot fire yet: those of the scopes from `s` up whose split
      is still emitting branches. */
  ghost function Stops(g: Image, pend: Pend, s: Id): set<string>
    decreases s
  {
    if s !in g.scopes then {}
    else
      (if Pending(pend, s) > 0 then {g.scopes[s].joinNode} else {}) +
      (if g.scopes[s].parent.Some? &&
       g.scopes[s].parent.value < s then Stops(g, pend, g.scopes[s].parent.value) else {})
  }

  lemma {:induction false} StopsKept(c: Chart, g: Image, g2: Image, pend: Pend, s: Id)
    requires ScopesOk(c, g) && Grows(g, g2) && s in g.scopes
    ensures Stops(g2, pend, s) == Stops(g, pend, s)
    decreases s
  {
    assert ScopeOk(c, g, s);
    if s != ROOT { StopsKept(c, g, g2, pend, g.scopes[s].parent.value); }
  }

  /** A scope opened later is above none of the scopes before it. */
  lemma {:induction false} StopsAbove(g: Image, pend: Pend, x: Id, m: nat, s: Id)
    requires s < x
    ensures Stops(g, pend[x := m], s) == Stops(g, pend, s)
    decreases s
  {
    if s in g.scopes && g.scopes[s].parent.Some? && g.scopes[s].parent.value < s {
      StopsAbove(g, pend, x, m, g.scopes[s].parent.value);
    }
  }

  lemma {:induction false} StopsAreJoins(c: Chart, g: Image, pend: Pend, s: Id, j: string)
    requires Sound(c) && ScopesOk(c, g) && Counted(g, pend) && s in g.scopes && j in Stops(g, pend, s)
    ensures IsJoinNode(c.d, j)
    decreases s
  {
    hide Sound;
    assert ScopeOk(c, g, s);
    if Pending(pend, s) > 0 && j == g.scopes[s].joinNode {
      SplitHasJoin(c, g.scopes[s].splitNode);
    } else {
      StopsAreJoins(c, g, pend, g.scopes[s].parent.value, j);
    }
  }

  lemma SplitHasJoin(c: Chart, id: string)
    requires Sound(c) && IsSplitNode(c.d, id)
    ensures id != "" && IsJoinNode(c.d, NodeOf(c.d, id).join)
  {
    assert NodeSound(c, NodeOf(c.d, id));
  }

  /** No scope around a shallower one has the join of split `n`. */
  lemma {:induction false} StopsDiffer(c: Chart, depth: map<string, nat>, g: Image, pend: Pend, a: Id, n: Node)
    requires Sound(c) && Layered(c, depth) && ScopesOk(c, g) && Counted(g, pend) && a in g.scopes && n in c.d.nodes
    requires n.kind.IsSplit()
    requires a != ROOT ==> g.scopes[a].splitNode in depth && depth[g.scopes[a].splitNode] < depth[n.id]
    ensures n.join !in Stops(g, pend, a)
    decreases a
  {
    hide Sound;
    assert ScopeOk(c, g, a);
    if a != ROOT {
      var p := g.scopes[a].parent.value;
      var split := NodeOf(c.d, g.scopes[a].splitNode);
      assert ScopeOk(c, g, p);
      if p != ROOT { SplitHasJoin(c, g.scopes[p].splitNode); }
      StopsDiffer(c, depth, g, pend, p, n);
    }
  }

  lemma JoinNotStopped(c: Chart, depth: map<string, nat>, g: Image, pend: Pend, s: Id)
    requires Sound(c) && Layered(c, depth) && ScopesOk(c, g) && Counted(g, pend) && s in g.scopes && s != ROOT
    requires Pending(pend, s) == 0
    ensures g.scopes[s].joinNode !in Stops(g, pend, s)
    ensures g.scopes[s].parent.Some? && Stops(g, pend, s) == Stops(g, pend, g.scopes[s].parent.value)
  {
    hide Sound;
    assert ScopeOk(c, g, s);
    var p := g.scopes[s].parent.value;
    var split := NodeOf(c.d, g.scopes[s].splitNode);
    assert ScopeOk(c, g, p);
    if p != ROOT { SplitHasJoin(c, g.scopes[p].splitNode); }
    StopsDiffer(c, depth, g, pend, p, split);
  }
}
