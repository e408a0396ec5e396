/** What the block rules say, and why they place every node soundly. */
module Placement {
  import opened Definitions
  import opened Soundness
  import opened Graphs
  import opened Blocks

  predicate Unique(d: Definition) {
    && (forall n :: n in d.nodes ==> n.id != "")
    && (forall i, j :: 0 <= i < j < |d.nodes| ==> d.nodes[i].id != d.nodes[j].id)
  }

  lemma {:induction false} FindFirst(nodes: seq<Node>, i: nat)
    requires i < |nodes| && forall j, k :: 0 <= j < k < |nodes| ==> nodes[j].id != nodes[k].id
    ensures FindNode(nodes, nodes[i].id) == Some(nodes[i])
  {
    if i > 0 {
      assert nodes[0].id != nodes[i].id;
      FindFirst(nodes[1..], i - 1);
    }
  }

  lemma NodeIs(d: Definition, n: Node)
    requires Unique(d) && n in d.nodes
    ensures Has(d, n.id) && NodeOf(d, n.id) == n
  {
    var i :| 0 <= i < |d.nodes| && d.nodes[i] == n;
    FindFirst(d.nodes, i);
  }

  // ------------------------------------------------------------ the block rules

  /** A forward transition leads from `a` to `b`. */
  predicate Leads(d: Definition, a: string, b: string) {
    exists tr :: tr in d.transitions && !tr.back && tr.from == a && tr.to == b
  }

  /** From `x` the branch leads on to the join. */
  ghost predicate LeadsToJoin(d: Definition, b: Block, i: nat, x: string)
    requires i < |b.branches|
  {
    exists p: seq<string> :: WayOut(d, b.branches[i].nodes, b.join, p) && p[0] == x
  }

  /** A path inside `nodes` that ends with a step to `join`. */
  ghost predicate WayOut(d: Definition, nodes: set<string>, join: string, p: seq<string>) {
    && |p| > 1 && p[|p| - 1] == join
    && forall k :: 0 <= k < |p| - 1 ==> p[k] in nodes && Leads(d, p[k], p[k + 1])
  }

  ghost predicate BranchClean(d: Definition, b: Block, i: nat)
    requires i < |b.branches|
  {
    && !b.branches[i].reenters
    && (forall x :: x in b.branches[i].nodes ==> !NodeOf(d, x).terminal && LeadsToJoin(d, b, i, x))
    && (forall j :: i < j < |b.branches| ==> b.branches[i].nodes !! b.branches[j].nodes)
  }

  /** Only the block's own nodes lead into its interior or its join. */
  predicate SingleEntry(d: Definition, b: Block) {
    forall tr :: tr in d.transitions && !tr.back && (Interior(b, tr.to) || tr.to == b.join) ==>
      tr.from == b.split.id || Interior(b, tr.from)
  }

  ghost predicate BlockClean(d: Definition, b: Block) {
    (forall i :: 0 <= i < |b.branches| ==> BranchClean(d, b, i)) && SingleEntry(d, b)
  }

  predicate Member(b: Block, x: string) { x == b.split.id || x == b.join || Interior(b, x) }

  /** Branch `i` of `outer` is the first that holds `id`. */
  predicate FirstHome(outer: Block, id: string, i: int) {
    && 0 <= i < |outer.branches| && id in outer.branches[i].nodes
    && forall j :: 0 <= j < i ==> id !in outer.branches[j].nodes
  }

  /** A block whose split lies inside `outer` lies inside one branch of it. */
  ghost predicate NestsIn(outer: Block, inner: Block) {
    forall i :: FirstHome(outer, inner.split.id, i) ==> forall x :: Member(inner, x) ==> x in outer.branches[i].nodes
  }

  ghost predicate Apart(a: Block, b: Block) { forall x :: !(Member(a, x) && Member(b, x)) }

  ghost predicate NestedOrApart(a: Block, b: Block) {
    Interior(a, b.split.id) || Interior(b, a.split.id) || Apart(a, b)
  }

  ghost predicate Forest(blocks: seq<Block>) {
    && (forall i, k :: 0 <= i < |blocks| && 0 <= k < |blocks| && i != k ==> NestsIn(blocks[i], blocks[k]))
    && (forall i, k :: 0 <= i < k < |blocks| ==> NestedOrApart(blocks[i], blocks[k]))
  }

  /** Every split names a join, and every join is named by exactly one split. */
  predicate Paired(d: Definition) {
    && (forall n :: n in d.nodes && n.id != "" && n.kind.IsSplit() ==> Joinable(d, n))
    && (forall j :: j in d.nodes && j.id != "" && j.kind.Join? ==> |Naming(Named(d, d.nodes), j.id)| == 1)
  }

  ghost predicate ReturnsStay(d: Definition, blocks: seq<Block>) {
    forall tr :: tr in d.transitions && tr.back && Has(d, tr.from) && Has(d, tr.to) ==>
      InnermostOf(blocks, tr.from) == InnermostOf(blocks, tr.to)
  }

  /** What silence of the block rules means. */
  ghost predicate BlocksValid(d: Definition, blocks: seq<Block>) {
    && Paired(d) && Forest(blocks) && ReturnsStay(d, blocks)
    && forall i :: 0 <= i < |blocks| ==> BlockClean(d, blocks[i])
  }

  // ------------------------------------------------- the other rules it rests on

  predicate KnownEnds(d: Definition) {
    forall tr :: tr in d.transitions ==> Has(d, tr.from) && Has(d, tr.to)
  }

  /** Only a task is terminal, and nothing leaves a terminal node. */
  predicate TerminalTasks(d: Definition) {
    && (forall n :: n in d.nodes && n.kind.IsAutomatic() ==> !n.terminal)
    && (forall tr :: tr in d.transitions && Has(d, tr.from) ==> !NodeOf(d, tr.from).terminal)
  }

  predicate ReturnsBetweenTasks(d: Definition) {
    forall tr :: tr in d.transitions && tr.back && Has(d, tr.from) && Has(d, tr.to) ==>
      NodeOf(d, tr.from).kind.Task? && NodeOf(d, tr.to).kind.Task? && !NodeOf(d, tr.to).terminal
  }

  /** What every block of a valid definition offers to the proofs below. */
  ghost predicate Laid(d: Definition, blocks: seq<Block>) {
    && Unique(d) && KnownEnds(d) && TerminalTasks(d) && ReturnsBetweenTasks(d)
    && AreBlocks(d, blocks) && BlocksValid(d, blocks)
  }

  // -------------------------------------------------------------- one transition

  lemma LaidParts(d: Definition, blocks: seq<Block>)
    requires Laid(d, blocks)
    ensures Unique(d) && KnownEnds(d) && Paired(d) && AreBlocks(d, blocks) && Forest(blocks)
  {
  }

  lemma BlockFacts(d: Definition, blocks: seq<Block>, k: int)
    requires Laid(d, blocks) && 0 <= k < |blocks|
    ensures var b := blocks[k];
      && b.split in d.nodes && b.split.kind.IsSplit() && IsJoinNode(d, b.join) && b.join == b.split.join
      && IsBlock(d, b.split, b) && BlockClean(d, b) && NodeOf(d, b.split.id) == b.split && b.split.id != b.join
      && Has(d, b.split.id)
  {
    hide BlockClean;
    hide Forest;
    hide IsBranch;
    assert Named(d, d.nodes)[k] in Named(d, d.nodes);
    NodeIs(d, blocks[k].split);
  }

  lemma BranchFacts(d: Definition, blocks: seq<Block>, k: int, i: int)
    requires Laid(d, blocks) && 0 <= k < |blocks| && 0 <= i < |blocks[k].branches|
    ensures var s := blocks[k].split;
      && i < |Routes(d, s.id)| && IsBranch(Forward(d), s, Routes(d, s.id)[i], blocks[k].branches[i])
      && !blocks[k].branches[i].reenters && s.id != s.join && blocks[k].join == s.join
  {
    hide LeadsToJoin;
    BlockFacts(d, blocks, k);
    assert BranchClean(d, blocks[k], i);
  }

  /** The split and its join lie outside their own branches. */
  lemma Fenced(d: Definition, blocks: seq<Block>, k: int, i: int, x: string)
    requires Laid(d, blocks) && Holds(blocks, k, i, x)
    ensures x != blocks[k].split.id && x != blocks[k].join
  {
    hide Laid;
    BranchFacts(d, blocks, k, i);
    var s := blocks[k].split;
    ReachAvoids(Forward(d), Fence(s), Routes(d, s.id)[i].to, x);
  }

  lemma Disjoint(d: Definition, b: Block, i: nat, j: nat)
    requires BlockClean(d, b) && i < j < |b.branches|
    ensures b.branches[i].nodes !! b.branches[j].nodes
  {
    hide LeadsToJoin;
    assert BranchClean(d, b, i);
  }

  /** No node lies in two branches of one split. */
  lemma OneBranch(d: Definition, blocks: seq<Block>, k: int, i: int, j: int, x: string)
    requires Laid(d, blocks) && Holds(blocks, k, i, x) && Holds(blocks, k, j, x)
    ensures i == j
  {
    hide Laid;
    hide BlockClean;
    BlockFacts(d, blocks, k);
    if i < j { Disjoint(d, blocks[k], i, j); }
    if j < i { Disjoint(d, blocks[k], j, i); }
  }

  /** A forward transition out of a branch's node stays in the branch, or enters
      the join. */
  lemma StaysInBranch(d: Definition, blocks: seq<Block>, k: int, i: int, tr: Transition)
    requires Laid(d, blocks) && tr in d.transitions && !tr.back && Has(d, tr.from)
    requires Holds(blocks, k, i, tr.from) && tr.to != blocks[k].join
    ensures Holds(blocks, k, i, tr.to)
  {
    hide Laid;
    BranchFacts(d, blocks, k, i);
    var s, g := blocks[k].split, Forward(d);
    ForwardEdge(d, tr.from, tr.to);
    hide Forward;
    assert tr.to != s.id;
    ReachOn(g, Fence(s), Routes(d, s.id)[i].to, tr.from, tr.to);
  }

  /** A route of a split enters its own branch, unless it leads straight to the
      join. */
  lemma EntersBranch(d: Definition, blocks: seq<Block>, k: int, i: int, tr: Transition)
    requires Laid(d, blocks) && 0 <= k < |blocks| && 0 <= i < |blocks[k].branches|
    requires i < |Routes(d, blocks[k].split.id)|
    requires tr == Routes(d, blocks[k].split.id)[i] && tr.to != blocks[k].join
    ensures Holds(blocks, k, i, tr.to)
  {
    hide Laid;
    BranchFacts(d, blocks, k, i);
    ReachHere(Forward(d), Fence(blocks[k].split), tr.to);
  }

  lemma Known(d: Definition, blocks: seq<Block>, tr: Transition)
    requires Laid(d, blocks) && tr in d.transitions
    ensures Has(d, tr.from) && Has(d, tr.to)
  {
  }

  /** What leads into a branch comes from the split or from that very branch. */
  lemma ComesFrom(d: Definition, blocks: seq<Block>, k: int, i: int, tr: Transition)
    requires Laid(d, blocks) && tr in d.transitions && !tr.back && Holds(blocks, k, i, tr.to)
    ensures tr.from == blocks[k].split.id || Holds(blocks, k, i, tr.from)
  {
    hide Laid;
    hide LeadsToJoin;
    BlockFacts(d, blocks, k);
    Known(d, blocks, tr);
    var b := blocks[k];
    assert Interior(b, tr.to);
    if tr.from != b.split.id {
      var j :| 0 <= j < |b.branches| && tr.from in b.branches[j].nodes;
      Fenced(d, blocks, k, i, tr.to);
      StaysInBranch(d, blocks, k, j, tr);
      OneBranch(d, blocks, k, i, j, tr.to);
    }
  }

  /** A forward transition between two nodes that are neither split nor join
      changes no branch. */
  lemma PlainEdge(d: Definition, blocks: seq<Block>, tr: Transition)
    requires Laid(d, blocks) && tr in d.transitions && !tr.back
    requires !NodeOf(d, tr.from).kind.IsSplit() && !NodeOf(d, tr.to).kind.Join?
    ensures InnermostOf(blocks, tr.from) == InnermostOf(blocks, tr.to)
  {
    hide Laid;
    hide BlockClean;
    Known(d, blocks, tr);
    forall k, i ensures Holds(blocks, k, i, tr.from) <==> Holds(blocks, k, i, tr.to) {
      if 0 <= k < |blocks| {
        BlockFacts(d, blocks, k);
        if Holds(blocks, k, i, tr.from) { StaysInBranch(d, blocks, k, i, tr); }
        if Holds(blocks, k, i, tr.to) { ComesFrom(d, blocks, k, i, tr); }
      }
    }
    SameBranches(blocks, tr.from, tr.to);
  }

  // ------------------------------------------------------------ splits and joins

  lemma BlockOfSplit(d: Definition, blocks: seq<Block>, n: Node) returns (k: int)
    requires Laid(d, blocks) && n in d.nodes && n.kind.IsSplit()
    ensures 0 <= k < |blocks| && blocks[k].split == n
  {
    hide Laid;
    hide IsBranch;
    hide Forest;
    LaidParts(d, blocks);
    assert n in Named(d, d.nodes);
    k :| 0 <= k < |blocks| && Named(d, d.nodes)[k] == n;
  }

  lemma BlockOfJoin(d: Definition, blocks: seq<Block>, j: Node) returns (k: int)
    requires Laid(d, blocks) && j in d.nodes && j.kind.Join?
    ensures 0 <= k < |blocks| && blocks[k].join == j.id
  {
    hide Laid;
    hide IsBranch;
    hide Forest;
    LaidParts(d, blocks);
    NamingOne(Named(d, d.nodes), j.id);
    k :| 0 <= k < |blocks| && Named(d, d.nodes)[k].join == j.id;
  }

  /** Different blocks have different splits and different joins. */
  lemma Different(d: Definition, blocks: seq<Block>, k: int, l: int)
    requires Laid(d, blocks) && 0 <= k < |blocks| && 0 <= l < |blocks| && k != l
    ensures blocks[k].split.id != blocks[l].split.id && blocks[k].join != blocks[l].join
    ensures NestsIn(blocks[k], blocks[l]) && NestsIn(blocks[l], blocks[k])
    ensures NestedOrApart(blocks[k], blocks[l]) || NestedOrApart(blocks[l], blocks[k])
  {
    hide Laid;
    hide IsBranch;
    hide NestsIn;
    hide NestedOrApart;
    hide BlockClean;
    LaidParts(d, blocks);
    BlockFacts(d, blocks, k);
    var splits, a, b := Named(d, d.nodes), if k < l then k else l, if k < l then l else k;
    NamedDistinct(d, d.nodes, a, b);
    var join := NodeOf(d, blocks[k].join);
    if splits[a].join == splits[b].join { NamingTwice(splits, join.id, a, b); }
  }

  /** A block whose split lies in a branch of another lies wholly in it, and its
      branches are smaller. */
  lemma Wraps(d: Definition, blocks: seq<Block>, l: int, j: int, k: int)
    requires Laid(d, blocks) && 0 <= k < |blocks| && l != k && Holds(blocks, l, j, blocks[k].split.id)
    ensures forall x :: Member(blocks[k], x) ==> Holds(blocks, l, j, x)
    ensures forall i :: 0 <= i < |blocks[k].branches| ==> |blocks[k].branches[i].nodes| < |blocks[l].branches[j].nodes|
  {
    hide Laid;
    Different(d, blocks, k, l);
    var id := blocks[k].split.id;
    forall h | 0 <= h < j ensures id !in blocks[l].branches[h].nodes {
      if id in blocks[l].branches[h].nodes { OneBranch(d, blocks, l, h, j, id); }
    }
    assert FirstHome(blocks[l], id, j);
    forall i | 0 <= i < |blocks[k].branches| ensures |blocks[k].branches[i].nodes| < |blocks[l].branches[j].nodes| {
      var small, big := blocks[k].branches[i].nodes, blocks[l].branches[j].nodes;
      if id in small { Fenced(d, blocks, k, i, id); }
      forall x | x in small ensures x in big { assert Interior(blocks[k], x); }
      Proper(small, big, id);
    }
  }

  lemma Proper(small: set<string>, big: set<string>, x: string)
    requires small <= big && x in big && x !in small
    ensures |small| < |big|
  {
    var rest := big - small;
    assert big == small + rest && x in rest;
    assert |big| == |small| + |rest|;
  }

  /** A join that lies in a branch of another block lies there with its split. */
  lemma JoinInside(d: Definition, blocks: seq<Block>, l: int, j: int, k: int)
    requires Laid(d, blocks) && 0 <= k < |blocks| && l != k && Holds(blocks, l, j, blocks[k].join)
    ensures Holds(blocks, l, j, blocks[k].split.id)
  {
    hide Laid;
    Different(d, blocks, k, l);
    var join := blocks[k].join;
    assert Interior(blocks[l], join);
    assert Member(blocks[l], join) && Member(blocks[k], join);
    if Interior(blocks[l], blocks[k].split.id) {
      var h :| 0 <= h < |blocks[l].branches| && blocks[k].split.id in blocks[l].branches[h].nodes;
      Wraps(d, blocks, l, h, k);
      OneBranch(d, blocks, l, h, j, join);
    } else if Interior(blocks[k], blocks[l].split.id) {
      var h :| 0 <= h < |blocks[k].branches| && blocks[l].split.id in blocks[k].branches[h].nodes;
      Wraps(d, blocks, k, h, l);
      Fenced(d, blocks, k, h, join);
    }
  }

  /** A split and its join lie in the same branches. */
  lemma SplitAndJoin(d: Definition, blocks: seq<Block>, k: int)
    requires Laid(d, blocks) && 0 <= k < |blocks|
    ensures InnermostOf(blocks, blocks[k].split.id) == InnermostOf(blocks, blocks[k].join)
  {
    hide Laid;
    var id, join := blocks[k].split.id, blocks[k].join;
    forall l, j ensures Holds(blocks, l, j, id) <==> Holds(blocks, l, j, join) {
      if l == k {
        if Holds(blocks, l, j, id) { Fenced(d, blocks, l, j, id); }
        if Holds(blocks, l, j, join) { Fenced(d, blocks, l, j, join); }
      } else {
        if Holds(blocks, l, j, id) { Wraps(d, blocks, l, j, k); }
        if Holds(blocks, l, j, join) { JoinInside(d, blocks, l, j, k); }
      }
    }
    SameBranches(blocks, id, join);
  }

  /** A split's route leads into its own branch. */
  lemma SplitEdge(d: Definition, blocks: seq<Block>, k: int, i: int, tr: Transition)
    requires Laid(d, blocks) && 0 <= k < |blocks| && 0 <= i < |blocks[k].branches|
    requires i < |Routes(d, blocks[k].split.id)|
    requires tr == Routes(d, blocks[k].split.id)[i] && !tr.back && !NodeOf(d, tr.to).kind.Join?
    ensures InnermostOf(blocks, tr.to) == BranchKey(blocks[k].split.id, i + 1)
  {
    hide Laid;
    hide BlockClean;
    BlockFacts(d, blocks, k);
    assert tr in Routes(d, blocks[k].split.id);
    EntersBranch(d, blocks, k, i, tr);
    forall l, j | Holds(blocks, l, j, tr.to) && (l != k || j != i)
      ensures |blocks[k].branches[i].nodes| < |blocks[l].branches[j].nodes|
    {
      if l == k {
        OneBranch(d, blocks, k, i, j, tr.to);
      } else {
        ComesFrom(d, blocks, l, j, tr);
        Different(d, blocks, k, l);
        Wraps(d, blocks, l, j, k);
      }
    }
    StrictlySmallest(blocks, tr.to, k, i);
  }

  /** What enters a join from a node of its block lies directly in the block. */
  lemma JoinEdge(d: Definition, blocks: seq<Block>, k: int, tr: Transition)
    requires Laid(d, blocks) && 0 <= k < |blocks| && tr in d.transitions && !tr.back && tr.to == blocks[k].join
    requires tr.from != blocks[k].split.id
    ensures InnermostOf(blocks, tr.from).split == blocks[k].split.id
  {
    hide Laid;
    hide LeadsToJoin;
    BlockFacts(d, blocks, k);
    Known(d, blocks, tr);
    var i :| 0 <= i < |blocks[k].branches| && tr.from in blocks[k].branches[i].nodes;
    hide BlockClean;
    forall l, j | Holds(blocks, l, j, tr.from) && (l != k || j != i)
      ensures |blocks[k].branches[i].nodes| < |blocks[l].branches[j].nodes|
    {
      if l == k {
        OneBranch(d, blocks, k, i, j, tr.from);
      } else {
        Different(d, blocks, k, l);
        StaysInBranch(d, blocks, l, j, tr);
        JoinInside(d, blocks, l, j, k);
        Wraps(d, blocks, l, j, k);
      }
    }
    StrictlySmallest(blocks, tr.from, k, i);
  }

  /** A split's route to a join leads to its own. */
  lemma SplitToJoin(d: Definition, blocks: seq<Block>, k: int, i: int, l: int, tr: Transition)
    requires Laid(d, blocks) && 0 <= k < |blocks| && 0 <= i < |blocks[k].branches|
    requires i < |Routes(d, blocks[k].split.id)|
    requires tr == Routes(d, blocks[k].split.id)[i] && !tr.back && 0 <= l < |blocks| && tr.to == blocks[l].join
    ensures l == k
  {
    hide Laid;
    hide LeadsToJoin;
    if l != k {
      assert tr in Routes(d, blocks[k].split.id);
      Different(d, blocks, k, l);
      BlockFacts(d, blocks, l);
      var h :| 0 <= h < |blocks[l].branches| && blocks[k].split.id in blocks[l].branches[h].nodes;
      hide BlockClean;
      Wraps(d, blocks, l, h, k);
      EntersBranch(d, blocks, k, i, tr);
      assert Interior(blocks[k], tr.to);
      Fenced(d, blocks, l, h, tr.to);
    }
  }
}
