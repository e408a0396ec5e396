/** The rules a definition is checked against, as the loops that collect their
    violations. */
module Validator {
  import opened Definitions
  import opened Soundness
  import opened Graphs
  import opened Blocks
  import opened Placement
  import opened Validity
  import opened Cycles

  datatype Violation =
    | BadNode(id: string) | DuplicateId(id: string) | StartCount(count: nat) | NoTerminal
    | BadTransition(index: nat) | Ambiguous(index: nat)
    | BadExpiry(id: string) | BadRoutes(id: string)
    | Cycle(nodes: seq<string>) | Unreachable(id: string)
    | NoJoin(split: string) | JoinCount(join: string, count: nat)
    | Reenters(split: string, action: string) | TerminalInside(split: string, id: string)
    | NeverJoins(split: string, id: string) | SharedNode(split: string, id: string)
    | EnteredFromOutside(split: string, id: string, from: string)
    | NotNested(inner: string, outer: string) | Overlap(a: string, b: string)
    | ReturnCrosses(index: nat)
    | BadPolicy(id: string) | BadOutcome(index: nat)
    | OneSided(split: string, action: string) | NoWayBack(join: string)

  // -------------------------------------------------------------- one branch

  function Sources(trs: seq<Transition>, id: string): (from: seq<string>)
    ensures forall x :: x in from <==> exists tr :: tr in trs && !tr.back && tr.to == id && tr.from == x
  {
    if trs == [] then []
    else if !trs[0].back && trs[0].to == id then
      assert trs[0] in trs;
      [trs[0].from] + Sources(trs[1..], id)
    else
      assert forall tr :: tr in trs && !tr.back && tr.to == id ==> tr in trs[1..];
      Sources(trs[1..], id)
  }

  /** The forward transitions, backwards. */
  function Incoming(d: Definition): Graph {
    map tr | tr in d.transitions :: tr.to := Sources(d.transitions, tr.to)
  }

  lemma IncomingEdge(d: Definition, a: string, b: string)
    ensures Edge(Incoming(d), b, a) <==> Leads(d, a, b)
  {
    if tr :| tr in d.transitions && !tr.back && tr.from == a && tr.to == b {
      assert b in Incoming(d);
    }
  }

  /** What a backward walk from the join may not pass: everything outside the
      branch. */
  function Outside(d: Definition, nodes: set<string>, join: string): set<string> {
    set x | x in Heads(Incoming(d)) && x !in nodes && x != join
  }

  lemma {:induction false} BackIsWayOut(d: Definition, nodes: set<string>, join: string, p: seq<string>)
      returns (q: seq<string>)
    requires Path(Incoming(d), Outside(d, nodes, join), p) && p[0] == join && join !in nodes && p[|p| - 1] != join
    ensures WayOut(d, nodes, join, q) && q[0] == p[|p| - 1]
    decreases |p|
  {
    var n, g := |p| - 1, Incoming(d);
    var x := p[n];
    assert Edge(g, p[n - 1], p[n - 1 + 1]);
    EdgeHead(g, p[n - 1], x);
    IncomingEdge(d, x, p[n - 1]);
    if p[n - 1] == join {
      q := [x, join];
    } else {
      assert Path(g, Outside(d, nodes, join), p[..n]);
      var r := BackIsWayOut(d, nodes, join, p[..n]);
      q := [x] + r;
      forall k | 0 <= k < |q| - 1 ensures q[k] in nodes && Leads(d, q[k], q[k + 1]) {
        if k > 0 { assert q[k] == r[k - 1] && q[k + 1] == r[k - 1 + 1]; }
      }
    }
  }

  lemma {:induction false} WayOutIsBack(d: Definition, nodes: set<string>, join: string, q: seq<string>)
    requires WayOut(d, nodes, join, q) && join !in nodes
    ensures Reach(Incoming(d), Outside(d, nodes, join), join, q[0])
    decreases |q|
  {
    var g := Incoming(d);
    assert Leads(d, q[0], q[0 + 1]);
    IncomingEdge(d, q[0], q[1]);
    if |q| == 2 {
      ReachHere(g, Outside(d, nodes, join), join);
    } else {
      forall k | 0 <= k < |q[1..]| - 1 ensures q[1..][k] in nodes && Leads(d, q[1..][k], q[1..][k + 1]) {
        assert q[k + 1] in nodes && Leads(d, q[k + 1], q[k + 1 + 1]);
      }
      WayOutIsBack(d, nodes, join, q[1..]);
    }
    ReachOn(g, Outside(d, nodes, join), join, q[1], q[0]);
  }

  /** The nodes of a branch from which it leads on to its join: a walk backwards
      from the join. */
  method LeadingOut(d: Definition, b: Block, i: nat) returns (out: set<string>)
    requires i < |b.branches| && b.join !in b.branches[i].nodes
    ensures forall x :: x in b.branches[i].nodes ==> (x in out <==> LeadsToJoin(d, b, i, x))
  {
    var nodes := b.branches[i].nodes;
    out := Flood(Incoming(d), Outside(d, nodes, b.join), b.join);
    forall x | x in nodes ensures x in out <==> LeadsToJoin(d, b, i, x) {
      if x in out {
        var p :| Path(Incoming(d), Outside(d, nodes, b.join), p) && p[0] == b.join && p[|p| - 1] == x;
        var q := BackIsWayOut(d, nodes, b.join, p);
      }
      if LeadsToJoin(d, b, i, x) {
        var q :| WayOut(d, nodes, b.join, q) && q[0] == x;
        WayOutIsBack(d, nodes, b.join, q);
      }
    }
  }

  /** The nodes of branch `i` that are terminal or never lead to the join. */
  method CheckNodesInside(d: Definition, b: Block, i: nat) returns (errs: seq<Violation>)
    requires i < |b.branches| && b.join !in b.branches[i].nodes
    ensures errs == [] <==> forall x :: x in b.branches[i].nodes ==> !NodeOf(d, x).terminal && LeadsToJoin(d, b, i, x)
  {
    hide LeadsToJoin;
    errs := [];
    var nodes, told := b.branches[i].nodes, false;
    var out := LeadingOut(d, b, i);
    var todo := nodes;
    while todo != {}
      invariant todo <= nodes && (told ==> errs != [])
      invariant errs == [] <==> forall x :: x in nodes - todo ==> !NodeOf(d, x).terminal && x in out
      decreases |todo|
    {
      var x :| x in todo;
      assert nodes - (todo - {x}) == (nodes - todo) + {x};
      todo := todo - {x};
      if NodeOf(d, x).terminal {
        errs := errs + [TerminalInside(b.split.id, x)];
      } else if x !in out && !told {
        errs, told := errs + [NeverJoins(b.split.id, x)], true;
      }
    }
    assert nodes - todo == nodes;
  }

  /** The violations of one branch. */
  method CheckBranch(d: Definition, b: Block, i: nat) returns (errs: seq<Violation>)
    requires i < |b.branches| && b.join !in b.branches[i].nodes
    ensures errs == [] <==> BranchClean(d, b, i)
  {
    hide LeadsToJoin;
    var br := b.branches[i];
    errs := CheckNodesInside(d, b, i);
    if br.reenters { errs := errs + [Reenters(b.split.id, br.action)]; }
    ghost var clean := errs == [];
    var j := i + 1;
    while j < |b.branches|
      invariant i < j <= |b.branches|
      invariant errs == [] <==> clean && forall h :: i < h < j ==> br.nodes !! b.branches[h].nodes
    {
      var shared := br.nodes * b.branches[j].nodes;
      if shared != {} {
        var x :| x in shared;
        assert x in br.nodes && x in b.branches[j].nodes;
        errs := errs + [SharedNode(b.split.id, x)];
      } else {
        assert forall x :: x in br.nodes && x in b.branches[j].nodes ==> x in shared;
      }
      j := j + 1;
    }
  }

  /** The transitions that enter the block from outside. */
  method CheckEntries(d: Definition, b: Block) returns (errs: seq<Violation>)
    ensures errs == [] <==> SingleEntry(d, b)
  {
    errs := [];
    var i := 0;
    while i < |d.transitions|
      invariant 0 <= i <= |d.transitions|
      invariant errs == [] <==> forall k :: 0 <= k < i ==> EntryFits(b, d.transitions[k])
    {
      var tr := d.transitions[i];
      if !EntryFits(b, tr) {
        var v := EnteredFromOutside(b.split.id, tr.to, tr.from);
        if v !in errs { errs := errs + [v]; }
      }
      i := i + 1;
    }
    assert SingleEntry(d, b) <==> forall k :: 0 <= k < |d.transitions| ==> EntryFits(b, d.transitions[k]);
  }

  predicate EntryFits(b: Block, tr: Transition) {
    !tr.back && (Interior(b, tr.to) || tr.to == b.join) ==> tr.from == b.split.id || Interior(b, tr.from)
  }

  /** The violations inside one block. */
  method CheckBlock(d: Definition, b: Block) returns (errs: seq<Violation>)
    requires forall i :: 0 <= i < |b.branches| ==> b.join !in b.branches[i].nodes
    ensures errs == [] <==> BlockClean(d, b)
  {
    hide BranchClean;
    hide SingleEntry;
    errs := CheckEntries(d, b);
    var i := 0;
    while i < |b.branches|
      invariant 0 <= i <= |b.branches|
      invariant errs == [] <==> SingleEntry(d, b) && forall k :: 0 <= k < i ==> BranchClean(d, b, k)
    {
      var more := CheckBranch(d, b, i);
      errs := errs + more;
      i := i + 1;
    }
  }

  // ------------------------------------------------------------------ nesting

  function InteriorOf(branches: seq<Branch>): (nodes: set<string>)
    ensures forall x :: x in nodes <==> exists i :: 0 <= i < |branches| && x in branches[i].nodes
  {
    if branches == [] then {}
    else
      var rest := InteriorOf(branches[..|branches| - 1]);
      assert forall i :: 0 <= i < |branches| ==>
        (if i < |branches| - 1 then branches[i] == branches[..|branches| - 1][i] else true);
      rest + branches[|branches| - 1].nodes
  }

  /** Every node of a block: the split, the interior and the join. */
  function Members(b: Block): (nodes: set<string>)
    ensures forall x :: x in nodes <==> Member(b, x)
  {
    {b.split.id, b.join} + InteriorOf(b.branches)
  }

  /** A block that starts inside `outer` must lie inside one branch of it. */
  method CheckNests(outer: Block, inner: Block) returns (errs: seq<Violation>)
    ensures errs == [] <==> NestsIn(outer, inner)
  {
    errs := [];
    var i := 0;
    while i < |outer.branches| && inner.split.id !in outer.branches[i].nodes
      invariant 0 <= i <= |outer.branches|
      invariant forall j :: 0 <= j < i ==> inner.split.id !in outer.branches[j].nodes
    {
      i := i + 1;
    }
    if i < |outer.branches| {
      assert FirstHome(outer, inner.split.id, i);
      if !(Members(inner) <= outer.branches[i].nodes) { errs := [NotNested(inner.split.id, outer.split.id)]; }
    }
  }

  method CheckApart(a: Block, b: Block) returns (errs: seq<Violation>)
    ensures errs == [] <==> NestedOrApart(a, b)
  {
    errs := [];
    if !Interior(a, b.split.id) && !Interior(b, a.split.id) {
      var shared := Members(a) * Members(b);
      assert shared == {} <==> Apart(a, b) by {
        assert forall x :: x in shared <==> Member(a, x) && Member(b, x);
      }
      if shared != {} { errs := [Overlap(a.split.id, b.split.id)]; }
    }
  }

  ghost predicate NestsAll(blocks: seq<Block>, i: int, k: int) {
    forall l :: 0 <= l < k && l != i && 0 <= i < |blocks| && l < |blocks| ==> NestsIn(blocks[i], blocks[l])
  }

  ghost predicate ApartAll(blocks: seq<Block>, i: int, k: int) {
    forall l :: i < l < k && 0 <= i < |blocks| && l < |blocks| ==> NestedOrApart(blocks[i], blocks[l])
  }

  method CheckNestsOf(blocks: seq<Block>, i: nat) returns (errs: seq<Violation>)
    requires i < |blocks|
    ensures errs == [] <==> NestsAll(blocks, i, |blocks|)
  {
    hide NestsIn;
    errs := [];
    var k := 0;
    while k < |blocks|
      invariant 0 <= k <= |blocks| && (errs == [] <==> NestsAll(blocks, i, k))
    {
      if i != k {
        var more := CheckNests(blocks[i], blocks[k]);
        errs := errs + more;
      }
      k := k + 1;
    }
  }

  method CheckApartOf(blocks: seq<Block>, i: nat) returns (errs: seq<Violation>)
    requires i < |blocks|
    ensures errs == [] <==> ApartAll(blocks, i, |blocks|)
  {
    hide NestedOrApart;
    errs := [];
    var k := i + 1;
    while k < |blocks|
      invariant i < k <= |blocks| && (errs == [] <==> ApartAll(blocks, i, k))
    {
      var more := CheckApart(blocks[i], blocks[k]);
      errs := errs + more;
      k := k + 1;
    }
  }

  /** Blocks nest inside one branch of each other or stay disjoint. */
  method CheckNesting(blocks: seq<Block>) returns (errs: seq<Violation>)
    ensures errs == [] <==> Forest(blocks)
  {
    hide NestsIn;
    hide NestedOrApart;
    errs := [];
    var i := 0;
    while i < |blocks|
      invariant 0 <= i <= |blocks|
      invariant errs == [] <==> forall h :: 0 <= h < i ==> NestsAll(blocks, h, |blocks|)
    {
      var more := CheckNestsOf(blocks, i);
      errs := errs + more;
      i := i + 1;
    }
    ghost var nested := errs == [];
    i := 0;
    while i < |blocks|
      invariant 0 <= i <= |blocks|
      invariant errs == [] <==> nested && forall h :: 0 <= h < i ==> ApartAll(blocks, h, |blocks|)
    {
      var more := CheckApartOf(blocks, i);
      errs := errs + more;
      i := i + 1;
    }
    ForestIs(blocks);
  }

  lemma ForestIs(blocks: seq<Block>)
    ensures Forest(blocks) <==>
      && (forall h :: 0 <= h < |blocks| ==> NestsAll(blocks, h, |blocks|))
      && (forall h :: 0 <= h < |blocks| ==> ApartAll(blocks, h, |blocks|))
  {
    hide NestsIn;
    hide NestedOrApart;
    if (forall h :: 0 <= h < |blocks| ==> NestsAll(blocks, h, |blocks|)) {
      forall i, k | 0 <= i < |blocks| && 0 <= k < |blocks| && i != k ensures NestsIn(blocks[i], blocks[k]) {
        assert NestsAll(blocks, i, |blocks|);
      }
    }
    if (forall h :: 0 <= h < |blocks| ==> ApartAll(blocks, h, |blocks|)) {
      forall i, k | 0 <= i < k < |blocks| ensures NestedOrApart(blocks[i], blocks[k]) {
        assert ApartAll(blocks, i, |blocks|);
      }
    }
  }

  // ------------------------------------------------------------ all the blocks

  lemma NamedNone(d: Definition)
    ensures Named(d, d.nodes[..0]) == []
  {
  }

  lemma NamedNext(d: Definition, i: nat)
    requires i < |d.nodes|
    ensures Named(d, d.nodes[..i + 1]) ==
      Named(d, d.nodes[..i]) + (if Joinable(d, d.nodes[i]) then [d.nodes[i]] else [])
  {
    assert d.nodes[..i + 1][..i] == d.nodes[..i];
  }

  /** Builds the block of every split that names its join, and reports the
      others. */
  method BuildBlocks(d: Definition) returns (errs: seq<Violation>, blocks: seq<Block>)
    ensures AreBlocks(d, blocks)
    ensures errs == [] <==> forall n :: n in d.nodes && n.id != "" && n.kind.IsSplit() ==> Joinable(d, n)
  {
    hide IsBlock;
    hide Named;
    hide Forward;
    errs, blocks := [], [];
    var g := Forward(d);
    NamedNone(d);
    var i := 0;
    while i < |d.nodes|
      invariant 0 <= i <= |d.nodes|
      invariant |blocks| == |Named(d, d.nodes[..i])|
      invariant forall k :: 0 <= k < |blocks| ==> IsBlock(d, Named(d, d.nodes[..i])[k], blocks[k])
      invariant errs == [] <==> forall k :: 0 <= k < i && d.nodes[k].id != "" && d.nodes[k].kind.IsSplit() ==>
        Joinable(d, d.nodes[k])
    {
      var n := d.nodes[i];
      NamedNext(d, i);
      if Joinable(d, n) {
        var b := BuildBlock(d, g, n);
        blocks := blocks + [b];
      } else if n.id != "" && n.kind.IsSplit() {
        errs := errs + [NoJoin(n.id)];
      }
      i := i + 1;
    }
    assert d.nodes[..i] == d.nodes;
  }

  predicate NamedOnce(d: Definition, j: Node) {
    j.id != "" && j.kind.Join? ==> |Naming(Named(d, d.nodes), j.id)| == 1
  }

  /** Every join is named by exactly one split. */
  method CheckJoins(d: Definition) returns (errs: seq<Violation>)
    ensures errs == [] <==> forall j :: j in d.nodes ==> NamedOnce(d, j)
  {
    errs := [];
    var i := 0;
    while i < |d.nodes|
      invariant 0 <= i <= |d.nodes|
      invariant errs == [] <==> forall k :: 0 <= k < i ==> NamedOnce(d, d.nodes[k])
    {
      var j := d.nodes[i];
      if !NamedOnce(d, j) { errs := errs + [JoinCount(j.id, |Naming(Named(d, d.nodes), j.id)|)]; }
      i := i + 1;
    }
  }

  ghost predicate ReturnStays(d: Definition, blocks: seq<Block>, tr: Transition) {
    tr.back && Has(d, tr.from) && Has(d, tr.to) ==> InnermostOf(blocks, tr.from) == InnermostOf(blocks, tr.to)
  }

  /** A return transition stays inside one branch, or in the root scope. */
  method CheckReturns(d: Definition, blocks: seq<Block>) returns (errs: seq<Violation>)
    ensures errs == [] <==> ReturnsStay(d, blocks)
  {
    hide InnermostOf;
    errs := [];
    var i := 0;
    while i < |d.transitions|
      invariant 0 <= i <= |d.transitions|
      invariant errs == [] <==> forall k :: 0 <= k < i ==> ReturnStays(d, blocks, d.transitions[k])
    {
      var tr := d.transitions[i];
      if tr.back && Has(d, tr.from) && Has(d, tr.to) {
        var from := InnermostBranch(blocks, tr.from);
        var to := InnermostBranch(blocks, tr.to);
        InnermostOnce(blocks, tr.from, from, InnermostOf(blocks, tr.from));
        InnermostOnce(blocks, tr.to, to, InnermostOf(blocks, tr.to));
        if from != to { errs := errs + [ReturnCrosses(i)]; }
      }
      i := i + 1;
    }
    assert ReturnsStay(d, blocks) <==> forall k :: 0 <= k < |d.transitions| ==>
      ReturnStays(d, blocks, d.transitions[k]);
  }

  lemma JoinOutside(d: Definition, blocks: seq<Block>, k: int)
    requires AreBlocks(d, blocks) && 0 <= k < |blocks|
    ensures forall i :: 0 <= i < |blocks[k].branches| ==> blocks[k].join !in blocks[k].branches[i].nodes
  {
    var b := blocks[k];
    forall i | 0 <= i < |b.branches| ensures b.join !in b.branches[i].nodes {
      assert IsBranch(Forward(d), b.split, Routes(d, b.split.id)[i], b.branches[i]);
      if b.join in b.branches[i].nodes { ReachAvoids(Forward(d), Fence(b.split), Routes(d, b.split.id)[i].to, b.join); }
    }
  }

  /** Checks every block on its own. */
  method CheckBlocks(d: Definition, blocks: seq<Block>) returns (errs: seq<Violation>)
    requires AreBlocks(d, blocks)
    ensures errs == [] <==> forall i :: 0 <= i < |blocks| ==> BlockClean(d, blocks[i])
  {
    hide BlockClean;
    hide AreBlocks;
    errs := [];
    var k := 0;
    while k < |blocks|
      invariant 0 <= k <= |blocks| && (errs == [] <==> forall i :: 0 <= i < k ==> BlockClean(d, blocks[i]))
    {
      JoinOutside(d, blocks, k);
      var more := CheckBlock(d, blocks[k]);
      errs := errs + more;
      k := k + 1;
    }
  }

  /** The block rules are silent exactly when the blocks form a forest of clean
      blocks and returns stay in their branch. */
  method ValidateBlocks(d: Definition) returns (errs: seq<Violation>, blocks: seq<Block>)
    ensures AreBlocks(d, blocks)
    ensures errs == [] <==> BlocksValid(d, blocks)
  {
    hide AreBlocks;
    hide BlockClean;
    hide Forest;
    hide ReturnsStay;
    errs, blocks := BuildBlocks(d);
    var joins := CheckJoins(d);
    assert joins == [] && errs == [] <==> Paired(d) by {
      assert (forall j :: j in d.nodes ==> NamedOnce(d, j)) <==>
        (forall j :: j in d.nodes && j.id != "" && j.kind.Join? ==> |Naming(Named(d, d.nodes), j.id)| == 1);
    }
    var inside := CheckBlocks(d, blocks);
    var nesting := CheckNesting(blocks);
    var crossing := CheckReturns(d, blocks);
    errs := errs + joins + inside + nesting + crossing;
  }

  // ------------------------------------------------------ nodes and transitions

  predicate DistinctIds(nodes: seq<Node>, n: nat)
    requires n <= |nodes|
  {
    forall i, j :: 0 <= i < j < n ==> nodes[i].id != nodes[j].id
  }

  function Starts(nodes: seq<Node>, n: nat): nat
    requires n <= |nodes|
  {
    if n == 0 then 0 else Starts(nodes, n - 1) + (if nodes[n - 1].start then 1 else 0)
  }

  lemma {:induction false} StartsFrom(nodes: seq<Node>, n: nat, i: nat)
    requires i < n <= |nodes| && nodes[i].start
    ensures Starts(nodes, n) >= 1
    ensures Starts(nodes, n) == 1 ==> forall j :: 0 <= j < n && nodes[j].start ==> j == i
  {
    if i < n - 1 {
      StartsFrom(nodes, n - 1, i);
    } else if Starts(nodes, n) == 1 {
      forall j | 0 <= j < n && nodes[j].start ensures j == i { if j < i { StartsFrom(nodes, n - 1, j); } }
    }
  }

  lemma {:induction false} StartsNone(nodes: seq<Node>, n: nat)
    requires n <= |nodes| && forall i :: 0 <= i < n ==> !nodes[i].start
    ensures Starts(nodes, n) == 0
  {
    if n > 0 { StartsNone(nodes, n - 1); }
  }

  lemma {:induction false} StartsOnly(nodes: seq<Node>, n: nat, i: nat)
    requires i < n <= |nodes| && nodes[i].start && forall j :: 0 <= j < n && nodes[j].start ==> j == i
    ensures Starts(nodes, n) == 1
  {
    if i < n - 1 { StartsOnly(nodes, n - 1, i); } else { StartsNone(nodes, n - 1); }
  }

  lemma StartsOne(nodes: seq<Node>)
    ensures Starts(nodes, |nodes|) == 1 <==> OneStart(nodes)
  {
    if i :| 0 <= i < |nodes| && nodes[i].start {
      StartsFrom(nodes, |nodes|, i);
      if OneStart(nodes) { StartsOnly(nodes, |nodes|, i); }
    } else {
      StartsNone(nodes, |nodes|);
    }
  }

  /** The nodes that break a rule of their own, and the repeated ids. */
  method CheckEachNode(d: Definition) returns (errs: seq<Violation>)
    ensures errs == [] <==> (forall n :: n in d.nodes ==> NodeValid(n)) && DistinctIds(d.nodes, |d.nodes|)
  {
    hide NodeValid;
    errs := [];
    var seen: set<string>, i := {}, 0;
    while i < |d.nodes|
      invariant 0 <= i <= |d.nodes|
      invariant forall x :: x in seen <==> exists k :: 0 <= k < i && d.nodes[k].id == x
      invariant errs == [] <==> (forall k :: 0 <= k < i ==> NodeValid(d.nodes[k])) && DistinctIds(d.nodes, i)
    {
      var n := d.nodes[i];
      if !NodeValid(n) { errs := errs + [BadNode(n.id)]; }
      if n.id in seen { errs := errs + [DuplicateId(n.id)]; }
      seen := seen + {n.id};
      i := i + 1;
    }
  }

  method CheckNodes(d: Definition) returns (errs: seq<Violation>)
    ensures errs == [] <==> NodesValid(d)
  {
    hide NodeValid;
    errs := CheckEachNode(d);
    var starts, terminals, i := 0, 0, 0;
    while i < |d.nodes|
      invariant 0 <= i <= |d.nodes| && starts == Starts(d.nodes, i)
      invariant terminals > 0 <==> exists k :: 0 <= k < i && d.nodes[k].terminal
    {
      if d.nodes[i].start { starts := starts + 1; }
      if d.nodes[i].terminal { terminals := terminals + 1; }
      i := i + 1;
    }
    StartsOne(d.nodes);
    if starts != 1 { errs := errs + [StartCount(starts)]; }
    if terminals == 0 { errs := errs + [NoTerminal]; }
  }

  predicate SameKey(a: Transition, b: Transition) { a.from == b.from && a.action == b.action }

  method CheckTransitions(d: Definition) returns (errs: seq<Violation>)
    ensures errs == [] <==> TransitionsValid(d)
  {
    hide TransitionValid;
    errs := [];
    var keys: set<(string, string)>, i := {}, 0;
    while i < |d.transitions|
      invariant 0 <= i <= |d.transitions|
      invariant forall key :: key in keys <==>
        exists k :: 0 <= k < i && (d.transitions[k].from, d.transitions[k].action) == key
      invariant errs == [] <==>
        && (forall k :: 0 <= k < i ==> TransitionValid(d, d.transitions[k]))
        && (forall j, k :: 0 <= j < k < i ==> !SameKey(d.transitions[j], d.transitions[k]))
    {
      var tr := d.transitions[i];
      if !TransitionValid(d, tr) { errs := errs + [BadTransition(i)]; }
      if (tr.from, tr.action) in keys { errs := errs + [Ambiguous(i)]; }
      keys := keys + {(tr.from, tr.action)};
      i := i + 1;
    }
  }

  // ------------------------------------------------------- rules node by node

  predicate LocallyValid(d: Definition, n: Node) { RoutesValid(d, n) && ExpiryValid(d, n) && PolicyNodeValid(d, n) }

  method CheckRoutes(d: Definition) returns (errs: seq<Violation>)
    ensures errs == [] <==> forall n :: n in d.nodes ==> LocallyValid(d, n)
  {
    hide RoutesValid;
    hide ExpiryValid;
    hide PolicyNodeValid;
    errs := [];
    var i := 0;
    while i < |d.nodes|
      invariant 0 <= i <= |d.nodes| && (errs == [] <==> forall k :: 0 <= k < i ==> LocallyValid(d, d.nodes[k]))
    {
      var n := d.nodes[i];
      if !RoutesValid(d, n) { errs := errs + [BadRoutes(n.id)]; }
      if !ExpiryValid(d, n) { errs := errs + [BadExpiry(n.id)]; }
      if !PolicyNodeValid(d, n) { errs := errs + [BadPolicy(n.id)]; }
      i := i + 1;
    }
  }

  method CheckOutcomes(d: Definition) returns (errs: seq<Violation>)
    ensures errs == [] <==> forall tr :: tr in d.transitions ==> OutcomeValid(d, tr)
  {
    hide OutcomeValid;
    errs := [];
    var i := 0;
    while i < |d.transitions|
      invariant 0 <= i <= |d.transitions|
      invariant (errs == [] <==> forall k :: 0 <= k < i ==> OutcomeValid(d, d.transitions[k]))
    {
      if !OutcomeValid(d, d.transitions[i]) { errs := errs + [BadOutcome(i)]; }
      i := i + 1;
    }
  }

  // ----------------------------------------------------------- rules on paths

  /** Searches the graph breadth first, from `from`, for `to`. */
  method Connects(g: Graph, from: string, to: string) returns (yes: bool)
    ensures yes <==> Reach(g, {}, from, to)
  {
    var seen, queue := {from}, [from];
    ReachHere(g, {}, from);
    ghost var all := {from} + Heads(g);
    while queue != []
      invariant Flooding(g, {}, from, seen, queue) && seen <= all && (to in seen ==> to in queue)
      decreases all - seen, |queue|
    {
      var id := queue[0];
      if id == to { return true; }
      ghost var before := seen;
      seen, queue := Expand(g, {}, from, seen, queue);
      if before != seen { assert all - seen < all - before; }
    }
    if Reach(g, {}, from, to) { ClosedReach(g, {}, seen, from, to); }
    return false;
  }

  /** Every node can be reached from the start. */
  method CheckReachable(d: Definition) returns (errs: seq<Violation>)
    requires OneStart(d.nodes)
    ensures errs == [] <==> AllReachable(d)
  {
    var s := 0;
    while !d.nodes[s].start
      invariant 0 <= s < |d.nodes| && forall k :: 0 <= k < s ==> !d.nodes[k].start
      decreases |d.nodes| - s
    {
      s := s + 1;
    }
    var start := d.nodes[s];
    var reachable := Flood(Adjacency(d), {}, start.id);
    errs := [];
    var i := 0;
    while i < |d.nodes|
      invariant 0 <= i <= |d.nodes|
      invariant errs == [] <==> forall k :: 0 <= k < i && d.nodes[k].id != "" ==> d.nodes[k].id in reachable
    {
      var n := d.nodes[i];
      if n.id != "" && n.id !in reachable { errs := errs + [Unreachable(n.id)]; }
      i := i + 1;
    }
    hide Reach;
    hide Adjacency;
    assert AllReachable(d) <==> forall m :: m in d.nodes && m.id != "" ==> Reach(Adjacency(d), {}, start.id, m.id);
  }

  ghost predicate CastIn(d: Definition, n: Node, nodes: set<string>, o: Outcome) {
    exists x, tr :: x in nodes && CastsAt(d, n, x, tr, o)
  }

  lemma CastMore(d: Definition, n: Node, nodes: set<string>, x: string, o: Outcome)
    ensures CastIn(d, n, nodes + {x}, o) <==>
      CastIn(d, n, nodes, o) || exists tr :: tr in Routes(d, x) && CastsAt(d, n, x, tr, o)
  {
    if CastIn(d, n, nodes, o) {
      var y, tr :| y in nodes && CastsAt(d, n, y, tr, o);
      assert y in nodes + {x};
    }
    if tr :| tr in Routes(d, x) && CastsAt(d, n, x, tr, o) { assert x in nodes + {x}; }
  }

  /** Whether some transition of the branch enters the join with vote `o`. */
  method FindVote(d: Definition, b: Block, i: nat, o: Outcome) returns (found: bool)
    requires IsBlock(d, b.split, b) && i < |b.branches|
    ensures found <==> Answers(d, b.split, i, o)
  {
    var todo := b.branches[i].nodes;
    ghost var nodes := todo;
    assert nodes == BranchNodes(Forward(d), b.split, Routes(d, b.split.id)[i].to);
    hide BranchNodes;
    hide IsBlock;
    hide CastsAt;
    found := false;
    assert nodes - nodes == {};
    assert !CastIn(d, b.split, {}, o);
    hide CastIn;
    while todo != {}
      invariant todo <= nodes
      invariant found <==> CastIn(d, b.split, nodes - todo, o)
      decreases |todo|
    {
      var x :| x in todo;
      assert nodes - (todo - {x}) == (nodes - todo) + {x};
      CastMore(d, b.split, nodes - todo, x, o);
      todo := todo - {x};
      var cast := exists tr :: tr in Routes(d, x) && CastsAt(d, b.split, x, tr, o);
      found := found || cast;
    }
    assert nodes - todo == nodes;
    VoteIs(d, b.split, i, nodes, o);
  }

  lemma VoteIs(d: Definition, n: Node, i: nat, nodes: set<string>, o: Outcome)
    requires i < |Routes(d, n.id)| && nodes == BranchNodes(Forward(d), n, Routes(d, n.id)[i].to)
    ensures CastIn(d, n, nodes, o) <==> Answers(d, n, i, o)
  {
    hide BranchNodes;
    hide CastsAt;
  }

  /** The branches that cannot both approve and reject. */
  method CheckBranchOutcomes(d: Definition, b: Block) returns (errs: seq<Violation>)
    requires IsBlock(d, b.split, b)
    ensures errs == [] <==>
      forall i :: 0 <= i < |Routes(d, b.split.id)| ==>
        Answers(d, b.split, i, Approved) && Answers(d, b.split, i, Rejected)
  {
    hide Answers;
    errs := [];
    var i := 0;
    while i < |b.branches|
      invariant 0 <= i <= |b.branches|
      invariant errs == [] <==> forall k :: 0 <= k < i ==>
        Answers(d, b.split, k, Approved) && Answers(d, b.split, k, Rejected)
    {
      var approves := FindVote(d, b, i, Approved);
      var rejects := FindVote(d, b, i, Rejected);
      if !approves || !rejects { errs := errs + [OneSided(b.split.id, b.branches[i].action)]; }
      i := i + 1;
    }
  }

  /** A verdict join whose decision has no guarded route back to the split. */
  method CheckRejectedRoute(d: Definition, split: Node, join: string) returns (errs: seq<Violation>)
    ensures errs == [] <==> WayBack(d, split, join)
  {
    hide Reach;
    hide Adjacency;
    var out := Routes(d, join);
    if |out| != 1 || !NodeOf(d, out[0].to).kind.Decision? { return []; }
    var routes := Routes(d, out[0].to);
    var i := 0;
    while i < |routes|
      invariant 0 <= i <= |routes|
      invariant forall k :: 0 <= k < i && routes[k].guard != "" ==> !Reach(Adjacency(d), {}, routes[k].to, split.id)
    {
      if routes[i].guard != "" {
        var back := Connects(Adjacency(d), routes[i].to, split.id);
        if back {
          assert routes[i] in routes;
          return [];
        }
      }
      i := i + 1;
    }
    return [NoWayBack(join)];
  }

  method CheckRound(d: Definition, n: Node) returns (errs: seq<Violation>)
    ensures errs == [] <==> RoundValid(d, n)
  {
    hide Answers;
    hide WayBack;
    errs := [];
    if n.kind.Parallel? && IsPolicyJoin(d, n.join) {
      var b := BuildBlock(d, Forward(d), n);
      errs := CheckBranchOutcomes(d, b);
      if !NodeOf(d, n.join).policy.Collect? {
        var more := CheckRejectedRoute(d, n, n.join);
        errs := errs + more;
      }
    }
  }

  method CheckRounds(d: Definition) returns (errs: seq<Violation>)
    ensures errs == [] <==> forall n :: n in d.nodes ==> RoundValid(d, n)
  {
    hide RoundValid;
    errs := [];
    var i := 0;
    while i < |d.nodes|
      invariant 0 <= i <= |d.nodes| && (errs == [] <==> forall k :: 0 <= k < i ==> RoundValid(d, d.nodes[k]))
    {
      var more := CheckRound(d, d.nodes[i]);
      errs := errs + more;
      i := i + 1;
    }
  }

  /** A cycle of automatic nodes only would route forever. */
  method CheckCycles(d: Definition) returns (errs: seq<Violation>)
    ensures errs == [] <==> Acyclic(Gateways(d))
  {
    var ids: seq<string>, i := [], 0;
    while i < |d.nodes|
      invariant 0 <= i <= |d.nodes|
      invariant forall k :: 0 <= k < i && d.nodes[k].id != "" && NodeOf(d, d.nodes[k].id).kind.IsAutomatic() ==>
        d.nodes[k].id in ids
    {
      var n := d.nodes[i];
      if n.id != "" && NodeOf(d, n.id).kind.IsAutomatic() { ids := ids + [n.id]; }
      i := i + 1;
    }
    hide Acyclic;
    var cycle := DetectCycle(ids, Gateways(d));
    return if cycle.Some? then [Cycle(cycle.value)] else [];
  }

  /** Checks a definition: it is silent exactly when the definition is
      accepted. */
  method Validate(d: Definition) returns (errs: seq<Violation>, blocks: seq<Block>)
    ensures AreBlocks(d, blocks)
    ensures errs == [] <==> Accepted(d, blocks)
  {
    hide AreBlocks;
    hide BlocksValid;
    hide NodesValid;
    hide TransitionsValid;
    hide RoutesValid;
    hide ExpiryValid;
    hide PolicyNodeValid;
    hide OutcomeValid;
    hide RoundValid;
    hide Acyclic;
    hide AllReachable;
    errs := CheckNodes(d);
    NodesStart(d);
    if OneStart(d.nodes) {
      var unreachable := CheckReachable(d);
      errs := errs + unreachable;
    }
    var transitions := CheckTransitions(d);
    var routes := CheckRoutes(d);
    var outcomes := CheckOutcomes(d);
    var cycles := CheckCycles(d);
    var rounds := CheckRounds(d);
    var inside;
    inside, blocks := ValidateBlocks(d);
    errs := errs + transitions + routes + outcomes + cycles + rounds + inside;
  }

  lemma NodesStart(d: Definition)
    ensures NodesValid(d) ==> OneStart(d.nodes)
  {
  }
}
