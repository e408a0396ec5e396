/** A definition the rules accept although its start task lies inside a branch:
    the one thing the engine needs and no rule asks for. */
module StartInside {
  import opened Definitions
  import opened Soundness
  import opened Tokens
  import opened Invariant
  import opened Closings
  import opened Graphs
  import opened Blocks
  import opened Placement
  import opened Validity
  import opened Cycles

  function Bare(id: string, start: bool, terminal: bool, kind: Kind, join: string): Node {
    Node(id, start, terminal, kind, join, NoPolicy, "", NO_ELIGIBILITY, 0, "", "")
  }

  function Way(from: string, to: string, action: string): Transition {
    Transition(from, to, action, "", CommentNone, false, NoOutcome)
  }

  const DRAFT := Bare("d", true, false, Task, "")
  const FORK := Bare("f", false, false, Parallel, "m")
  const CHECK := Bare("c", false, false, Task, "")
  const MEET := Bare("m", false, false, Join, "")
  const DECIDE := Bare("k", false, false, Task, "")
  const END := Bare("e", false, true, Task, "")

  const T0 := Way("d", "m", "x")
  const T1 := Way("m", "k", "o")
  const T2 := Way("k", "f", "a")
  const T3 := Way("k", "e", "z")
  const T4 := Way("f", "d", "1")
  const T5 := Way("f", "c", "2")
  const T6 := Way("c", "m", "x")

  const FORKED := Definition(
    [DRAFT, FORK, CHECK, MEET, DECIDE, END],
    [T0] + ([T1] + MIDDLE))

  const FORK_BLOCK := Block(FORK, "m", [Branch("1", {"d"}, false), Branch("2", {"c"}, false)])

  lemma Lookups()
    ensures FindNode(FORKED.nodes, "d") == Some(DRAFT) && FindNode(FORKED.nodes, "f") == Some(FORK)
    ensures FindNode(FORKED.nodes, "c") == Some(CHECK) && FindNode(FORKED.nodes, "m") == Some(MEET)
    ensures FindNode(FORKED.nodes, "k") == Some(DECIDE) && FindNode(FORKED.nodes, "e") == Some(END)
  {
    FindFirst(FORKED.nodes, 0);
    FindFirst(FORKED.nodes, 1);
    FindFirst(FORKED.nodes, 2);
    FindFirst(FORKED.nodes, 3);
    FindFirst(FORKED.nodes, 4);
    FindFirst(FORKED.nodes, 5);
  }

  lemma FromSkip(x: Transition, rest: seq<Transition>, id: string)
    requires x.from != id
    ensures From([x] + rest, id) == From(rest, id)
  {
    assert ([x] + rest)[1..] == rest;
  }

  lemma FromTake(x: Transition, rest: seq<Transition>, id: string)
    requires x.from == id
    ensures From([x] + rest, id) == [x] + From(rest, id)
  {
    assert ([x] + rest)[1..] == rest;
  }

  lemma FromCons(x: Transition, rest: seq<Transition>, id: string)
    ensures From([x] + rest, id) == if x.from == id then [x] + From(rest, id) else From(rest, id)
  {
    if x.from == id { FromTake(x, rest, id); } else { FromSkip(x, rest, id); }
  }

  const LATER := [T4] + ([T5] + [T6])

  lemma LaterRoutes(id: string)
    ensures From(LATER, id) == if id == "f" then [T4, T5] else if id == "c" then [T6] else []
  {
    hide From;
    FromLast(T6, id);
    FromCons(T5, [T6], id);
    FromCons(T4, [T5] + [T6], id);
  }

  const MIDDLE := [T2] + ([T3] + LATER)

  lemma MiddleRoutes(id: string)
    ensures From(MIDDLE, id) ==
      if id == "k" then [T2, T3] else if id == "f" then [T4, T5] else if id == "c" then [T6] else []
  {
    hide From;
    LaterRoutes(id);
    FromCons(T3, LATER, id);
    FromCons(T2, [T3] + LATER, id);
  }

  lemma RoutesOf(id: string)
    ensures id == "d" ==> Routes(FORKED, id) == [T0]
    ensures id == "m" ==> Routes(FORKED, id) == [T1]
    ensures id == "k" ==> Routes(FORKED, id) == [T2, T3]
    ensures id == "f" ==> Routes(FORKED, id) == [T4, T5]
    ensures id == "c" ==> Routes(FORKED, id) == [T6]
    ensures id == "e" ==> Routes(FORKED, id) == []
  {
    hide From;
    MiddleRoutes(id);
    FromCons(T1, MIDDLE, id);
    FromCons(T0, [T1] + MIDDLE, id);
  }

  lemma FromLast(x: Transition, id: string)
    ensures From([x], id) == if x.from == id then [x] else []
  {
  }

  predicate Known(id: string) { id in {"d", "f", "c", "m", "k", "e"} }

  lemma NodesAre(n: Node)
    ensures n in FORKED.nodes <==> n in {DRAFT, FORK, CHECK, MEET, DECIDE, END}
    ensures n in FORKED.nodes ==> Known(n.id)
  {
  }

  lemma TransitionsAre(tr: Transition)
    ensures tr in FORKED.transitions <==> tr in {T0, T1, T2, T3, T4, T5, T6}
  {
    assert tr in MIDDLE <==> tr in {T2, T3, T4, T5, T6} by { assert tr in LATER <==> tr in {T4, T5, T6}; }
  }

  lemma HasKnown(id: string)
    ensures Has(FORKED, id) <==> Known(id)
  {
    Lookups();
    if Has(FORKED, id) { NodesAre(NodeOf(FORKED, id)); }
  }

  lemma Ways(id: string)
    ensures id == "d" ==> Succ(Forward(FORKED), id) == ["m"]
    ensures id == "m" ==> Succ(Forward(FORKED), id) == ["k"]
    ensures id == "c" ==> Succ(Forward(FORKED), id) == ["m"]
  {
    RoutesOf(id);
    HasKnown(id);
    if Known(id) {
      assert NodeOf(FORKED, id) in FORKED.nodes;
      AheadOne(T0);
      AheadOne(T1);
      AheadOne(T6);
    }
  }

  lemma AheadOne(tr: Transition)
    requires !tr.back
    ensures Ahead([tr]) == [tr.to]
  {
  }

  /** A branch of one node that leads straight to the join. */
  lemma BranchOfOne(g: Graph, s: Node, tr: Transition)
    requires Succ(g, tr.to) == [s.join] && s.id != s.join && tr.to !in Fence(s)
    ensures IsBranch(g, s, tr, Branch(tr.action, {tr.to}, false))
  {
    ReachHere(g, Fence(s), tr.to);
    forall x | Reach(g, Fence(s), tr.to, x) ensures x == tr.to {
      assert Closed(g, Fence(s), {tr.to});
      ClosedReach(g, Fence(s), {tr.to}, tr.to, x);
    }
    assert BranchNodes(g, s, tr.to) == {tr.to};
  }

  lemma ForkIsBlock()
    ensures IsBlock(FORKED, FORK, FORK_BLOCK)
  {
    hide Forward;
    hide Routes;
    RoutesOf("f");
    Ways("d");
    Ways("c");
    BranchOfOne(Forward(FORKED), FORK, T4);
    BranchOfOne(Forward(FORKED), FORK, T5);
  }

  lemma NamedStep(d: Definition, nodes: seq<Node>, n: Node)
    ensures Named(d, nodes + [n]) == Named(d, nodes) + (if Joinable(d, n) then [n] else [])
  {
    assert (nodes + [n])[..|nodes|] == nodes;
  }

  lemma ForkJoinable()
    ensures Joinable(FORKED, FORK)
  {
    Lookups();
  }

  /** Nodes that are no splits add nothing. */
  lemma {:induction false} NamedOnly(d: Definition, nodes: seq<Node>, n: Node, more: seq<Node>)
    requires Named(d, nodes) == [] && Joinable(d, n) && forall m :: m in more ==> !Joinable(d, m)
    ensures Named(d, nodes + [n] + more) == [n]
    decreases |more|
  {
    hide Named;
    hide Joinable;
    if more == [] {
      NamedStep(d, nodes, n);
      assert nodes + [n] + more == nodes + [n];
    } else {
      var k := |more| - 1;
      NamedOnly(d, nodes, n, more[..k]);
      assert nodes + [n] + more == (nodes + [n] + more[..k]) + [more[k]];
      NamedStep(d, nodes + [n] + more[..k], more[k]);
    }
  }

  lemma OnlySplit()
    ensures Named(FORKED, FORKED.nodes) == [FORK]
  {
    ForkJoinable();
    hide Named;
    hide IsJoinNode;
    NoneNamed(FORKED);
    NamedStep(FORKED, [], DRAFT);
    assert [] + [DRAFT] == [DRAFT];
    NamedOnly(FORKED, [DRAFT], FORK, [CHECK, MEET, DECIDE, END]);
    assert FORKED.nodes == [DRAFT] + [FORK] + [CHECK, MEET, DECIDE, END];
  }

  lemma NoneNamed(d: Definition)
    ensures Named(d, []) == []
  {
  }

  const FORK_BLOCKS := [FORK_BLOCK]

  lemma InteriorIs(x: string)
    ensures Interior(FORK_BLOCK, x) <==> x == "d" || x == "c"
  {
    var b := FORK_BLOCK.branches;
    assert b[0].nodes == {"d"} && b[1].nodes == {"c"};
  }

  lemma StraightOut(d: Definition, x: string, join: string, tr: Transition)
    requires tr in d.transitions && !tr.back && tr.from == x && tr.to == join
    ensures WayOut(d, {x}, join, [x, join])
  {
    assert Leads(d, x, join);
  }

  lemma CleanBranch(d: Definition, b: Block, i: nat, x: string)
    requires i < |b.branches| && b.branches[i].nodes == {x} && !b.branches[i].reenters && !NodeOf(d, x).terminal
    requires WayOut(d, {x}, b.join, [x, b.join])
    requires forall j :: i < j < |b.branches| ==> x !in b.branches[j].nodes
    ensures BranchClean(d, b, i)
  {
    hide WayOut;
    assert LeadsToJoin(d, b, i, x);
  }

  lemma ForkEntries()
    ensures SingleEntry(FORKED, FORK_BLOCK)
  {
    hide Interior;
    var b := FORK_BLOCK;
    forall tr | tr in FORKED.transitions && !tr.back && (Interior(b, tr.to) || tr.to == b.join)
      ensures tr.from == b.split.id || Interior(b, tr.from)
    {
      TransitionsAre(tr);
      InteriorIs(tr.to);
      InteriorIs(tr.from);
    }
  }

  lemma DraftBranchClean()
    ensures BranchClean(FORKED, FORK_BLOCK, 0)
  {
    hide WayOut;
    hide BranchClean;
    hide NodeOf;
    NotTerminal();
    TransitionsAre(T0);
    StraightOut(FORKED, "d", "m", T0);
    CleanBranch(FORKED, FORK_BLOCK, 0, "d");
  }

  lemma CheckBranchClean()
    ensures BranchClean(FORKED, FORK_BLOCK, 1)
  {
    hide WayOut;
    hide BranchClean;
    hide NodeOf;
    NotTerminal();
    TransitionsAre(T6);
    StraightOut(FORKED, "c", "m", T6);
    CleanBranch(FORKED, FORK_BLOCK, 1, "c");
  }

  lemma NotTerminal()
    ensures !NodeOf(FORKED, "d").terminal && !NodeOf(FORKED, "c").terminal
  {
    Lookups();
  }

  lemma ForkIsClean()
    ensures BlockClean(FORKED, FORK_BLOCK)
  {
    hide BranchClean;
    hide SingleEntry;
    DraftBranchClean();
    CheckBranchClean();
    ForkEntries();
    assert |FORK_BLOCK.branches| == 2;
  }

  lemma ForkPaired()
    ensures Paired(FORKED)
  {
    hide Named;
    OnlySplit();
    ForkJoinable();
    hide Joinable;
    NamingFork();
    forall n | n in FORKED.nodes && n.id != "" && n.kind.IsSplit() ensures Joinable(FORKED, n) { NodesAre(n); }
    forall j | j in FORKED.nodes && j.id != "" && j.kind.Join?
      ensures |Naming(Named(FORKED, FORKED.nodes), j.id)| == 1
    {
      NodesAre(j);
    }
  }

  lemma NamingFork()
    ensures Naming([FORK], "m") == ["f"]
  {
  }

  lemma ForkReturns()
    ensures ReturnsStay(FORKED, FORK_BLOCKS)
  {
    forall tr | tr in FORKED.transitions ensures !tr.back { TransitionsAre(tr); }
  }

  lemma ForkBlocksValid()
    ensures AreBlocks(FORKED, FORK_BLOCKS) && BlocksValid(FORKED, FORK_BLOCKS)
  {
    hide BlockClean;
    hide IsBlock;
    hide Named;
    hide Paired;
    hide ReturnsStay;
    OnlySplit();
    ForkIsBlock();
    ForkIsClean();
    ForkPaired();
    ForkReturns();
  }

  lemma ForkNodesValid()
    ensures NodesValid(FORKED)
  {
    forall n | n in FORKED.nodes ensures NodeValid(n) { NodesAre(n); }
    var n := FORKED.nodes;
    assert n[0].start && forall j :: 0 <= j < |n| && n[j].start ==> j == 0;
    assert END in n && END.terminal;
  }

  lemma TransitionList()
    ensures FORKED.transitions == [T0, T1, T2, T3, T4, T5, T6]
  {
  }

  lemma ForkTransitionValid(tr: Transition)
    requires tr in FORKED.transitions
    ensures TransitionValid(FORKED, tr)
  {
    Lookups();
    TransitionsAre(tr);
  }

  lemma ForkTransitionsValid()
    ensures TransitionsValid(FORKED)
  {
    hide TransitionValid;
    TransitionList();
    forall tr | tr in FORKED.transitions ensures TransitionValid(FORKED, tr) { ForkTransitionValid(tr); }
  }

  lemma ForkRoutesValid(n: Node)
    requires n in FORKED.nodes
    ensures RoutesValid(FORKED, n)
  {
    hide Routes;
    NodesAre(n);
    RoutesOf(n.id);
  }

  lemma ForkOthersValid(n: Node)
    requires n in FORKED.nodes
    ensures PolicyNodeValid(FORKED, n) && ExpiryValid(FORKED, n) && RoundValid(FORKED, n)
  {
    hide Routes;
    hide Answers;
    hide WayBack;
    NodesAre(n);
    NoPolicyJoin(n.join);
  }

  lemma NoPolicyJoin(id: string)
    ensures !IsPolicyJoin(FORKED, id)
  {
    if Has(FORKED, id) { NodesAre(NodeOf(FORKED, id)); }
  }

  lemma ForkOutcomesValid(tr: Transition)
    requires tr in FORKED.transitions
    ensures OutcomeValid(FORKED, tr)
  {
    TransitionsAre(tr);
    Lookups();
  }

  lemma NoGatewayEdge(x: string, y: string)
    ensures !Edge(Gateways(FORKED), x, y)
  {
    if x in Gateways(FORKED) {
      HasKnown(x);
      Lookups();
      hide Gateways;
      GatewayTargets(x, y);
    }
  }

  lemma GatewayTargets(x: string, y: string)
    requires x == "f" || x == "m"
    ensures y in Tos(Routes(FORKED, x)) ==> y in {"d", "c", "k"}
  {
    hide Routes;
    RoutesOf(x);
  }

  lemma ForkAcyclic()
    ensures Acyclic(Gateways(FORKED))
  {
    var g := Gateways(FORKED);
    var rank := map x | x in g :: 0;
    forall x, y ensures !Edge(g, x, y) { NoGatewayEdge(x, y); }
    hide Gateways;
    RankedIsAcyclic(g, rank);
  }

  lemma Onward(d: Definition, a: string, tr: Transition)
    requires Reach(Adjacency(d), {}, a, tr.from) && tr in d.transitions && Has(d, tr.from)
    ensures Reach(Adjacency(d), {}, a, tr.to)
  {
    assert NodeOf(d, tr.from) in d.nodes && tr in Routes(d, tr.from);
    ReachOn(Adjacency(d), {}, a, tr.from, tr.to);
  }

  lemma ForkReachable()
    ensures AllReachable(FORKED)
  {
    hide Adjacency;
    hide Reach;
    hide Has;
    ReachHere(Adjacency(FORKED), {}, "d");
    HasKnown("d");
    HasKnown("m");
    HasKnown("k");
    HasKnown("f");
    TransitionsAre(T0);
    TransitionsAre(T1);
    TransitionsAre(T2);
    TransitionsAre(T3);
    TransitionsAre(T5);
    Onward(FORKED, "d", T0);
    Onward(FORKED, "d", T1);
    Onward(FORKED, "d", T2);
    Onward(FORKED, "d", T3);
    Onward(FORKED, "d", T5);
    forall n, m | n in FORKED.nodes && n.start && m in FORKED.nodes && m.id != ""
      ensures Reach(Adjacency(FORKED), {}, n.id, m.id)
    {
      NodesAre(n);
      NodesAre(m);
    }
  }

  lemma Accept(d: Definition, blocks: seq<Block>)
    requires NodesValid(d) && TransitionsValid(d) && AreBlocks(d, blocks) && BlocksValid(d, blocks)
    requires Acyclic(Gateways(d)) && AllReachable(d)
    requires forall n :: n in d.nodes ==>
      RoutesValid(d, n) && PolicyNodeValid(d, n) && ExpiryValid(d, n) && RoundValid(d, n)
    requires forall tr :: tr in d.transitions ==> OutcomeValid(d, tr)
    ensures Accepted(d, blocks)
  {
  }

  lemma ForkEachValid()
    ensures forall n :: n in FORKED.nodes ==>
      RoutesValid(FORKED, n) && PolicyNodeValid(FORKED, n) && ExpiryValid(FORKED, n) && RoundValid(FORKED, n)
    ensures forall tr :: tr in FORKED.transitions ==> OutcomeValid(FORKED, tr)
  {
    hide *;
    forall n | n in FORKED.nodes
      ensures RoutesValid(FORKED, n) && PolicyNodeValid(FORKED, n) && ExpiryValid(FORKED, n) && RoundValid(FORKED, n)
    {
      ForkRoutesValid(n);
      ForkOthersValid(n);
    }
    forall tr | tr in FORKED.transitions ensures OutcomeValid(FORKED, tr) { ForkOutcomesValid(tr); }
  }

  lemma ForkAccepted()
    ensures Accepted(FORKED, FORK_BLOCKS)
  {
    hide *;
    ForkNodesValid();
    ForkTransitionsValid();
    ForkBlocksValid();
    ForkAcyclic();
    ForkReachable();
    ForkEachValid();
    Accept(FORKED, FORK_BLOCKS);
  }

  lemma DraftHome()
    ensures Home(ChartOf(FORKED, FORK_BLOCKS), "d") == BranchKey("f", 1)
  {
    hide ChartOf;
    hide InnermostOf;
    HasKnown("d");
    HomeIs(FORKED, FORK_BLOCKS, "d");
    assert FORK_BLOCKS[0].branches[0].nodes == {"d"} && FORK_BLOCKS[0].branches[1].nodes == {"c"};
    assert Holds(FORK_BLOCKS, 0, 0, "d");
    StrictlySmallest(FORK_BLOCKS, "d", 0, 0);
  }

  lemma DraftRests()
    ensures Rests(FORKED, "d") && IsJoinNode(FORKED, "m")
  {
    Lookups();
  }

  /** Every rule accepts the definition, yet its start task lies in a branch of
      the fork: a case opened on it breaks the invariant at once, and the start
      task's only transition leads to a join its scope does not have. */
  lemma StartInsideBlock(unit: string, due: Option<int>, at: int)
    ensures Accepted(FORKED, FORK_BLOCKS)
    ensures Home(ChartOf(FORKED, FORK_BLOCKS), "d") == BranchKey("f", 1)
    ensures var g := AfterOpen(FORKED, unit, "d", due, at);
      && !Quiet(ChartOf(FORKED, FORK_BLOCKS), g)
      && Routes(FORKED, "d") == [T0] && IsJoinNode(FORKED, T0.to) && g.scopes[ROOT].joinNode != T0.to
  {
    hide Accepted;
    hide ChartOf;
    hide IsJoinNode;
    hide Rests;
    hide Routes;
    hide Quiet;
    ForkAccepted();
    DraftRests();
    RoutesOf("d");
    DraftHome();
    ChartIs(FORKED, FORK_BLOCKS);
    OpenStep(ChartOf(FORKED, FORK_BLOCKS), unit, "d", due, at);
  }
}
