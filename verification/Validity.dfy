/** What a valid definition is, and why a valid definition is sound. */
module Validity {
  import opened Definitions
  import opened Soundness
  import opened Graphs
  import opened Blocks
  import opened Placement
  import opened Cycles

  // ---------------------------------------------------------------- node rules

  /** A node rule that looks at one node only. */
  predicate NodeValid(n: Node) {
    && n.id != ""
    && !(n.start && n.terminal)
    && n.deadline >= 0 && (n.deadline != 0 ==> n.deadlineRule == "")
    && (n.terminal ==> n.assignRule == "")
    && (n.kind.IsAutomatic() ==>
          && !n.start && !n.terminal && n.eligible.IsZero() && n.deadline == 0 && n.deadlineRule == ""
          && n.onExpire == "" && n.assignRule == "")
    && (n.join != "" ==> n.kind.IsSplit())
  }

  predicate OneStart(nodes: seq<Node>) {
    exists i :: 0 <= i < |nodes| && nodes[i].start && forall j :: 0 <= j < |nodes| && nodes[j].start ==> j == i
  }

  predicate NodesValid(d: Definition) {
    && (forall n :: n in d.nodes ==> NodeValid(n))
    && (forall i, j :: 0 <= i < j < |d.nodes| ==> d.nodes[i].id != d.nodes[j].id)
    && OneStart(d.nodes)
    && (exists n :: n in d.nodes && n.terminal)
  }

  // ---------------------------------------------------------- transition rules

  predicate TransitionValid(d: Definition, tr: Transition) {
    && tr.action != ""
    && Has(d, tr.from) && Has(d, tr.to)
    && !NodeOf(d, tr.from).terminal
    && (NodeOf(d, tr.from).kind.IsAutomatic() ==> tr.comment.CommentNone? && !tr.back)
    && (NodeOf(d, tr.from).kind.Parallel? ==> tr.guard == "")
    && (tr.back ==> NodeOf(d, tr.to).kind.Task? && !NodeOf(d, tr.to).terminal)
  }

  predicate TransitionsValid(d: Definition) {
    && (forall tr :: tr in d.transitions ==> TransitionValid(d, tr))
    && (forall i, j :: 0 <= i < j < |d.transitions| ==>
          d.transitions[i].from != d.transitions[j].from || d.transitions[i].action != d.transitions[j].action)
  }

  // --------------------------------------------------------------- route rules

  predicate ExpiryValid(d: Definition, n: Node) {
    n.onExpire != "" && !n.kind.IsAutomatic() ==>
      FindTransition(Routes(d, n.id), n.onExpire).Some? && !FindTransition(Routes(d, n.id), n.onExpire).value.back
  }

  predicate RoutesValid(d: Definition, n: Node) {
    && (n.kind.Join? ==> |Routes(d, n.id)| == 1 && Routes(d, n.id)[0].guard == "")
    && (n.kind.Decision? || n.kind.IsSplit() ==> |Routes(d, n.id)| >= 2)
    && (n.kind.Decision? || n.kind.Inclusive? ==> DefaultLast(Routes(d, n.id)))
    && (!n.terminal ==> Routes(d, n.id) != [])
  }

  // -------------------------------------------------------------- policy rules

  /** The vote a transition casts. */
  predicate OutcomeValid(d: Definition, tr: Transition) {
    if !IsPolicyJoin(d, tr.to) then tr.outcome.NoOutcome?
    else
      && NodeOf(d, tr.from).kind.Task?
      && (tr.outcome.Approved? || tr.outcome.Rejected?)
      && (tr.outcome.Rejected? && !NodeOf(d, tr.to).policy.Collect? ==> tr.comment.CommentRequired?)
  }

  predicate PolicyNodeValid(d: Definition, n: Node) {
    && (!n.policy.NoPolicy? ==> n.kind.Join?)
    && (n.policy.Collect? ==> forall tr :: tr in Routes(d, n.id) ==>
        NodeOf(d, tr.to).kind.Task? && !NodeOf(d, tr.to).terminal)
    && (n.policy.AllApprove? || n.policy.AnyApprove? ==> forall tr :: tr in Routes(d, n.id) ==>
        NodeOf(d, tr.to).kind.Decision?)
    && (n.kind.Inclusive? ==> !IsPolicyJoin(d, n.join))
  }

  // ------------------------------------------------------------------ the whole

  /** The rules the engine's safety rests on. */
  ghost predicate Valid(d: Definition, blocks: seq<Block>) {
    && NodesValid(d) && TransitionsValid(d)
    && (forall n :: n in d.nodes ==> RoutesValid(d, n) && PolicyNodeValid(d, n) && ExpiryValid(d, n))
    && (forall tr :: tr in d.transitions ==> OutcomeValid(d, tr))
    && AreBlocks(d, blocks) && BlocksValid(d, blocks)
  }

  // -------------------------------------------------------- rules on whole paths

  function Tos(trs: seq<Transition>): (next: seq<string>)
    ensures forall x :: x in next <==> exists tr :: tr in trs && tr.to == x
  {
    if trs == [] then []
    else
      assert trs[0] in trs;
      [trs[0].to] + Tos(trs[1..])
  }

  /** Every transition, return or not. */
  function Adjacency(d: Definition): Graph { map n | n in d.nodes :: n.id := Tos(Routes(d, n.id)) }

  function Automatic(d: Definition, ids: seq<string>): (out: seq<string>)
    ensures forall x :: x in out <==> x in ids && Has(d, x) && NodeOf(d, x).kind.IsAutomatic()
  {
    if ids == [] then []
    else (if Has(d, ids[0]) && NodeOf(d, ids[0]).kind.IsAutomatic() then [ids[0]] else []) + Automatic(d, ids[1..])
  }

  /** The transitions between automatic nodes. */
  function Gateways(d: Definition): Graph {
    map n | n in d.nodes && n.id != "" &&
      NodeOf(d, n.id).kind.IsAutomatic() :: n.id := Automatic(d, Tos(Routes(d, n.id)))
  }

  ghost predicate AllReachable(d: Definition) {
    forall n, m :: n in d.nodes && n.start && m in d.nodes && m.id != "" ==> Reach(Adjacency(d), {}, n.id, m.id)
  }

  /** Some transition of branch `i` of split `n` enters the join with vote `o`. */
  ghost predicate Answers(d: Definition, n: Node, i: nat, o: Outcome)
    requires i < |Routes(d, n.id)|
  {
    exists x, tr :: x in BranchNodes(Forward(d), n, Routes(d, n.id)[i].to) && CastsAt(d, n, x, tr, o)
  }

  predicate CastsAt(d: Definition, n: Node, x: string, tr: Transition, o: Outcome) {
    Has(d, x) && tr in Routes(d, x) && tr.to == n.join && tr.outcome == o
  }

  /** A guarded route of the decision behind `join` can go back to the split. */
  ghost predicate WayBack(d: Definition, split: Node, join: string) {
    var out := Routes(d, join);
    |out| == 1 && NodeOf(d, out[0].to).kind.Decision? ==>
      exists r :: r in Routes(d, out[0].to) && r.guard != "" && Reach(Adjacency(d), {}, r.to, split.id)
  }

  /** A round under a policy can be answered both ways and, if it gives a
      verdict, run again. */
  ghost predicate RoundValid(d: Definition, n: Node) {
    n.kind.Parallel? && IsPolicyJoin(d, n.join) ==>
      && (forall i :: 0 <= i < |Routes(d, n.id)| ==> Answers(d, n, i, Approved) && Answers(d, n, i, Rejected))
      && (!NodeOf(d, n.join).policy.Collect? ==> WayBack(d, n, n.join))
  }

  /** Everything a definition is checked for. */
  ghost predicate Accepted(d: Definition, blocks: seq<Block>) {
    && Valid(d, blocks)
    && Acyclic(Gateways(d)) && AllReachable(d)
    && (forall n :: n in d.nodes ==> RoundValid(d, n))
  }

  // ---------------------------------------------------------- valid means sound

  lemma ValidIsLaid(d: Definition, blocks: seq<Block>)
    requires Valid(d, blocks)
    ensures Laid(d, blocks)
  {
    hide BlocksValid;
    hide AreBlocks;
    hide RoutesValid;
    hide PolicyNodeValid;
    hide ExpiryValid;
    hide OutcomeValid;
    forall tr | tr in d.transitions ensures TransitionValid(d, tr) {}
    forall n | n in d.nodes ensures NodeValid(n) {}
  }

  lemma HomeIs(d: Definition, blocks: seq<Block>, id: string)
    requires Has(d, id)
    ensures Home(ChartOf(d, blocks), id) == InnermostOf(blocks, id)
  {
    assert NodeOf(d, id) in d.nodes;
  }

  lemma TerminalInRoot(d: Definition, blocks: seq<Block>, id: string)
    requires Laid(d, blocks) && NodeOf(d, id).terminal
    ensures InnermostOf(blocks, id) == ROOT_KEY
  {
    forall k, i ensures !Holds(blocks, k, i, id) {
      if Holds(blocks, k, i, id) { BranchHasNoTerminal(d, blocks, k, i, id); }
    }
    InnermostOnce(blocks, id, InnermostOf(blocks, id), ROOT_KEY);
  }

  lemma BranchHasNoTerminal(d: Definition, blocks: seq<Block>, k: int, i: int, id: string)
    requires Laid(d, blocks) && Holds(blocks, k, i, id)
    ensures !NodeOf(d, id).terminal
  {
    hide LeadsToJoin;
    hide Laid;
    BlockFacts(d, blocks, k);
    assert BranchClean(d, blocks[k], i);
  }

  lemma RouteIndex(d: Definition, blocks: seq<Block>, k: int, tr: Transition) returns (i: int)
    requires Laid(d, blocks) && 0 <= k < |blocks| && tr in d.transitions && tr.from == blocks[k].split.id
    ensures 0 <= i < |blocks[k].branches| && i < |Routes(d, blocks[k].split.id)|
    ensures tr == Routes(d, blocks[k].split.id)[i]
  {
    hide Laid;
    hide BlockClean;
    BlockFacts(d, blocks, k);
    assert tr in Routes(d, tr.from);
    i :| 0 <= i < |Routes(d, tr.from)| && Routes(d, tr.from)[i] == tr;
  }

  /** Where a transition out of a split leads. */
  lemma SplitPlaced(d: Definition, blocks: seq<Block>, tr: Transition)
    requires Laid(d, blocks) && tr in d.transitions && !tr.back && Has(d, tr.from) && NodeOf(d, tr.from).kind.IsSplit()
    requires Has(d, tr.to)
    ensures NodeOf(d, tr.to).kind.Join? ==> tr.to == NodeOf(d, tr.from).join
    ensures !NodeOf(d, tr.to).kind.Join? ==> InnermostOf(blocks, tr.to).split == tr.from
  {
    hide Laid;
    hide BlockClean;
    var k := BlockOfSplit(d, blocks, NodeOf(d, tr.from));
    BlockFacts(d, blocks, k);
    var i := RouteIndex(d, blocks, k, tr);
    if NodeOf(d, tr.to).kind.Join? {
      var l := BlockOfJoin(d, blocks, NodeOf(d, tr.to));
      SplitToJoin(d, blocks, k, i, l, tr);
    } else {
      SplitEdge(d, blocks, k, i, tr);
    }
  }

  /** Where a transition into a join comes from. */
  lemma JoinPlaced(d: Definition, blocks: seq<Block>, tr: Transition)
    requires Laid(d, blocks) && tr in d.transitions && !tr.back && Has(d, tr.from) && !NodeOf(d, tr.from).kind.IsSplit()
    requires Has(d, tr.to) && NodeOf(d, tr.to).kind.Join?
    ensures var s := InnermostOf(blocks, tr.from).split; s != "" && IsSplitNode(d, s) && NodeOf(d, s).join == tr.to
  {
    hide Laid;
    hide BlockClean;
    var k := BlockOfJoin(d, blocks, NodeOf(d, tr.to));
    BlockFacts(d, blocks, k);
    JoinEdge(d, blocks, k, tr);
    NamedSplit(d, blocks, k);
  }

  lemma NamedSplit(d: Definition, blocks: seq<Block>, k: int)
    requires Laid(d, blocks) && 0 <= k < |blocks|
    ensures blocks[k].split.id != ""
  {
  }

  lemma EdgePlaced(d: Definition, blocks: seq<Block>, tr: Transition)
    requires Laid(d, blocks) && tr in d.transitions && Has(d, tr.from) && Has(d, tr.to)
    requires tr.back ==> NodeOf(d, tr.from).kind.Task? && NodeOf(d, tr.to).kind.Task?
    ensures !NodeOf(d, tr.to).kind.Join? && !NodeOf(d, tr.from).kind.IsSplit() ==>
      InnermostOf(blocks, tr.to) == InnermostOf(blocks, tr.from)
  {
    if tr.back {
      ReturnFacts(d, blocks, tr);
    } else if !NodeOf(d, tr.to).kind.Join? && !NodeOf(d, tr.from).kind.IsSplit() {
      PlainEdge(d, blocks, tr);
    }
  }

  lemma ReturnFacts(d: Definition, blocks: seq<Block>, tr: Transition)
    requires Laid(d, blocks) && tr in d.transitions && tr.back && Has(d, tr.from) && Has(d, tr.to)
    ensures InnermostOf(blocks, tr.to) == InnermostOf(blocks, tr.from)
  {
    hide BlockClean;
    hide Forest;
    hide AreBlocks;
  }

  lemma EdgesSound(d: Definition, blocks: seq<Block>, tr: Transition)
    requires Laid(d, blocks) && tr in d.transitions && TransitionValid(d, tr) && OutcomeValid(d, tr)
    requires forall n :: n in d.nodes ==> NodeValid(n)
    ensures EdgeSound(ChartOf(d, blocks), tr)
  {
    hide Laid;
    hide ChartOf;
    var c, f, t := ChartOf(d, blocks), NodeOf(d, tr.from), NodeOf(d, tr.to);
    ChartIs(d, blocks);
    HomeIs(d, blocks, tr.from);
    HomeIs(d, blocks, tr.to);
    assert NodeValid(t) && NodeValid(f);
    EdgePlaced(d, blocks, tr);
    if f.kind.IsSplit() { SplitPlaced(d, blocks, tr); }
    if !f.kind.IsSplit() && t.kind.Join? { JoinPlaced(d, blocks, tr); }
    if t.terminal { TerminalInRoot(d, blocks, tr.to); }
  }

  lemma ChartIs(d: Definition, blocks: seq<Block>)
    ensures ChartOf(d, blocks).d == d && ChartOf(d, blocks).root == ""
  {
  }

  lemma NodesSound(d: Definition, blocks: seq<Block>, n: Node)
    requires Laid(d, blocks) && n in d.nodes && NodeValid(n) && RoutesValid(d, n)
    ensures NodeSound(ChartOf(d, blocks), n)
  {
    hide Laid;
    hide ChartOf;
    hide BlockClean;
    ChartIs(d, blocks);
    if n.kind.IsSplit() {
      var k := BlockOfSplit(d, blocks, n);
      BlockFacts(d, blocks, k);
      SplitAndJoin(d, blocks, k);
      HomeIs(d, blocks, n.id);
      HomeIs(d, blocks, n.join);
    }
  }

  /** A valid definition is sound: every transition keeps its token in the branch
      its scope stands for, and every gateway can be left. */
  lemma ValidIsSound(d: Definition, blocks: seq<Block>)
    requires Valid(d, blocks)
    ensures Sound(ChartOf(d, blocks))
  {
    ValidIsLaid(d, blocks);
    hide Laid;
    hide BlocksValid;
    hide AreBlocks;
    hide ChartOf;
    hide EdgeSound;
    hide NodeSound;
    hide RoutesValid;
    hide OutcomeValid;
    hide PolicyNodeValid;
    hide ExpiryValid;
    ChartIs(d, blocks);
    var c := ChartOf(d, blocks);
    assert !Has(d, "") by { assert forall n :: n in d.nodes ==> NodeValid(n); }
    forall n | n in d.nodes ensures NodeValid(n) {}
    hide NodeValid;
    forall tr | tr in c.d.transitions ensures EdgeSound(c, tr) { EdgesSound(d, blocks, tr); }
    forall n | n in c.d.nodes ensures NodeSound(c, n) { NodesSound(d, blocks, n); }
  }

  /** A valid definition has a start task to rest on. */
  lemma ValidStarts(d: Definition, blocks: seq<Block>, i: nat)
    requires Valid(d, blocks) && i < |d.nodes| && d.nodes[i].start
    ensures Rests(d, d.nodes[i].id) && NodeOf(d, d.nodes[i].id) == d.nodes[i]
    ensures forall j :: 0 <= j < |d.nodes| && d.nodes[j].start ==> j == i
  {
    hide BlocksValid;
    hide AreBlocks;
    assert NodeValid(d.nodes[i]);
    NodeIs(d, d.nodes[i]);
  }

  lemma ValidHasStart(d: Definition, blocks: seq<Block>) returns (i: nat)
    requires Valid(d, blocks)
    ensures i < |d.nodes| && d.nodes[i].start
  {
    hide BlocksValid;
    hide AreBlocks;
    i :| 0 <= i < |d.nodes| && d.nodes[i].start;
  }
}
