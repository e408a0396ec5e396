/** Definitions the rules accept although no token can be routed through them:
    `n` decisions in a row, every route of each leading to the next. */
module LongChains {
  import opened Definitions
  import opened Soundness
  import opened Graphs
  import opened Blocks
  import opened Placement
  import opened Validity
  import opened Cycles
  import opened Budget
  import opened StartInside
  import opened Caps

  function Name(i: nat): (id: string)
    ensures |id| == i + 1
  {
    seq(i + 1, _ => 'x')
  }

  function NodeAt(n: nat, i: nat): Node {
    Bare(Name(i), i == 0, i == n + 1, if 1 <= i <= n then Decision else Task, "")
  }

  /** The guarded and the default route out of place `i`. */
  function Guarded(i: nat): Transition { Way(Name(i), Name(i + 1), "yes").(guard := "g") }

  function Default(i: nat): Transition { Way(Name(i), Name(i + 1), "no") }

  function Ways(n: nat): seq<Transition> {
    if n == 0 then [Default(0)] else Ways(n - 1) + [Guarded(n), Default(n)]
  }

  /** A start task, `n` decisions and an end. */
  function ChainOf(n: nat): Definition { Definition(seq(n + 2, i requires 0 <= i => NodeAt(n, i)), Ways(n)) }

  lemma NodesOfChain(n: nat, node: Node)
    ensures node in ChainOf(n).nodes <==> exists i: nat :: i < n + 2 && node == NodeAt(n, i)
  {
    var nodes := ChainOf(n).nodes;
    if i: nat :| i < n + 2 && node == NodeAt(n, i) { assert nodes[i] == node; }
  }

  lemma FoundAt(n: nat, i: nat)
    requires i < n + 2
    ensures Has(ChainOf(n), Name(i)) && NodeOf(ChainOf(n), Name(i)) == NodeAt(n, i)
  {
    NodesOfChain(n, NodeAt(n, i));
    assert NodeAt(n, i) in ChainOf(n).nodes && NodeAt(n, i).id == Name(i);
    var found := NodeOf(ChainOf(n), Name(i));
    NodesOfChain(n, found);
    var k: nat :| k < n + 2 && found == NodeAt(n, k);
    assert |Name(k)| == k + 1 && |Name(i)| == i + 1;
  }

  lemma {:induction false} WaysOf(n: nat, tr: Transition) returns (i: nat)
    requires tr in Ways(n)
    ensures i <= n && tr.from == Name(i) && tr.to == Name(i + 1) && (tr == Default(i) || (i > 0 && tr == Guarded(i)))
  {
    if n > 0 && tr in Ways(n - 1) { i := WaysOf(n - 1, tr); } else { i := n; }
  }

  lemma {:induction false} FromPlus(a: seq<Transition>, b: seq<Transition>, id: string)
    ensures From(a + b, id) == From(a, id) + From(b, id)
  {
    if a == [] {
      assert a + b == b;
    } else {
      FromPlus(a[1..], b, id);
      assert (a + b)[1..] == a[1..] + b && (a + b)[0] == a[0];
    }
  }

  lemma {:induction false} RoutesAt(n: nat, i: nat)
    ensures From(Ways(n), Name(i)) == if i > n then [] else if i == 0 then [Default(0)] else [Guarded(i), Default(i)]
  {
    assert |Name(i)| == i + 1 && |Name(n)| == n + 1 && |Name(0)| == 1;
    assert From([], Name(i)) == [];
    if n == 0 {
      assert [Default(0)][1..] == [];
    } else {
      RoutesAt(n - 1, i);
      FromPlus(Ways(n - 1), [Guarded(n), Default(n)], Name(i));
      assert [Guarded(n), Default(n)][1..] == [Default(n)] && [Default(n)][1..] == [];
    }
  }

  lemma DefaultIs(n: nat, i: nat)
    requires i <= n
    ensures Default(i) in ChainOf(n).transitions && Default(i).from == Name(i) && Default(i).to == Name(i + 1)
    ensures Has(ChainOf(n), Name(i))
  {
    RoutesAt(n, i);
    FoundAt(n, i);
    assert Default(i) in From(Ways(n), Name(i));
  }

  lemma {:induction false} ActionsDiffer(n: nat, i: nat, j: nat)
    requires i < j < |Ways(n)|
    ensures Ways(n)[i].from != Ways(n)[j].from || Ways(n)[i].action != Ways(n)[j].action
  {
    if n > 0 {
      var m := |Ways(n - 1)|;
      if j < m {
        ActionsDiffer(n - 1, i, j);
      } else if i < m {
        var k := WaysOf(n - 1, Ways(n - 1)[i]);
        assert |Name(k)| == k + 1 && |Name(n)| == n + 1;
      }
    }
  }

  lemma ChainNodesValid(n: nat)
    ensures NodesValid(ChainOf(n))
  {
    var d := ChainOf(n);
    forall node | node in d.nodes ensures NodeValid(node) { NodesOfChain(n, node); }
    forall i, j | 0 <= i < j < |d.nodes| ensures d.nodes[i].id != d.nodes[j].id {
      assert |Name(i)| == i + 1 && |Name(j)| == j + 1;
    }
    assert d.nodes[0].start && forall j :: 0 <= j < |d.nodes| && d.nodes[j].start ==> j == 0;
    assert d.nodes[n + 1].terminal && d.nodes[n + 1] in d.nodes;
  }

  lemma ChainTransitionsValid(n: nat)
    ensures TransitionsValid(ChainOf(n))
    ensures forall tr :: tr in ChainOf(n).transitions ==> OutcomeValid(ChainOf(n), tr)
  {
    var d := ChainOf(n);
    forall tr | tr in d.transitions ensures TransitionValid(d, tr) && OutcomeValid(d, tr) {
      var i := WaysOf(n, tr);
      FoundAt(n, i);
      FoundAt(n, i + 1);
    }
    forall i, j | 0 <= i < j < |d.transitions|
      ensures d.transitions[i].from != d.transitions[j].from || d.transitions[i].action != d.transitions[j].action
    {
      ActionsDiffer(n, i, j);
    }
  }

  /** A task or decision without policy or expiry rule only needs its routes. */
  lemma SimpleNodeValid(d: Definition, node: Node)
    requires (node.kind.Task? || node.kind.Decision?) && node.policy.NoPolicy? && node.onExpire == ""
    requires node.kind.Decision? ==> |Routes(d, node.id)| >= 2 && DefaultLast(Routes(d, node.id))
    requires !node.terminal ==> Routes(d, node.id) != []
    ensures RoutesValid(d, node) && PolicyNodeValid(d, node) && ExpiryValid(d, node) && RoundValid(d, node)
  {
  }

  lemma ChainEachValid(n: nat, node: Node)
    requires node in ChainOf(n).nodes
    ensures RoutesValid(ChainOf(n), node) && PolicyNodeValid(ChainOf(n), node) && ExpiryValid(ChainOf(n), node)
    ensures RoundValid(ChainOf(n), node)
  {
    hide RoutesValid;
    hide PolicyNodeValid;
    hide ExpiryValid;
    hide RoundValid;
    NodesOfChain(n, node);
    var i: nat :| i < n + 2 && node == NodeAt(n, i);
    RoutesAt(n, i);
    hide From;
    SimpleNodeValid(ChainOf(n), node);
  }

  lemma {:induction false} NoneJoinable(d: Definition, nodes: seq<Node>)
    requires forall n :: n in nodes ==> !n.kind.IsSplit()
    ensures Named(d, nodes) == []
  {
    if nodes != [] { NoneJoinable(d, nodes[..|nodes| - 1]); }
  }

  lemma ChainBlocksValid(n: nat)
    ensures AreBlocks(ChainOf(n), []) && BlocksValid(ChainOf(n), [])
  {
    var d := ChainOf(n);
    forall node | node in d.nodes ensures node.kind.Task? || node.kind.Decision? { NodesOfChain(n, node); }
    NoneJoinable(d, d.nodes);
    forall tr | tr in d.transitions ensures !tr.back { var i := WaysOf(n, tr); }
    hide ChainOf;
  }

  lemma ChainAcyclic(n: nat)
    ensures Acyclic(Gateways(ChainOf(n)))
  {
    var g := Gateways(ChainOf(n));
    hide Gateways;
    hide Acyclic;
    hide ChainOf;
    var rank := map x: string | x in g.Keys + Heads(g) :: if |x| <= n + 2 then n + 2 - |x| else 0;
    forall x, y | x in rank && Edge(g, x, y) ensures y in rank && rank[y] < rank[x] {
      EdgeHead(g, x, y);
      ChainEdge(n, x, y);
    }
    RankedIsAcyclic(g, rank);
  }

  lemma ChainEdge(n: nat, x: string, y: string)
    requires Edge(Gateways(ChainOf(n)), x, y)
    ensures |y| == |x| + 1 <= n + 2
  {
    GatewayEdgeBack(ChainOf(n), x, y);
    hide Gateways;
    var tr :| tr in ChainOf(n).transitions && tr.from == x && tr.to == y;
    var i := WaysOf(n, tr);
  }

  lemma {:induction false} ChainReaches(n: nat, i: nat)
    requires i < n + 2
    ensures Reach(Adjacency(ChainOf(n)), {}, Name(0), Name(i))
  {
    hide *;
    if i == 0 {
      ReachHere(Adjacency(ChainOf(n)), {}, Name(0));
    } else {
      ChainReaches(n, i - 1);
      DefaultIs(n, i - 1);
      Onward(ChainOf(n), Name(0), Default(i - 1));
    }
  }

  lemma ChainReachable(n: nat)
    ensures AllReachable(ChainOf(n))
  {
    hide Adjacency;
    hide Reach;
    var d := ChainOf(n);
    forall a, b | a in d.nodes && a.start && b in d.nodes && b.id != "" ensures Reach(Adjacency(d), {}, a.id, b.id) {
      NodesOfChain(n, a);
      NodesOfChain(n, b);
      var i: nat :| i < n + 2 && b == NodeAt(n, i);
      ChainReaches(n, i);
    }
  }

  /** A chain of any length passes every rule. */
  lemma ChainAccepted(n: nat)
    ensures Accepted(ChainOf(n), [])
  {
    hide *;
    ChainNodesValid(n);
    ChainTransitionsValid(n);
    ChainBlocksValid(n);
    ChainAcyclic(n);
    ChainReachable(n);
    forall node | node in ChainOf(n).nodes
      ensures RoutesValid(ChainOf(n), node) && PolicyNodeValid(ChainOf(n), node) && ExpiryValid(ChainOf(n), node)
      ensures RoundValid(ChainOf(n), node)
    {
      ChainEachValid(n, node);
    }
    Accept(ChainOf(n), []);
  }

  lemma {:induction false} ChainDecides(n: nat, i: nat, m: nat)
    requires 1 <= i && i + m <= n + 1
    ensures Decides(ChainOf(n), Name(i), m)
    decreases m
  {
    if m > 0 {
      FoundAt(n, i);
      forall tr | tr in ChainOf(n).transitions && tr.from == Name(i) ensures Decides(ChainOf(n), tr.to, m - 1) {
        var k := WaysOf(n, tr);
        assert |Name(k)| == k + 1 && |Name(i)| == i + 1;
        ChainDecides(n, i + 1, m - 1);
      }
    }
  }

  /** A cap of `m` decisions is within reach of accepted definitions: in a chain
      of `n` the only way out of the start task meets `m` decisions in a row,
      whatever the guards answer, exactly when `n` is at least `m`. */
  lemma ChainMeetsCap(n: nat, m: nat)
    ensures Accepted(ChainOf(n), [])
    ensures Routes(ChainOf(n), Name(0)) == [Default(0)] && Default(0).to == Name(1)
    ensures Decides(ChainOf(n), Name(1), m) <==> n >= m
  {
    hide Accepted;
    ChainAccepted(n);
    RoutesAt(n, 0);
    if n >= m { ChainDecides(n, 1, m); } else { ChainEnds(n, 1, m); }
  }

  lemma {:induction false} NamesCounted(n: nat)
    ensures |(set i | 1 <= i <= n :: Name(i))| <= n
  {
    if n > 0 {
      NamesCounted(n - 1);
      var before := set i | 1 <= i <= n - 1 :: Name(i);
      assert (set i | 1 <= i <= n :: Name(i)) == before + {Name(n)};
    }
  }

  /** A chain has no gateways and no more than its `n` decisions. */
  lemma ChainIsSmall(n: nat)
    ensures GatewayIds(ChainOf(n)) == {} && |DecisionIds(ChainOf(n))| <= n
  {
    var d, names := ChainOf(n), set i | 1 <= i <= n :: Name(i);
    forall node | node in d.nodes
      ensures !IsGateway(node) && (node.kind.Decision? ==> node.id in names)
    {
      NodesOfChain(n, node);
    }
    NamesCounted(n);
    Fewer(DecisionIds(d), names);
  }

  lemma Fewer(a: set<string>, b: set<string>)
    requires a <= b
    ensures |a| <= |b|
  {
    assert b == a + (b - a);
  }

  /** Beyond the last decision the chain stops deciding. */
  lemma {:induction false} ChainEnds(n: nat, i: nat, m: nat)
    requires 1 <= i <= n + 1 && i + m > n + 1
    ensures !Decides(ChainOf(n), Name(i), m)
    decreases m
  {
    FoundAt(n, i);
    if i <= n {
      DefaultIs(n, i);
      hide ChainOf;
      hide NodeOf;
      hide Default;
      ChainEnds(n, i + 1, m - 1);
    }
  }
}
