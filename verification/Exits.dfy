/** Ways out of the branch a case starts in, and guards that lead a token along
    them. */
module Exits {
  import opened Definitions
  import opened Soundness
  import opened Tokens
  import opened Graphs
  import opened Cycles
  import opened Blocks
  import opened Placement
  import opened Validity
  import opened Budget
  import opened Guards
  import opened Caps
  import opened Operations
  import opened Cases
  import opened Runs
  import opened Ways

  // ------------------------------------------------------------ leading guards

  /** `tr` is one of the routes, and every route before it asks for another
      guard. */
  ghost predicate FirstOfGuard(routes: seq<Transition>, tr: Transition) {
    exists i :: 0 <= i < |routes| && routes[i] == tr
      && forall j :: 0 <= j < i ==> routes[j].guard != "" && routes[j].guard != tr.guard
  }

  /** A transition and on through decisions, by routes guards can choose. */
  ghost predicate Turns(d: Definition, way: seq<Transition>) {
    && way != []
    && forall i :: 0 <= i < |way| - 1 ==> IsDecision(d, way[i].to) && FirstOfGuard(Routes(d, way[i].to), way[i + 1])
  }

  /** A move out of task `node` and on through decisions, fewer than the cap. */
  ghost predicate Leg(d: Definition, caps: Caps, node: string, way: seq<Transition>) {
    && Turns(d, way) && (caps.hops.Some? && |way| > 1 ==> |way| <= caps.hops.value)
    && Rests(d, node) && way[0].from == node && Chosen(d, node, way[0].action) == Some(way[0]) && !way[0].back
  }

  /** Moves from task to task, the last of them onto a join. */
  ghost predicate Exit(d: Definition, caps: Caps, node: string, legs: seq<seq<Transition>>)
    decreases |legs|
  {
    && legs != [] && Leg(d, caps, node, legs[0])
    && if |legs| == 1 then IsJoinNode(d, Last(legs[0]).to) else Exit(d, caps, Last(legs[0]).to, legs[1..])
  }

  /** A transition of `way` leaves `node` and asks for guard `name`. */
  predicate Asks(way: seq<Transition>, node: string, name: string) {
    exists i :: 0 <= i < |way| && way[i].from == node && way[i].guard == name
  }

  /** Functions that always answer, with guards that pass exactly along `way`. */
  function Leading(way: seq<Transition>): Oracles {
    Oracles((k: nat, name: string, snap: Snapshot) => if Asks(way, snap.node, name) then Pass else Refuse,
            (k, r) => true, (k, rule, now, tok) => Some(now), (k, rule, tok, log) => Some(""))
  }

  lemma LeadingAnswers(way: seq<Transition>)
    ensures Obliging(Leading(way))
  {
  }

  function DecisionsOf(way: seq<Transition>): (p: seq<string>)
    requires way != []
    ensures |p| == |way| - 1 && forall k :: 0 <= k < |p| ==> p[k] == way[k].to
  {
    seq(|way| - 1, k requires 0 <= k < |way| - 1 => way[k].to)
  }

  lemma TurnFrom(d: Definition, way: seq<Transition>, j: nat)
    requires Turns(d, way) && 0 < j < |way|
    ensures way[j].from == way[j - 1].to && way[j] in d.transitions && IsDecision(d, way[j - 1].to)
  {
    assert FirstOfGuard(Routes(d, way[j - 1].to), way[j - 1 + 1]);
  }

  /** The decisions of a way are decisions in a row. */
  lemma TurnsChain(d: Definition, way: seq<Transition>)
    requires !Has(d, "") && Turns(d, way)
    ensures DecisionChain(d, DecisionsOf(way))
  {
    hide Gateways;
    hide FirstOfGuard;
    var p := DecisionsOf(way);
    forall k | 0 <= k < |p| ensures IsDecision(d, p[k]) {
      assert IsDecision(d, way[k].to);
    }
    forall k | 0 <= k < |p| - 1 ensures Edge(Gateways(d), p[k], p[k + 1]) {
      TurnFrom(d, way, k + 1);
      assert IsDecision(d, way[k + 1].to);
      GatewayEdge(d, way[k + 1]);
    }
  }

  /** Without a cycle of gateways a leg leaves no node twice. */
  lemma LegDistinct(d: Definition, caps: Caps, node: string, way: seq<Transition>, i: nat, j: nat)
    requires !Has(d, "") && Acyclic(Gateways(d)) && Leg(d, caps, node, way) && i < j < |way|
    ensures way[i].from != way[j].from
  {
    hide Gateways;
    hide Acyclic;
    hide Chosen;
    hide Turns;
    TurnFrom(d, way, j);
    if i > 0 {
      TurnFrom(d, way, i);
      TurnsChain(d, way);
      ChainDistinct(Gateways(d), DecisionsOf(way), i - 1, j - 1);
    }
  }

  lemma OthersAreNotAsked(d: Definition, caps: Caps, node: string, way: seq<Transition>, i: nat, guard: string)
    requires !Has(d, "") && Acyclic(Gateways(d)) && Leg(d, caps, node, way) && i < |way| && guard != way[i].guard
    ensures !Asks(way, way[i].from, guard)
  {
    hide Has;
    hide Gateways;
    hide Acyclic;
    hide Leg;
    forall m | 0 <= m < |way| && way[m].from == way[i].from ensures m == i {
      if m < i { LegDistinct(d, caps, node, way, m, i); }
      if i < m { LegDistinct(d, caps, node, way, i, m); }
    }
  }

  /** Such guards steer a token along the whole leg. */
  lemma LeadingSteers(d: Definition, caps: Caps, node: string, way: seq<Transition>, i: nat)
    requires !Has(d, "") && Acyclic(Gateways(d)) && Leg(d, caps, node, way) && i < |way| - 1
    ensures Steers(Leading(way), d, way[i].to, way[i + 1])
  {
    hide Has;
    hide Gateways;
    hide Acyclic;
    hide IsDecision;
    hide Rests;
    hide Chosen;
    var o, id, tr := Leading(way), way[i].to, way[i + 1];
    var routes := Routes(d, id);
    TurnFrom(d, way, i + 1);
    assert FirstOfGuard(routes, tr);
    var n :| 0 <= n < |routes| && routes[n] == tr
      && forall j :: 0 <= j < n ==> routes[j].guard != "" && routes[j].guard != tr.guard;
    forall tick: nat, snap: Snapshot | snap.node == id ensures FirstPassing(o, tick, snap, routes, tr) {
      assert way[i + 1].from == snap.node;
      forall j | 0 <= j < n ensures AnswerAt(o, tick, snap, routes, j).Refuse? {
        OthersAreNotAsked(d, caps, node, way, i + 1, routes[j].guard);
      }
      assert FirstAnswer(o, tick, snap, routes, n, Pass);
    }
  }

  lemma LeadingGuides(d: Definition, caps: Caps, node: string, way: seq<Transition>)
    requires !Has(d, "") && Acyclic(Gateways(d)) && Leg(d, caps, node, way)
    ensures EndsBy(Leading(way), d, caps, way[0], Last(way))
  {
    hide Has;
    hide Gateways;
    hide Acyclic;
    hide Steers;
    forall i | 0 <= i < |way| - 1
      ensures IsDecision(d, way[i].to) && Steers(Leading(way), d, way[i].to, way[i + 1])
    {
      LeadingSteers(d, caps, node, way, i);
    }
    assert Guided(Leading(way), d, caps, way);
    assert Led(Leading(way), d, caps, way[0], way, Last(way));
  }

  /** They let the move that begins the leg pass. */
  lemma LeadingLets(d: Definition, caps: Caps, log: seq<Event>, k: Token, input: MoveInput, way: seq<Transition>)
    requires Leg(d, caps, k.node, way) && input.action == way[0].action
    requires input.comment == if way[0].comment.CommentRequired? then "-" else ""
    ensures MoveRefusal(Leading(way), 0, d, log, k, Seen(k), input) == None
  {
    assert way[0].from == Seen(k).node;
  }

  // --------------------------------------------------- where there is a way out

  /** Nothing but tasks and decisions. */
  predicate Flat(d: Definition, nodes: set<string>) { forall x :: x in nodes ==> Rests(d, x) || IsDecision(d, x) }

  /** No decision asks for one guard twice. */
  predicate OwnGuards(d: Definition) {
    forall n, i, j :: n in d.nodes && n.kind.Decision? && 0 <= i < j < |Routes(d, n.id)| ==>
      Routes(d, n.id)[i].guard != Routes(d, n.id)[j].guard
  }

  /** What the rules, and the one above, say of single nodes. */
  ghost predicate Steerable(d: Definition, caps: Caps) {
    && !Has(d, "") && Acyclic(Gateways(d)) && (caps.hops.Some? ==> |DecisionIds(d)| < caps.hops.value)
    && (forall tr :: tr in d.transitions && IsDecision(d, tr.from) ==> FirstOfGuard(Routes(d, tr.from), tr))
    && (forall tr :: tr in d.transitions ==> Chosen(d, tr.from, tr.action) == Some(tr))
  }

  /** What is left of a way out, from a node on: the rest of a leg, and the legs
      behind it. */
  ghost predicate Rest(d: Definition, caps: Caps, node: string, head: seq<Transition>, legs: seq<seq<Transition>>) {
    && Turns(d, head) && head[0].from == node && head[0] in d.transitions && !head[0].back
    && if legs == [] then IsJoinNode(d, Last(head).to) else Exit(d, caps, Last(head).to, legs)
  }

  lemma RestIsLeg(d: Definition, caps: Caps, node: string, head: seq<Transition>, legs: seq<seq<Transition>>)
    requires Steerable(d, caps) && Rest(d, caps, node, head, legs) && Rests(d, node)
    ensures Exit(d, caps, node, [head] + legs)
  {
    hide Rests;
    hide Chosen;
    hide Turns;
    hide Gateways;
    hide Acyclic;
    hide DecisionChain;
    hide DecisionIds;
    TurnsChain(d, head);
    ChainLength(d, DecisionsOf(head));
    assert Leg(d, caps, node, head);
    assert ([head] + legs)[1..] == legs;
  }

  lemma {:induction false} PathLeadsOut(d: Definition, caps: Caps, nodes: set<string>, join: string, p: seq<string>)
      returns (head: seq<Transition>, legs: seq<seq<Transition>>)
    requires Steerable(d, caps) && Flat(d, nodes) && IsJoinNode(d, join) && WayOut(d, nodes, join, p)
    ensures Rest(d, caps, p[0], head, legs)
    decreases |p|
  {
    hide Chosen;
    hide Gateways;
    hide Acyclic;
    hide DecisionIds;
    hide Exit;
    assert Placement.Leads(d, p[0], p[0 + 1]);
    var tr :| tr in d.transitions && !tr.back && tr.from == p[0] && tr.to == p[1];
    head, legs := [tr], [];
    if |p| > 2 {
      var q := p[1..];
      forall k | 0 <= k < |q| - 1 ensures q[k] in nodes && Placement.Leads(d, q[k], q[k + 1]) {
        assert p[k + 1] in nodes && Placement.Leads(d, p[k + 1], p[k + 1 + 1]);
      }
      head, legs := PathLeadsOut(d, caps, nodes, join, q);
      if IsDecision(d, p[1]) {
        TurnsMore(d, tr, head);
        head := [tr] + head;
      } else {
        RestIsLeg(d, caps, p[1], head, legs);
        head, legs := [tr], [head] + legs;
      }
    }
  }

  lemma TurnsMore(d: Definition, tr: Transition, way: seq<Transition>)
    requires Turns(d, way) && IsDecision(d, tr.to) && FirstOfGuard(Routes(d, tr.to), way[0])
    ensures Turns(d, [tr] + way)
  {
    hide FirstOfGuard;
    hide IsDecision;
    var w := [tr] + way;
    forall i | 0 <= i < |w| - 1 ensures IsDecision(d, w[i].to) && FirstOfGuard(Routes(d, w[i].to), w[i + 1]) {
      if i > 0 { assert IsDecision(d, way[i - 1].to) && FirstOfGuard(Routes(d, way[i - 1].to), way[i - 1 + 1]); }
    }
  }

  /** An action names one transition of a node. */
  lemma {:induction false} FirstByAction(trs: seq<Transition>, i: nat)
    requires i < |trs| && forall j :: 0 <= j < i ==> trs[j].from != trs[i].from || trs[j].action != trs[i].action
    ensures FindTransition(From(trs, trs[i].from), trs[i].action) == Some(trs[i])
  {
    if i > 0 { FirstByAction(trs[1..], i - 1); }
  }

  lemma ActionNames(d: Definition, tr: Transition)
    requires TransitionsValid(d) && tr in d.transitions
    ensures Chosen(d, tr.from, tr.action) == Some(tr)
  {
    hide TransitionValid;
    var i :| 0 <= i < |d.transitions| && d.transitions[i] == tr;
    FirstByAction(d.transitions, i);
  }

  lemma GuardNames(d: Definition, tr: Transition)
    requires OwnGuards(d) && tr in d.transitions && IsDecision(d, tr.from) && DefaultLast(Routes(d, tr.from))
    ensures FirstOfGuard(Routes(d, tr.from), tr)
  {
    var routes := Routes(d, tr.from);
    assert NodeOf(d, tr.from) in d.nodes;
    var i :| 0 <= i < |routes| && routes[i] == tr;
    forall j | 0 <= j < i ensures routes[j].guard != "" && routes[j].guard != tr.guard {}
  }

  lemma AcceptedParts(d: Definition, blocks: seq<Block>)
    requires Accepted(d, blocks)
    ensures TransitionsValid(d) && Acyclic(Gateways(d)) && !Has(d, "")
    ensures forall n :: n in d.nodes && n.kind.Decision? ==> DefaultLast(Routes(d, n.id))
  {
    hide BlocksValid;
    hide AllReachable;
    hide RoundValid;
    hide TransitionsValid;
    hide Acyclic;
    hide OutcomeValid;
    hide PolicyNodeValid;
    hide ExpiryValid;
    ValidIsLaid(d, blocks);
    LaidParts(d, blocks);
    hide AreBlocks;
    hide Laid;
    hide NodesValid;
  }

  lemma AcceptedSteers(d: Definition, blocks: seq<Block>, caps: Caps)
    requires Accepted(d, blocks) && OwnGuards(d) && (caps.hops.Some? ==> |DecisionIds(d)| < caps.hops.value)
    ensures Steerable(d, caps)
  {
    AcceptedParts(d, blocks);
    hide Accepted;
    hide OwnGuards;
    hide TransitionsValid;
    hide FirstOfGuard;
    hide Chosen;
    hide Acyclic;
    hide Gateways;
    hide DefaultLast;
    forall tr | tr in d.transitions && IsDecision(d, tr.from) ensures FirstOfGuard(Routes(d, tr.from), tr) {
      assert NodeOf(d, tr.from) in d.nodes;
      GuardNames(d, tr);
    }
    forall tr | tr in d.transitions ensures Chosen(d, tr.from, tr.action) == Some(tr) { ActionNames(d, tr); }
  }

  /** A branch of tasks and decisions always has a way out, and when no decision
      asks for one guard twice and the cap leaves room for them all, guards can
      lead a token along it. */
  lemma FlatBranchLeadsOut(d: Definition, blocks: seq<Block>, caps: Caps, k: int, i: int, node: string)
      returns (legs: seq<seq<Transition>>)
    requires Accepted(d, blocks) && OwnGuards(d) && (caps.hops.Some? ==> |DecisionIds(d)| < caps.hops.value)
    requires Holds(blocks, k, i, node) && Flat(d, blocks[k].branches[i].nodes) && Rests(d, node)
    ensures Exit(d, caps, node, legs)
  {
    AcceptedSteers(d, blocks, caps);
    hide Steerable;
    hide Flat;
    hide OwnGuards;
    ValidIsLaid(d, blocks);
    BlockFacts(d, blocks, k);
    var b := blocks[k];
    assert BranchClean(d, b, i) && LeadsToJoin(d, b, i, node);
    var p :| WayOut(d, b.branches[i].nodes, b.join, p) && p[0] == node;
    var head;
    head, legs := PathLeadsOut(d, caps, b.branches[i].nodes, b.join, p);
    RestIsLeg(d, caps, node, head, legs);
    legs := [head] + legs;
  }
}
