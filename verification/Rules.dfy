/** The rules on single nodes and transitions one by one, as ways to break them,
    and that the validator's own conditions hold exactly when none is broken. */
module Rules {
  import opened Definitions
  import opened Blocks
  import opened Placement
  import opened Validity

  datatype Rule =
    | EmptyId | DuplicateId | StartAndTerminal | NegativeDeadline | TwoDeadlines | TerminalAssigns
    | AutomaticStart | AutomaticTerminal | AutomaticEligible | AutomaticDeadline | AutomaticExpires | AutomaticAssigns
    | JoinOffSplit | NoStart | TwoStarts | NoTerminal
    | EmptyAction | UnknownFrom | UnknownTo | LeavesTerminal | AutomaticComment | AutomaticReturn | GuardedParallel
    | ReturnToTerminal | ReturnToAutomatic | AmbiguousAction
    | JoinFans | GuardedJoin | TooFewRoutes | GuardedDefault | SecondDefault | DeadEnd
    | UnknownExpiry | ExpiryReturns
    | PolicyOffJoin | CollectElsewhere | VerdictElsewhere | InclusivePolicy
    | StrayOutcome | AutomaticVote | NoVote | SilentRejection

  /** Node `n` breaks a rule that looks at it alone. */
  predicate NodeBreaks(n: Node, rule: Rule) {
    match rule
    case EmptyId => n.id == ""
    case StartAndTerminal => n.start && n.terminal
    case NegativeDeadline => n.deadline < 0
    case TwoDeadlines => n.deadline != 0 && n.deadlineRule != ""
    case TerminalAssigns => n.terminal && n.assignRule != ""
    case AutomaticStart => n.kind != Task && n.start
    case AutomaticTerminal => n.kind != Task && n.terminal
    case AutomaticEligible => n.kind != Task && n.eligible.position != ""
    case AutomaticDeadline => n.kind != Task && (n.deadline != 0 || n.deadlineRule != "")
    case AutomaticExpires => n.kind != Task && n.onExpire != ""
    case AutomaticAssigns => n.kind != Task && n.assignRule != ""
    case JoinOffSplit => n.join != "" && n.kind != Parallel && n.kind != Inclusive
    case PolicyOffJoin => n.policy != NoPolicy && n.kind != Join
    case _ => false
  }

  /** Transition `tr` from `a` to `b` breaks a rule on its ends. */
  predicate EdgeBreaks(a: Node, tr: Transition, b: Node, rule: Rule) {
    match rule
    case LeavesTerminal => a.terminal
    case AutomaticComment => a.kind != Task && tr.comment != CommentNone
    case AutomaticReturn => a.kind != Task && tr.back
    case GuardedParallel => a.kind == Parallel && tr.guard != ""
    case ReturnToTerminal => tr.back && b.terminal
    case ReturnToAutomatic => tr.back && b.kind != Task
    case CollectElsewhere => a.policy == Collect && (b.kind != Task || b.terminal)
    case VerdictElsewhere => (a.policy == AllApprove || a.policy == AnyApprove) && b.kind != Decision
    case StrayOutcome => (b.kind != Join || b.policy == NoPolicy) && tr.outcome != NoOutcome
    case AutomaticVote => b.kind == Join && b.policy != NoPolicy && a.kind != Task
    case NoVote => b.kind == Join && b.policy != NoPolicy && tr.outcome != Approved && tr.outcome != Rejected
    case SilentRejection =>
      b.kind == Join && (b.policy == AllApprove || b.policy == AnyApprove) && tr.outcome == Rejected
      && tr.comment != CommentRequired
    case _ => false
  }

  /** The routes out of node `n` break a rule. */
  predicate RoutesBreak(n: Node, routes: seq<Transition>, rule: Rule) {
    match rule
    case JoinFans => n.kind == Join && |routes| != 1
    case GuardedJoin => n.kind == Join && |routes| == 1 && routes[0].guard != ""
    case TooFewRoutes => (n.kind == Decision || n.kind == Parallel || n.kind == Inclusive) && |routes| < 2
    case GuardedDefault =>
      (n.kind == Decision || n.kind == Inclusive) && routes != [] && routes[|routes| - 1].guard != ""
    case SecondDefault =>
      (n.kind == Decision || n.kind == Inclusive) && exists i :: 0 <= i < |routes| - 1 && routes[i].guard == ""
    case DeadEnd => !n.terminal && routes == []
    case _ => false
  }

  /** The action node `n` takes on expiry breaks a rule. */
  predicate ExpiryBreaks(n: Node, routes: seq<Transition>, rule: Rule) {
    match rule
    case UnknownExpiry => n.kind == Task && n.onExpire != "" && forall tr :: tr in routes ==> tr.action != n.onExpire
    case ExpiryReturns =>
      n.kind == Task && n.onExpire != "" && exists tr :: tr in routes && tr.action == n.onExpire && tr.back
    case _ => false
  }

  /** Definition `d` breaks `rule` somewhere. */
  ghost predicate Broken(d: Definition, rule: Rule) {
    || (exists n :: n in d.nodes && NodeBreaks(n, rule))
    || (exists n :: n in d.nodes && RoutesBreak(n, Routes(d, n.id), rule))
    || (exists n :: n in d.nodes && ExpiryBreaks(n, Routes(d, n.id), rule))
    || (exists a, tr, b :: Joins(d, a, tr, b) && EdgeBreaks(a, tr, b, rule))
    || match rule
       case DuplicateId => exists i, j :: 0 <= i < j < |d.nodes| && d.nodes[i].id == d.nodes[j].id
       case NoStart => forall n :: n in d.nodes ==> !n.start
       case TwoStarts => exists i, j :: 0 <= i < j < |d.nodes| && d.nodes[i].start && d.nodes[j].start
       case NoTerminal => forall n :: n in d.nodes ==> !n.terminal
       case EmptyAction => exists tr :: tr in d.transitions && tr.action == ""
       case UnknownFrom => exists tr :: tr in d.transitions && forall n :: n in d.nodes ==> n.id != tr.from
       case UnknownTo => exists tr :: tr in d.transitions && forall n :: n in d.nodes ==> n.id != tr.to
       case AmbiguousAction =>
         exists i, j :: 0 <= i < j < |d.transitions| && d.transitions[i].from == d.transitions[j].from
           && d.transitions[i].action == d.transitions[j].action
       case InclusivePolicy =>
         exists n, m :: n in d.nodes && m in d.nodes && n.kind == Inclusive && m.id == n.join && m.kind == Join
           && m.policy != NoPolicy
       case _ => false
  }

  predicate Joins(d: Definition, a: Node, tr: Transition, b: Node) {
    a in d.nodes && tr in d.transitions && b in d.nodes && a.id == tr.from && b.id == tr.to
  }

  /** The conditions on single nodes and transitions, as the validator has them. */
  predicate LocalRules(d: Definition) {
    && NodesValid(d) && TransitionsValid(d)
    && (forall n :: n in d.nodes ==> RoutesValid(d, n) && PolicyNodeValid(d, n) && ExpiryValid(d, n))
    && (forall tr :: tr in d.transitions ==> OutcomeValid(d, tr))
  }

  ghost predicate Unbroken(d: Definition) { forall rule :: !Broken(d, rule) }

  // ---------------------------------------------------------------- one by one

  lemma NodeRules(n: Node)
    ensures (forall rule :: !NodeBreaks(n, rule)) <==> NodeValid(n) && (!n.policy.NoPolicy? ==> n.kind.Join?)
  {
    if forall rule :: !NodeBreaks(n, rule) {
      assert !NodeBreaks(n, EmptyId) && !NodeBreaks(n, StartAndTerminal) && !NodeBreaks(n, NegativeDeadline);
      assert !NodeBreaks(n, TwoDeadlines) && !NodeBreaks(n, TerminalAssigns) && !NodeBreaks(n, AutomaticStart);
      assert !NodeBreaks(n, AutomaticTerminal) && !NodeBreaks(n, AutomaticEligible);
      assert !NodeBreaks(n, AutomaticDeadline);
      assert !NodeBreaks(n, AutomaticExpires) && !NodeBreaks(n, AutomaticAssigns) && !NodeBreaks(n, JoinOffSplit);
      assert !NodeBreaks(n, PolicyOffJoin);
    }
  }

  /** The rules on one transition between `a` and `b`, as the validator has them. */
  predicate EdgeRules(a: Node, tr: Transition, b: Node) {
    && !a.terminal && (a.kind.IsAutomatic() ==> tr.comment.CommentNone? && !tr.back)
    && (a.kind.Parallel? ==> tr.guard == "")
    && (tr.back ==> b.kind.Task? && !b.terminal)
    && (a.policy.Collect? ==> b.kind.Task? && !b.terminal)
    && (a.policy.AllApprove? || a.policy.AnyApprove? ==> b.kind.Decision?)
    && (if !(b.kind.Join? && !b.policy.NoPolicy?) then tr.outcome.NoOutcome?
        else
          && a.kind.Task? && (tr.outcome.Approved? || tr.outcome.Rejected?)
          && (tr.outcome.Rejected? && !b.policy.Collect? ==> tr.comment.CommentRequired?))
  }

  lemma EdgeRule(a: Node, tr: Transition, b: Node)
    ensures (forall rule :: !EdgeBreaks(a, tr, b, rule)) <==> EdgeRules(a, tr, b)
  {
    if forall rule :: !EdgeBreaks(a, tr, b, rule) {
      assert !EdgeBreaks(a, tr, b, LeavesTerminal) && !EdgeBreaks(a, tr, b, AutomaticComment);
      assert !EdgeBreaks(a, tr, b, AutomaticReturn) && !EdgeBreaks(a, tr, b, GuardedParallel);
      assert !EdgeBreaks(a, tr, b, ReturnToTerminal) && !EdgeBreaks(a, tr, b, ReturnToAutomatic);
      assert !EdgeBreaks(a, tr, b, CollectElsewhere) && !EdgeBreaks(a, tr, b, VerdictElsewhere);
      assert !EdgeBreaks(a, tr, b, StrayOutcome) && !EdgeBreaks(a, tr, b, AutomaticVote);
      assert !EdgeBreaks(a, tr, b, NoVote) && !EdgeBreaks(a, tr, b, SilentRejection);
    }
  }

  lemma RouteRules(d: Definition, n: Node)
    ensures (forall rule :: !RoutesBreak(n, Routes(d, n.id), rule)) <==> RoutesValid(d, n)
  {
    var routes := Routes(d, n.id);
    if forall rule :: !RoutesBreak(n, routes, rule) {
      assert !RoutesBreak(n, routes, JoinFans) && !RoutesBreak(n, routes, GuardedJoin);
      assert !RoutesBreak(n, routes, TooFewRoutes) && !RoutesBreak(n, routes, GuardedDefault);
      assert !RoutesBreak(n, routes, SecondDefault) && !RoutesBreak(n, routes, DeadEnd);
    }
  }

  lemma ExpiryRules(d: Definition, n: Node)
    requires Deterministic(d)
    ensures (forall rule :: !ExpiryBreaks(n, Routes(d, n.id), rule)) <==> ExpiryValid(d, n)
  {
    hide FindTransition;
    var routes := Routes(d, n.id);
    if forall rule :: !ExpiryBreaks(n, routes, rule) {
      assert !ExpiryBreaks(n, routes, UnknownExpiry) && !ExpiryBreaks(n, routes, ExpiryReturns);
    }
    forall tr | tr in routes && tr.action == n.onExpire
      ensures FindTransition(routes, n.onExpire) == Some(tr)
    {
      OneNamed(d, n.id, tr, FindTransition(routes, n.onExpire).value);
    }
  }

  predicate Deterministic(d: Definition) {
    forall i, j :: 0 <= i < j < |d.transitions| ==>
      d.transitions[i].from != d.transitions[j].from || d.transitions[i].action != d.transitions[j].action
  }

  lemma OneNamed(d: Definition, id: string, a: Transition, b: Transition)
    requires Deterministic(d) && a in Routes(d, id) && b in Routes(d, id) && a.action == b.action
    ensures a == b
  {
    var i :| 0 <= i < |d.transitions| && d.transitions[i] == a;
    var j :| 0 <= j < |d.transitions| && d.transitions[j] == b;
  }

  // --------------------------------------------------------------- all of them

  lemma UnbrokenNodes(d: Definition)
    requires Unbroken(d)
    ensures NodesValid(d) && Unique(d)
    ensures forall n :: n in d.nodes && !n.policy.NoPolicy? ==> n.kind.Join?
  {
    hide NodeBreaks;
    hide EdgeBreaks;
    hide RoutesBreak;
    hide ExpiryBreaks;
    assert !Broken(d, DuplicateId) && !Broken(d, NoTerminal) && !Broken(d, NoStart) && !Broken(d, TwoStarts);
    forall n | n in d.nodes ensures NodeValid(n) && (!n.policy.NoPolicy? ==> n.kind.Join?) {
      forall rule ensures !NodeBreaks(n, rule) { assert !Broken(d, rule); }
      NodeRules(n);
    }
    StartIsOne(d.nodes);
  }

  lemma StartIsOne(nodes: seq<Node>)
    requires exists n :: n in nodes && n.start
    requires forall i, j :: 0 <= i < j < |nodes| ==> !nodes[i].start || !nodes[j].start
    ensures OneStart(nodes)
  {
    var n :| n in nodes && n.start;
    var i :| 0 <= i < |nodes| && nodes[i] == n;
    assert forall j :: 0 <= j < |nodes| && nodes[j].start ==> j == i;
  }

  /** Both ends of every transition are known, and it breaks no rule. */
  predicate EdgesObey(d: Definition) {
    forall tr :: tr in d.transitions ==>
      && tr.action != "" && Has(d, tr.from) && Has(d, tr.to)
      && EdgeRules(NodeOf(d, tr.from), tr, NodeOf(d, tr.to))
  }

  lemma UnbrokenEdges(d: Definition)
    requires Unbroken(d)
    ensures EdgesObey(d)
  {
    hide NodeBreaks;
    hide EdgeBreaks;
    hide RoutesBreak;
    hide ExpiryBreaks;
    hide EdgeRules;
    forall tr | tr in d.transitions
      ensures tr.action != "" && Has(d, tr.from) && Has(d, tr.to)
      ensures EdgeRules(NodeOf(d, tr.from), tr, NodeOf(d, tr.to))
    {
      assert !Broken(d, EmptyAction);
      EndsKnown(d, tr);
      var a, b := NodeOf(d, tr.from), NodeOf(d, tr.to);
      assert Joins(d, a, tr, b);
      forall rule ensures !EdgeBreaks(a, tr, b, rule) { assert !Broken(d, rule); }
      EdgeRule(a, tr, b);
    }
  }

  lemma EndsKnown(d: Definition, tr: Transition)
    requires tr in d.transitions && !Broken(d, UnknownFrom) && !Broken(d, UnknownTo)
    ensures Has(d, tr.from) && Has(d, tr.to)
    ensures NodeOf(d, tr.from) in d.nodes && NodeOf(d, tr.from).id == tr.from
    ensures NodeOf(d, tr.to) in d.nodes && NodeOf(d, tr.to).id == tr.to
  {
  }

  lemma UnbrokenRoutes(d: Definition)
    requires Unbroken(d)
    ensures Deterministic(d)
    ensures forall n :: n in d.nodes ==> RoutesValid(d, n) && ExpiryValid(d, n)
  {
    hide NodeBreaks;
    hide EdgeBreaks;
    hide RoutesBreak;
    hide ExpiryBreaks;
    hide RoutesValid;
    hide ExpiryValid;
    assert !Broken(d, AmbiguousAction);
    forall n | n in d.nodes ensures RoutesValid(d, n) && ExpiryValid(d, n) {
      forall rule ensures !RoutesBreak(n, Routes(d, n.id), rule) { assert !Broken(d, rule); }
      forall rule ensures !ExpiryBreaks(n, Routes(d, n.id), rule) { assert !Broken(d, rule); }
      RouteRules(d, n);
      ExpiryRules(d, n);
    }
  }

  lemma EdgesTell(d: Definition)
    requires EdgesObey(d)
    requires Deterministic(d)
    ensures TransitionsValid(d) && forall tr :: tr in d.transitions ==> OutcomeValid(d, tr)
  {
  }

  lemma UnbrokenPolicies(d: Definition)
    requires Unbroken(d) && Unique(d) && EdgesObey(d)
    requires forall n :: n in d.nodes && !n.policy.NoPolicy? ==> n.kind.Join?
    ensures forall n :: n in d.nodes ==> PolicyNodeValid(d, n)
  {
    hide NodeBreaks;
    hide EdgeBreaks;
    hide RoutesBreak;
    hide ExpiryBreaks;
    hide PolicyNodeValid;
    hide EdgesObey;
    forall n | n in d.nodes ensures PolicyNodeValid(d, n) {
      assert !Broken(d, InclusivePolicy);
      PolicyTells(d, n);
    }
  }

  lemma PolicyTells(d: Definition, n: Node)
    requires n in d.nodes && Unique(d) && EdgesObey(d) && (!n.policy.NoPolicy? ==> n.kind.Join?)
    requires forall m :: m in d.nodes && n.kind == Inclusive && m.id == n.join && m.kind == Join ==>
      m.policy == NoPolicy
    ensures PolicyNodeValid(d, n)
  {
    NodeIs(d, n);
    assert Has(d, n.join) ==> NodeOf(d, n.join) in d.nodes;
    forall tr | tr in Routes(d, n.id) ensures EdgeRules(n, tr, NodeOf(d, tr.to)) {}
  }

  lemma UnbrokenIsLocal(d: Definition)
    requires Unbroken(d)
    ensures LocalRules(d)
  {
    hide Unbroken;
    hide NodesValid;
    hide EdgesObey;
    hide RoutesValid;
    hide PolicyNodeValid;
    hide ExpiryValid;
    hide OutcomeValid;
    hide TransitionsValid;
    UnbrokenNodes(d);
    UnbrokenEdges(d);
    UnbrokenRoutes(d);
    EdgesTell(d);
    UnbrokenPolicies(d);
  }

  lemma LocalIsUnbroken(d: Definition, rule: Rule)
    requires LocalRules(d)
    ensures !Broken(d, rule)
  {
    hide NodeBreaks;
    hide EdgeBreaks;
    hide RoutesBreak;
    hide ExpiryBreaks;
    hide LocalRules;
    forall n | n in d.nodes
      ensures !NodeBreaks(n, rule) && !RoutesBreak(n, Routes(d, n.id), rule) && !ExpiryBreaks(n, Routes(d, n.id), rule)
    {
      LocalNode(d, n, rule);
    }
    forall a, tr, b | Joins(d, a, tr, b) ensures !EdgeBreaks(a, tr, b, rule) { LocalEdge(d, a, tr, b, rule); }
    OtherRules(d);
  }

  lemma LocalNode(d: Definition, n: Node, rule: Rule)
    requires LocalRules(d) && n in d.nodes
    ensures !NodeBreaks(n, rule) && !RoutesBreak(n, Routes(d, n.id), rule) && !ExpiryBreaks(n, Routes(d, n.id), rule)
  {
    hide NodeBreaks;
    hide RoutesBreak;
    hide ExpiryBreaks;
    hide RoutesValid;
    hide ExpiryValid;
    hide NodeValid;
    assert PolicyNodeValid(d, n);
    NodeRules(n);
    RouteRules(d, n);
    ExpiryRules(d, n);
  }

  lemma LocalEdge(d: Definition, a: Node, tr: Transition, b: Node, rule: Rule)
    requires LocalRules(d) && Joins(d, a, tr, b)
    ensures !EdgeBreaks(a, tr, b, rule)
  {
    hide EdgeBreaks;
    assert Unique(d);
    NodeIs(d, a);
    NodeIs(d, b);
    assert TransitionValid(d, tr) && OutcomeValid(d, tr) && PolicyNodeValid(d, a);
    assert tr in Routes(d, a.id);
    EdgeRule(a, tr, b);
  }

  lemma OtherRules(d: Definition)
    requires LocalRules(d)
    ensures forall i, j :: 0 <= i < j < |d.nodes| ==>
      d.nodes[i].id != d.nodes[j].id && (!d.nodes[i].start || !d.nodes[j].start)
    ensures Deterministic(d)
    ensures (exists n :: n in d.nodes && n.start) && (exists n :: n in d.nodes && n.terminal)
    ensures forall tr :: tr in d.transitions ==>
      && tr.action != "" && NodeOf(d, tr.from) in d.nodes && NodeOf(d, tr.to) in d.nodes
      && NodeOf(d, tr.from).id == tr.from && NodeOf(d, tr.to).id == tr.to
    ensures forall n, m :: n in d.nodes && m in d.nodes && n.kind == Inclusive && m.id == n.join && m.kind == Join ==>
      m.policy == NoPolicy
  {
    var i :| 0 <= i < |d.nodes| && d.nodes[i].start && forall j :: 0 <= j < |d.nodes| && d.nodes[j].start ==> j == i;
    assert d.nodes[i] in d.nodes;
    forall tr | tr in d.transitions ensures TransitionValid(d, tr) {}
    forall n, m | n in d.nodes && m in d.nodes && n.kind == Inclusive && m.id == n.join && m.kind == Join
      ensures m.policy == NoPolicy
    {
      assert Unique(d) && PolicyNodeValid(d, n);
      NodeIs(d, m);
    }
  }

  /** The validator's conditions on single nodes and transitions hold exactly when
      none of the rules is broken. */
  lemma RulesAreThese(d: Definition)
    ensures LocalRules(d) <==> Unbroken(d)
  {
    hide Broken;
    hide LocalRules;
    if LocalRules(d) {
      forall rule ensures !Broken(d, rule) { LocalIsUnbroken(d, rule); }
    }
    if Unbroken(d) { UnbrokenIsLocal(d); }
  }

  /** A definition the validator accepts breaks none of them. */
  lemma ValidBreaksNone(d: Definition, blocks: seq<Block>)
    requires Valid(d, blocks)
    ensures Unbroken(d)
  {
    RulesAreThese(d);
  }
}
