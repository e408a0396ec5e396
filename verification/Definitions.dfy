/** Workflow definitions: nodes, transitions and the lookups the engine and the
    validator share. */
module Definitions {

  datatype Option<+T> = None | Some(value: T)

  datatype Kind = Task | Decision | Parallel | Inclusive | Join
  {
    predicate IsSplit() { Parallel? || Inclusive? }

    /** No token ever rests on a node of an automatic kind. */
    predicate IsAutomatic() { !Task? }
  }

  datatype Policy = NoPolicy | AllApprove | AnyApprove | Collect

  datatype Outcome = NoOutcome | Approved | Rejected | Unanswered

  datatype CommentRule = CommentNone | CommentOptional | CommentRequired

  datatype Eligibility = Eligibility(position: string, unit: string)
  {
    predicate IsZero() { position == "" }
  }

  const NO_ELIGIBILITY := Eligibility("", "")

  datatype Node = Node(
    id: string, start: bool, terminal: bool, kind: Kind, join: string,
    policy: Policy, onExpire: string, eligible: Eligibility,
    deadline: int, deadlineRule: string, assignRule: string)

  /** The zero node a failed lookup yields. */
  const ZERO_NODE :=
    Node("", false, false, Task, "", NoPolicy, "", NO_ELIGIBILITY, 0, "", "")

  /** `back` marks a return transition. */
  datatype Transition = Transition(
    from: string, to: string, action: string, guard: string,
    comment: CommentRule, back: bool, outcome: Outcome)

  datatype Definition = Definition(nodes: seq<Node>, transitions: seq<Transition>)

  function FindNode(nodes: seq<Node>, id: string): (n: Option<Node>)
    ensures n.Some? ==> n.value in nodes && n.value.id == id
    ensures n.None? ==> forall m :: m in nodes ==> m.id != id
  {
    if nodes == [] then None
    else if nodes[0].id == id then Some(nodes[0])
    else FindNode(nodes[1..], id)
  }

  predicate Has(d: Definition, id: string) { FindNode(d.nodes, id).Some? }

  function NodeOf(d: Definition, id: string): (n: Node)
    ensures Has(d, id) ==> n in d.nodes && n.id == id
  {
    match FindNode(d.nodes, id)
    case Some(n) => n
    case None => ZERO_NODE
  }

  /** The transitions leaving `id`, in declaration order. */
  function From(transitions: seq<Transition>, id: string): (out: seq<Transition>)
    ensures forall tr :: tr in out <==> tr in transitions && tr.from == id
  {
    if transitions == [] then []
    else if transitions[0].from == id then [transitions[0]] + From(transitions[1..], id)
    else From(transitions[1..], id)
  }

  function Routes(d: Definition, id: string): seq<Transition> { From(d.transitions, id) }

  /** A node a token may rest on. */
  predicate Rests(d: Definition, id: string) {
    Has(d, id) && NodeOf(d, id).kind.Task? && !NodeOf(d, id).terminal
  }

  predicate IsDecision(d: Definition, id: string) {
    Has(d, id) && NodeOf(d, id).kind.Decision?
  }

  predicate IsSplitNode(d: Definition, id: string) {
    Has(d, id) && NodeOf(d, id).kind.IsSplit()
  }

  predicate IsJoinNode(d: Definition, id: string) {
    Has(d, id) && NodeOf(d, id).kind.Join?
  }

  predicate IsPolicyJoin(d: Definition, id: string) {
    IsJoinNode(d, id) && !NodeOf(d, id).policy.NoPolicy?
  }

  /** The eligibility a token gets on `n` in a case of unit `unit`. */
  function ResolvedEligibility(n: Node, unit: string): Eligibility {
    if n.eligible.IsZero() then NO_ELIGIBILITY
    else Eligibility(n.eligible.position, if n.eligible.unit != "" then n.eligible.unit else unit)
  }

  function FindTransition(candidates: seq<Transition>, action: string): (tr: Option<Transition>)
    ensures tr.Some? ==> tr.value in candidates && tr.value.action == action
    ensures tr.None? ==> forall c :: c in candidates ==> c.action != action
  {
    if candidates == [] then None
    else if candidates[0].action == action then Some(candidates[0])
    else FindTransition(candidates[1..], action)
  }
}
