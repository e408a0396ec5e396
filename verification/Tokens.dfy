/** The mutable state of a case (tokens and scopes) and the events of its
    history. Identifiers are allocated from a counter; the case, its root scope
    and its root token share identifier `ROOT`. */
module Tokens {
  import opened Definitions

  type Id = nat

  const ROOT: Id := 0

  datatype TokenStatus = Active | Waiting | Consumed | Cancelled
  {
    predicate Live() { Active? || Waiting? }
  }

  datatype Token = Token(
    scope: Id, node: string, status: TokenStatus, eligible: Eligibility,
    assignedTo: string, deadlineAt: Option<int>, expired: Option<int>,
    enteredSeq: nat, enteredAt: int, endedSeq: nat, endedAt: Option<int>,
    outcome: Outcome)

  /** A token as a split or a join creates it. */
  function Newborn(scope: Id, node: string): Token {
    Token(scope, node, Active, NO_ELIGIBILITY, "", None, None, 0, 0, 0, None, NoOutcome)
  }

  datatype ScopeStatus = ScopeOpen | ScopeJoined | ScopeCancelled | ScopeClosed

  datatype Scope = Scope(
    parent: Option<Id>, splitNode: string, joinNode: string, expected: nat,
    status: ScopeStatus, openedSeq: nat, closedSeq: nat)

  datatype CaseStatus = CaseOpen | CaseClosed | CaseCancelled

  datatype ActorKind = Human | Operator | System | ApiClient | Anonymous

  datatype Actor = Actor(kind: ActorKind, id: string)

  datatype BranchResult = BranchResult(token: Id, outcome: Outcome, seqNo: nat)

  /** What a case event records beyond its token, scope and nodes. */
  datatype Body =
    | Opened(deadline: Option<int>)
    | Moved(action: string, comment: string, deadline: Option<int>, cause: string)
    | Assigned(previous: string, assignee: string, reason: string)
    | Unassigned(previous: string, reason: string)
    | CaseClosedEvent(action: string)
    | StepSubmitted(action: string)
    | FailureRecorded(action: string)
    | SplitOpened(child: Id, branches: seq<Id>)
    | WaitingAtJoin(outcome: Outcome)
    | Joined(closed: Id, consumed: set<Id>, policy: Policy, verdict: Outcome, results: seq<BranchResult>)
    | TokenCancelled(reason: string)
    | CaseCancelledEvent(reason: string)
    | DeadlineChanged(oldDeadline: Option<int>, newDeadline: Option<int>, reason: string)
    | DeadlineExpired(expiredDeadline: int)

  datatype Event = Event(
    seqNo: nat, at: int, actor: Actor, token: Id, scope: Id,
    from: string, to: string, body: Body)

  /** A closed round, as the guards routing the join's token see it. */
  datatype Round = Round(scope: Id, policy: Policy, verdict: Outcome, results: seq<BranchResult>)
}
