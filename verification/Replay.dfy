/** Event sourcing: the tokens, scopes and status a history rebuilds. */
module Replay {
  import opened Definitions
  import opened Soundness
  import opened Tokens

  datatype Image = Image(
    tokens: map<Id, Token>, scopes: map<Id, Scope>, status: CaseStatus, endState: string)

  /** The split whose branches the tokens of scope `sc` run in. */
  function Side(c: Chart, sc: Scope): string { if sc.parent.None? then c.root else sc.splitNode }

  const NOTHING := Image(map[], map[], CaseOpen, "")

  /** The direct child of `ancestor` on the path of open scopes up from `s`. */
  function ChildOnPath(scopes: map<Id, Scope>, s: Id, ancestor: Id): (c: Option<Id>)
    ensures c.Some? ==> c.value in scopes && scopes[c.value].parent == Some(ancestor)
    ensures c.Some? ==> scopes[c.value].status.ScopeOpen?
    ensures c.Some? ==> s in scopes && scopes[s].status.ScopeOpen?
    decreases s
  {
    if s in scopes && scopes[s].status.ScopeOpen? && scopes[s].parent.Some? then
      var p := scopes[s].parent.value;
      if p == ancestor then Some(s)
      else if p < s then ChildOnPath(scopes, p, ancestor)
      else None
    else None
  }

  predicate Inside(scopes: map<Id, Scope>, s: Id, ancestor: Id) {
    ChildOnPath(scopes, s, ancestor).Some?
  }

  function Ended(t: Token, status: TokenStatus, seqNo: nat, at: int): Token {
    t.(status := status, endedSeq := seqNo, endedAt := Some(at),
       assignedTo := "", deadlineAt := None, expired := None)
  }

  function Entered(d: Definition, unit: string, t: Token, node: string, deadline: Option<int>, seqNo: nat,
                   at: int): Token {
    t.(node := node, status := Active, enteredSeq := seqNo, enteredAt := at,
       assignedTo := "", deadlineAt := deadline, expired := None,
       eligible := if Rests(d, node) then ResolvedEligibility(NodeOf(d, node), unit) else NO_ELIGIBILITY)
  }

  function CloseScope(s: Scope, status: ScopeStatus, seqNo: nat): Scope {
    s.(status := status, closedSeq := seqNo)
  }

  /** The scopes after scope `closed` joined at `seqNo`: what was still open
      inside it is cancelled. */
  function JoinScopes(scopes: map<Id, Scope>, closed: Id, seqNo: nat): map<Id, Scope> {
    map s | s in scopes ::
      if s == closed then CloseScope(scopes[s], ScopeJoined, seqNo)
      else if Inside(scopes, s, closed) then CloseScope(scopes[s], ScopeCancelled, seqNo)
      else scopes[s]
  }

  function EndOne(tokens: map<Id, Token>, t: Id, status: TokenStatus, seqNo: nat, at: int): map<Id, Token> {
    if t in tokens then tokens[t := Ended(tokens[t], status, seqNo, at)] else tokens
  }

  function EndAll(tokens: map<Id, Token>, ids: set<Id>, status: TokenStatus, seqNo: nat, at: int): map<Id, Token> {
    map t | t in tokens :: if t in ids then Ended(tokens[t], status, seqNo, at) else tokens[t]
  }

  function CancelOpen(scopes: map<Id, Scope>, seqNo: nat): map<Id, Scope> {
    map s | s in scopes ::
      if scopes[s].status.ScopeOpen? then CloseScope(scopes[s], ScopeCancelled, seqNo) else scopes[s]
  }

  /** One event's effect. An event naming a token the image lacks changes
      nothing, except that a first move creates its token. */
  function Apply(d: Definition, unit: string, g: Image, e: Event): Image {
    match e.body
    case Opened(deadline) =>
      g.(scopes := g.scopes[ROOT := Scope(None, "", "", 1, ScopeOpen, e.seqNo, 0)],
         tokens := g.tokens[ROOT := Entered(d, unit, Newborn(ROOT, e.to), e.to, deadline, e.seqNo, e.at)],
         status := CaseOpen, endState := "")
    case Moved(_, _, deadline, _) =>
      var t := if e.token in g.tokens then g.tokens[e.token] else Newborn(e.scope, e.from);
      g.(tokens := g.tokens[e.token := Entered(d, unit, t, e.to, deadline, e.seqNo, e.at)])
    case SplitOpened(child, branches) =>
      g.(tokens := EndOne(g.tokens, e.token, Consumed, e.seqNo, e.at),
         scopes := g.scopes[child :=
           Scope(Some(e.scope), e.to, NodeOf(d, e.to).join, |branches|, ScopeOpen, e.seqNo, 0)])
    case WaitingAtJoin(outcome) =>
      if e.token in g.tokens then
        g.(tokens := g.tokens[e.token := g.tokens[e.token].(status := Waiting, outcome := outcome)])
      else g
    case Joined(closed, consumed, _, _, _) =>
      if closed in g.scopes && g.scopes[closed].parent.Some? then
        g.(tokens := EndAll(g.tokens, consumed, Consumed, e.seqNo, e.at)
                     [e.token := Newborn(g.scopes[closed].parent.value, e.to)],
           scopes := JoinScopes(g.scopes, closed, e.seqNo))
      else g
    case CaseClosedEvent(_) =>
      if ROOT in g.scopes then
        g.(tokens := EndOne(g.tokens, e.token, Consumed, e.seqNo, e.at),
           scopes := g.scopes[ROOT := CloseScope(g.scopes[ROOT], ScopeClosed, e.seqNo)],
           status := CaseClosed, endState := e.to)
      else g
    case TokenCancelled(_) =>
      g.(tokens := EndOne(g.tokens, e.token, Cancelled, e.seqNo, e.at))
    case CaseCancelledEvent(_) =>
      g.(scopes := CancelOpen(g.scopes, e.seqNo), status := CaseCancelled, endState := e.to)
    case Assigned(_, to, _) =>
      if e.token in g.tokens then g.(tokens := g.tokens[e.token := g.tokens[e.token].(assignedTo := to)]) else g
    case Unassigned(_, _) =>
      if e.token in g.tokens then g.(tokens := g.tokens[e.token := g.tokens[e.token].(assignedTo := "")]) else g
    case DeadlineChanged(_, to, _) =>
      if e.token in g.tokens then
        g.(tokens := g.tokens[e.token := g.tokens[e.token].(deadlineAt := to, expired := None)])
      else g
    case DeadlineExpired(deadline) =>
      if e.token in g.tokens then
        g.(tokens := g.tokens[e.token := g.tokens[e.token].(expired := Some(deadline))])
      else g
    case StepSubmitted(_) => g
    case FailureRecorded(_) => g
  }

  function Rebuild(d: Definition, unit: string, log: seq<Event>): Image {
    if log == [] then NOTHING
    else Apply(d, unit, Rebuild(d, unit, log[..|log| - 1]), log[|log| - 1])
  }

  /** An open case has not ended anywhere. */
  lemma {:induction false} OpenHasNoEnd(d: Definition, unit: string, log: seq<Event>)
    ensures Rebuild(d, unit, log).status.CaseOpen? ==> Rebuild(d, unit, log).endState == ""
  {
    if log != [] { OpenHasNoEnd(d, unit, log[..|log| - 1]); }
  }
}
