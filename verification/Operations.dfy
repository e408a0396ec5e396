/** What each engine call plans on its working copy of a case. */
module Operations {
  import opened Definitions
  import opened Soundness
  import opened Tokens
  import opened Replay
  import opened Invariant
  import opened Rounds
  import opened Planning
  import opened WorkingCopy
  import opened Sweeps
  import opened Routing
  import opened Recording
  import opened Returns
  import opened Guards
  import opened Projection
  import opened Engine
  import opened Budget
  import opened Rooms
  import opened Caps
  import opened Ways
  import opened Consultations

  // ------------------------------------------------------------ naming a token

  /** The active token `id` names; without one, the case's only active token. */
  method Pick(g: Image, id: Option<Id>) returns (r: Result<Id>)
    ensures r.Ok? ==> r.value in ActiveIds(g) && (id.Some? ==> r.value == id.value)
    ensures r.Ok? ==> (id.None? ==> ActiveIds(g) == {r.value})
    ensures r.Err? ==> r.error.TokenNotFound? || r.error.TokenRequired?
    ensures r == Err(TokenRequired) <==> id.None? && |ActiveIds(g)| > 1
    ensures r == Err(TokenNotFound) <==> if id.None? then ActiveIds(g) == {} else id.value !in ActiveIds(g)
  {
    var active := ActiveIds(g);
    if id.Some? {
      return if id.value in active then Ok(id.value) else Err(TokenNotFound);
    }
    if active == {} { return Err(TokenNotFound); }
    if |active| > 1 { return Err(TokenRequired); }
    ghost var one := Single(active);
    var t :| t in active;
    return Ok(t);
  }

  // -------------------------------------------------------------------- Move

  datatype MoveInput = MoveInput(
    token: Option<Id>, action: string, comment: string, step: bool, expectedRevision: Option<nat>)

  predicate CommentFits(rule: CommentRule, comment: string) {
    && (rule.CommentRequired? ==> comment != "")
    && (rule.CommentNone? ==> comment == "")
  }

  /** The transition `action` names at node `node`. */
  function Chosen(d: Definition, node: string, action: string): Option<Transition> {
    FindTransition(Routes(d, node), action)
  }

  lemma ChosenFacts(d: Definition, node: string, action: string)
    ensures Chosen(d, node, action).Some? ==>
      var tr := Chosen(d, node, action).value; tr in d.transitions && tr.from == node && tr.action == action
  {
  }

  /** Why the guard of `tr` keeps a token from taking it. */
  function GuardRefusal(o: Oracles, tick: nat, snap: Snapshot, tr: Transition): (e: Option<Error>)
    ensures e.Some? ==> (e.value.GuardRejected? || e.value.GuardFailed?) && Blamed(o, e.value)
  {
    if tr.guard == "" then None
    else match o.guard(tick, tr.guard, snap)
      case Pass => None
      case Refuse => Some(GuardRejected)
      case Fails => Some(GuardFailed)
  }

  /** Asks the guard of `tr`, if it has one. */
  method AskGuard(run: CaseRun, tok: Id, tr: Transition) returns (err: Option<Error>)
    requires tok in run.tokens
    modifies run`asked
    ensures err == GuardRefusal(run.oracles, old(run.asked), old(run.SnapshotAt(tok, run.tokens[tok].node)), tr)
  {
    if tr.guard == "" { return None; }
    var a := run.oracles.guard(run.asked, tr.guard, run.SnapshotAt(tok, run.tokens[tok].node));
    run.asked := run.asked + 1;
    return match a case Pass => None case Refuse => Some(GuardRejected) case Fails => Some(GuardFailed);
  }

  /** How routing token `t` along `tr` may end: in success or an excusable error;
      wherever its guards lead it, onto the join of the block its case started
      in, it ends in the error for that, and onto a task it rests there; into too
      many decisions, it ends in the error for that. */
  ghost predicate Routed(c: Chart, depth: map<string, nat>, caps: Caps, o: Oracles, g: Image, t: Id, tr: Transition,
                         err: Option<Error>, g2: Image) {
    && (err.None? || Excusable(c, depth, caps, o, err.value))
    && (Endless(c.d, caps, tr.to) ==> err.Some? && (err.value.TooManyDecisions? || err.value.GuardFailed?))
    && (forall last :: EndsBy(o, c.d, caps, tr, last) && Astray(c, g, t, last) ==> err == Some(OutsideBlock))
    && (forall last :: EndsBy(o, c.d, caps, tr, last) && Rests(c.d, last.to) ==> Landed(o, c.d, g, g2, t, last.to, err))
  }

  ghost predicate RouteEnds(run: CaseRun, g: Image, t: Id, tr: Transition, err: Option<Error>)
    reads run
  {
    Routed(run.chart, run.depth, run.caps, run.oracles, g, t, tr, err, run.Img())
  }

  lemma RoutedFails(c: Chart, depth: map<string, nat>, caps: Caps, o: Oracles, g: Image, t: Id, tr: Transition,
                    err: Option<Error>, g2: Image, g3: Image)
    requires Routed(c, depth, caps, o, g, t, tr, err, g2) && err.Some?
    ensures Routed(c, depth, caps, o, g, t, tr, err, g3) && Explains(c, depth, caps, o, err.value)
  {
    hide EndsBy;
    hide Endless;
    hide Capped;
    hide Blamed;
  }

  /** A token at rest leaves along `tr`. */
  method Leave(run: CaseRun, tok: Id, tr: Transition, comment: string) returns (err: Option<Error>)
    requires run.Sane(map[], None, {}) && run.Rebuilt() && tok in run.tokens && run.tokens[tok].status.Active?
    requires tr in run.d.transitions && tr.from == run.tokens[tok].node
    requires run.Metered() && run.used == {} && Preface(run.events)
    modifies run
    ensures RouteEnds(run, old(run.Img()), tok, tr, err)
    ensures err.None? ==> run.Sane(map[], None, {}) && run.Rebuilt() && run.Metered()
    ensures err.None? ==> Extends(old(run.W()), run.W(), 1)
    ensures err.None? ==> |run.events| > |old(run.events)| && FirstHop(run.events[|old(run.events)|], tok, tr, comment)
  {
    hide EndsBy;
    hide Endless;
    hide Landed;
    hide Astray;
    hide Rests;
    hide Works;
    hide Rebuilds;
    hide Heard;
    hide Signed;
    hide Extends;
    hide Leaves;
    hide Follows;
    hide Ranked;
    hide Roomy;
    ghost var w := run.W();
    LeavesRest(run.chart, run.base, w, map[], tok, tr);
    Departs(run.chart, run.base, w, map[], tok);
    ExactFollows(run.chart, run.unit, w, tok);
    RoomyAll(run.chart, run.depth, w.g, map[], run.tokens[tok].scope, tr.to);
    hide Picked;
    PrefaceBegins(run.stored, run.events);
    hide JustBegun;
    BoundFree(run.chart.d, run.unit, run.oracles, w.log, |run.stored|, tok, tr);
    err := run.Route(map[], tok, tr, comment, GatewayIds(run.d));
    if err.None? { ExtendsMore(w, run.W(), if NodeOf(run.d, tr.from).kind.Task? then 1 else 0, 1); }
  }

  /** What a move must satisfy before it changes anything. */
  ghost predicate Legal(d: Definition, log: seq<Event>, k: Token, input: MoveInput, tr: Transition) {
    && Chosen(d, k.node, input.action) == Some(tr)
    && CommentFits(tr.comment, input.comment)
    && (tr.back ==> OccupiedAt(log, k.scope, tr.to))
  }

  /** Why a move is refused before anything changes, if it is. */
  ghost function MoveRefusal(o: Oracles, tick: nat, d: Definition, log: seq<Event>, k: Token, snap: Snapshot,
                             input: MoveInput): Option<Error> {
    match Chosen(d, k.node, input.action)
    case None => Some(InvalidTransition)
    case Some(tr) =>
      if !CommentFits(tr.comment, input.comment) then Some(CommentRefused)
      else if tr.back && !OccupiedAt(log, k.scope, tr.to) then Some(ReturnNotVisited)
      else GuardRefusal(o, tick, snap, tr)
  }

  /** A move is refused only for its action, its comment, its target or its
      guard. */
  lemma RefusalsOfMove(o: Oracles, tick: nat, d: Definition, log: seq<Event>, k: Token, snap: Snapshot,
                       input: MoveInput)
    ensures var e := MoveRefusal(o, tick, d, log, k, snap, input);
      && (e.Some? ==> !e.value.Structural() && !e.value.TooManyGateways? && !e.value.TooManyDecisions?)
      && (e.Some? ==> Blamed(o, e.value)) && (e.None? ==> Chosen(d, k.node, input.action).Some?)
      && (e.None? ==> Legal(d, log, k, input, Chosen(d, k.node, input.action).value))
  {
  }

  /** The checks a move passes before anything changes, in their order. */
  method CheckMove(run: CaseRun, tok: Id, input: MoveInput) returns (r: Result<Transition>)
    requires tok in run.tokens
    modifies run`asked
    ensures r.Ok? ==> Legal(run.d, run.stored, run.tokens[tok], input, r.value)
    ensures (if r.Err? then Some(r.error) else None) ==
      MoveRefusal(run.oracles, old(run.asked), run.d, run.stored, run.tokens[tok],
                  old(run.SnapshotAt(tok, run.tokens[tok].node)), input)
  {
    var k := run.tokens[tok];
    var found := Chosen(run.d, k.node, input.action);
    if found.None? { return Err(InvalidTransition); }
    var tr := found.value;
    if !CommentFits(tr.comment, input.comment) { return Err(CommentRefused); }
    if tr.back {
      var occupied := OccupiedStates(run.stored, k.scope);
      if tr.to !in occupied { return Err(ReturnNotVisited); }
    }
    var refused := AskGuard(run, tok, tr);
    return if refused.Some? then Err(refused.value) else Ok(tr);
  }

  /** Records the form a move carries, if it carries one. */
  method RecordStep(run: CaseRun, tok: Id, input: MoveInput)
    requires run.Sane(map[], None, {}) && run.Rebuilt() && tok in run.tokens
    modifies run`tokens, run`events, run`changed
    ensures run.Sane(map[], None, {}) && run.Rebuilt() && run.tokens == old(run.tokens)
    ensures Extends(old(run.W()), run.W(), 0)
    ensures run.events ==
      old(run.events) + (if input.step then [old(run.Note(tok, StepSubmitted(input.action)))] else [])
    ensures Plain(old(run.events), run.events)
  {
    hide Works;
    hide Rebuilds;
    hide Heard;
    hide Signed;
    hide Extends;
    ExtendsRefl(run.W());
    if input.step {
      assert run.tokens[tok := run.tokens[tok]] == run.tokens;
      run.Annotate(map[], tok, run.tokens[tok], StepSubmitted(input.action));
      assert run.tokens == old(run.tokens);
    }
  }

  /** Moves `tok` along the transition the input names. */
  method PlanMoveToken(run: CaseRun, tok: Id, input: MoveInput) returns (err: Option<Error>, ghost tr: Transition)
    requires run.Sane(map[], None, {}) && run.Rebuilt() && tok in run.tokens && run.tokens[tok].status.Active?
    requires run.Metered() && run.used == {} && Preface(run.events)
    modifies run
    ensures var refused := MoveRefusal(run.oracles, old(run.asked), run.d, run.stored, old(run.tokens[tok]),
                                       old(run.SnapshotAt(tok, run.tokens[tok].node)), input);
      if refused.Some? then err == refused
      else
        && Chosen(run.d, old(run.tokens[tok].node), input.action) == Some(tr)
        && RouteEnds(run, old(run.Img()), tok, tr, err)
    ensures err.None? ==> run.Sane(map[], None, {}) && run.Rebuilt() && run.Metered()
    ensures err.None? ==> Extends(old(run.W()), run.W(), 1)
    ensures err.None? ==> Legal(run.d, run.stored, old(run.tokens[tok]), input, tr)
    ensures err.None? ==>
      var i := |old(run.events)| + (if input.step then 1 else 0);
      i < |run.events| && FirstHop(run.events[i], tok, tr, input.comment)
    ensures err.None? && input.step ==>
      run.events[|old(run.events)|] == old(run.Note(tok, StepSubmitted(input.action)))
  {
    hide Routed;
    hide Works;
    hide Rebuilds;
    hide Heard;
    hide Signed;
    hide Extends;
    hide OccupiedAt;
    hide Ranked;
    hide LongChain;
    ghost var w := run.W();
    var r := CheckMove(run, tok, input);
    if r.Err? { return Some(r.error), *; }
    tr := r.value;
    ghost var ev := run.events;
    RecordStep(run, tok, input);
    ghost var w1, ev1 := run.W(), run.events;
    if Ranked(run.chart, run.depth) { PlainOnce(ev, run.events, run.used); }
    err := Leave(run, tok, r.value, input.comment);
    if err.None? {
      ExtendsTrans(w, w1, run.W(), 0, 1);
      LogPrefix(w1, run.W(), 1);
      EventsPrefix(run.stored, ev1, run.events);
    }
  }

  // ------------------------------------------------------------- CancelToken

  /** The branches of the scope of `tok` that go on without it. */
  function LiveSiblings(g: Image, tok: Id): set<Id>
    requires tok in g.tokens
  {
    set t | t in g.tokens && g.tokens[t].scope == g.tokens[tok].scope && t != tok && g.tokens[t].status.Live()
  }

  /** `tok` is the only branch of its scope that still goes on. */
  predicate OnlyBranch(g: Image, tok: Id)
    requires tok in g.tokens
  {
    LiveSiblings(g, tok) == {} && ScopeArms(g, g.tokens[tok].scope) == {}
  }

  method CountSiblings(g: Image, tok: Id) returns (n: nat)
    requires tok in g.tokens
    ensures n == |LiveSiblings(g, tok)|
  {
    n := 0;
    ghost var all := LiveSiblings(g, tok);
    var todo := g.tokens.Keys;
    while todo != {}
      invariant todo <= g.tokens.Keys && n == |all - todo|
      decreases |todo|
    {
      var t :| t in todo;
      DropOne(all, todo, t);
      todo := todo - {t};
      if g.tokens[t].scope == g.tokens[tok].scope && t != tok && g.tokens[t].status.Live() { n := n + 1; }
    }
    assert all - todo == all;
  }

  method CountOpenChildren(g: Image, s: Id) returns (n: nat)
    ensures n == |ScopeArms(g, s)|
  {
    n := 0;
    ghost var all := ScopeArms(g, s);
    var todo := g.scopes.Keys;
    while todo != {}
      invariant todo <= g.scopes.Keys && n == |all - todo|
      decreases |todo|
    {
      var x :| x in todo;
      DropOne(all, todo, x);
      todo := todo - {x};
      if g.scopes[x].parent == Some(s) && g.scopes[x].status.ScopeOpen? { n := n + 1; }
    }
    assert all - todo == all;
  }

  /** A scope that loses one branch goes on with the others. */
  lemma OthersAlive(w: Work, tok: Id, e: Event)
    requires tok in w.g.tokens && !OnlyBranch(w.g, tok)
    ensures Alive(Cancels(w, tok, e).g, map[], w.g.tokens[tok].scope)
  {
    var g2, s := Cancels(w, tok, e).g, w.g.tokens[tok].scope;
    if t :| t in LiveSiblings(w.g, tok) { assert In(g2, t, s); }
    assert ScopeArms(g2, s) == ScopeArms(w.g, s);
  }

  /** Cancels one branch and counts it toward its scope's join; the last live
      branch of a scope is never cancelled. */
  method PlanCancelToken(run: CaseRun, tok: Id, reason: string) returns (err: Option<Error>)
    requires run.Sane(map[], None, {}) && run.Rebuilt() && tok in run.tokens && run.tokens[tok].status.Active?
    requires run.Metered() && run.used == {}
    modifies run
    ensures err.Some? ==> run.Excused(err.value) || err.value.LastBranch?
    ensures err == Some(LastBranch) <==> OnlyBranch(old(run.Img()), tok)
    ensures err.None? ==> run.Metered()
    ensures err.None? ==> run.Sane(map[], None, {}) && run.Rebuilt() && Extends(old(run.W()), run.W(), 1)
    ensures err.None? ==> |run.events| > |old(run.events)|
    ensures err.None? ==>
      run.events[|old(run.events)|] ==
        old(run.Planned(tok, run.tokens[tok].scope, run.tokens[tok].node, run.tokens[tok].node, TokenCancelled(reason)))
  {
    hide Works;
    hide Rebuilds;
    hide Heard;
    hide Signed;
    hide Extends;
    hide Alive;
    hide Ranked;
    hide Roomy;
    hide LongChain;
    var g := Image(run.tokens, run.scopes, run.status, run.endState);
    var siblings := CountSiblings(g, tok);
    var blocks := CountOpenChildren(g, run.tokens[tok].scope);
    if siblings + blocks == 0 { return Some(LastBranch); }
    ghost var w, s := run.W(), run.tokens[tok].scope;
    OthersAlive(w, tok, run.Planned(tok, s, run.tokens[tok].node, run.tokens[tok].node, TokenCancelled(reason)));
    ScopeKnown(run.chart, run.base, w, map[], None, {}, tok);
    var scope := run.tokens[tok].scope;
    var _ := run.CancelOne(map[], {}, tok, reason);
    assert {} + {s} == {s};
    ghost var w1, ev1 := run.W(), run.events;
    if Ranked(run.chart, run.depth) { PlainOnce(old(run.events), run.events, run.used); }
    RoomyAll(run.chart, run.depth, w1.g, map[], scope, run.scopes[scope].joinNode);
    err := run.TryJoin(map[], scope, GatewayIds(run.d));
    if err.None? {
      ghost var n := if JoinPolicyOf(run.chart, w1.g, scope).NoPolicy? then 0 else 1;
      ExtendsMore(w1, run.W(), n, 1);
      ExtendsTrans(w, w1, run.W(), 0, 1);
      LogPrefix(w1, run.W(), 1);
      EventsPrefix(run.stored, ev1, run.events);
    }
  }

  // ------------------------------------------------------------------ Cancel

  function LiveIds(g: Image): set<Id> { set t | t in g.tokens && g.tokens[t].status.Live() }

  lemma NoneLive(g: Image)
    requires LiveIds(g) == {}
    ensures forall t :: t in g.tokens ==> !g.tokens[t].status.Live()
  {
    forall t | t in g.tokens ensures !g.tokens[t].status.Live() { assert t !in LiveIds(g); }
  }

  lemma LessLive(w: Work, t: Id, e: Event)
    requires t in w.g.tokens
    ensures LiveIds(Cancels(w, t, e).g) == LiveIds(w.g) - {t}
  {
  }

  /** Cancels the oldest of the live tokens. */
  method CancelOldest(run: CaseRun, live: set<Id>, reason: string, ghost w0: Work, ghost ev0: seq<Event>)
      returns (live2: set<Id>)
    requires run.Sane(map[], None, run.scopes.Keys) && run.Rebuilt() && Extends(w0, run.W(), 0)
    requires live == LiveIds(run.Img()) && live != {} && Plain(ev0, run.events)
    requires OldestFirst(w0.g.tokens, run.tokens, run.events, |ev0|, live)
    modifies run`tokens, run`events, run`changed
    ensures run.Sane(map[], None, run.scopes.Keys) && run.Rebuilt() && Extends(w0, run.W(), 0)
    ensures live2 == LiveIds(run.Img()) && live2 < live && Plain(ev0, run.events)
    ensures OldestFirst(w0.g.tokens, run.tokens, run.events, |ev0|, live2)
  {
    hide Plain;
    hide Works;
    hide Rebuilds;
    hide Heard;
    hide Signed;
    hide Extends;
    hide OldestFirst;
    Earliest(run.tokens, live);
    var t :| t in live && forall u :: u in live ==> run.tokens[t].enteredSeq <= run.tokens[u].enteredSeq;
    ghost var w, ev := run.W(), run.events;
    ScopeKnown(run.chart, run.base, w, map[], None, run.scopes.Keys, t);
    assert run.scopes.Keys + {run.tokens[t].scope} == run.scopes.Keys;
    ghost var e := run.Planned(t, run.tokens[t].scope, run.tokens[t].node, run.tokens[t].node, TokenCancelled(reason));
    LessLive(w, t, e);
    var _ := run.CancelOne(map[], run.scopes.Keys, t, reason);
    OldestNext(w0.g.tokens, w.g.tokens, run.tokens, ev, |ev0|, live, t, e);
    ExtendsTrans(w0, w, run.W(), 0, 0);
    PlainTrans(ev0, ev, run.events);
    live2 := live - {t};
  }

  /** Cancels every live token, oldest first. */
  method CancelLive(run: CaseRun, reason: string)
    requires run.Sane(map[], None, {}) && run.Rebuilt()
    modifies run`tokens, run`events, run`changed
    ensures run.Sane(map[], None, run.scopes.Keys) && run.Rebuilt() && Extends(old(run.W()), run.W(), 0)
    ensures LiveIds(run.Img()) == {} && Plain(old(run.events), run.events)
    ensures OldestFirst(old(run.tokens), run.tokens, run.events, |old(run.events)|, {})
  {
    hide Plain;
    hide Works;
    hide Rebuilds;
    hide Heard;
    hide Signed;
    hide Extends;
    hide OldestFirst;
    ghost var w0 := run.W();
    ExtendsRefl(w0);
    MoreLoose(run.chart, run.base, w0, map[], None, {}, run.scopes.Keys);
    PlainRefl(run.events);
    var live := set t | t in run.tokens && run.tokens[t].status.Live();
    OldestStarts(run.tokens, run.events, live);
    while live != {}
      invariant run.Sane(map[], None, run.scopes.Keys) && run.Rebuilt() && Extends(w0, run.W(), 0)
      invariant live == LiveIds(run.Img()) && Plain(old(run.events), run.events)
      invariant OldestFirst(w0.g.tokens, run.tokens, run.events, |old(run.events)|, live)
      decreases live
    {
      live := CancelOldest(run, live, reason, w0, old(run.events));
    }
  }

  /** Ends the case without reaching a terminal node. */
  method PlanCaseCancel(run: CaseRun, state: string, reason: string)
    requires run.Sane(map[], None, {}) && run.Rebuilt()
    modifies run
    ensures run.Sane(map[], None, {}) && run.Rebuilt() && Extends(old(run.W()), run.W(), 0)
    ensures run.status == CaseCancelled && run.endState == state
    ensures forall t :: t in run.tokens ==> !run.tokens[t].status.Live()
    ensures forall s :: s in run.scopes ==> !run.scopes[s].status.ScopeOpen?
    ensures |run.events| > |old(run.events)| && run.events[|run.events| - 1].body == CaseCancelledEvent(reason)
    ensures Plain(old(run.events), run.events)
    ensures OldestFirst(old(run.tokens), run.tokens, run.events[..|run.events| - 1], |old(run.events)|, {})
  {
    hide OldestFirst;
    hide Plain;
    hide LiveIds;
    hide Works;
    hide Rebuilds;
    hide Heard;
    hide Signed;
    hide Extends;
    ghost var w0 := run.W();
    CancelLive(run, reason);
    ghost var w := run.W();
    NoneLive(w.g);
    ghost var e := run.Planned(ROOT, ROOT, state, state, CaseCancelledEvent(reason));
    WorkCaseCancel(run.chart, run.unit, run.base, w, run.scopes.Keys, e);
    PlainOne(run.events, e);
    ghost var ev := run.events;
    HeardNote(run.chart.d, run.unit, run.oracles, w.log, |run.stored|, run.rounds, e);
    var seqNo := run.Emit(ROOT, ROOT, state, state, CaseCancelledEvent(reason));
    PlainTrans(old(run.events), ev, run.events);
    assert run.events[..|run.events| - 1] == ev;
    var ids := set s | s in run.scopes && run.scopes[s].status.ScopeOpen?;
    assert ids == OpenScopes(w.g);
    run.CancelEach(ids, seqNo);
    run.status, run.endState := CaseCancelled, state;
    assert run.scopes == CancelOpen(w.g.scopes, seqNo);
    assert run.W() == CancelsCase(w, e);
    LogPrefix(w0, w, 0);
    ExtendsTrans(w0, w, run.W(), 0, 0);
  }

  // --------------------------------------------------- deadlines and expiry

  method PlanSetDeadline(run: CaseRun, tok: Id, due: Option<int>, reason: string)
    requires run.Sane(map[], None, {}) && run.Rebuilt() && tok in run.tokens
    modifies run`tokens, run`events, run`changed
    ensures run.Sane(map[], None, {}) && run.Rebuilt() && Extends(old(run.W()), run.W(), 0)
    ensures run.tokens == old(run.tokens)[tok := old(run.tokens[tok]).(deadlineAt := due, expired := None)]
    ensures run.events ==
      old(run.events) + [old(run.Note(tok, DeadlineChanged(run.tokens[tok].deadlineAt, due, reason)))]
  {
    hide Works;
    hide Rebuilds;
    hide Heard;
    hide Signed;
    hide Extends;
    var k := run.tokens[tok];
    run.Annotate(map[], tok, k.(deadlineAt := due, expired := None), DeadlineChanged(k.deadlineAt, due, reason));
  }

  /** The transition an expired token is to take, if its node names one. */
  function ExpiryAction(d: Definition, node: string): Option<string> {
    if !Has(d, node) || NodeOf(d, node).onExpire == "" then None else Some(NodeOf(d, node).onExpire)
  }

  /** Why an expired token cannot take the transition its node names. */
  function ExpiryRefusal(o: Oracles, tick: nat, d: Definition, k: Token, snap: Snapshot): Option<Error> {
    match ExpiryAction(d, k.node)
    case None => None
    case Some(action) =>
      match Chosen(d, k.node, action)
      case None => Some(InvalidTransition)
      case Some(tr) => GuardRefusal(o, tick, snap, tr)
  }

  /** The transition an expired token takes, if its node names one. */
  method ExpiryRoute(run: CaseRun, tok: Id) returns (r: Result<Option<Transition>>)
    requires tok in run.tokens
    modifies run`asked
    ensures (if r.Err? then Some(r.error) else None) ==
      ExpiryRefusal(run.oracles, old(run.asked), run.d, run.tokens[tok], old(run.SnapshotAt(tok, run.tokens[tok].node)))
    ensures r.Ok? ==> r.value == match ExpiryAction(run.d, run.tokens[tok].node)
                                 case None => None
                                 case Some(action) => Chosen(run.d, run.tokens[tok].node, action)
    ensures r.Ok? && r.value.None? ==> ExpiryAction(run.d, run.tokens[tok].node).None?
  {
    var node := run.tokens[tok].node;
    var action := ExpiryAction(run.d, node);
    if action.None? { return Ok(None); }
    var found := Chosen(run.d, node, action.value);
    if found.None? { return Err(InvalidTransition); }
    var refused := AskGuard(run, tok, found.value);
    return if refused.Some? then Err(refused.value) else Ok(found);
  }

  /** Event `i` moves `tok` because it expired, if `node` says where to. */
  ghost predicate Followed(d: Definition, events: seq<Event>, i: nat, tok: Id, node: string) {
    var action := ExpiryAction(d, node);
    action.Some? ==>
      && i < |events| && Chosen(d, node, action.value).Some?
      && FirstHop(events[i], tok, Chosen(d, node, action.value).value, "") && events[i].body.cause == "expired"
  }

  predicate Overdue(k: Token, now: int) { k.deadlineAt.Some? && k.deadlineAt.value < now }

  /** Takes the route and records on its first move that expiry caused it. */
  method LeaveExpired(run: CaseRun, tok: Id, tr: Transition) returns (err: Option<Error>)
    requires run.Sane(map[], None, {}) && run.Rebuilt() && tok in run.tokens && run.tokens[tok].status.Active?
    requires tr in run.d.transitions && tr.from == run.tokens[tok].node
    requires run.Metered() && run.used == {} && Preface(run.events)
    modifies run
    ensures RouteEnds(run, old(run.Img()), tok, tr, err)
    ensures err.None? ==> run.Sane(map[], None, {}) && run.Rebuilt() && run.Metered()
    ensures err.None? ==> Extends(old(run.W()), run.W(), 1)
    ensures err.None? ==> |run.events| > |old(run.events)| && FirstHop(run.events[|old(run.events)|], tok, tr, "")
    ensures err.None? ==> run.events[|old(run.events)|].body.cause == "expired"
  {
    hide Works;
    hide Rebuilds;
    hide Heard;
    hide Signed;
    hide Extends;
    hide Ranked;
    hide LongChain;
    ghost var w := run.W();
    var hop := |run.events|;
    err := Leave(run, tok, tr, "");
    if err.None? {
      ghost var w1, i := run.W(), |run.stored| + hop;
      WorkRecause(run.chart, run.unit, run.base, w, w1, 1, i, "expired");
      var e := run.events[hop];
      assert e == w1.log[i];
      if Ranked(run.chart, run.depth) {
        RecausedOnce(run.events, hop, e.(body := e.body.(cause := "expired")), run.used);
      }
      CauseOnce(w1.log, i, "expired");
      ghost var recaused := w1.log[i := Recaused(w1.log[i], "expired")];
      CauseHeard(run.chart.d, run.unit, run.oracles, w1.log, recaused, |run.stored|, run.rounds);
      SignedStill(run.events, 0, run.now, run.actor, hop, e.(body := e.body.(cause := "expired")));
      run.events := run.events[hop := e.(body := e.body.(cause := "expired"))];
      assert run.stored + run.events == w1.log[i := Recaused(w1.log[i], "expired")];
      assert run.W() == w1.(log := w1.log[i := Recaused(w1.log[i], "expired")]);
    }
  }

  /** Records that the deadline passed and takes the expiry transition, if the
      token's node names one. */
  method RecordExpiry(run: CaseRun, tok: Id) returns (err: Option<Error>)
    requires run.Sane(map[], None, {}) && run.Rebuilt() && tok in run.tokens && run.tokens[tok].status.Active?
    requires run.tokens[tok].deadlineAt.Some?
    requires run.Metered() && run.used == {} && Preface(run.events)
    modifies run
    ensures var refused := ExpiryRefusal(run.oracles, old(run.asked), run.d, old(run.tokens[tok]),
                                         old(run.SnapshotAt(tok, run.tokens[tok].node)));
      if refused.Some? then err == refused else err.None? || run.Excused(err.value)
    ensures err.None? ==> run.Sane(map[], None, {}) && run.Rebuilt() && run.Metered()
    ensures err.None? ==> Extends(old(run.W()), run.W(), 1)
    ensures err.None? ==> |run.events| > |old(run.events)|
    ensures err.None? ==>
      run.events[|old(run.events)|] == old(run.Note(tok, DeadlineExpired(run.tokens[tok].deadlineAt.value)))
    ensures err.None? ==> Followed(run.d, run.events, |old(run.events)| + 1, tok, old(run.tokens[tok].node))
    ensures err.None? && ExpiryAction(run.d, old(run.tokens[tok].node)).None? ==>
      && run.tokens == old(run.tokens)[tok := old(run.tokens[tok]).(expired := old(run.tokens[tok].deadlineAt))]
      && |run.events| == |old(run.events)| + 1
  {
    hide Works;
    hide Rebuilds;
    hide Heard;
    hide Signed;
    hide Extends;
    hide Chosen;
    hide FirstHop;
    hide Ranked;
    hide LongChain;
    var k := run.tokens[tok];
    ghost var w := run.W();
    ChosenFacts(run.d, k.node, NodeOf(run.d, k.node).onExpire);
    var route := ExpiryRoute(run, tok);
    if route.Err? { return Some(route.error); }
    run.Annotate(map[], tok, k.(expired := k.deadlineAt), DeadlineExpired(k.deadlineAt.value));
    ghost var w1, ev1 := run.W(), run.events;
    if Ranked(run.chart, run.depth) { PlainOnce(old(run.events), run.events, run.used); }
    ExtendsMore(w, w1, 0, 1);
    err := None;
    if route.value.Some? {
      err := LeaveExpired(run, tok, route.value.value);
      if err.None? {
        ExtendsTrans(w, w1, run.W(), 0, 1);
        LogPrefix(w1, run.W(), 1);
        EventsPrefix(run.stored, ev1, run.events);
      }
    }
  }

  /** Why an expiry is refused before anything changes: its deadline has not
      passed, or was already recorded, or the way out is barred. */
  function ExpireRefusal(o: Oracles, tick: nat, d: Definition, k: Token, now: int, snap: Snapshot): (e: Option<Error>)
    ensures e.Some? ==> !e.value.Structural() && !e.value.TooManyGateways? && !e.value.TooManyDecisions?
    ensures e.Some? ==> Blamed(o, e.value)
    ensures e.None? ==> Overdue(k, now)
  {
    if !Overdue(k, now) then Some(NotOverdue)
    else if k.expired == k.deadlineAt then Some(AlreadyExpired)
    else ExpiryRefusal(o, tick, d, k, snap)
  }

  /** Records once per deadline that it passed. */
  method PlanExpire(run: CaseRun, tok: Id) returns (err: Option<Error>)
    requires run.Sane(map[], None, {}) && run.Rebuilt() && tok in run.tokens && run.tokens[tok].status.Active?
    requires run.Metered() && run.used == {} && Preface(run.events)
    modifies run
    ensures var refused := ExpireRefusal(run.oracles, old(run.asked), run.d, old(run.tokens[tok]), run.now,
                                         old(run.SnapshotAt(tok, run.tokens[tok].node)));
      if refused.Some? then err == refused else err.None? || run.Excused(err.value)
    ensures err.None? ==> run.Sane(map[], None, {}) && run.Rebuilt() && run.Metered()
    ensures err.None? ==> Extends(old(run.W()), run.W(), 1)
    ensures err.None? ==> |run.events| > |old(run.events)|
    ensures err.None? ==> old(run.tokens[tok].deadlineAt.Some?)
    ensures err.None? ==>
      run.events[|old(run.events)|] == old(run.Note(tok, DeadlineExpired(run.tokens[tok].deadlineAt.value)))
    ensures err.None? ==> Followed(run.d, run.events, |old(run.events)| + 1, tok, old(run.tokens[tok].node))
    ensures err.None? && ExpiryAction(run.d, old(run.tokens[tok].node)).None? ==>
      && run.tokens == old(run.tokens)[tok := old(run.tokens[tok]).(expired := old(run.tokens[tok].deadlineAt))]
      && |run.events| == |old(run.events)| + 1
  {
    hide Works;
    hide Rebuilds;
    hide Heard;
    hide Signed;
    hide Extends;
    hide Ranked;
    hide LongChain;
    var k := run.tokens[tok];
    if !Overdue(k, run.now) {
      err := Some(NotOverdue);
    } else if k.expired == k.deadlineAt {
      err := Some(AlreadyExpired);
    } else {
      err := RecordExpiry(run, tok);
    }
  }

  // -------------------------------------------------------------- assignment

  /** Takes an unassigned token for `who`; claiming one's own token again is no
      change. */
  method PlanClaim(run: CaseRun, tok: Id, who: string) returns (err: Option<Error>)
    requires run.Sane(map[], None, {}) && run.Rebuilt() && tok in run.tokens
    modifies run`tokens, run`events, run`changed
    ensures err == if old(run.tokens[tok].assignedTo) != "" &&
      old(run.tokens[tok].assignedTo) != who then Some(AlreadyAssigned) else None
    ensures err.None? ==> run.Sane(map[], None, {}) && run.Rebuilt() && Extends(old(run.W()), run.W(), 0)
    ensures err.None? ==> run.tokens == old(run.tokens)[tok := old(run.tokens[tok]).(assignedTo := who)]
    ensures err.None? ==>
      run.events == old(run.events) +
        (if old(run.tokens[tok].assignedTo) != "" then [] else [old(run.Note(tok, Assigned("", who, "")))])
  {
    hide Works;
    hide Rebuilds;
    hide Heard;
    hide Signed;
    hide Extends;
    var k := run.tokens[tok];
    ExtendsRefl(run.W());
    if k.assignedTo != "" {
      assert run.tokens[tok := k] == run.tokens;
      return if k.assignedTo == who then None else Some(AlreadyAssigned);
    }
    run.Annotate(map[], tok, k.(assignedTo := who), Assigned("", who, ""));
    return None;
  }

  function ReleaseRefusal(holder: string, who: string, reason: string): Option<Error> {
    if holder == "" then Some(NotAssigned)
    else if holder != who && reason == "" then Some(ReasonRequired)
    else None
  }

  /** Gives a token back; releasing someone else's needs a reason. */
  method PlanRelease(run: CaseRun, tok: Id, who: string, reason: string) returns (err: Option<Error>)
    requires run.Sane(map[], None, {}) && run.Rebuilt() && tok in run.tokens
    modifies run`tokens, run`events, run`changed
    ensures err == ReleaseRefusal(old(run.tokens[tok].assignedTo), who, reason)
    ensures err.None? ==> run.Sane(map[], None, {}) && run.Rebuilt() && Extends(old(run.W()), run.W(), 0)
    ensures err.None? ==> run.tokens == old(run.tokens)[tok := old(run.tokens[tok]).(assignedTo := "")]
    ensures err.None? ==>
      run.events == old(run.events) + [old(run.Note(tok, Unassigned(run.tokens[tok].assignedTo, reason)))]
  {
    hide Works;
    hide Rebuilds;
    hide Heard;
    hide Signed;
    hide Extends;
    var k := run.tokens[tok];
    if k.assignedTo == "" { return Some(NotAssigned); }
    if who != k.assignedTo && reason == "" { return Some(ReasonRequired); }
    run.Annotate(map[], tok, k.(assignedTo := ""), Unassigned(k.assignedTo, reason));
    return None;
  }

  method PlanReassign(run: CaseRun, tok: Id, to: string, reason: string)
    requires run.Sane(map[], None, {}) && run.Rebuilt() && tok in run.tokens
    modifies run`tokens, run`events, run`changed
    ensures run.Sane(map[], None, {}) && run.Rebuilt() && Extends(old(run.W()), run.W(), 0)
    ensures run.tokens == old(run.tokens)[tok := old(run.tokens[tok]).(assignedTo := to)]
    ensures run.events == old(run.events) + [old(run.Note(tok, Assigned(run.tokens[tok].assignedTo, to, reason)))]
  {
    hide Works;
    hide Rebuilds;
    hide Heard;
    hide Signed;
    hide Extends;
    var k := run.tokens[tok];
    run.Annotate(map[], tok, k.(assignedTo := to), Assigned(k.assignedTo, to, reason));
  }
}
