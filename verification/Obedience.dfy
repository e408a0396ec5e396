/** What a call owes the engine's functions: no join a check refuses, and a
    decision behind a round that follows its verdict. */
module Obedience {
  import opened Definitions
  import opened Tokens
  import opened Replay
  import opened Invariant
  import opened WorkingCopy
  import opened Ways
  import opened Guards
  import opened Caps
  import opened Consultations
  import opened Operations
  import opened Cases
  import opened Calls

  /** With a check that refuses everything no call fires a join. */
  lemma RefusedJoinsNever(on: Setup, db: Db, cmd: Command, err: Option<Error>, db2: Db, i: nat)
    requires Did(on, db, cmd, err, db2) && |db.log| <= i < |db2.log|
    requires forall k: nat, rec :: !cmd.oracles.joinCheck(k, rec)
    ensures !db2.log[i].body.Joined?
  {
    hide GoodDb;
    hide Fulfils;
    assert Allowed(on.d, on.unit, cmd.oracles, db2.log[..i], |db.log|, db2.log[i]);
  }

  /** Every join a call fires was put before the check, as the history tells it,
      and agreed to. */
  lemma JoinsWereAgreed(on: Setup, db: Db, cmd: Command, err: Option<Error>, db2: Db, i: nat)
    requires Did(on, db, cmd, err, db2) && |db.log| <= i < |db2.log| && db2.log[i].body.Joined?
    ensures Agreed(on.d, on.unit, cmd.oracles, db2.log[..i], db2.log[i])
  {
    hide GoodDb;
    hide Fulfils;
    assert Allowed(on.d, on.unit, cmd.oracles, db2.log[..i], |db.log|, db2.log[i]);
  }

  // ------------------------------------------------------- the round behind it

  predicate ClosesRound(e: Event) { e.body.Joined? && !e.body.policy.NoPolicy? }

  function RoundBy(e: Event): Round
    requires e.body.Joined?
  {
    Round(e.body.closed, e.body.policy, e.body.verdict, e.body.results)
  }

  lemma {:induction false} JoinsGrow(log: seq<Event>, a: nat, b: nat)
    requires a <= b <= |log|
    ensures PolicyJoins(log[..a]) <= PolicyJoins(log[..b])
    decreases b
  {
    if a < b {
      assert log[..b][..b - 1] == log[..b - 1];
      JoinsGrow(log, a, b - 1);
    }
  }

  lemma JoinCounts(log: seq<Event>, j: nat)
    requires j < |log| && ClosesRound(log[j])
    ensures PolicyJoins(log[..j + 1]) == PolicyJoins(log[..j]) + 1
  {
    assert log[..j + 1][..j] == log[..j];
  }

  /** A call that closes at most one round closes no second one. */
  lemma OnlyRound(log: seq<Event>, from: nat, i: nat, j: nat)
    requires from <= i < j < |log| && PolicyJoins(log) <= PolicyJoins(log[..from]) + 1
    requires ClosesRound(log[i])
    ensures !ClosesRound(log[j])
  {
    assert log[..|log|] == log;
    if ClosesRound(log[j]) {
      JoinsGrow(log, from, i);
      JoinCounts(log, i);
      JoinsGrow(log, i + 1, j);
      JoinCounts(log, j);
      JoinsGrow(log, j + 1, |log|);
    }
  }

  /** The round a guard sees behind a token is the one whose join created it. */
  lemma {:induction false} RoundSeen(log: seq<Event>, from: nat, j: nat, i: nat)
    requires from <= j < i <= |log| && ClosesRound(log[j]) && PolicyJoins(log) <= PolicyJoins(log[..from]) + 1
    ensures RoundIn(log[..i], from, log[j].token) == Some(RoundBy(log[j]))
    decreases i
  {
    assert log[..i][..i - 1] == log[..i - 1];
    if j < i - 1 {
      OnlyRound(log, from, j, i - 1);
      RoundSeen(log, from, j, i - 1);
    }
  }

  /** Behind any other token it sees none. */
  lemma {:induction false} NoRoundSeen(log: seq<Event>, from: nat, i: nat, t: Id)
    requires from <= i <= |log| && forall j :: from <= j < i && ClosesRound(log[j]) ==> log[j].token != t
    ensures RoundIn(log[..i], from, t) == None
    decreases i
  {
    if from < i {
      assert log[..i][..i - 1] == log[..i - 1];
      NoRoundSeen(log, from, i - 1, t);
    }
  }

  lemma OneRoundACall(on: Setup, db: Db, cmd: Command, err: Option<Error>, db2: Db)
    requires Did(on, db, cmd, err, db2)
    ensures PolicyJoins(db2.log) <= PolicyJoins(db.log) + 1 && db2.log[..|db.log|] == db.log
  {
    hide GoodDb;
    hide Refusal;
    hide MoveEnds;
    hide CancelEnds;
    hide ExpireEnds;
    hide AllAllowed;
    hide Signed;
    hide Explains;
    hide PassesOnce;
    hide Returned;
    if cmd.call.RecordFailure? && err.None? {
      assert db2.log[..|db2.log| - 1] == db.log;
    }
  }

  /** A guard that passes exactly when the round behind the token was rejected. */
  ghost predicate AsksForRejection(o: Oracles, guard: string) {
    forall k: nat, snap: Snapshot ::
      o.guard(k, guard, snap) == if snap.round.Some? && snap.round.value.verdict.Rejected? then Pass else Refuse
  }

  /** The first route out of a decision asks for a rejection. Then the token a
      round's join created takes it exactly when the event of that join says the
      round was rejected. */
  lemma RejectedGoesBack(on: Setup, db: Db, cmd: Command, err: Option<Error>, db2: Db, j: nat, i: nat)
    requires Did(on, db, cmd, err, db2) && |db.log| <= j < i < |db2.log|
    requires ClosesRound(db2.log[j]) && db2.log[i].body.Moved? && db2.log[i].token == db2.log[j].token
    requires IsDecision(on.d, db2.log[i].from)
    requires var routes := Routes(on.d, db2.log[i].from);
      && routes != [] && routes[0].guard != "" && AsksForRejection(cmd.oracles, routes[0].guard)
      && forall r :: 0 < r < |routes| ==> routes[r].action != routes[0].action
    ensures GoesAlong(db2.log[i], Routes(on.d, db2.log[i].from)[0]) <==> db2.log[j].body.verdict.Rejected?
  {
    OneRoundACall(on, db, cmd, err, db2);
    RoundSeen(db2.log, |db.log|, j, i);
    hide GoodDb;
    hide Fulfils;
    var d, log, e := on.d, db2.log[..i], db2.log[i];
    assert Allowed(d, on.unit, cmd.oracles, log, |db.log|, e);
    var tr :| tr in d.transitions && GoesAlong(e, tr) && Picked(d, on.unit, cmd.oracles, log, |db.log|, e.token, tr);
    var snap := SeenAt(d, on.unit, log, |db.log|, e.token, tr.from);
    var k: nat :| FirstPassing(cmd.oracles, k, snap, Routes(d, tr.from), tr);
    FirstFollows(cmd.oracles, k, snap, Routes(d, tr.from), tr);
  }

  lemma FirstFollows(o: Oracles, k: nat, snap: Snapshot, routes: seq<Transition>, tr: Transition)
    requires FirstPassing(o, k, snap, routes, tr) && routes != [] && routes[0].guard != ""
    requires AsksForRejection(o, routes[0].guard)
    requires forall r :: 0 < r < |routes| ==> routes[r].action != routes[0].action
    ensures tr.action == routes[0].action <==> tr == routes[0]
    ensures tr == routes[0] <==> snap.round.Some? && snap.round.value.verdict.Rejected?
  {
    var i :| FirstAnswer(o, k, snap, routes, i, Pass) && tr == routes[i];
    assert AnswerAt(o, k, snap, routes, 0) == o.guard(k + 0, routes[0].guard, snap);
  }

  // ------------------------------------------------------------------- moving

  /** A transition of the case's definition that `action` names at `node`. */
  predicate NamedBy(d: Definition, node: string, action: string, tr: Transition) {
    tr in d.transitions && tr.from == node && tr.action == action
  }

  predicate CommentSuits(tr: Transition, comment: string) {
    match tr.comment
    case CommentNone => comment == ""
    case CommentRequired => comment != ""
    case CommentOptional => true
  }

  /** The guard of `tr`, shown token `k` at rest, answers `a`. */
  predicate GuardSays(o: Oracles, tr: Transition, k: Token, a: Answer) {
    tr.guard != "" && o.guard(0, tr.guard, Snapshot(k.node, k, None)) == a
  }

  /** The transition an action names is found whenever there is one. */
  lemma NamedIsChosen(d: Definition, node: string, action: string)
    ensures var tr := Chosen(d, node, action);
      if tr.Some? then NamedBy(d, node, action, tr.value) else forall other :: !NamedBy(d, node, action, other)
  {
    ChosenFacts(d, node, action);
    forall other | Chosen(d, node, action).None? && other in d.transitions && other.from == node
      ensures other.action != action
    {
      assert other in Routes(d, node);
    }
  }

  lemma RefusalMeans(o: Oracles, d: Definition, log: seq<Event>, k: Token, input: MoveInput, tr: Transition)
    requires NamedBy(d, k.node, input.action, tr)
    requires forall other :: NamedBy(d, k.node, input.action, other) ==> other == tr
    ensures var no := MoveRefusal(o, 0, d, log, k, Seen(k), input);
      && no != Some(InvalidTransition)
      && (no == Some(CommentRefused) <==> !CommentSuits(tr, input.comment))
      && (no.None? ==> !GuardSays(o, tr, k, Refuse) && !GuardSays(o, tr, k, Fails))
      && (no == Some(GuardRejected) ==> GuardSays(o, tr, k, Refuse))
      && (CommentSuits(tr, input.comment) && !tr.back && GuardSays(o, tr, k, Refuse) ==> no == Some(GuardRejected))
  {
    assert tr in Routes(d, k.node);
    NamedIsChosen(d, k.node, input.action);
    assert Chosen(d, k.node, input.action) == Some(tr);
  }

  lemma UnnamedIsRefused(o: Oracles, d: Definition, log: seq<Event>, k: Token, input: MoveInput)
    requires forall tr :: !NamedBy(d, k.node, input.action, tr)
    ensures MoveRefusal(o, 0, d, log, k, Seen(k), input) == Some(InvalidTransition)
  {
    NamedIsChosen(d, k.node, input.action);
  }

  lemma MeantOnce(g: Image, token: Option<Id>, a: Id, b: Id)
    requires Meant(g, token, a) && Meant(g, token, b)
    ensures a == b
  {
  }

  /** A move that is refused is refused for its first failing check; otherwise its
      error, if any, is one of routing. */
  lemma MoveEndsBy(on: Setup, db: Db, cmd: Command, err: Option<Error>, db2: Db, tok: Id)
    requires Did(on, db, cmd, err, db2) && cmd.call.Move? && Meant(db.Img(), cmd.call.input.token, tok)
    requires var input := cmd.call.input;
      Refusal(db.row, db.Img(), input.token, input.expectedRevision, CaseNotOpen).None?
    ensures var no := MoveRefusal(cmd.oracles, 0, on.d, db.log, db.tokens[tok], Seen(db.tokens[tok]), cmd.call.input);
      if no.Some? then err == no else err.None? || err.value.Routing() || err.value.OutsideBlock?
  {
    hide GoodDb;
    hide AllAllowed;
    hide Signed;
    hide Refusal;
    hide MoveRefusal;
    hide EndsBy;
    hide Endless;
    hide Landed;
    hide Meant;
    hide Took;
    hide Capped;
    hide Blamed;
    var t2 :| MoveDid(on, db, cmd, cmd.call.input, t2, err, db2);
    MeantOnce(db.Img(), cmd.call.input.token, tok, t2);
  }

  /** What a move of token `tok` is held to: an action its node has, the comment
      its transition asks for, and a guard that, shown the token at rest, passes. */
  lemma MoveObeys(on: Setup, db: Db, cmd: Command, err: Option<Error>, db2: Db, tok: Id, tr: Transition)
    requires Did(on, db, cmd, err, db2) && cmd.call.Move? && Meant(db.Img(), cmd.call.input.token, tok)
    requires var input := cmd.call.input;
      Refusal(db.row, db.Img(), input.token, input.expectedRevision, CaseNotOpen).None?
    requires NamedBy(on.d, db.tokens[tok].node, cmd.call.input.action, tr)
    requires forall other :: NamedBy(on.d, db.tokens[tok].node, cmd.call.input.action, other) ==> other == tr
    ensures err != Some(InvalidTransition)
    ensures err == Some(CommentRefused) <==> !CommentSuits(tr, cmd.call.input.comment)
    ensures err.None? ==>
      !GuardSays(cmd.oracles, tr, db.tokens[tok], Refuse) && !GuardSays(cmd.oracles, tr, db.tokens[tok], Fails)
    ensures err == Some(GuardRejected) ==> GuardSays(cmd.oracles, tr, db.tokens[tok], Refuse)
    ensures CommentSuits(tr, cmd.call.input.comment) && !tr.back ==>
      GuardSays(cmd.oracles, tr, db.tokens[tok], Refuse) ==> err == Some(GuardRejected)
  {
    hide Did;
    hide MoveRefusal;
    hide CommentSuits;
    hide GuardSays;
    hide Refusal;
    MoveEndsBy(on, db, cmd, err, db2, tok);
    RefusalMeans(cmd.oracles, on.d, db.log, db.tokens[tok], cmd.call.input, tr);
  }

  /** A move by an action the token's node does not have is no transition. */
  lemma UnknownActionFails(on: Setup, db: Db, cmd: Command, err: Option<Error>, db2: Db, tok: Id)
    requires Did(on, db, cmd, err, db2) && cmd.call.Move? && Meant(db.Img(), cmd.call.input.token, tok)
    requires var input := cmd.call.input;
      Refusal(db.row, db.Img(), input.token, input.expectedRevision, CaseNotOpen).None?
    requires forall tr :: !NamedBy(on.d, db.tokens[tok].node, cmd.call.input.action, tr)
    ensures err == Some(InvalidTransition)
  {
    hide Did;
    hide MoveRefusal;
    hide Refusal;
    MoveEndsBy(on, db, cmd, err, db2, tok);
    UnnamedIsRefused(cmd.oracles, on.d, db.log, db.tokens[tok], cmd.call.input);
  }

  // --------------------------------------------------------------- cancelling

  /** Another branch of the scope of `tok` goes on: a token at work or waiting, or a
      block not closed yet. */
  predicate GoesOnWithout(tokens: map<Id, Token>, scopes: map<Id, Scope>, tok: Id)
    requires tok in tokens
  {
    || (exists t :: t in tokens && t != tok && tokens[t].scope == tokens[tok].scope
          && (tokens[t].status == Active || tokens[t].status == Waiting))
    || (exists s :: s in scopes && scopes[s].parent == Some(tokens[tok].scope) && scopes[s].status == ScopeOpen)
  }

  lemma OnlyMeans(g: Image, tok: Id)
    requires tok in g.tokens
    ensures OnlyBranch(g, tok) <==> !GoesOnWithout(g.tokens, g.scopes, tok)
  {
    if LiveSiblings(g, tok) != {} { var t :| t in LiveSiblings(g, tok); }
    if ScopeArms(g, g.tokens[tok].scope) != {} { var s :| s in ScopeArms(g, g.tokens[tok].scope); }
    if t :| t in g.tokens && t != tok && g.tokens[t].scope == g.tokens[tok].scope && g.tokens[t].status.Live() {
      assert t in LiveSiblings(g, tok);
    }
    if s :| s in g.scopes && g.scopes[s].parent == Some(g.tokens[tok].scope) && g.scopes[s].status == ScopeOpen {
      assert s in ScopeArms(g, g.tokens[tok].scope);
    }
  }

  /** A branch can be cancelled exactly while another one of its scope goes on. */
  lemma LastBranchStays(on: Setup, db: Db, cmd: Command, err: Option<Error>, db2: Db)
    requires Did(on, db, cmd, err, db2) && cmd.call.CancelToken? && cmd.call.reason != ""
    requires Refusal(db.row, db.Img(), Some(cmd.call.token), None, CaseNotOpen).None?
    ensures cmd.call.token in db.tokens
    ensures err == Some(LastBranch) <==> !GoesOnWithout(db.tokens, db.scopes, cmd.call.token)
  {
    hide GoodDb;
    hide AllAllowed;
    hide Signed;
    hide Refusal;
    hide OnlyBranch;
    hide GoesOnWithout;
    hide Capped;
    hide Blamed;
    assert CancelDid(on, db, cmd, cmd.call.token, cmd.call.reason, err, db2);
    OnlyMeans(db.Img(), cmd.call.token);
  }

  /** Who may give a token back: its holder, or anybody with a reason. */
  lemma ReleaseObeys(on: Setup, db: Db, cmd: Command, err: Option<Error>, db2: Db, tok: Id)
    requires Did(on, db, cmd, err, db2) && cmd.call.Release? && Meant(db.Img(), cmd.call.which, tok)
    requires Refusal(db.row, db.Img(), cmd.call.which, cmd.call.expected, NotAssigned).None?
    ensures var holder := db.tokens[tok].assignedTo;
      err.None? <==> holder != "" && (holder == cmd.actor.id || cmd.call.reason != "")
    ensures err == Some(NotAssigned) <==> db.tokens[tok].assignedTo == ""
    ensures err.None? ==> db2.tokens == db.tokens[tok := db.tokens[tok].(assignedTo := "")]
  {
    hide GoodDb;
    hide AllAllowed;
    hide Signed;
    hide Refusal;
    hide PolicyJoins;
    var t2 :| ReleaseDid(db, cmd, cmd.call.which, cmd.call.reason, t2, err, db2);
    assert t2 == tok;
  }

  // -------------------------------------------------------------------- expiry

  /** A token expires only past its deadline: at it, or without one, it is not
      overdue. */
  lemma ExpiresPastItsDeadline(on: Setup, db: Db, cmd: Command, err: Option<Error>, db2: Db, tok: Id)
    requires Did(on, db, cmd, err, db2) && cmd.call.Expire? && cmd.actor.kind.System?
    requires Refusal(db.row, db.Img(), cmd.call.which, None, CaseNotOpen).None? && Meant(db.Img(), cmd.call.which, tok)
    ensures err == Some(NotOverdue) <==> db.tokens[tok].deadlineAt.None? || cmd.now <= db.tokens[tok].deadlineAt.value
    ensures err.None? ==> db.tokens[tok].deadlineAt.Some? && db.tokens[tok].deadlineAt.value < cmd.now
    ensures db.tokens[tok].deadlineAt.Some? && db.tokens[tok].deadlineAt.value < cmd.now ==>
      (err == Some(AlreadyExpired) <==> db.tokens[tok].expired == db.tokens[tok].deadlineAt)
  {
    hide GoodDb;
    hide AllAllowed;
    hide Signed;
    hide Refusal;
  }

  /** An expired token leaves its task along the transition its node names for
      that, if it names one, and only past the transition's guard. */
  lemma ExpiryObeys(on: Setup, db: Db, cmd: Command, err: Option<Error>, db2: Db, tok: Id, tr: Transition)
    requires Did(on, db, cmd, err, db2) && cmd.call.Expire? && cmd.actor.kind.System?
    requires Refusal(db.row, db.Img(), cmd.call.which, None, CaseNotOpen).None? && Meant(db.Img(), cmd.call.which, tok)
    requires var k := db.tokens[tok];
      k.deadlineAt.Some? && k.deadlineAt.value < cmd.now && k.expired != k.deadlineAt && Has(on.d, k.node)
    requires var n := NodeOf(on.d, db.tokens[tok].node);
      && n.onExpire != "" && NamedBy(on.d, n.id, n.onExpire, tr)
      && forall other :: NamedBy(on.d, n.id, n.onExpire, other) ==> other == tr
    ensures err.None? ==>
      && |db.log| + 1 < |db2.log| && GoesAlong(db2.log[|db.log| + 1], tr) && db2.log[|db.log| + 1].token == tok
      && db2.log[|db.log| + 1].body.comment == "" && db2.log[|db.log| + 1].body.cause == "expired"
    ensures err.None? ==>
      !GuardSays(cmd.oracles, tr, db.tokens[tok], Refuse) && !GuardSays(cmd.oracles, tr, db.tokens[tok], Fails)
    ensures GuardSays(cmd.oracles, tr, db.tokens[tok], Refuse) ==> err == Some(GuardRejected)
    ensures GuardSays(cmd.oracles, tr, db.tokens[tok], Fails) ==> err == Some(GuardFailed)
  {
    hide GoodDb;
    hide AllAllowed;
    hide Signed;
    hide Refusal;
    hide Explains;
    hide PassesOnce;
    hide Excusable;
    NamedIsChosen(on.d, db.tokens[tok].node, NodeOf(on.d, db.tokens[tok].node).onExpire);
    hide Chosen;
    var t2 :| ExpireDid(on, db, cmd, cmd.call.which, t2, err, db2);
    MeantOnce(db.Img(), cmd.call.which, tok, t2);
  }

  /** One deadline expires once: a token that stays on its task is not expired
      again, however late. */
  lemma ExpiresOnce(on: Setup, db: Db, first: Command, db2: Db, second: Command, err: Option<Error>, db3: Db, tok: Id)
    requires Did(on, db, first, None, db2) && Did(on, db2, second, err, db3)
    requires first.call.Expire? && Meant(db.Img(), first.call.which, tok)
    requires NodeOf(on.d, db.tokens[tok].node).onExpire == ""
    requires second.call == Expire(Some(tok)) && second.actor.kind.System? && second.now >= first.now
    requires Refusal(db2.row, db2.Img(), Some(tok), None, CaseNotOpen).None?
    ensures err == Some(AlreadyExpired)
  {
    hide GoodDb;
    hide AllAllowed;
    hide Signed;
    hide Refusal;
  }
}
