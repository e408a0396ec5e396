/** Why a token left its task, and why a call was refused: told by the history
    and by the rows, over whole runs. */
module Reasons {
  import opened Definitions
  import opened Tokens
  import opened Replay
  import opened Rounds
  import opened Projection
  import opened WorkingCopy
  import opened Guards
  import opened Engine
  import opened Caps
  import opened Consultations
  import opened Validity
  import opened Rules
  import opened Operations
  import opened Cases
  import opened Calls
  import opened Runs

  // ----------------------------------------------------------- leaving a task

  /** Event `e` moves a token off a task. */
  predicate LeavesTask(d: Definition, e: Event) { e.body.Moved? && Rests(d, e.from) }

  /** Before a call moves a token off a task it records only why it was made. */
  lemma NothingBefore(on: Setup, db: Db, cmd: Command, err: Option<Error>, db2: Db, i: nat)
    requires Did(on, db, cmd, err, db2) && |db.log| <= i < |db2.log| && LeavesTask(on.d, db2.log[i])
    ensures err.None? && forall j :: |db.log| <= j < i ==> Prefatory(db2.log[j])
  {
    hide GoodDb;
    hide Fulfils;
    hide Explains;
    hide Enters;
    var log := db2.log[..i];
    assert Allowed(on.d, on.unit, cmd.oracles, log, |db.log|, db2.log[i]);
    assert JustBegun(log, |db.log|);
    forall j | |db.log| <= j < i ensures Prefatory(db2.log[j]) { assert log[j] == db2.log[j]; }
  }

  /** No other call moves a token without saying first what else it did. */
  lemma OthersStay(on: Setup, db: Db, cmd: Command, err: Option<Error>, db2: Db, i: nat)
    requires Did(on, db, cmd, err, db2) && err.None? && !cmd.call.Move? && !cmd.call.Expire?
    requires |db.log| <= i < |db2.log| && (|db.log| < i ==> Prefatory(db2.log[|db.log|]))
    ensures !db2.log[i].body.Moved?
  {
    hide GoodDb;
    hide Explains;
    hide AllAllowed;
    hide Signed;
    hide PassesOnce;
    hide Refusal;
    hide Meant;
    hide CancelEnds;
    hide PolicyJoins;
    hide ReleaseRefusal;
    if cmd.call.Cancel? { CancelMovesNone(db, cmd.call.why, db2, i); }
    hide CaseCancelDid;
  }

  lemma CancelMovesNone(db: Db, why: string, db2: Db, i: nat)
    requires CaseCancelDid(db, why, db2) && |db.log| <= i < |db2.log|
    ensures !db2.log[i].body.Moved?
  {
    hide PolicyJoins;
    if i < |db2.log| - 1 { assert db2.log[..|db2.log| - 1][i].body.TokenCancelled?; }
  }

  /** The one move a call makes off a task: of the token the call is about, along
      a transition the call may take. */
  ghost predicate ByMove(on: Setup, db: Db, input: MoveInput, e: Event)
    requires e.body.Moved?
  {
    && Meant(db.Img(), input.token, e.token) && db.tokens[e.token].node == e.from
    && e.body.action == input.action && e.body.comment == input.comment
    && exists tr :: Legal(on.d, db.log, db.tokens[e.token], input, tr) && GoesAlong(e, tr)
  }

  ghost predicate ByExpiry(on: Setup, db: Db, which: Option<Id>, e: Event)
    requires e.body.Moved?
  {
    && Meant(db.Img(), which, e.token) && db.tokens[e.token].node == e.from
    && e.body.action == NodeOf(on.d, e.from).onExpire && e.body.comment == "" && e.body.cause == "expired"
  }

  lemma MoveLeaves(on: Setup, db: Db, cmd: Command, err: Option<Error>, db2: Db, i: nat)
    requires Did(on, db, cmd, err, db2) && err.None? && cmd.call.Move?
    requires |db.log| <= i < |db2.log| && db2.log[i].body.Moved?
    requires forall j :: |db.log| <= j < i ==> Prefatory(db2.log[j])
    ensures ByMove(on, db, cmd.call.input, db2.log[i])
  {
    hide GoodDb;
    hide Explains;
    hide AllAllowed;
    hide Signed;
    hide PassesOnce;
    hide Refusal;
    hide MoveEnds;
    hide Returned;
    var input := cmd.call.input;
    var tok :| MoveDid(on, db, cmd, input, tok, err, db2);
    var tr :| Took(on, db, input, tok, tr, db2);
    var hop := |db.log| + (if input.step then 1 else 0);
    assert !Prefatory(db2.log[hop]);
    assert input.step ==> !db2.log[|db.log|].body.Moved?;
    assert i == hop;
    assert GoesAlong(db2.log[i], tr);
    ChosenFacts(on.d, db.tokens[tok].node, input.action);
  }

  lemma ExpiryLeaves(on: Setup, db: Db, cmd: Command, err: Option<Error>, db2: Db, i: nat)
    requires Did(on, db, cmd, err, db2) && err.None? && cmd.call.Expire?
    requires |db.log| <= i < |db2.log| && db2.log[i].body.Moved?
    requires forall j :: |db.log| <= j < i ==> Prefatory(db2.log[j])
    ensures ByExpiry(on, db, cmd.call.which, db2.log[i])
  {
    hide GoodDb;
    hide Explains;
    hide AllAllowed;
    hide Signed;
    hide PassesOnce;
    hide Refusal;
    hide ExpireEnds;
    var tok :| ExpireDid(on, db, cmd, cmd.call.which, tok, err, db2);
    var node := db.tokens[tok].node;
    assert !db2.log[|db.log|].body.Moved?;
    assert ExpiryAction(on.d, node).Some?;
    assert !Prefatory(db2.log[|db.log| + 1]);
    assert i == |db.log| + 1;
    ChosenFacts(on.d, node, NodeOf(on.d, node).onExpire);
  }

  /** Nothing but a move or an expiry takes a token off a task. It is the token
      the call is about and no other; the move is the caller's, or says that a
      deadline caused it. */
  lemma OnlyTheNamedLeaves(on: Setup, db: Db, cmd: Command, err: Option<Error>, db2: Db, i: nat)
    requires Did(on, db, cmd, err, db2) && |db.log| <= i < |db2.log| && LeavesTask(on.d, db2.log[i])
    ensures cmd.call.Move? || cmd.call.Expire?
    ensures cmd.call.Move? ==> ByMove(on, db, cmd.call.input, db2.log[i])
    ensures cmd.call.Expire? ==> ByExpiry(on, db, cmd.call.which, db2.log[i])
  {
    hide Did;
    hide ByMove;
    hide ByExpiry;
    NothingBefore(on, db, cmd, err, db2, i);
    if cmd.call.Move? {
      MoveLeaves(on, db, cmd, err, db2, i);
    } else if cmd.call.Expire? {
      ExpiryLeaves(on, db, cmd, err, db2, i);
    } else {
      OthersStay(on, db, cmd, err, db2, i);
    }
  }

  // -------------------------------------------------- rejections and comments

  /** A comment in the history is a caller's, on the move off its task and on no
      other. */
  lemma CommentsAreTheCallers(on: Setup, db: Db, cmd: Command, err: Option<Error>, db2: Db, i: nat)
    requires Did(on, db, cmd, err, db2) && |db.log| <= i < |db2.log|
    requires db2.log[i].body.Moved? && db2.log[i].body.comment != ""
    ensures cmd.call.Move? && ByMove(on, db, cmd.call.input, db2.log[i])
    ensures forall j :: |db.log| <= j < |db2.log| && j != i && db2.log[j].body.Moved? ==> db2.log[j].body.comment == ""
  {
    hide Did;
    CommentLeavesTask(on, db, cmd, err, db2, i);
    OnlyTheNamedLeaves(on, db, cmd, err, db2, i);
    hide ByMove;
    forall j | |db.log| <= j < |db2.log| && j != i && db2.log[j].body.Moved? ensures db2.log[j].body.comment == "" {
      if db2.log[j].body.comment != "" {
        CommentLeavesTask(on, db, cmd, err, db2, j);
        NothingBefore(on, db, cmd, err, db2, i);
        NothingBefore(on, db, cmd, err, db2, j);
      }
    }
  }

  lemma CommentLeavesTask(on: Setup, db: Db, cmd: Command, err: Option<Error>, db2: Db, i: nat)
    requires Did(on, db, cmd, err, db2) && |db.log| <= i < |db2.log|
    requires db2.log[i].body.Moved? && db2.log[i].body.comment != ""
    ensures LeavesTask(on.d, db2.log[i])
  {
    hide GoodDb;
    hide Fulfils;
    hide Explains;
    hide Enters;
    hide Picked;
    assert Allowed(on.d, on.unit, cmd.oracles, db2.log[..i], |db.log|, db2.log[i]);
  }

  /** Transition `tr` votes against, in a round that gives a verdict. */
  predicate VotesAgainst(d: Definition, tr: Transition) {
    && tr in d.transitions && tr.outcome.Rejected? && IsPolicyJoin(d, tr.to)
    && !NodeOf(d, tr.to).policy.Collect?
  }

  /** A vote against carries a comment, unless a deadline cast it. */
  ghost predicate Motivated(d: Definition, e: Event) {
    forall tr :: VotesAgainst(d, tr) && GoesAlong(e, tr) ==> e.body.comment != "" || e.body.cause == "expired"
  }

  ghost predicate AllMotivated(d: Definition, log: seq<Event>) {
    forall i :: 0 <= i < |log| ==> Motivated(d, log[i])
  }

  lemma VotesLeaveTasks(d: Definition, tr: Transition)
    requires Unbroken(d) && VotesAgainst(d, tr)
    ensures Rests(d, tr.from) && tr.comment.CommentRequired? && Deterministic(d)
  {
    RulesAreThese(d);
    hide Unbroken;
    assert TransitionValid(d, tr) && OutcomeValid(d, tr);
  }

  /** With a definition that breaks no rule, whoever votes against says why. */
  lemma RejectionsAreExplained(on: Setup, db: Db, cmd: Command, err: Option<Error>, db2: Db, i: nat)
    requires Unbroken(on.d) && Did(on, db, cmd, err, db2) && |db.log| <= i < |db2.log|
    ensures Motivated(on.d, db2.log[i])
  {
    hide Did;
    hide Unbroken;
    var e := db2.log[i];
    forall tr | VotesAgainst(on.d, tr) && GoesAlong(e, tr)
      ensures e.body.comment != "" || e.body.cause == "expired"
    {
      VotesLeaveTasks(on.d, tr);
      assert LeavesTask(on.d, e);
      OnlyTheNamedLeaves(on, db, cmd, err, db2, i);
      if cmd.call.Move? { VoteIsHeard(on, db, cmd.call.input, e, tr); }
    }
  }

  lemma VoteIsHeard(on: Setup, db: Db, input: MoveInput, e: Event, tr: Transition)
    requires e.body.Moved? && ByMove(on, db, input, e) && Deterministic(on.d)
    requires tr in on.d.transitions && GoesAlong(e, tr) && tr.comment.CommentRequired?
    ensures e.body.comment != ""
  {
    var way :| Legal(on.d, db.log, db.tokens[e.token], input, way) && GoesAlong(e, way);
    ChosenFacts(on.d, db.tokens[e.token].node, input.action);
    OneNamed(on.d, e.from, tr, way);
  }

  /** Over a whole run every vote against in the history is explained. */
  lemma {:induction false} RunsExplainRejections(on: Setup, states: seq<Db>, cmds: seq<Command>,
                                                 errors: seq<Option<Error>>, n: nat)
    requires Unbroken(on.d) && Ran(on, states, cmds, errors) && AllMotivated(on.d, states[0].log) && n <= |cmds|
    ensures AllMotivated(on.d, states[n].log)
  {
    hide Did;
    hide Motivated;
    hide Unbroken;
    if n > 0 {
      RunsExplainRejections(on, states, cmds, errors, n - 1);
      var a, b := states[n - 1].log, states[n].log;
      assert Did(on, states[n - 1], cmds[n - 1], errors[n - 1], states[n - 1 + 1]);
      CallsKeep(on, states[n - 1], cmds[n - 1], errors[n - 1], states[n]);
      forall i | 0 <= i < |b| ensures Motivated(on.d, b[i]) {
        if i < |a| {
          assert b[i] == a[i];
        } else {
          RejectionsAreExplained(on, states[n - 1], cmds[n - 1], errors[n - 1], states[n], i);
        }
      }
    }
  }

  lemma CallsKeep(on: Setup, db: Db, cmd: Command, err: Option<Error>, db2: Db)
    requires Did(on, db, cmd, err, db2)
    ensures db.log <= db2.log
  {
  }

  // ------------------------------------------------------------ refusing early

  predicate ActiveIn(g: Image, t: Id) { t in g.tokens && g.tokens[t].status.Active? }

  predicate Stale(row: Row, expected: Option<nat>) { expected.Some? && expected.value != row.revision }

  /** The token a call names is not active, or it names none and none is. */
  ghost predicate Missing(g: Image, token: Option<Id>) {
    if token.Some? then !ActiveIn(g, token.value) else forall a :: !ActiveIn(g, a)
  }

  /** A call names no token, and more than one is active. */
  ghost predicate Ambiguous(g: Image, token: Option<Id>) {
    token.None? && exists a, b :: a != b && ActiveIn(g, a) && ActiveIn(g, b)
  }

  /** Token `t` is named, or is the only active one. */
  ghost predicate Intended(g: Image, token: Option<Id>, t: Id) {
    if token.Some? then t == token.value else forall a :: ActiveIn(g, a) ==> a == t
  }

  /** The checks before a call looks at a token, spelled out: a stale revision
      comes first, then a closed case, then the token. */
  lemma FirstReason(row: Row, g: Image, token: Option<Id>, expected: Option<nat>, closed: Error)
    requires closed == CaseNotOpen || closed == NotAssigned
    ensures var no := Refusal(row, g, token, expected, closed);
      && (no == Some(Conflict) <==> Stale(row, expected))
      && (no == Some(closed) <==> !Stale(row, expected) && row.status != CaseOpen)
      && (no == Some(TokenNotFound) <==> !Stale(row, expected) && row.status == CaseOpen && Missing(g, token))
      && (no == Some(TokenRequired) <==> !Stale(row, expected) && row.status == CaseOpen && Ambiguous(g, token))
    ensures Missing(g, token) || Ambiguous(g, token) || exists t :: ActiveIn(g, t) && Intended(g, token, t)
  {
    hide ActiveIds;
    hide Intended;
    hide Missing;
    hide Ambiguous;
    TokenReason(g, token);
  }

  lemma TokenReason(g: Image, token: Option<Id>)
    ensures Missing(g, token) <==> if token.Some? then token.value !in ActiveIds(g) else ActiveIds(g) == {}
    ensures Ambiguous(g, token) <==> token.None? && |ActiveIds(g)| > 1
    ensures Missing(g, token) || Ambiguous(g, token) || exists t :: ActiveIn(g, t) && Intended(g, token, t)
  {
    CountActive(g);
    hide ActiveIds;
    if token.Some? { assert Intended(g, token, token.value); }
  }

  lemma CountActive(g: Image)
    ensures forall t :: ActiveIn(g, t) <==> t in ActiveIds(g)
    ensures |ActiveIds(g)| > 1 <==> exists a, b :: a != b && ActiveIn(g, a) && ActiveIn(g, b)
    ensures (ActiveIds(g) != {} && |ActiveIds(g)| <= 1) <==> exists t :: ActiveIn(g, t) && Intended(g, None, t)
  {
    var ids := ActiveIds(g);
    assert forall t :: ActiveIn(g, t) <==> t in ids;
    if ids != {} {
      var a :| a in ids;
      if |ids| > 1 {
        assert |ids - {a}| == |ids| - 1;
        var b :| b in ids - {a};
        assert a != b && ActiveIn(g, a) && ActiveIn(g, b);
      } else {
        forall b | ActiveIn(g, b) ensures b == a { if b != a { Pair(ids, a, b); } }
        assert ActiveIn(g, a) && Intended(g, None, a);
      }
    }
    if a, b :| a != b && ActiveIn(g, a) && ActiveIn(g, b) { Pair(ids, a, b); }
  }

  lemma Pair(ids: set<Id>, a: Id, b: Id)
    requires a in ids && b in ids && a != b
    ensures |ids| > 1
  {
    assert b in ids - {a};
    assert |ids - {a}| == |ids| - 1;
  }

  // ----------------------------------------------------- an expected revision

  /** The revision a call says it was made against. */
  function Expects(call: Call): Option<nat> {
    match call
    case Move(input) => input.expectedRevision
    case Cancel(_, expected) => expected
    case SetDeadline(_, _, _, expected) => expected
    case Claim(_, expected) => expected
    case Release(_, _, expected) => expected
    case Reassign(_, _, _, expected) => expected
    case _ => None
  }

  /** A call made against another revision fails and changes nothing; one that
      changes the case makes a new revision. */
  lemma RevisionMoves(on: Setup, db: Db, cmd: Command, err: Option<Error>, db2: Db)
    requires Did(on, db, cmd, err, db2)
    ensures db.row.revision <= db2.row.revision
    ensures Stale(db.row, Expects(cmd.call)) ==> err.Some? && db2 == db
    ensures Stale(db.row, Expects(cmd.call)) && cmd.call.Move? ==> err == Some(Conflict)
    ensures db2 != db && !cmd.call.RecordFailure? ==> db2.row.revision == db.row.revision + 1
  {
    hide GoodDb;
    hide Explains;
    hide AllAllowed;
    hide Signed;
    hide PassesOnce;
    hide Meant;
    hide MoveEnds;
    hide CancelEnds;
    hide ExpireEnds;
    hide Followed;
    hide Legal;
    hide FirstHop;
    hide Returned;
    hide PolicyJoins;
    hide OldestFirst;
    hide ActiveIds;
  }

  lemma {:induction false} RevisionsRise(on: Setup, states: seq<Db>, cmds: seq<Command>, errors: seq<Option<Error>>,
                                         i: nat, j: nat)
    requires Ran(on, states, cmds, errors) && i <= j <= |cmds|
    ensures states[i].row.revision <= states[j].row.revision
  {
    hide Did;
    if i < j {
      RevisionsRise(on, states, cmds, errors, i, j - 1);
      assert Did(on, states[j - 1], cmds[j - 1], errors[j - 1], states[j - 1 + 1]);
      RevisionMoves(on, states[j - 1], cmds[j - 1], errors[j - 1], states[j]);
    }
  }

  /** Of two calls of a run made against one revision at most one changes the
      case: the later one fails, and a move fails with a conflict. */
  lemma OneChangeARevision(on: Setup, states: seq<Db>, cmds: seq<Command>, errors: seq<Option<Error>>, i: nat, j: nat)
    requires Ran(on, states, cmds, errors) && i < j < |cmds| && states[i + 1] != states[i]
    requires Expects(cmds[i].call).Some? && Expects(cmds[j].call) == Expects(cmds[i].call)
    ensures errors[j].Some? && states[j + 1] == states[j] && (cmds[j].call.Move? ==> errors[j] == Some(Conflict))
  {
    hide Did;
    RevisionMoves(on, states[i], cmds[i], errors[i], states[i + 1]);
    RevisionsRise(on, states, cmds, errors, i + 1, j);
    RevisionMoves(on, states[j], cmds[j], errors[j], states[j + 1]);
  }
}
