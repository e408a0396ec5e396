/** The calls an engine takes, and what each of them makes of a stored case,
    said of the rows alone. */
module Calls {
  import opened Definitions
  import opened Tokens
  import opened Replay
  import opened Rounds
  import opened WorkingCopy
  import opened Guards
  import opened Projection
  import opened Engine
  import opened Operations
  import opened Budget
  import opened Caps
  import opened Consultations
  import opened Cases

  datatype Call =
    | Move(input: MoveInput)
    | CancelToken(token: Id, reason: string)
    | Cancel(why: string, expected: Option<nat>)
    | Expire(which: Option<Id>)
    | SetDeadline(which: Option<Id>, due: Option<int>, reason: string, expected: Option<nat>)
    | Claim(which: Option<Id>, expected: Option<nat>)
    | Release(which: Option<Id>, reason: string, expected: Option<nat>)
    | Reassign(which: Option<Id>, to: string, reason: string, expected: Option<nat>)
    | RecordFailure(which: Option<Id>, action: string)

  /** One call, with the answers the engine's functions give while it runs. */
  datatype Command = Command(call: Call, oracles: Oracles, now: int, actor: Actor)

  /** What `StoredCase.Good` says of a case, said of its rows. */
  ghost predicate GoodDb(k: Setup, db: Db) {
    && k.chart.d == k.d && (k.caps.Off() ==> Ranked(k.chart, k.depth))
    && StoredOk(k.chart, k.unit, db.Img(), db.log, db.next)
    && db.row.lastSeq == |db.log| && Projects(db.Img(), db.row.state, db.row.assignedTo, db.row.deadlineAt)
  }

  // ------------------------------------------------------ what a call leaves

  /** A committed call: one revision more, more history, and at most `n` rounds
      under a policy closed. */
  predicate Grew(db: Db, db2: Db, n: nat) {
    && db2.row.revision == db.row.revision + 1
    && db.log < db2.log && PolicyJoins(db2.log) <= PolicyJoins(db.log) + n
  }

  /** Token `tok` took transition `tr`, before anything else happened. */
  ghost predicate Took(on: Setup, db: Db, input: MoveInput, tok: Id, tr: Transition, db2: Db)
    requires tok in db.tokens
  {
    var i := |db.log| + (if input.step then 1 else 0);
    && Legal(on.d, db.log, db.tokens[tok], input, tr) && Grew(db, db2, 1)
    && i < |db2.log| && FirstHop(db2.log[i], tok, tr, input.comment)
    && (tr.back ==> Returned(on.chart, db.log, db.Img(), db.tokens[tok].scope, tr))
  }

  ghost predicate MoveDid(on: Setup, db: Db, cmd: Command, input: MoveInput, tok: Id, err: Option<Error>, db2: Db) {
    && Meant(db.Img(), input.token, tok)
    && MoveEnds(on, cmd.oracles, db.Img(), db.log, tok, input, err, db2.Img())
    && (err.None? ==> exists tr :: Took(on, db, input, tok, tr, db2))
    && (err.None? && input.step ==>
          && |db.log| < |db2.log|
          && var step := StepSubmitted(input.action);
             db2.log[|db.log|] == Noted(|db.log| + 1, cmd.now, cmd.actor, tok, db.tokens[tok], step))
  }

  ghost predicate CancelDid(on: Setup, db: Db, cmd: Command, tok: Id, reason: string, err: Option<Error>, db2: Db) {
    && Meant(db.Img(), Some(tok), tok) && CancelEnds(on, cmd.oracles, db.Img(), tok, err)
    && (err.None? ==>
          && Grew(db, db2, 1)
          && db2.log[|db.log|] == Noted(|db.log| + 1, cmd.now, cmd.actor, tok, db.tokens[tok], TokenCancelled(reason)))
  }

  predicate CaseCancelDid(db: Db, reason: string, db2: Db) {
    && Grew(db, db2, 0) && db2.row.status == CaseCancelled && db2.row.state == db.row.state
    && (forall t :: t in db2.tokens ==> !db2.tokens[t].status.Live())
    && (forall s :: s in db2.scopes ==> !db2.scopes[s].status.ScopeOpen?)
    && db2.log[|db2.log| - 1].body == CaseCancelledEvent(reason)
    && OldestFirst(db.tokens, db2.tokens, db2.log[..|db2.log| - 1], |db.log|, {})
  }

  ghost predicate ExpireDid(on: Setup, db: Db, cmd: Command, which: Option<Id>, tok: Id, err: Option<Error>, db2: Db) {
    && Meant(db.Img(), which, tok) && ExpireEnds(on, cmd.oracles, db.tokens[tok], cmd.now, err)
    && (err.None? ==>
          var k := db.tokens[tok];
          && (ExpiryAction(on.d, k.node).None? ==>
                db2.tokens == db.tokens[tok := k.(expired := k.deadlineAt)] && |db2.log| == |db.log| + 1)
          && Grew(db, db2, 1) && k.deadlineAt.Some? && Followed(on.d, db2.log, |db.log| + 1, tok, k.node)
          && db2.log[|db.log|] == Noted(|db.log| + 1, cmd.now, cmd.actor, tok, k, DeadlineExpired(k.deadlineAt.value)))
  }

  /** A call that leaves token `tok` where it rests, as `k`, with one event. */
  predicate Notes(db: Db, cmd: Command, tok: Id, k: Token, body: Body, db2: Db) {
    && tok in db.tokens && Grew(db, db2, 0)
    && db2.tokens == db.tokens[tok := k] && db2.scopes == db.scopes
    && db2.row.status == db.row.status && db2.next == db.next
    && db2.log == db.log + [Noted(|db.log| + 1, cmd.now, cmd.actor, tok, db.tokens[tok], body)]
  }

  predicate DeadlineDid(db: Db, cmd: Command, which: Option<Id>, due: Option<int>, reason: string, tok: Id, db2: Db) {
    && Meant(db.Img(), which, tok)
    && var k := db.tokens[tok];
       Notes(db, cmd, tok, k.(deadlineAt := due, expired := None), DeadlineChanged(k.deadlineAt, due, reason), db2)
  }

  /** A claim of an unassigned token takes it, of one's own changes nothing, and
      of anybody else's is refused. */
  predicate ClaimDid(db: Db, cmd: Command, which: Option<Id>, tok: Id, err: Option<Error>, db2: Db) {
    && Meant(db.Img(), which, tok)
    && var k := db.tokens[tok];
       if k.assignedTo == "" then
         err.None? && Notes(db, cmd, tok, k.(assignedTo := cmd.actor.id), Assigned("", cmd.actor.id, ""), db2)
       else db2 == db && err == if k.assignedTo == cmd.actor.id then None else Some(AlreadyAssigned)
  }

  predicate ReleaseDid(db: Db, cmd: Command, which: Option<Id>, reason: string, tok: Id, err: Option<Error>, db2: Db) {
    && Meant(db.Img(), which, tok)
    && var k := db.tokens[tok];
       && err == ReleaseRefusal(k.assignedTo, cmd.actor.id, reason)
       && (err.None? ==> Notes(db, cmd, tok, k.(assignedTo := ""), Unassigned(k.assignedTo, reason), db2))
  }

  predicate ReassignDid(db: Db, cmd: Command, which: Option<Id>, to: string, reason: string, tok: Id, db2: Db) {
    && Meant(db.Img(), which, tok)
    && var k := db.tokens[tok];
       Notes(db, cmd, tok, k.(assignedTo := to), Assigned(k.assignedTo, to, reason), db2)
  }

  /** What call `cmd`, ending in `err`, makes of the rows `db`: each error exactly
      when its check fails, and then the rows stay; otherwise what the call is
      for. */
  ghost predicate Fulfils(on: Setup, db: Db, cmd: Command, err: Option<Error>, db2: Db) {
    match cmd.call
    case Move(input) =>
      var no := Refusal(db.row, db.Img(), input.token, input.expectedRevision, CaseNotOpen);
      if no.Some? then err == no else exists tok :: MoveDid(on, db, cmd, input, tok, err, db2)
    case CancelToken(token, reason) =>
      var no := Refusal(db.row, db.Img(), Some(token), None, CaseNotOpen);
      if reason == "" then err == Some(ReasonRequired)
      else if no.Some? then err == no
      else CancelDid(on, db, cmd, token, reason, err, db2)
    case Cancel(why, expected) =>
      if why == "" then err == Some(ReasonRequired)
      else if expected.Some? && expected.value != db.row.revision then err == Some(Conflict)
      else if !db.row.status.CaseOpen? then err == Some(CaseNotOpen)
      else err.None? && CaseCancelDid(db, why, db2)
    case Expire(which) =>
      var no := Refusal(db.row, db.Img(), which, None, CaseNotOpen);
      if !cmd.actor.kind.System? then err == Some(InvalidActor)
      else if no.Some? then err == no
      else exists tok :: ExpireDid(on, db, cmd, which, tok, err, db2)
    case SetDeadline(which, due, reason, expected) =>
      var no := Refusal(db.row, db.Img(), which, expected, CaseNotOpen);
      if reason == "" then err == Some(ReasonRequired)
      else if no.Some? then err == no
      else err.None? && exists tok :: DeadlineDid(db, cmd, which, due, reason, tok, db2)
    case Claim(which, expected) =>
      var no := Refusal(db.row, db.Img(), which, expected, CaseNotOpen);
      if cmd.actor.id == "" then err == Some(InvalidActor)
      else if no.Some? then err == no
      else exists tok :: ClaimDid(db, cmd, which, tok, err, db2)
    case Release(which, reason, expected) =>
      var no := Refusal(db.row, db.Img(), which, expected, NotAssigned);
      if no.Some? then err == no else exists tok :: ReleaseDid(db, cmd, which, reason, tok, err, db2)
    case Reassign(which, to, reason, expected) =>
      var no := Refusal(db.row, db.Img(), which, expected, CaseNotOpen);
      if reason == "" then err == Some(ReasonRequired)
      else if to == "" then err == Some(InvalidActor)
      else if no.Some? then err == no
      else err.None? && exists tok :: ReassignDid(db, cmd, which, to, reason, tok, db2)
    case RecordFailure(which, action) =>
      if which.Some? && which.value !in db.tokens then err == Some(TokenNotFound)
      else err.None? && db2 == Recorded(db, cmd.now, cmd.actor, which, action)
  }

  /** The rows with a rejected call on record: one event more, nothing else. */
  function Recorded(db: Db, now: int, actor: Actor, which: Option<Id>, action: string): Db
    requires which.Some? ==> which.value in db.tokens
  {
    db.(row := db.row.(lastSeq := db.row.lastSeq + 1),
        log := db.log + [FailureNote(|db.log| + 1, now, actor, db.row, db.tokens, which, action)])
  }

  /** One whole call: good rows to good rows, what the call is for, nothing at all
      if it failed, for a reason, and no gateway passed twice. */
  ghost predicate Did(on: Setup, db: Db, cmd: Command, err: Option<Error>, db2: Db) {
    && GoodDb(on, db) && GoodDb(on, db2) && Fulfils(on, db, cmd, err, db2)
    && (err.Some? ==> db2 == db && Explains(on.chart, on.depth, on.caps, cmd.oracles, err.value))
    && AllAllowed(on.d, on.unit, cmd.oracles, db2.log, |db.log|) && Signed(db2.log, |db.log|, cmd.now, cmd.actor)
    && db.log <= db2.log && (Ranked(on.chart, on.depth) ==> PassesOnce(db2.log, |db.log|))
  }

  // --------------------------------------------------------- the calls, made

  /** One event alone passes no gateway twice. */
  lemma OneEventOnce(log: seq<Event>, log2: seq<Event>)
    ensures |log2| <= |log| + 1 ==> PassesOnce(log2, |log|)
  {
  }

  method PerformMove(c: StoredCase, cmd: Command) returns (err: Option<Error>)
    requires c.Good() && cmd.call.Move?
    modifies c
    ensures c.Good() && Did(c.On(), old(c.Stored()), cmd, err, c.Stored())
  {
    hide StoredOk;
    hide Projects;
    hide Ranked;
    hide Refusal;
    hide PolicyJoins;
    hide Explains;
    hide AllAllowed;
    hide Signed;
    hide Meant;
    hide Legal;
    hide Followed;
    hide FirstHop;
    hide Returned;
    hide MoveEnds;
    hide CancelEnds;
    hide ExpireEnds;
    ghost var db := c.Stored();
    ghost var tok, tr;
    err, tok, tr := c.Move(cmd.call.input, cmd.oracles, cmd.now, cmd.actor);
    if Refusal(db.row, db.Img(), cmd.call.input.token, cmd.call.input.expectedRevision, CaseNotOpen).None? {
      assert err.None? ==> Took(c.On(), db, cmd.call.input, tok, tr, c.Stored());
      assert MoveDid(c.On(), db, cmd, cmd.call.input, tok, err, c.Stored());
    }
  }

  method PerformCancelToken(c: StoredCase, cmd: Command) returns (err: Option<Error>)
    requires c.Good() && cmd.call.CancelToken?
    modifies c
    ensures c.Good() && Did(c.On(), old(c.Stored()), cmd, err, c.Stored())
  {
    hide StoredOk;
    hide Projects;
    hide Ranked;
    hide Refusal;
    hide PolicyJoins;
    hide Explains;
    hide AllAllowed;
    hide Signed;
    hide Meant;
    hide Legal;
    hide Followed;
    hide FirstHop;
    hide Returned;
    hide MoveEnds;
    hide CancelEnds;
    hide ExpireEnds;
    ghost var db := c.Stored();
    err := c.CancelToken(cmd.call.token, cmd.call.reason, cmd.oracles, cmd.now, cmd.actor);
  }

  method PerformExpire(c: StoredCase, cmd: Command) returns (err: Option<Error>)
    requires c.Good() && cmd.call.Expire?
    modifies c
    ensures c.Good() && Did(c.On(), old(c.Stored()), cmd, err, c.Stored())
  {
    hide StoredOk;
    hide Projects;
    hide Ranked;
    hide Refusal;
    hide PolicyJoins;
    hide Explains;
    hide AllAllowed;
    hide Signed;
    hide Meant;
    hide Legal;
    hide Followed;
    hide FirstHop;
    hide Returned;
    hide MoveEnds;
    hide CancelEnds;
    hide ExpireEnds;
    ghost var db := c.Stored();
    ghost var tok;
    err, tok := c.Expire(cmd.call.which, cmd.oracles, cmd.now, cmd.actor);
    if cmd.actor.kind.System? && Refusal(db.row, db.Img(), cmd.call.which, None, CaseNotOpen).None? {
      assert ExpireDid(c.On(), db, cmd, cmd.call.which, tok, err, c.Stored());
    }
  }

  method PerformCancel(c: StoredCase, cmd: Command) returns (err: Option<Error>)
    requires c.Good() && cmd.call.Cancel?
    modifies c
    ensures c.Good() && Did(c.On(), old(c.Stored()), cmd, err, c.Stored())
  {
    hide PassesOnce;
    hide Blamed;
    hide StoredOk;
    hide Projects;
    hide Ranked;
    hide OldestFirst;
    hide Refusal;
    hide PolicyJoins;
    hide Explains;
    hide AllAllowed;
    hide Signed;
    ghost var db := c.Stored();
    err := c.Cancel(cmd.call.why, cmd.call.expected, cmd.oracles, cmd.now, cmd.actor);
    OneEventOnce(db.log, c.log);
    if err.Some? { Harmless(c.chart, c.depth, c.caps, cmd.oracles, err.value); }
  }

  method PerformSetDeadline(c: StoredCase, cmd: Command) returns (err: Option<Error>)
    requires c.Good() && cmd.call.SetDeadline?
    modifies c
    ensures c.Good() && Did(c.On(), old(c.Stored()), cmd, err, c.Stored())
  {
    hide StoredOk;
    hide Projects;
    hide Ranked;
    hide PassesOnce;
    hide Blamed;
    hide Refusal;
    hide PolicyJoins;
    hide Explains;
    hide AllAllowed;
    hide Signed;
    ghost var db := c.Stored();
    ghost var tok;
    err, tok := c.SetDeadline(cmd.call.which, cmd.call.due, cmd.call.reason, cmd.call.expected, cmd.oracles, cmd.now,
                              cmd.actor);
    OneEventOnce(db.log, c.log);
    if err.Some? { Harmless(c.chart, c.depth, c.caps, cmd.oracles, err.value); }
    if err.None? { assert DeadlineDid(db, cmd, cmd.call.which, cmd.call.due, cmd.call.reason, tok, c.Stored()); }
  }

  method PerformClaim(c: StoredCase, cmd: Command) returns (err: Option<Error>)
    requires c.Good() && cmd.call.Claim?
    modifies c
    ensures c.Good() && Did(c.On(), old(c.Stored()), cmd, err, c.Stored())
  {
    hide StoredOk;
    hide Projects;
    hide Ranked;
    hide PassesOnce;
    hide Blamed;
    hide Refusal;
    hide PolicyJoins;
    hide Explains;
    hide AllAllowed;
    hide Signed;
    ghost var db := c.Stored();
    ghost var tok;
    err, tok := c.Claim(cmd.call.which, cmd.call.expected, cmd.oracles, cmd.now, cmd.actor);
    hide Meant;
    OneEventOnce(db.log, c.log);
    assert err.Some? ==> c.Stored() == db;
    if err.Some? { Harmless(c.chart, c.depth, c.caps, cmd.oracles, err.value); }
    if cmd.actor.id != "" && Refusal(db.row, db.Img(), cmd.call.which, cmd.call.expected, CaseNotOpen).None? {
      assert db.tokens[tok].assignedTo != "" ==> c.Stored() == db;
      assert ClaimDid(db, cmd, cmd.call.which, tok, err, c.Stored());
    }
  }

  method PerformRelease(c: StoredCase, cmd: Command) returns (err: Option<Error>)
    requires c.Good() && cmd.call.Release?
    modifies c
    ensures c.Good() && Did(c.On(), old(c.Stored()), cmd, err, c.Stored())
  {
    hide StoredOk;
    hide Projects;
    hide Ranked;
    hide PassesOnce;
    hide Blamed;
    hide Refusal;
    hide PolicyJoins;
    hide Explains;
    hide AllAllowed;
    hide Signed;
    ghost var db := c.Stored();
    ghost var tok;
    err, tok := c.Release(cmd.call.which, cmd.call.reason, cmd.call.expected, cmd.oracles, cmd.now, cmd.actor);
    OneEventOnce(db.log, c.log);
    if err.Some? { Harmless(c.chart, c.depth, c.caps, cmd.oracles, err.value); }
    if Refusal(db.row, db.Img(), cmd.call.which, cmd.call.expected, NotAssigned).None? {
      assert ReleaseDid(db, cmd, cmd.call.which, cmd.call.reason, tok, err, c.Stored());
    }
  }

  method PerformReassign(c: StoredCase, cmd: Command) returns (err: Option<Error>)
    requires c.Good() && cmd.call.Reassign?
    modifies c
    ensures c.Good() && Did(c.On(), old(c.Stored()), cmd, err, c.Stored())
  {
    hide StoredOk;
    hide Projects;
    hide Ranked;
    hide PassesOnce;
    hide Blamed;
    hide Refusal;
    hide PolicyJoins;
    hide Explains;
    hide AllAllowed;
    hide Signed;
    ghost var db := c.Stored();
    ghost var tok;
    err, tok := c.Reassign(cmd.call.which, cmd.call.to, cmd.call.reason, cmd.call.expected, cmd.oracles, cmd.now,
                           cmd.actor);
    OneEventOnce(db.log, c.log);
    if err.Some? { Harmless(c.chart, c.depth, c.caps, cmd.oracles, err.value); }
    if err.None? { assert ReassignDid(db, cmd, cmd.call.which, cmd.call.to, cmd.call.reason, tok, c.Stored()); }
  }

  method PerformRecordFailure(c: StoredCase, cmd: Command) returns (err: Option<Error>)
    requires c.Good() && cmd.call.RecordFailure?
    modifies c
    ensures c.Good() && Did(c.On(), old(c.Stored()), cmd, err, c.Stored())
  {
    hide StoredOk;
    hide Projects;
    hide Ranked;
    hide PassesOnce;
    hide Blamed;
    hide Refusal;
    hide PolicyJoins;
    hide Explains;
    hide AllAllowed;
    hide Signed;
    ghost var db := c.Stored();
    err := c.RecordFailure(cmd.call.which, cmd.call.action, cmd.now, cmd.actor);
    OneEventOnce(db.log, c.log);
    if err.Some? { Harmless(c.chart, c.depth, c.caps, cmd.oracles, err.value); }
  }

  /** Makes one call. */
  method Perform(c: StoredCase, cmd: Command) returns (err: Option<Error>)
    requires c.Good()
    modifies c
    ensures c.Good() && Did(c.On(), old(c.Stored()), cmd, err, c.Stored())
  {
    hide StoredOk;
    hide Projects;
    hide Ranked;
    hide Did;
    match cmd.call
    case Move(_) => err := PerformMove(c, cmd);
    case CancelToken(_, _) => err := PerformCancelToken(c, cmd);
    case Cancel(_, _) => err := PerformCancel(c, cmd);
    case Expire(_) => err := PerformExpire(c, cmd);
    case SetDeadline(_, _, _, _) => err := PerformSetDeadline(c, cmd);
    case Claim(_, _) => err := PerformClaim(c, cmd);
    case Release(_, _, _) => err := PerformRelease(c, cmd);
    case Reassign(_, _, _, _) => err := PerformReassign(c, cmd);
    case RecordFailure(_, _) => err := PerformRecordFailure(c, cmd);
  }
}
