/** A stored case and the calls that change it. */
module Cases {
  import opened Definitions
  import opened Soundness
  import opened Tokens
  import opened Replay
  import opened Rounds
  import opened Invariant
  import opened Closings
  import opened History
  import opened Planning
  import opened WorkingCopy
  import opened Guards
  import opened Projection
  import opened Returns
  import opened Engine
  import opened Operations
  import opened Budget
  import opened Caps
  import opened Consultations

  datatype Row = Row(
    status: CaseStatus, state: string, assignedTo: string, deadlineAt: Option<int>, lastSeq: nat, revision: nat)

  /** Everything stored about one case. */
  datatype Db = Db(row: Row, tokens: map<Id, Token>, scopes: map<Id, Scope>, log: seq<Event>, next: Id)
  {
    function Img(): Image { Image(tokens, scopes, row.status, if row.status.CaseOpen? then "" else row.state) }
  }

  /** What a case runs on. */
  datatype Setup = Setup(d: Definition, unit: string, caps: Caps, chart: Chart, depth: map<string, nat>)

  /** The identifiers a repository asks of its callers: a created row is new, an
      updated one exists. */
  ghost predicate RowsFit<R>(stored: map<Id, R>, rows: map<Id, R>, created: set<Id>, changed: set<Id>) {
    forall x :: x in rows ==> (x in created ==> x !in stored) && (x in changed ==> x in stored)
  }

  /** `stored` with the marked rows among `done` written over it. */
  function Overlay<R>(stored: map<Id, R>, rows: map<Id, R>, created: set<Id>, changed: set<Id>,
                      done: set<Id>): map<Id, R> {
    stored + (map x | x in rows && x in done && (x in created || x in changed) :: rows[x])
  }

  lemma OverlayOne<R>(stored: map<Id, R>, rows: map<Id, R>, created: set<Id>, changed: set<Id>, done: set<Id>, x: Id)
    requires x in rows && x !in done
    ensures var o := Overlay(stored, rows, created, changed, done);
      && Overlay(stored, rows, created, changed, done + {x}) ==
        (if x in created || x in changed then o[x := rows[x]] else o)
      && (x in o <==> x in stored)
  {
  }

  /** Inserts the created rows and updates the changed ones, one by one. */
  method WriteRows<R>(stored: map<Id, R>, rows: map<Id, R>, created: set<Id>, changed: set<Id>)
      returns (written: map<Id, R>)
    requires RowsFit(stored, rows, created, changed)
    ensures written == Overlay(stored, rows, created, changed, rows.Keys)
  {
    hide Overlay;
    written := stored;
    var todo := rows.Keys;
    OverlayNone(stored, rows, created, changed);
    while todo != {}
      invariant todo <= rows.Keys && written == Overlay(stored, rows, created, changed, rows.Keys - todo)
      decreases |todo|
    {
      var x :| x in todo;
      OverlayOne(stored, rows, created, changed, rows.Keys - todo, x);
      assert rows.Keys - (todo - {x}) == (rows.Keys - todo) + {x};
      if x in created {
        assert x !in written;
        written := written[x := rows[x]];
      } else if x in changed {
        assert x in written;
        written := written[x := rows[x]];
      }
      todo := todo - {x};
    }
    assert rows.Keys - todo == rows.Keys;
  }

  lemma OverlayNone<R>(stored: map<Id, R>, rows: map<Id, R>, created: set<Id>, changed: set<Id>)
    ensures Overlay(stored, rows, created, changed, rows.Keys - rows.Keys) == stored
  {
    assert Overlay(stored, rows, created, changed, rows.Keys - rows.Keys) == stored + map[];
  }

  lemma OverlayAll<R>(stored: map<Id, R>, rows: map<Id, R>, created: set<Id>, changed: set<Id>)
    ensures Overlay(stored, rows, created, changed, rows.Keys)
      == stored + (map x | x in rows && (x in created || x in changed) :: rows[x])
  {
  }

  /** Why a call on a token is refused before it looks at the token, if it is. */
  function Refusal(row: Row, g: Image, token: Option<Id>, expected: Option<nat>, closed: Error): (e: Option<Error>)
    ensures e.Some? ==> e.value == closed || e.value.Conflict? || e.value.TokenNotFound? || e.value.TokenRequired?
  {
    if expected.Some? && expected.value != row.revision then Some(Conflict)
    else if !row.status.CaseOpen? then Some(closed)
    else if token.Some? then (if token.value in ActiveIds(g) then None else Some(TokenNotFound))
    else if ActiveIds(g) == {} then Some(TokenNotFound)
    else if |ActiveIds(g)| > 1 then Some(TokenRequired)
    else None
  }

  /** `tok` is the token a call on `token` is about. */
  predicate Meant(g: Image, token: Option<Id>, tok: Id) {
    tok in g.tokens && tok in ActiveIds(g) && (token.Some? ==> tok == token.value) &&
      (token.None? ==> ActiveIds(g) == {tok})
  }

  /** What a guard sees of a token at rest. */
  function Seen(k: Token): Snapshot { Snapshot(k.node, k, None) }

  /** The event a call that leaves token `tok` where it is appends. */
  function Noted(seqNo: nat, now: int, actor: Actor, tok: Id, k: Token, body: Body): Event {
    Event(seqNo, now, actor, tok, k.scope, k.node, k.node, body)
  }

  /** The event that records a rejected call on a token, or on the whole case. */
  function FailureNote(seqNo: nat, now: int, actor: Actor, row: Row, tokens: map<Id, Token>, token: Option<Id>,
                       action: string): Event
    requires token.Some? ==> token.value in tokens
  {
    if token.Some? then Noted(seqNo, now, actor, token.value, tokens[token.value], FailureRecorded(action))
    else Event(seqNo, now, actor, ROOT, ROOT, row.state, row.state, FailureRecorded(action))
  }

  /** A move of token `t` that passes its checks commits, unless routing it
      fails. */
  ghost predicate MoveEnds(on: Setup, o: Oracles, g: Image, log: seq<Event>, t: Id, input: MoveInput,
                           err: Option<Error>,
                           g2: Image)
    requires t in g.tokens
  {
    var k := g.tokens[t];
    var no := MoveRefusal(o, 0, on.d, log, k, Seen(k), input);
    var found := Chosen(on.d, k.node, input.action);
    if no.Some? then err == no else found.Some? && Routed(on.chart, on.depth, on.caps, o, g, t, found.value, err, g2)
  }

  /** Only the last branch of a scope cannot be cancelled. */
  ghost predicate CancelEnds(on: Setup, oracles: Oracles, g: Image, token: Id, err: Option<Error>)
    requires token in g.tokens
  {
    if OnlyBranch(g, token) then err == Some(LastBranch)
    else err.None? || Excusable(on.chart, on.depth, on.caps, oracles, err.value)
  }

  /** An overdue token expires once for each deadline, unless leaving fails. */
  ghost predicate ExpireEnds(on: Setup, oracles: Oracles, k: Token, now: int, err: Option<Error>) {
    var no := ExpireRefusal(oracles, 0, on.d, k, now, Seen(k));
    if no.Some? then err == no else err.None? || Excusable(on.chart, on.depth, on.caps, oracles, err.value)
  }

  /** One case in the repository, with the definition it runs and the functions
      its engine is configured with. */
  class StoredCase {
    const d: Definition
    const unit: string
    const caps: Caps
    ghost const chart: Chart
    ghost const depth: map<string, nat>

    var row: Row
    var tokens: map<Id, Token>
    var scopes: map<Id, Scope>
    var log: seq<Event>
    var nextId: Id

    function Img(): Image
      reads this
    {
      Image(tokens, scopes, row.status, if row.status.CaseOpen? then "" else row.state)
    }

    /** What every call finds and leaves: the invariant, a history that rebuilds
        the rows, and a case row that is the projection of the tokens. */
    ghost predicate Good()
      reads this
    {
      && chart.d == d && (caps.Off() ==> Ranked(chart, depth)) && StoredOk(chart, unit, Img(), log, nextId)
      && row.lastSeq == |log| && Projects(Img(), row.state, row.assignedTo, row.deadlineAt)
    }

    ghost function On(): Setup { Setup(d, unit, caps, chart, depth) }

    function Stored(): Db
      reads this
    {
      Db(row, tokens, scopes, log, nextId)
    }

    /** A call that changes nothing but a token where it rests. */
    twostate predicate Annotated(tok: Id, k: Token)
      reads this
    {
      && tokens == old(tokens)[tok := k] && scopes == old(scopes)
      && row.status == old(row.status) && nextId == old(nextId)
    }

    twostate predicate Untouched()
      reads this
    {
      row == old(row) && tokens == old(tokens) && scopes == old(scopes) && log == old(log) && nextId == old(nextId)
    }

    /** An error a call on a sound case may end in. */
    ghost predicate Explained(o: Oracles, e: Error) { Explains(chart, depth, caps, o, e) }

    /** A committed call: the history grew, and at most one round under a policy
        closed. */
    twostate predicate Committed(n: nat)
      reads this
    {
      && row.revision == old(row.revision) + 1
      && old(log) < log && PolicyJoins(log) <= PolicyJoins(old(log)) + n
    }

    constructor (d: Definition, unit: string, caps: Caps, ghost chart: Chart, ghost depth: map<string, nat>, row: Row,
                 tokens: map<Id, Token>, scopes: map<Id, Scope>, log: seq<Event>, nextId: Id)
      ensures this.d == d && this.unit == unit && this.caps == caps && this.chart == chart && this.depth == depth
      ensures this.row == row && this.tokens == tokens && this.scopes == scopes && this.log == log
      ensures this.nextId == nextId
    {
      this.d, this.unit, this.caps, this.chart, this.depth := d, unit, caps, chart, depth;
      this.row, this.tokens, this.scopes, this.log, this.nextId := row, tokens, scopes, log, nextId;
    }

    /** `run` is a working copy of this case as it is stored now. */
    ghost predicate Copied(run: CaseRun, oracles: Oracles, now: int, actor: Actor)
      reads this, run
    {
      && run.chart == chart && run.d == d && run.unit == unit && run.oracles == oracles && run.caps == caps &&
        run.now == now && run.actor == actor
      && run.depth == depth && run.used == {} && run.Metered()
      && run.base == Img() && run.stored == log && run.events == [] && run.asked == 0 && run.rounds == map[]
      && run.W() == Loaded(Img(), log, nextId) && run.Sane(map[], None, {}) && run.Rebuilt()
    }

    /** Reads the case and starts planning. */
    method Load(oracles: Oracles, now: int, actor: Actor) returns (run: CaseRun)
      requires Good()
      ensures fresh(run) && Copied(run, oracles, now, actor)
    {
      hide Works;
      hide Rebuilds;
      hide Heard;
      hide StoredOk;
      run := new CaseRun(d, unit, oracles, caps, now, actor, Img(), log, nextId, chart, depth);
    }

    /** The checks every call on a token starts with. */
    method Begin(token: Option<Id>, expected: Option<nat>, closed: Error, oracles: Oracles, now: int, actor: Actor)
        returns (r: Result<Id>, run: CaseRun)
      requires Good()
      ensures fresh(run) && Copied(run, oracles, now, actor)
      ensures (if r.Err? then Some(r.error) else None) == Refusal(row, Img(), token, expected, closed)
      ensures r.Ok? ==> Meant(Img(), token, r.value) && tokens[r.value].status.Active? && row.status.CaseOpen?
    {
      hide Works;
      hide Rebuilds;
      hide Heard;
      hide StoredOk;
      hide Projects;
      run := Load(oracles, now, actor);
      if expected.Some? && expected.value != row.revision { return Err(Conflict), run; }
      if !row.status.CaseOpen? { return Err(closed), run; }
      r := Pick(Img(), token);
    }

    /** Writes a planned call, provided nobody wrote the case since it was read. */
    method Persist(run: CaseRun, readRevision: nat, readSeq: nat, ghost n: nat) returns (err: Option<Error>)
      requires Good()
      requires row.revision == readRevision && row.lastSeq == readSeq ==>
        && run.chart == chart && run.unit == unit && run.base == Img() && run.stored == log && run.events != []
        && run.Sane(map[], None, {}) && run.Rebuilt() && Extends(Loaded(Img(), log, nextId), run.W(), n)
      modifies this
      ensures err == if old(row.revision) == readRevision && old(row.lastSeq) == readSeq then None else Some(Conflict)
      ensures Good() && (err.Some? ==> Untouched()) && (err.None? ==> Committed(n))
      ensures err.None? ==> Img() == run.Img() && log == old(log) + run.events && nextId == run.nextId
      ensures err.None? ==> AllAllowed(d, unit, run.oracles, log, |old(log)|)
      ensures err.None? ==> Signed(log, |old(log)|, run.now, run.actor)
    {
      hide Works;
      hide Rebuilds;
      hide Heard;
      hide StoredOk;
      hide Extends;
      hide Projects;
      hide Overlay;
      hide RowsFit;
      if row.revision != readRevision || row.lastSeq != readSeq { return Some(Conflict); }
      Stores(chart, unit, Img(), log, nextId, run.W(), n);
      RowsMarked(chart, Img(), run.W());
      OverlayAll(scopes, run.scopes, run.created, run.changed);
      OverlayAll(tokens, run.tokens, run.created, run.changed);
      var state, assignedTo, due := Project(Image(run.tokens, run.scopes, run.status, run.endState));
      row := Row(run.status, state, assignedTo, due, readSeq + |run.events|, row.revision + 1);
      scopes := WriteRows(scopes, run.scopes, run.created, run.changed);
      tokens := WriteRows(tokens, run.tokens, run.created, run.changed);
      HeardAllows(chart.d, unit, run.oracles, log + run.events, |log|, run.rounds);
      SignedStored(log, run.events, run.now, run.actor);
      log := log + run.events;
      nextId := run.nextId;
      return None;
    }

    /** Applies a transition and routes until every token it touched rests, waits
        or ends. A failed move leaves the case and its history untouched. */
    method Move(input: MoveInput, oracles: Oracles, now: int, actor: Actor)
        returns (err: Option<Error>, ghost tok: Id, ghost tr: Transition)
      requires Good()
      modifies this
      ensures Good()
      ensures err.Some? ==> Untouched() && Explained(oracles, err.value)
      ensures var no := Refusal(old(row), old(Img()), input.token, input.expectedRevision, CaseNotOpen);
        if no.Some? then err == no
        else
          && Meant(old(Img()), input.token, tok)
          && MoveEnds(On(), oracles, old(Img()), old(log), tok, input, err, Img())
      ensures err.None? ==> Committed(1) && tok in old(tokens) && Legal(d, old(log), old(tokens)[tok], input, tr)
      ensures err.None? && Ranked(chart, depth) ==> PassesOnce(log, |old(log)|)
      ensures err.None? && tr.back ==> Returned(chart, old(log), old(Img()), old(tokens)[tok].scope, tr)
      ensures err.None? ==>
        var i := |old(log)| + (if input.step then 1 else 0);
        i < |log| && FirstHop(log[i], tok, tr, input.comment)
      ensures err.None? && input.step ==>
        log[|old(log)|] == Noted(|old(log)| + 1, now, actor, tok, old(tokens)[tok], StepSubmitted(input.action))
      ensures AllAllowed(d, unit, oracles, log, |old(log)|) && Signed(log, |old(log)|, now, actor)
    {
      hide Allowed;
      hide Routed;
      hide Works;
      hide Rebuilds;
      hide Heard;
      hide StoredOk;
      hide Projects;
      hide Extends;
      hide Ranked;
      hide LongChain;
      hide PolicyJoins;
      hide GatewayIds;
      hide ActiveIds;
      hide Legal;
      hide FirstHop;
      hide Refusal;
      hide MoveRefusal;
      tok, tr := ROOT, Transition("", "", "", "", CommentNone, false, NoOutcome);
      var r, run := Begin(input.token, input.expectedRevision, CaseNotOpen, oracles, now, actor);
      if r.Err? {
        err := Some(r.error);
      } else {
        tok := r.value;
        err, tr := MovePicked(run, r.value, input, oracles, now, actor);
      }
    }

    /** Moves `tok`, which the working copy `run` holds at rest. */
    method MovePicked(run: CaseRun, tok: Id, input: MoveInput, oracles: Oracles, now: int, actor: Actor)
        returns (err: Option<Error>, ghost tr: Transition)
      requires Good() && Copied(run, oracles, now, actor) && tok in tokens && tokens[tok].status.Active?
      modifies this, run
      ensures Good()
      ensures err.Some? ==> Untouched() && Explained(oracles, err.value)
      ensures MoveEnds(On(), oracles, old(Img()), old(log), tok, input, err, Img())
      ensures err.None? ==> Committed(1) && Legal(d, old(log), old(tokens)[tok], input, tr)
      ensures err.None? && Ranked(chart, depth) ==> PassesOnce(log, |old(log)|)
      ensures err.None? && tr.back ==> Returned(chart, old(log), old(Img()), old(tokens)[tok].scope, tr)
      ensures err.None? ==>
        var i := |old(log)| + (if input.step then 1 else 0);
        i < |log| && FirstHop(log[i], tok, tr, input.comment)
      ensures err.None? && input.step ==>
        log[|old(log)|] == Noted(|old(log)| + 1, now, actor, tok, old(tokens)[tok], StepSubmitted(input.action))
      ensures AllAllowed(d, unit, oracles, log, |old(log)|) && Signed(log, |old(log)|, now, actor)
    {
      hide Allowed;
      hide Routed;
      hide Works;
      hide Rebuilds;
      hide Heard;
      hide StoredOk;
      hide Projects;
      hide Extends;
      hide Ranked;
      hide LongChain;
      hide PolicyJoins;
      hide GatewayIds;
      hide ActiveIds;
      hide Blamed;
      hide Legal;
      hide FirstHop;
      RefusalsOfMove(oracles, 0, d, log, tokens[tok], Seen(tokens[tok]), input);
      hide MoveRefusal;
      assert run.SnapshotAt(tok, run.tokens[tok].node) == Seen(tokens[tok]);
      err, tr := PlanMoveToken(run, tok, input);
      if err.None? {
        if Ranked(chart, depth) { OnceStored(log, run.events, run.used); }
        if tr.back { ReturnsHome(chart, unit, Img(), log, nextId, tokens[tok].scope, tr); }
        assert input.step ==> run.events[0] == (log + run.events)[|log|];
        assert run.events[if input.step then 1 else 0] == (log + run.events)[|log| + (if input.step then 1 else 0)];
        err := Persist(run, row.revision, row.lastSeq, 1);
      } else if Chosen(d, tokens[tok].node, input.action).Some? {
        ghost var tr2 := Chosen(d, tokens[tok].node, input.action).value;
        if RouteEnds(run, Img(), tok, tr2,
                     err) { RoutedFails(chart, depth, caps, oracles, Img(), tok, tr2, err, run.Img(), Img()); }
      }
    }

    /** Cancels one branch, unless it is the last live one of its scope. */
    method CancelToken(token: Id, reason: string, oracles: Oracles, now: int, actor: Actor) returns (err: Option<Error>)
      requires Good()
      modifies this
      ensures Good()
      ensures err.Some? ==> Untouched() && Explained(oracles, err.value)
      ensures var no := Refusal(old(row), old(Img()), Some(token), None, CaseNotOpen);
        if reason == "" then err == Some(ReasonRequired)
        else if no.Some? then err == no
        else Meant(old(Img()), Some(token), token) && CancelEnds(On(), oracles, old(Img()), token, err)
      ensures err.None? ==> Committed(1) && token in old(tokens)
      ensures err.None? ==>
        log[|old(log)|] == Noted(|old(log)| + 1, now, actor, token, old(tokens)[token], TokenCancelled(reason))
      ensures err.None? && Ranked(chart, depth) ==> PassesOnce(log, |old(log)|)
      ensures AllAllowed(d, unit, oracles, log, |old(log)|) && Signed(log, |old(log)|, now, actor)
    {
      hide Allowed;
      hide Works;
      hide Rebuilds;
      hide Heard;
      hide StoredOk;
      hide Projects;
      hide Extends;
      hide Ranked;
      hide LongChain;
      hide PolicyJoins;
      hide GatewayIds;
      hide ActiveIds;
      hide OnlyBranch;
      hide Refusal;
      if reason == "" { return Some(ReasonRequired); }
      var r, run := Begin(Some(token), None, CaseNotOpen, oracles, now, actor);
      if r.Err? {
        err := Some(r.error);
      } else {
        err := CancelPicked(run, token, reason, oracles, now, actor);
      }
    }

    /** Cancels `token`, which the working copy `run` holds at rest. */
    method CancelPicked(run: CaseRun, token: Id, reason: string, oracles: Oracles, now: int, actor: Actor)
        returns (err: Option<Error>)
      requires Good() && Copied(run, oracles, now, actor) && token in tokens && tokens[token].status.Active?
      modifies this, run
      ensures Good()
      ensures err.Some? ==> Untouched() && Explained(oracles, err.value)
      ensures CancelEnds(On(), oracles, old(Img()), token, err)
      ensures err.None? ==> Committed(1)
      ensures err.None? ==>
        log[|old(log)|] == Noted(|old(log)| + 1, now, actor, token, old(tokens)[token], TokenCancelled(reason))
      ensures err.None? && Ranked(chart, depth) ==> PassesOnce(log, |old(log)|)
      ensures AllAllowed(d, unit, oracles, log, |old(log)|) && Signed(log, |old(log)|, now, actor)
    {
      hide Allowed;
      hide Works;
      hide Rebuilds;
      hide Heard;
      hide StoredOk;
      hide Projects;
      hide Extends;
      hide Ranked;
      hide LongChain;
      hide PolicyJoins;
      hide GatewayIds;
      hide ActiveIds;
      hide OnlyBranch;
      err := PlanCancelToken(run, token, reason);
      if err.None? {
        if Ranked(chart, depth) { OnceStored(log, run.events, run.used); }
        assert run.events[0] == (log + run.events)[|log|];
        err := Persist(run, row.revision, row.lastSeq, 1);
      }
    }

    /** Ends the whole case: no token stays live and no scope open. */
    method Cancel(reason: string, expected: Option<nat>, oracles: Oracles, now: int, actor: Actor)
        returns (err: Option<Error>)
      requires Good()
      modifies this
      ensures Good()
      ensures err == if reason == "" then Some(ReasonRequired)
                     else if expected.Some? && expected.value != old(row.revision) then Some(Conflict)
                     else if !old(row.status).CaseOpen? then Some(CaseNotOpen) else None
      ensures err.Some? ==> Untouched()
      ensures err.None? ==> Committed(0) && row.status == CaseCancelled && row.state == old(row.state)
      ensures err.None? ==> forall t :: t in tokens ==> !tokens[t].status.Live()
      ensures err.None? ==> forall s :: s in scopes ==> !scopes[s].status.ScopeOpen?
      ensures err.None? ==> log[|log| - 1].body == CaseCancelledEvent(reason)
      ensures err.None? ==> OldestFirst(old(tokens), tokens, log[..|log| - 1], |old(log)|, {})
      ensures err.None? && Ranked(chart, depth) ==> PassesOnce(log, |old(log)|)
      ensures AllAllowed(d, unit, oracles, log, |old(log)|) && Signed(log, |old(log)|, now, actor)
    {
      hide Allowed;
      hide OldestFirst;
      hide Works;
      hide Rebuilds;
      hide Heard;
      hide StoredOk;
      hide Projects;
      hide Ranked;
      hide PolicyJoins;
      hide GatewayIds;
      hide Extends;
      if reason == "" { return Some(ReasonRequired); }
      if expected.Some? && expected.value != row.revision { return Some(Conflict); }
      if !row.status.CaseOpen? { return Some(CaseNotOpen); }
      var run := Load(oracles, now, actor);
      PlanCaseCancel(run, row.state, reason);
      PlainStored(log, run.events);
      OldestStored(tokens, run.tokens, log, run.events);
      hide PassesOnce;
      hide Plain;
      assert run.events[|run.events| - 1] == (log + run.events)[|log + run.events| - 1];
      err := Persist(run, row.revision, row.lastSeq, 0);
    }

    /** Records that a deadline passed; only the system may. */
    method Expire(token: Option<Id>, oracles: Oracles, now: int, actor: Actor)
        returns (err: Option<Error>, ghost tok: Id)
      requires Good()
      modifies this
      ensures Good()
      ensures err.Some? ==> Untouched() && Explained(oracles, err.value)
      ensures var no := Refusal(old(row), old(Img()), token, None, CaseNotOpen);
        if !actor.kind.System? then err == Some(InvalidActor)
        else if no.Some? then err == no
        else Meant(old(Img()), token, tok) && ExpireEnds(On(), oracles, old(tokens)[tok], now, err)
      ensures err.None? ==> Committed(1) && tok in old(tokens) && old(tokens)[tok].deadlineAt.Some?
      ensures err.None? ==>
        log[|old(log)|] == Noted(|old(log)| + 1, now, actor, tok, old(tokens)[tok],
                                 DeadlineExpired(old(tokens)[tok].deadlineAt.value))
      ensures err.None? ==> Followed(d, log, |old(log)| + 1, tok, old(tokens)[tok].node)
      ensures err.None? && Ranked(chart, depth) ==> PassesOnce(log, |old(log)|)
      ensures err.None? && ExpiryAction(d, old(tokens)[tok].node).None? ==>
        && tokens == old(tokens)[tok := old(tokens)[tok].(expired := old(tokens)[tok].deadlineAt)]
        && |log| == |old(log)| + 1
      ensures AllAllowed(d, unit, oracles, log, |old(log)|) && Signed(log, |old(log)|, now, actor)
    {
      hide Allowed;
      hide Works;
      hide Rebuilds;
      hide Heard;
      hide StoredOk;
      hide Projects;
      hide Extends;
      hide Ranked;
      hide LongChain;
      hide PolicyJoins;
      hide GatewayIds;
      hide ActiveIds;
      hide Refusal;
      hide ExpireRefusal;
      hide Followed;
      tok := ROOT;
      if !actor.kind.System? { return Some(InvalidActor), tok; }
      var r, run := Begin(token, None, CaseNotOpen, oracles, now, actor);
      if r.Err? {
        err := Some(r.error);
      } else {
        tok := r.value;
        err := ExpirePicked(run, r.value, oracles, now, actor);
      }
    }

    /** Expires `tok`, which the working copy `run` holds at rest. */
    method ExpirePicked(run: CaseRun, tok: Id, oracles: Oracles, now: int, actor: Actor) returns (err: Option<Error>)
      requires Good() && Copied(run, oracles, now, actor) && tok in tokens && tokens[tok].status.Active?
      modifies this, run
      ensures Good()
      ensures err.Some? ==> Untouched() && Explained(oracles, err.value)
      ensures ExpireEnds(On(), oracles, old(tokens)[tok], now, err)
      ensures err.None? ==> Committed(1) && old(tokens)[tok].deadlineAt.Some?
      ensures err.None? ==>
        log[|old(log)|] == Noted(|old(log)| + 1, now, actor, tok, old(tokens)[tok],
                                 DeadlineExpired(old(tokens)[tok].deadlineAt.value))
      ensures err.None? ==> Followed(d, log, |old(log)| + 1, tok, old(tokens)[tok].node)
      ensures err.None? && Ranked(chart, depth) ==> PassesOnce(log, |old(log)|)
      ensures err.None? && ExpiryAction(d, old(tokens)[tok].node).None? ==>
        && tokens == old(tokens)[tok := old(tokens)[tok].(expired := old(tokens)[tok].deadlineAt)]
        && |log| == |old(log)| + 1
      ensures AllAllowed(d, unit, oracles, log, |old(log)|) && Signed(log, |old(log)|, now, actor)
    {
      hide Allowed;
      hide Works;
      hide Rebuilds;
      hide Heard;
      hide StoredOk;
      hide Projects;
      hide Extends;
      hide Ranked;
      hide LongChain;
      hide PolicyJoins;
      hide GatewayIds;
      hide ActiveIds;
      hide Blamed;
      hide ExpireRefusal;
      hide FirstHop;
      hide Chosen;
      assert run.SnapshotAt(tok, run.tokens[tok].node) == Seen(tokens[tok]);
      err := PlanExpire(run, tok);
      if err.None? {
        if Ranked(chart, depth) { OnceStored(log, run.events, run.used); }
        assert run.events[0] == (log + run.events)[|log|];
        assert |run.events| > 1 ==> run.events[1] == (log + run.events)[|log| + 1];
        err := Persist(run, row.revision, row.lastSeq, 1);
      }
    }

    /** Moves, sets or removes a token's deadline and forgets that it expired. */
    method SetDeadline(token: Option<Id>, due: Option<int>, reason: string, expected: Option<nat>, oracles: Oracles,
                       now: int, actor: Actor) returns (err: Option<Error>, ghost tok: Id)
      requires Good()
      modifies this
      ensures Good()
      ensures err == if reason ==
        "" then Some(ReasonRequired) else Refusal(old(row), old(Img()), token, expected, CaseNotOpen)
      ensures err.Some? ==> Untouched()
      ensures err.None? ==> Committed(0) && Meant(old(Img()), token, tok)
      ensures err.None? ==> Annotated(tok, old(tokens)[tok].(deadlineAt := due, expired := None))
      ensures err.None? ==>
        log == old(log) + [Noted(|old(log)| + 1, now, actor, tok, old(tokens)[tok],
                                 DeadlineChanged(old(tokens)[tok].deadlineAt, due, reason))]
      ensures AllAllowed(d, unit, oracles, log, |old(log)|) && Signed(log, |old(log)|, now, actor)
    {
      hide Allowed;
      hide Works;
      hide Rebuilds;
      hide Heard;
      hide StoredOk;
      hide Projects;
      hide Extends;
      hide Ranked;
      hide LongChain;
      hide PolicyJoins;
      hide GatewayIds;
      hide ActiveIds;
      hide Blamed;
      hide Refusal;
      tok := ROOT;
      if reason == "" { return Some(ReasonRequired), tok; }
      var r, run := Begin(token, expected, CaseNotOpen, oracles, now, actor);
      if r.Err? { return Some(r.error), tok; }
      tok := r.value;
      PlanSetDeadline(run, r.value, due, reason);
      err := Persist(run, row.revision, row.lastSeq, 0);
    }

    /** Takes an unassigned token; nobody takes a token someone else holds. */
    method Claim(token: Option<Id>, expected: Option<nat>, oracles: Oracles, now: int, actor: Actor)
        returns (err: Option<Error>, ghost tok: Id)
      requires Good()
      modifies this
      ensures Good()
      ensures var no := Refusal(old(row), old(Img()), token, expected, CaseNotOpen);
        if actor.id == "" then err == Some(InvalidActor)
        else if no.Some? then err == no
        else
          && Meant(old(Img()), token, tok)
          && err == if old(tokens)[tok].assignedTo in {"", actor.id} then None else Some(AlreadyAssigned)
      ensures err.Some? ==> Untouched()
      ensures err.None? ==> tok in old(tokens)
      ensures err.None? ==> Annotated(tok, old(tokens)[tok].(assignedTo := actor.id))
      ensures err.None? && old(tokens)[tok].assignedTo != "" ==> Untouched()
      ensures err.None? && old(tokens)[tok].assignedTo == "" ==>
        Committed(0) && log ==
          old(log) + [Noted(|old(log)| + 1, now, actor, tok, old(tokens)[tok], Assigned("", actor.id, ""))]
      ensures AllAllowed(d, unit, oracles, log, |old(log)|) && Signed(log, |old(log)|, now, actor)
    {
      hide Allowed;
      hide Works;
      hide Rebuilds;
      hide Heard;
      hide StoredOk;
      hide Projects;
      hide Extends;
      hide Ranked;
      hide LongChain;
      hide PolicyJoins;
      hide GatewayIds;
      hide ActiveIds;
      hide Blamed;
      hide Refusal;
      tok := ROOT;
      if actor.id == "" { return Some(InvalidActor), tok; }
      var r, run := Begin(token, expected, CaseNotOpen, oracles, now, actor);
      if r.Err? { return Some(r.error), tok; }
      tok := r.value;
      var t := r.value;
      err := PlanClaim(run, t, actor.id);
      assert tokens[t := tokens[t]] == tokens;
      if err.Some? || run.events == [] { return; }
      err := Persist(run, row.revision, row.lastSeq, 0);
    }

    /** Gives a token back; someone else's only with a reason. */
    method Release(token: Option<Id>, reason: string, expected: Option<nat>, oracles: Oracles, now: int, actor: Actor)
        returns (err: Option<Error>, ghost tok: Id)
      requires Good()
      modifies this
      ensures Good()
      ensures var no := Refusal(old(row), old(Img()), token, expected, NotAssigned);
        if no.Some? then err == no
        else Meant(old(Img()), token, tok) && err == ReleaseRefusal(old(tokens)[tok].assignedTo, actor.id, reason)
      ensures err.Some? ==> Untouched()
      ensures err.None? ==> Committed(0) && tok in old(tokens)
      ensures err.None? ==> Annotated(tok, old(tokens)[tok].(assignedTo := ""))
      ensures err.None? ==>
        log == old(log) + [Noted(|old(log)| + 1, now, actor, tok, old(tokens)[tok],
                                 Unassigned(old(tokens)[tok].assignedTo, reason))]
      ensures AllAllowed(d, unit, oracles, log, |old(log)|) && Signed(log, |old(log)|, now, actor)
    {
      hide Allowed;
      hide Works;
      hide Rebuilds;
      hide Heard;
      hide StoredOk;
      hide Projects;
      hide Extends;
      hide Ranked;
      hide LongChain;
      hide PolicyJoins;
      hide GatewayIds;
      hide ActiveIds;
      hide Blamed;
      hide Refusal;
      tok := ROOT;
      var r, run := Begin(token, expected, NotAssigned, oracles, now, actor);
      if r.Err? { return Some(r.error), tok; }
      tok := r.value;
      err := PlanRelease(run, r.value, actor.id, reason);
      if err.Some? { return; }
      err := Persist(run, row.revision, row.lastSeq, 0);
    }

    /** Gives a token to someone, whoever holds it. */
    method Reassign(token: Option<Id>, to: string, reason: string, expected: Option<nat>, oracles: Oracles, now: int,
                    actor: Actor) returns (err: Option<Error>, ghost tok: Id)
      requires Good()
      modifies this
      ensures Good()
      ensures err == if reason == "" then Some(ReasonRequired) else if to == "" then Some(InvalidActor)
                     else Refusal(old(row), old(Img()), token, expected, CaseNotOpen)
      ensures err.Some? ==> Untouched()
      ensures err.None? ==> Committed(0) && Meant(old(Img()), token, tok)
      ensures err.None? ==> Annotated(tok, old(tokens)[tok].(assignedTo := to))
      ensures err.None? ==>
        log == old(log) + [Noted(|old(log)| + 1, now, actor, tok, old(tokens)[tok],
                                 Assigned(old(tokens)[tok].assignedTo, to, reason))]
      ensures AllAllowed(d, unit, oracles, log, |old(log)|) && Signed(log, |old(log)|, now, actor)
    {
      hide Allowed;
      hide Works;
      hide Rebuilds;
      hide Heard;
      hide StoredOk;
      hide Projects;
      hide Extends;
      hide Ranked;
      hide LongChain;
      hide PolicyJoins;
      hide GatewayIds;
      hide ActiveIds;
      hide Blamed;
      hide Refusal;
      tok := ROOT;
      if reason == "" { return Some(ReasonRequired), tok; }
      if to == "" { return Some(InvalidActor), tok; }
      var r, run := Begin(token, expected, CaseNotOpen, oracles, now, actor);
      if r.Err? { return Some(r.error), tok; }
      tok := r.value;
      PlanReassign(run, r.value, to, reason);
      err := Persist(run, row.revision, row.lastSeq, 0);
    }

    /** Appends a record of a rejected move: the history grows by one event, the
        revision and every row of the case stay. */
    method RecordFailure(token: Option<Id>, action: string, now: int, actor: Actor) returns (err: Option<Error>)
      requires Good()
      modifies this
      ensures Good()
      ensures err == if token.Some? && token.value !in old(tokens) then Some(TokenNotFound) else None
      ensures err.Some? ==> Untouched()
      ensures err.None? ==> row == old(row).(lastSeq := old(row.lastSeq) + 1) && tokens == old(tokens)
      ensures err.None? ==> scopes == old(scopes) && nextId == old(nextId) && old(log) <= log
      ensures err.None? ==>
        log == old(log) + [FailureNote(|old(log)| + 1, now, actor, old(row), old(tokens), token, action)]
      ensures forall o :: AllAllowed(d, unit, o, log, |old(log)|)
      ensures Signed(log, |old(log)|, now, actor)
    {
      hide Allowed;
      hide Projects;
      hide StoredOk;
      if token.Some? && token.value !in tokens { return Some(TokenNotFound); }
      RootRow(chart, unit, Img(), log, nextId);
      var e := FailureNote(|log| + 1, now, actor, row, tokens, token, action);
      FailureStored(chart, unit, Img(), log, nextId, e);
      forall o { NoteAllowed(d, unit, o, log, e); }
      row := row.(lastSeq := row.lastSeq + 1);
      log := log + [e];
      err := None;
    }
  }

  /** A return goes back to a task, in the very branch it leaves, where a token
      of the same scope rested earlier in the case. */
  ghost predicate Returned(c: Chart, log: seq<Event>, g: Image, scope: Id, tr: Transition) {
    Rests(c.d, tr.to) && Home(c, tr.to) == Home(c, tr.from) && exists i :: RestedAt(c, log, g, scope, tr.to, i)
  }

  lemma ReturnsHome(c: Chart, unit: string, g: Image, log: seq<Event>, next: Id, scope: Id, tr: Transition)
    requires StoredOk(c, unit, g, log, next) && tr in c.d.transitions && tr.back && OccupiedAt(log, scope, tr.to)
    ensures Returned(c, log, g, scope, tr)
  {
    hide Inv;
    hide Logged;
    ReturnStaysInBranch(c, tr);
    OccupiedIsVisited(c, log, g, scope, tr.to);
  }

  lemma RootRow(c: Chart, unit: string, g: Image, log: seq<Event>, next: Id)
    requires StoredOk(c, unit, g, log, next)
    ensures ROOT in g.tokens
  {
  }

  lemma FailureStored(c: Chart, unit: string, g: Image, log: seq<Event>, next: Id, e: Event)
    requires StoredOk(c, unit, g, log, next) && Next(log, e) && e.body.FailureRecorded? && e.token in g.tokens
    ensures StoredOk(c, unit, g, log + [e], next)
  {
    hide Holds;
    hide Sound;
    hide Exact;
    assert Apply(c.d, unit, g, e) == g;
    PlanAnnotate(c, unit, g, log, next, map[], e);
  }

  lemma RowsMarked(c: Chart, base: Image, w: Work)
    requires Works(c, base, w, map[], None, {})
    ensures RowsFit(base.tokens, w.g.tokens, w.created, w.changed)
    ensures RowsFit(base.scopes, w.g.scopes, w.created, w.changed)
  {
  }

  // ------------------------------------------------------------------ opening

  function StartOf(nodes: seq<Node>): (n: Option<Node>)
    ensures n.Some? ==> n.value in nodes && n.value.start
    ensures n.None? ==> forall m :: m in nodes ==> !m.start
  {
    if nodes == [] then None else if nodes[0].start then Some(nodes[0]) else StartOf(nodes[1..])
  }

  /** Opens a case on its start task. The new case keeps every promise exactly
      when that task lies where its chart starts cases. */
  method OpenCase(d: Definition, unit: string, oracles: Oracles, caps: Caps, now: int, actor: Actor, ghost chart: Chart,
                  ghost depth: map<string, nat>)
      returns (r: Result<StoredCase>)
    requires chart.d == d && (caps.Off() ==> Ranked(chart, depth))
    ensures r.Err? ==> (r.error.NoStart? || r.error.DeadlineFailed?) && Blamed(oracles, r.error)
    ensures r.Err? && StartOf(d.nodes).Some? ==> StartOf(d.nodes).value.deadlineRule != ""
    ensures r == Err(NoStart) <==> forall n :: n in d.nodes ==> !n.start
    ensures r.Ok? ==> fresh(r.value) && r.value.d == d && r.value.chart == chart && r.value.depth == depth
    ensures r.Ok? ==> r.value.unit == unit && r.value.caps == caps
    ensures r.Ok? ==> DeadlineFits(oracles, StartOf(d.nodes).value, now, r.value.row.deadlineAt)
    ensures r.Ok? ==>
      r.value.log == [Event(1, now, actor, ROOT, ROOT, "", StartOf(d.nodes).value.id, Opened(r.value.row.deadlineAt))]
    ensures r.Ok? ==>
      var start := StartOf(d.nodes).value;
      Sound(chart) && Rests(d, start.id) && NodeOf(d, start.id) == start ==>
        && (r.value.Good() <==> Home(chart, start.id).split == chart.root)
        && r.value.Img() == AfterOpen(d, unit, start.id, r.value.row.deadlineAt, now)
  {
    hide StoredOk;
    hide Sound;
    hide Rests;
    hide Home;
    hide Ranked;
    hide Projects;
    hide AfterOpen;
    hide NodeOf;
    var found := StartOf(d.nodes);
    if found.None? { return Err(NoStart); }
    var start := found.value;
    var root := Newborn(ROOT, start.id).(eligible := ResolvedEligibility(start, unit), enteredSeq := 1,
                                         enteredAt := now);
    var due := DueFor(oracles, 0, start, now, root);
    if due.Err? { return Err(due.error); }
    DueFits(oracles, 0, start, now, root);
    hide DeadlineFits;
    var e := Event(1, now, actor, ROOT, ROOT, "", start.id, Opened(due.value));
    var scope := Scope(None, "", "", 1, ScopeOpen, 1, 0);
    var c := new StoredCase(d, unit, caps, chart, depth, Row(CaseOpen, start.id, "", due.value, 1, 0),
                            map[ROOT := root.(deadlineAt := due.value)], map[ROOT := scope], [e], 1);
    if Sound(chart) && Rests(d, start.id) && NodeOf(d, start.id) == start {
      OpenGood(chart, unit, start, due.value, e, c.Img());
    }
    return Ok(c);
  }

  lemma OpenGood(c: Chart, unit: string, start: Node, due: Option<int>, e: Event, g: Image)
    requires Sound(c) && Rests(c.d, start.id) && NodeOf(c.d, start.id) == start
    requires e.seqNo == 1 && e.token == ROOT && e.scope == ROOT && e.to == start.id && e.body == Opened(due)
    requires g.tokens == map[ROOT := Newborn(ROOT, start.id).(
      eligible := ResolvedEligibility(start, unit), enteredSeq := 1, enteredAt := e.at, deadlineAt := due)]
    requires g.scopes == map[ROOT := Scope(None, "", "", 1, ScopeOpen, 1, 0)] && g.status.CaseOpen? && g.endState == ""
    ensures g == AfterOpen(c.d, unit, start.id, due, e.at) && Projects(g, start.id, "", due)
    ensures StoredOk(c, unit, g, [e], 1) <==> Home(c, start.id).split == c.root
  {
    hide StoredOk;
    OpenStored(c, unit, start.id, due, e);
    hide Sound;
    assert ActiveIds(g) == {ROOT};
  }

  lemma OpenStored(c: Chart, unit: string, start: string, due: Option<int>, e: Event)
    requires Sound(c) && Rests(c.d, start) && e.seqNo == 1 && e.token == ROOT && e.scope == ROOT && e.to == start
    requires e.body == Opened(due)
    ensures StoredOk(c, unit, AfterOpen(c.d, unit, start, due, e.at), [e], 1) <==> Home(c, start).split == c.root
  {
    var g := AfterOpen(c.d, unit, start, due, e.at);
    OpenStep(c, unit, start, due, e.at);
    assert [e][..0] == [];
    assert Rebuild(c.d, unit, [e]) == Apply(c.d, unit, Rebuild(c.d, unit, []), e);
    hide Inv;
    hide Sound;
    if Home(c, start).split == c.root {
      AppendOpen(c, e, g);
      hide Logged;
    }
  }
}
