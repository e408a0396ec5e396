/** Any number of writers on one case. Each reads the case row, the tokens, the
    scopes and the history at different moments, plans a call on what it read,
    and commits through a compare-and-swap on the revision and the last sequence
    number. A recorded failure advances only the sequence number. */
module Interleaving {
  import opened Definitions
  import opened Soundness
  import opened Tokens
  import opened Replay
  import opened Invariant
  import opened History
  import opened WorkingCopy
  import opened Projection
  import opened Guards
  import opened Budget
  import opened Caps
  import opened Operations
  import opened Cases
  import opened Calls
  import opened Runs

  /** What a planned call writes; the events go behind the ones it read. */
  datatype Change = Change(
    status: CaseStatus, state: string, assignedTo: string, deadlineAt: Option<int>,
    tokens: map<Id, Token>, scopes: map<Id, Scope>, events: seq<Event>, next: Id)

  /** What a writer has read so far, the case row first. */
  datatype View = View(
    row: Row, next: Id, tokens: Option<map<Id, Token>>, scopes: Option<map<Id, Scope>>, log: Option<seq<Event>>)
  {
    predicate Complete() { tokens.Some? && scopes.Some? && log.Some? }

    function AsDb(): Db
      requires Complete()
    {
      Db(row, tokens.value, scopes.value, log.value, next)
    }
  }

  datatype World = World(db: Db, views: map<nat, View>)

  datatype Step =
    | ReadRow(p: nat) | ReadTokens(p: nat) | ReadScopes(p: nat) | ReadLog(p: nat)
    | Commit(p: nat, cmd: Command, change: Change)
    | Fail(token: Id, scope: Id, at: string, action: string, now: int, actor: Actor)

  // ------------------------------------------------------------------ the steps

  function Written(db: Db, ch: Change): Db {
    Db(Row(ch.status, ch.state, ch.assignedTo, ch.deadlineAt, db.row.lastSeq + |ch.events|, db.row.revision + 1),
       ch.tokens, ch.scopes, db.log + ch.events, ch.next)
  }

  function FailureEvent(db: Db, s: Step): Event
    requires s.Fail?
  {
    Event(db.row.lastSeq + 1, s.now, s.actor, s.token, s.scope, s.at, s.at, FailureRecorded(s.action))
  }

  /** The record of a rejected move: one more event, the revision unchanged. */
  function Failed(db: Db, s: Step): Db
    requires s.Fail?
  {
    db.(row := db.row.(lastSeq := db.row.lastSeq + 1), log := db.log + [FailureEvent(db, s)])
  }

  /** The row has not been written since `v` was read. */
  predicate Current(db: Db, v: View) { v.row.revision == db.row.revision && v.row.lastSeq == db.row.lastSeq }

  /** The compare-and-swap succeeds: the writer has read everything, and neither
      number moved since it read the row. */
  predicate Lands(w: World, p: nat) { p in w.views && w.views[p].Complete() && Current(w.db, w.views[p]) }

  function Next(w: World, s: Step): World {
    match s
    case ReadRow(p) => w.(views := w.views[p := View(w.db.row, w.db.next, None, None, None)])
    case ReadTokens(p) => if p in w.views then w.(views := w.views[p := w.views[p].(tokens := Some(w.db.tokens))]) else w
    case ReadScopes(p) => if p in w.views then w.(views := w.views[p := w.views[p].(scopes := Some(w.db.scopes))]) else w
    case ReadLog(p) => if p in w.views then w.(views := w.views[p := w.views[p].(log := Some(w.db.log))]) else w
    case Commit(p, _, change) => World(if Lands(w, p) then Written(w.db, change) else w.db, w.views - {p})
    case Fail(_, _, _, _, _, _) => w.(db := Failed(w.db, s))
  }

  function Run(w: World, steps: seq<Step>): World {
    if steps == [] then w else Next(Run(w, steps[..|steps| - 1]), steps[|steps| - 1])
  }

  // ---------------------------------------------------------- the engine's calls

  /** `ch` is what call `cmd` makes of the case `db`, by the very relation every
      call of the engine meets, and it is not nothing. */
  ghost predicate Effect(k: Setup, db: Db, cmd: Command, ch: Change) {
    ch.events != [] && !cmd.call.RecordFailure? && Did(k, db, cmd, None, Written(db, ch))
  }

  /** A claim of a token the claimant holds already: the one call that succeeds
      and changes nothing. */
  ghost predicate OwnClaim(db: Db, cmd: Command) {
    && cmd.call.Claim? && cmd.actor.id != ""
    && Refusal(db.row, db.Img(), cmd.call.which, cmd.call.expected, CaseNotOpen).None?
    && exists t :: Meant(db.Img(), cmd.call.which, t) && db.tokens[t].assignedTo == cmd.actor.id
  }

  /** A call that succeeds and leaves the history as it was is such a claim. */
  lemma IdleIsOwnClaim(k: Setup, db: Db, cmd: Command, db2: Db)
    requires Did(k, db, cmd, None, db2) && !cmd.call.RecordFailure?
    ensures db2.log == db.log <==> OwnClaim(db, cmd)
    ensures db2.log == db.log ==> db2 == db
    ensures db2.log != db.log ==> db2.row.revision == db.row.revision + 1
  {
    hide GoodDb;
    hide Refusal;
    hide MoveEnds;
    hide CancelEnds;
    hide ExpireEnds;
    hide PassesOnce;
    hide Legal;
    hide Returned;
    hide Followed;
    hide PolicyJoins;
  }

  /** Plans one call on the rows of a case with the engine itself. */
  method PlanCall(d: Definition, unit: string, caps: Caps, ghost chart: Chart, ghost depth: map<string, nat>, db: Db,
                  cmd: Command)
      returns (err: Option<Error>, planned: Option<Change>)
    requires GoodDb(Setup(d, unit, caps, chart, depth), db) && !cmd.call.RecordFailure?
    ensures planned.Some? ==> err.None? && Effect(Setup(d, unit, caps, chart, depth), db, cmd, planned.value)
    ensures planned.None? <==> err.Some? || OwnClaim(db, cmd)
    ensures planned.None? ==> Did(Setup(d, unit, caps, chart, depth), db, cmd, err, db)
  {
    hide StoredOk;
    hide Projects;
    hide Ranked;
    hide Did;
    hide OwnClaim;
    var c := new StoredCase(d, unit, caps, chart, depth, db.row, db.tokens, db.scopes, db.log, db.next);
    ghost var k := Setup(d, unit, caps, chart, depth);
    err := Perform(c, cmd);
    planned := None;
    DidFacts(k, db, cmd, err, c.Stored());
    if err.None? {
      IdleIsOwnClaim(k, db, cmd, c.Stored());
      if |c.log| > |db.log| {
        var events := c.log[|db.log|..];
        assert c.log == db.log + events;
        planned := Some(Change(c.row.status, c.row.state, c.row.assignedTo, c.row.deadlineAt, c.tokens, c.scopes,
                               events, c.nextId));
        assert Written(db, planned.value) == c.Stored();
      }
    }
  }

  lemma DidFacts(k: Setup, db: Db, cmd: Command, err: Option<Error>, db2: Db)
    requires Did(k, db, cmd, err, db2)
    ensures db.log <= db2.log && (err.Some? ==> db2 == db) && db2.row.lastSeq == |db2.log| && db.row.lastSeq == |db.log|
    ensures GoodDb(k, db) && GoodDb(k, db2)
  {
    hide Fulfils;
  }

  /** Token `t` can be claimed: it is at rest, in an open case, and nobody's. */
  predicate Claimable(db: Db, t: Id) {
    db.row.status.CaseOpen? && t in db.tokens && t in ActiveIds(db.Img()) && db.tokens[t].assignedTo == ""
  }

  /** The command by which `actor` claims token `t`. */
  function ClaimOf(t: Id, oracles: Oracles, now: int, actor: Actor): Command {
    Command(Claim(Some(t), None), oracles, now, actor)
  }

  /** What a claim that takes effect means: the token was nobody's, and now it is
      the claimant's, and nothing else changed hands. */
  lemma ClaimTakes(k: Setup, db: Db, cmd: Command, ch: Change, t: Id)
    requires Effect(k, db, cmd, ch) && cmd.call.Claim? && cmd.call.which == Some(t)
    ensures Claimable(db, t) && cmd.actor.id != "" &&
      ch.tokens == db.tokens[t := db.tokens[t].(assignedTo := cmd.actor.id)]
  {
    hide GoodDb;
    hide PassesOnce;
    hide PolicyJoins;
  }

  /** Plans a claim of token `t` with the engine itself: there is something to
      write exactly when somebody claims a token that is nobody's. */
  method PlanClaim(d: Definition, unit: string, caps: Caps, ghost chart: Chart, ghost depth: map<string, nat>, db: Db,
                   t: Id, oracles: Oracles, now: int, actor: Actor)
      returns (err: Option<Error>, planned: Option<Change>)
    requires GoodDb(Setup(d, unit, caps, chart, depth), db)
    ensures planned.Some? <==> Claimable(db, t) && actor.id != ""
    ensures planned.Some? ==>
      && Effect(Setup(d, unit, caps, chart, depth), db, ClaimOf(t, oracles, now, actor), planned.value)
      && planned.value.tokens == db.tokens[t := db.tokens[t].(assignedTo := actor.id)]
  {
    hide GoodDb;
    hide Effect;
    hide Did;
    hide OwnClaim;
    hide Claimable;
    ghost var k := Setup(d, unit, caps, chart, depth);
    err, planned := PlanCall(d, unit, caps, chart, depth, db, ClaimOf(t, oracles, now, actor));
    if planned.Some? {
      ClaimTakes(k, db, ClaimOf(t, oracles, now, actor), planned.value, t);
    } else if Claimable(db, t) && actor.id != "" {
      ClaimIsHeard(k, db, ClaimOf(t, oracles, now, actor), err, t);
    }
  }

  /** A claim of a token that is nobody's does not end in nothing. */
  lemma ClaimIsHeard(k: Setup, db: Db, cmd: Command, err: Option<Error>, t: Id)
    requires cmd.call == Claim(Some(t), None) && cmd.actor.id != "" && Claimable(db, t)
    ensures !Did(k, db, cmd, err, db)
  {
    hide GoodDb;
    hide PassesOnce;
    hide PolicyJoins;
  }

  // -------------------------------------------------------------- the invariant

  /** What `v` read is what is stored, unless the row was written since. */
  predicate Fresh(db: Db, v: View) {
    && v.row.revision <= db.row.revision && v.row.lastSeq <= db.row.lastSeq
    && (Current(db, v) ==>
          && v.row == db.row && v.next == db.next
          && (v.tokens.Some? ==> v.tokens.value == db.tokens)
          && (v.scopes.Some? ==> v.scopes.value == db.scopes)
          && (v.log.Some? ==> v.log.value == db.log))
  }

  ghost predicate Sane(k: Setup, w: World) { GoodDb(k, w.db) && forall p :: p in w.views ==> Fresh(w.db, w.views[p]) }

  /** A writer commits what the engine planned on what it read; on rows that were
      never stored together the engine may plan anything. A failure is recorded
      about a token the case has. */
  ghost predicate Honest(k: Setup, w: World, s: Step) {
    && (s.Commit? && s.p in w.views && w.views[s.p].Complete() && GoodDb(k, w.views[s.p].AsDb()) ==>
          Effect(k, w.views[s.p].AsDb(), s.cmd, s.change))
    && (s.Fail? ==> s.token in w.db.tokens)
  }

  ghost predicate HonestRun(k: Setup, w: World, steps: seq<Step>) {
    forall i :: 0 <= i < |steps| ==> Honest(k, Run(w, steps[..i]), steps[i])
  }

  lemma HonestBefore(k: Setup, w: World, steps: seq<Step>, n: nat)
    requires HonestRun(k, w, steps) && n <= |steps|
    ensures HonestRun(k, w, steps[..n])
  {
    forall i | 0 <= i < n
      ensures Honest(k, Run(w, steps[..n][..i]), steps[..n][i])
    {
      assert steps[..n][..i] == steps[..i];
    }
  }

  /** The state a successful compare-and-swap overwrites is the one its change
      was planned on. */
  lemma PlannedOnCurrent(k: Setup, w: World, p: nat, cmd: Command, ch: Change)
    requires Sane(k, w) && Lands(w, p) && Honest(k, w, Commit(p, cmd, ch))
    ensures w.views[p].AsDb() == w.db && Effect(k, w.db, cmd, ch)
  {
    assert Fresh(w.db, w.views[p]);
  }

  lemma EffectFacts(k: Setup, db: Db, cmd: Command, ch: Change)
    requires Effect(k, db, cmd, ch)
    ensures GoodDb(k, Written(db, ch)) && ch.events != []
  {
  }

  lemma FailKeeps(k: Setup, db: Db, s: Step)
    requires GoodDb(k, db) && s.Fail? && s.token in db.tokens
    ensures GoodDb(k, Failed(db, s))
  {
    hide StoredOk;
    hide Projects;
    hide Ranked;
    FailureStored(k.chart, k.unit, db.Img(), db.log, db.next, FailureEvent(db, s));
  }

  lemma NextKeeps(k: Setup, w: World, s: Step)
    requires Sane(k, w) && Honest(k, w, s)
    ensures Sane(k, Next(w, s))
  {
    hide GoodDb;
    hide Effect;
    match s
    case Commit(p, cmd, ch) =>
      if Lands(w, p) {
        PlannedOnCurrent(k, w, p, cmd, ch);
        EffectFacts(k, w.db, cmd, ch);
      }
    case Fail(_, _, _, _, _, _) => FailKeeps(k, w.db, s);
    case _ =>
  }

  /** Every interleaving of calls and recorded failures keeps the case good. */
  lemma {:induction false} RunKeeps(k: Setup, w: World, steps: seq<Step>)
    requires Sane(k, w) && HonestRun(k, w, steps)
    ensures Sane(k, Run(w, steps))
  {
    if steps != [] {
      var n := |steps| - 1;
      HonestBefore(k, w, steps, n);
      RunKeeps(k, w, steps[..n]);
      hide Sane;
      hide Honest;
      NextKeeps(k, Run(w, steps[..n]), steps[n]);
    }
  }

  /** In particular the history is always exactly the events 1 to the last
      sequence number, and it rebuilds the rows. */
  lemma HistoryIsGapless(k: Setup, w: World, steps: seq<Step>)
    requires Sane(k, w) && HonestRun(k, w, steps)
    ensures var db := Run(w, steps).db;
      Numbered(db.log) && db.row.lastSeq == |db.log| && Rebuild(k.d, k.unit, db.log) == db.Img() &&
        Quiet(k.chart, db.Img())
  {
    RunKeeps(k, w, steps);
    var db := Run(w, steps).db;
    hide StoredOk;
    hide Run;
    StoredMeans(k.chart, k.unit, db.Img(), db.log, db.next);
  }

  // ------------------------------------------------------------ serializability

  /** What took effect: a call, with the rows it was planned on, or the record of
      a failure. */
  datatype Operation = Made(view: Db, cmd: Command, change: Change) | Failure(step: Step)

  function Applied(db: Db, op: Operation): Db {
    match op
    case Made(_, _, ch) => Written(db, ch)
    case Failure(s) => if s.Fail? then Failed(db, s) else db
  }

  /** The operations made one after the other, each in one indivisible step. */
  function Serial(db: Db, ops: seq<Operation>): Db {
    if ops == [] then db else Applied(Serial(db, ops[..|ops| - 1]), ops[|ops| - 1])
  }

  /** What step `s` adds to the operations that took effect: a commit that lands
      adds its call, with what its writer had read. */
  function Added(before: World, s: Step): seq<Operation> {
    if s.Fail? then [Failure(s)]
    else if s.Commit? && Lands(before, s.p) then [Made(before.views[s.p].AsDb(), s.cmd, s.change)]
    else []
  }

  /** The operations of a run that took effect, in the order they did. */
  function Effective(w: World, steps: seq<Step>): seq<Operation> {
    if steps == [] then []
    else Effective(w, steps[..|steps| - 1]) + Added(Run(w, steps[..|steps| - 1]), steps[|steps| - 1])
  }

  /** Operation `i` found the rows its writer had read, and made of them what the
      engine makes of them. */
  ghost predicate InTurn(k: Setup, db: Db, ops: seq<Operation>, i: nat)
    requires i < |ops|
  {
    ops[i].Made? ==>
      && ops[i].view == Serial(db, ops[..i]) && !ops[i].cmd.call.RecordFailure?
      && Did(k, Serial(db, ops[..i]), ops[i].cmd, None, Serial(db, ops[..i + 1]))
  }

  ghost predicate AllInTurn(k: Setup, db: Db, ops: seq<Operation>) {
    forall i :: 0 <= i < |ops| ==> InTurn(k, db, ops, i)
  }

  lemma InTurnMore(k: Setup, db: Db, ops: seq<Operation>, op: Operation)
    requires AllInTurn(k, db, ops)
    requires op.Made? ==> op.view == Serial(db, ops) && Effect(k, op.view, op.cmd, op.change)
    ensures AllInTurn(k, db, ops + [op]) && Serial(db, ops + [op]) == Applied(Serial(db, ops), op)
  {
    hide Did;
    var more := ops + [op];
    assert more[..|ops|] == ops && more[..|ops| + 1] == more;
    forall i | 0 <= i < |more| ensures InTurn(k, db, more, i) {
      if i < |ops| {
        assert InTurn(k, db, ops, i);
        assert more[..i] == ops[..i] && more[..i + 1] == ops[..i + 1];
      }
    }
  }

  /** Whatever the interleaving, the stored case is the one the calls that
      committed leave when they are made one after the other; and made in that
      order, each of them meets exactly the rows its writer had read piece by
      piece, and makes of them what the engine makes of them. */
  lemma {:induction false} Serializable(k: Setup, w: World, steps: seq<Step>)
    requires Sane(k, w) && HonestRun(k, w, steps)
    ensures Run(w, steps).db == Serial(w.db, Effective(w, steps)) && AllInTurn(k, w.db, Effective(w, steps))
  {
    if steps != [] {
      var n := |steps| - 1;
      HonestBefore(k, w, steps, n);
      assert Honest(k, Run(w, steps[..n]), steps[n]);
      hide Sane;
      hide Honest;
      hide HonestRun;
      hide AllInTurn;
      hide Next;
      Serializable(k, w, steps[..n]);
      RunKeeps(k, w, steps[..n]);
      SerialStep(k, w.db, Run(w, steps[..n]), steps[n], Effective(w, steps[..n]));
    }
  }

  lemma SerialStep(k: Setup, db: Db, before: World, s: Step, ops: seq<Operation>)
    requires Sane(k, before) && Honest(k, before, s) && before.db == Serial(db, ops) && AllInTurn(k, db, ops)
    ensures Next(before, s).db == Serial(db, ops + Added(before, s)) && AllInTurn(k, db, ops + Added(before, s))
  {
    hide Sane;
    hide Honest;
    hide Effect;
    hide AllInTurn;
    hide Serial;
    if s.Commit? && Lands(before, s.p) {
      PlannedOnCurrent(k, before, s.p, s.cmd, s.change);
      InTurnMore(k, db, ops, Made(before.views[s.p].AsDb(), s.cmd, s.change));
    } else if s.Fail? {
      InTurnMore(k, db, ops, Failure(s));
    } else {
      assert ops + [] == ops;
    }
  }

  // -------------------------------------------------------------- who wins a race

  /** Of two writers that read the same state at most one commits. */
  lemma OneWinner(k: Setup, w: World, p: nat, a: Command, chA: Change, q: nat, b: Command, chB: Change)
    requires Sane(k, w) && p != q && q in w.views && Lands(w, p) && Honest(k, w, Commit(p, a, chA))
    ensures Next(Next(w, Commit(p, a, chA)), Commit(q, b, chB)).db == Next(w, Commit(p, a, chA)).db
  {
    hide GoodDb;
    hide Effect;
    assert Fresh(w.db, w.views[q]);
  }

  /** A failure recorded meanwhile makes the writer conflict. */
  lemma FailureWins(k: Setup, w: World, s: Step, p: nat, cmd: Command, ch: Change)
    requires Sane(k, w) && s.Fail? && p in w.views
    ensures Next(Next(w, s), Commit(p, cmd, ch)).db == Next(w, s).db
  {
    hide GoodDb;
    assert Fresh(w.db, w.views[p]);
  }

  /** Two people race for one token: once one holds it, the other's claim changes
      nothing if it was planned before, and the engine plans no claim of theirs
      after. */
  lemma OneClaimWins(k: Setup, w: World, t: Id, p: nat, a: Command, chA: Change, q: nat, b: Command, chB: Change)
    requires Sane(k, w) && p != q && q in w.views && Lands(w, p) && Honest(k, w, Commit(p, a, chA))
    requires a.call.Claim? && a.call.which == Some(t) && b.call.Claim? && b.call.which == Some(t)
    ensures var w1 := Next(w, Commit(p, a, chA));
      && t in w1.db.tokens && w1.db.tokens[t].assignedTo == a.actor.id
      && Next(w1, Commit(q, b, chB)).db == w1.db
      && forall ch :: !Effect(k, w1.db, b, ch)
  {
    hide Sane;
    hide Honest;
    hide Did;
    OneWinner(k, w, p, a, chA, q, b, chB);
    PlannedOnCurrent(k, w, p, a, chA);
    ClaimTakes(k, w.db, a, chA, t);
    var w1 := Next(w, Commit(p, a, chA));
    forall ch ensures !Effect(k, w1.db, b, ch) {
      if Effect(k, w1.db, b, ch) { ClaimTakes(k, w1.db, b, ch, t); }
    }
  }
}
