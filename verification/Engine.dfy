/** One engine call's working copy of a case: planning in memory, routing
    through decisions, splits and joins until every token it touches rests,
    waits or ends. */
module Engine {
  import opened Definitions
  import opened Soundness
  import opened JoinPolicies
  import opened Tokens
  import opened Replay
  import opened Invariant
  import opened Closings
  import opened History
  import opened Rounds
  import opened Planning
  import opened WorkingCopy
  import opened Sweeps
  import opened Routing
  import opened Guards
  import opened Budget
  import opened Rooms
  import opened Caps
  import opened Ways
  import opened Consultations

  /** The first `n` branches of scope `child` were each sent along their route. */
  ghost predicate Emitted(events: seq<Event>, from: nat, child: Id, taken: seq<Transition>, n: nat)
    requires n <= |taken|
  {
    forall k :: 0 <= k < n ==> exists j :: from <= j < |events| && FirstHop(events[j], child + 1 + k, taken[k], "")
  }

  lemma EmittedNone(events: seq<Event>, from: nat, child: Id, taken: seq<Transition>)
    ensures Emitted(events, from, child, taken, 0)
  {
  }

  lemma EmittedMore(ev: seq<Event>, ev2: seq<Event>, from: nat, child: Id, taken: seq<Transition>, n: nat)
    requires n < |taken| && Emitted(ev, from, child, taken, n) && from <= |ev| && ev < ev2
    requires FirstHop(ev2[|ev|], child + 1 + n, taken[n], "")
    ensures Emitted(ev2, from, child, taken, n + 1)
  {
    forall k | 0 <= k < n + 1 ensures exists j :: from <= j < |ev2| && FirstHop(ev2[j], child + 1 + k, taken[k], "") {
      if k < n {
        var j :| from <= j < |ev| && FirstHop(ev[j], child + 1 + k, taken[k], "");
        assert ev2[j] == ev[j];
      }
    }
  }

  function PolicyName(p: Policy): string {
    match p
    case NoPolicy => ""
    case AllApprove => "all_approve"
    case AnyApprove => "any_approve"
    case Collect => "collect"
  }

  lemma EventsKept(stored: seq<Event>, a: seq<Event>, b: seq<Event>, i: nat)
    requires stored + a <= stored + b && i < |a|
    ensures i < |b| && b[i] == a[i]
  {
    assert (stored + a)[|stored| + i] == (stored + b)[|stored| + i];
  }

  lemma EventsPrefix(stored: seq<Event>, a: seq<Event>, b: seq<Event>)
    requires stored + a <= stored + b
    ensures a <= b
  {
    assert |a| <= |b|;
    forall i | 0 <= i < |a| ensures a[i] == b[i] { EventsKept(stored, a, b, i); }
  }

  lemma OneMore(used: set<string>, x: string, all: set<string>)
    requires used <= all && x in all && x !in used
    ensures |used + {x}| == |used| + 1 && |used| < |all|
  {
    var rest := all - (used + {x});
    assert all == used + {x} + rest;
    assert |used + {x}| == |used| + 1;
  }

  lemma TouchedIs(created: set<Id>, changed: set<Id>, a: set<Id>, b: set<Id>, s: Id)
    ensures Touched(created, TouchedAll(created, TouchedAll(created, changed, a), b), s) ==
      TouchedAll(created, changed, a + (b + {s}))
  {
  }

  /** The first event of a route: `tok` moved along `tr`. */
  predicate FirstHop(e: Event, tok: Id, tr: Transition, comment: string) {
    && e.token == tok && e.from == tr.from && e.to == tr.to
    && e.body.Moved? && e.body.action == tr.action && e.body.comment == comment
  }

  /** What a working copy shows a guard is what its history says. */
  lemma ShownIs(c: Chart, unit: string, o: Oracles, w: Work, from: nat, rounds: map<Id, Round>, t: Id, node: string)
    requires Rebuilds(c, unit, w) && Heard(c.d, unit, o, w.log, from, rounds) && t in w.g.tokens
    ensures t in Rebuild(c.d, unit, w.log).tokens
    ensures RoundIn(w.log, from, t) == (if t in rounds then Some(rounds[t]) else None)
    ensures SeenAt(c.d, unit, w.log, from, t, node) == Snapshot(node, w.g.tokens[t], RoundIn(w.log, from, t))
  {
    SnapshotIs(c.d, unit, o, w.log, from, rounds, w.g, t, node);
  }

  lemma RebuildsIs(c: Chart, unit: string, w: Work)
    requires Rebuilds(c, unit, w)
    ensures Rebuild(c.d, unit, w.log) == w.g
  {
  }

  /** Routing keeps its own events: what a call planned before stays planned. */
  class CaseRun {
    const d: Definition
    const unit: string
    const oracles: Oracles
    const caps: Caps
    const now: int
    const actor: Actor
    const stored: seq<Event>
    ghost const chart: Chart
    ghost const base: Image
    ghost const depth: map<string, nat>

    var tokens: map<Id, Token>
    var scopes: map<Id, Scope>
    var status: CaseStatus
    var endState: string
    var nextId: Id
    var events: seq<Event>
    var created: set<Id>
    var changed: set<Id>
    var gatewaySteps: nat
    var asked: nat
    var rounds: map<Id, Round>
    var joined: seq<JoinRecord>
    /** The gateways this call has passed. */
    ghost var used: set<string>

    /** The working copy of a case as read. */
    constructor (d: Definition, unit: string, oracles: Oracles, caps: Caps, now: int, actor: Actor, g: Image,
                 log: seq<Event>, next: Id,
                 ghost chart: Chart, ghost depth: map<string, nat>)
      requires chart.d == d && StoredOk(chart, unit, g, log, next) && (caps.Off() ==> Ranked(chart, depth))
      ensures this.d == d && this.unit == unit && this.oracles == oracles && this.caps == caps && this.now == now
      ensures this.actor == actor
      ensures this.depth == depth && used == {} && Metered()
      ensures stored == log && base == g && this.chart == chart && events == [] && asked == 0 && rounds == map[]
      ensures W() == Loaded(g, log, next) && Sane(map[], None, {}) && Rebuilt()
    {
      hide Works;
      hide Rebuilds;
      hide Heard;
      hide Signed;
      hide StoredOk;
      hide Ranked;
      this.d, this.unit, this.oracles, this.caps, this.now, this.actor := d, unit, oracles, caps, now, actor;
      this.stored, this.chart, this.base, this.depth, used := log, chart, g, depth, {};
      tokens, scopes, status, endState, nextId := g.tokens, g.scopes, g.status, g.endState, next;
      events, created, changed, gatewaySteps, asked, rounds, joined := [], {}, {}, 0, 0, map[], [];
      new;
      Loads(chart, unit, g, log, next);
      assert stored + events == log;
      assert W() == Loaded(g, log, next);
      HeardNone(chart.d, unit, oracles, log);
      SignedNone(events, now, actor);
    }

    ghost function Img(): Image reads this { Image(tokens, scopes, status, endState) }

    ghost function W(): Work reads this { Work(Img(), stored + events, nextId, created, changed, gatewaySteps) }

    ghost predicate Sane(pend: Pend, flight: Option<Id>, loose: set<Id>)
      reads this
    {
      chart.d == d && gatewaySteps <= MaxSteps(d, caps) && Works(chart, base, W(), pend, flight, loose)
    }

    /** One gateway step for each gateway passed, and none passed twice. A cap can
        be off only where gateways form no cycle. */
    ghost predicate Metered()
      reads this
    {
      && (caps.Off() ==> Ranked(chart, depth))
      && (Ranked(chart, depth) ==> |used| == gatewaySteps && used <= GatewayIds(d) && Once(events, used))
    }

    /** Only gateways of `room` were passed since `before`. */
    ghost predicate Spent(before: set<string>, room: set<string>) reads this { Ranked(chart, depth) ==>
                                                                              used <= before + room }

    ghost predicate Excused(e: Error) { Excusable(chart, depth, caps, oracles, e) }

    /** The history with the plan rebuilds the working copy, and the engine's
        functions allowed every event of the plan. */
    ghost predicate Rebuilt() reads this { Rebuilds(chart, unit, W()) && Listened() }

    ghost predicate Listened() reads this { Heard(chart.d, unit, oracles, W().log, |stored|, rounds) && Stamped() }

    /** Every planned event carries the call's actor and time. */
    ghost predicate Stamped() reads this`events { Signed(events, 0, now, actor) }

    /** The guards, asked from consultation `k` on about `tok` as it is, let split
        `node` take `taken`. */
    ghost predicate Chose(tok: Id, node: string, k: nat, taken: seq<Transition>)
      reads this
    {
      && tok in Rebuild(chart.d, unit, W().log).tokens
      && SplitTakes(chart.d, oracles, k, SeenAt(chart.d, unit, W().log, |stored|, tok, node), node, taken)
    }

    /** Token `tok` at `node` with the round that created it, if a policy join of
        this call did. */
    ghost function Sight(tok: Id, node: string): Snapshot
      requires tok in tokens
      reads this
    {
      Snapshot(node, tokens[tok], RoundIn(W().log, |stored|, tok))
    }

    /** The guards of decision `node`, asked from consultation `k` on, answered `r`
        when shown `tok` as it is and the round behind it. */
    ghost predicate Answered(tok: Id, node: string, k: nat, r: Result<Transition>)
      reads this
    {
      && tok in tokens
      && match r
         case Ok(tr) => FirstPassing(oracles, k, Sight(tok, node), Routes(d, node), tr)
         case Err(_) => FirstFailing(oracles, k, Sight(tok, node), Routes(d, node))
    }

    /** `tok` is to leave along `tr`, for a reason. */
    ghost predicate Bound(tok: Id, tr: Transition)
      reads this
    {
      Picked(chart.d, unit, oracles, W().log, |stored|, tok, tr)
    }

    function NextSeq(): nat reads this { |stored| + |events| + 1 }

    function Planned(token: Id, scope: Id, from: string, to: string, body: Body): Event
      reads this
    {
      Event(NextSeq(), now, actor, token, scope, from, to, body)
    }

    /** An event about `token` that leaves it where it is. */
    function Note(token: Id, body: Body): Event
      requires token in tokens
      reads this
    {
      Planned(token, tokens[token].scope, tokens[token].node, tokens[token].node, body)
    }

    /** Plans the next event; its sequence number follows the stored ones. */
    method Emit(token: Id, scope: Id, from: string, to: string, body: Body) returns (seqNo: nat)
      modifies this`events
      ensures seqNo == old(NextSeq()) == |old(W().log)| + 1
      ensures events == old(events) + [old(Planned(token, scope, from, to, body))]
      ensures W() == old(W()).(log := old(W().log) + [old(Planned(token, scope, from, to, body))])
      ensures old(Stamped()) ==> Stamped()
    {
      seqNo := NextSeq();
      events := events + [Event(seqNo, now, actor, token, scope, from, to, body)];
    }

    method Touch(id: Id)
      modifies this`changed
      ensures changed == Touched(created, old(changed), id)
    {
      if id !in created { changed := changed + {id}; }
    }

    /** Walks up from scope `x` to the branch of `ancestor` it lies in. */
    method BranchOf(x: Id, ancestor: Id) returns (child: Option<Id>)
      requires ParentsBelow(scopes)
      ensures child == ChildOnPath(scopes, x, ancestor)
    {
      var s := x;
      while s in scopes && scopes[s].status.ScopeOpen? && scopes[s].parent.Some?
        invariant ChildOnPath(scopes, s, ancestor) == ChildOnPath(scopes, x, ancestor)
        decreases s
      {
        if scopes[s].parent.value == ancestor { return Some(s); }
        s := scopes[s].parent.value;
      }
      child := None;
    }

    /** Cancels token `t`, which stays a branch of its scope. */
    method CancelOne(ghost pend: Pend, ghost loose: set<Id>, t: Id, reason: string) returns (seqNo: nat)
      requires Sane(pend, None, loose) && Rebuilt() && t in tokens && tokens[t].status.Live()
      modifies this`tokens, this`events, this`changed
      ensures Sane(pend, None, loose + {old(tokens[t].scope)}) && Rebuilt()
      ensures var e := old(Planned(t, tokens[t].scope, tokens[t].node, tokens[t].node, TokenCancelled(reason)));
        seqNo == e.seqNo && W() == Cancels(old(W()), t, e) && events == old(events) + [e]
      ensures Extends(old(W()), W(), 0)
      ensures Plain(old(events), events)
    {
      hide Works;
      hide Rebuilds;
      hide Heard;
      hide Signed;
      hide Extends;
      ghost var w := W();
      ghost var e := Planned(t, tokens[t].scope, tokens[t].node, tokens[t].node, TokenCancelled(reason));
      WorkCancel(chart, unit, base, w, pend, loose, t, e);
      HeardNote(chart.d, unit, oracles, w.log, |stored|, rounds, e);
      seqNo := Emit(t, tokens[t].scope, tokens[t].node, tokens[t].node, TokenCancelled(reason));
      tokens := EndOne(tokens, t, Cancelled, seqNo, now);
      Touch(t);
    }

    /** The scopes still open inside `s`. */
    method FindNested(s: Id) returns (nested: set<Id>)
      requires ParentsBelow(scopes)
      ensures nested == NestedIn(Img(), s)
    {
      nested := {};
      var todo := scopes.Keys;
      while todo != {}
        invariant todo <= scopes.Keys
        invariant nested == set x | x in scopes && x !in todo && Inside(scopes, x, s)
        decreases |todo|
      {
        var x :| x in todo;
        var child := BranchOf(x, s);
        todo := todo - {x};
        if child.Some? { nested := nested + {x}; }
      }
    }

    /** Cancels the earliest pending token, reporting its branch if it ran a
        nested block no result stands for yet. */
    method CancelEarliest(s: Id, reason: string, nested: set<Id>, pending: set<Id>, reported: set<Id>,
                          rs: seq<BranchResult>, ghost w0: Work, ghost from: nat)
        returns (pending2: set<Id>, reported2: set<Id>, rs2: seq<BranchResult>)
      requires Sane(map[], None, {s} + nested) && Rebuilt() && nested == NestedIn(w0.g, s)
      requires Sweeping(w0.g, W(), s, pending, reported, rs) && Extends(w0, W(), 0) && pending != {}
      requires OldestFirst(w0.g.tokens, tokens, events, from, pending)
      modifies this`tokens, this`events, this`changed
      ensures Sane(map[], None, {s} + nested) && Rebuilt() && pending2 < pending
      ensures Sweeping(w0.g, W(), s, pending2, reported2, rs2) && Extends(w0, W(), 0)
      ensures Plain(old(events), events) && OldestFirst(w0.g.tokens, tokens, events, from, pending2)
    {
      hide Works;
      hide Rebuilds;
      hide Heard;
      hide Signed;
      hide Extends;
      hide OldestFirst;
      hide Sweeping;
      hide NestedIn;
      hide ParentsBelow;
      hide Sound;
      hide ScopesOk;
      hide IdsBelow;
      ghost var w := W();
      SweepKeys(w0.g, w, s, pending, reported, rs);
      Earliest(tokens, pending);
      var t :| t in pending && forall u :: u in pending ==> tokens[t].enteredSeq <= tokens[u].enteredSeq;
      SweepFacts(w0.g, w, s, pending, reported, rs, t);
      ScopeFacts(chart, base, w, map[], None, {s} + nested);
      var child := BranchOf(tokens[t].scope, s);
      ghost var e := Planned(t, tokens[t].scope, tokens[t].node, tokens[t].node, TokenCancelled(reason));
      SweepOne(w0.g, w, s, pending, reported, rs, t, e, child);
      var seqNo := CancelOne(map[], {s} + nested, t, reason);
      OldestNext(w0.g.tokens, w.g.tokens, tokens, old(events), from, pending, t, e);
      ExtendsTrans(w0, w, W(), 0, 0);
      assert {s} + nested + {w.g.tokens[t].scope} == {s} + nested;
      rs2 := if child.Some? && child.value !in reported then rs + [BranchResult(t, Unanswered, seqNo)] else rs;
      reported2 := if child.Some? then reported + {child.value} else reported;
      pending2 := pending - {t};
    }

    /** Cancels what the closing round left pending, oldest token first, and
        reports each branch that ran a nested block once. */
    method CancelPending(s: Id, policy: Policy, nested: set<Id>) returns (rs: seq<BranchResult>)
      requires Sane(map[], None, {s}) && Rebuilt() && s in scopes && nested == NestedIn(Img(), s)
      modifies this`tokens, this`events, this`changed
      ensures Sane(map[], None, {s} + nested) && Rebuilt()
      ensures Sweeping(old(Img()), W(), s, {}, ScopeArms(old(Img()), s), rs) && Extends(old(W()), W(), 0)
      ensures Plain(old(events), events) && OldestFirst(old(tokens), tokens, events, |old(events)|, {})
    {
      hide Works;
      hide Rebuilds;
      hide Heard;
      hide Signed;
      hide Extends;
      hide OldestFirst;
      hide Sweeping;
      hide NestedIn;
      hide PendingIn;
      ghost var w0 := W();
      PendingIs(w0.g, s, nested);
      var pending := set t | t in tokens && ((tokens[t].scope == s && tokens[t].status.Active?)
                                             || (tokens[t].scope in nested && tokens[t].status.Live()));
      assert pending == PendingIn(w0.g, s);
      var seen: set<Id> := {};
      rs := [];
      SweepStarts(w0, s);
      OldestStarts(tokens, events, pending);
      ExtendsRefl(w0);
      MoreLoose(chart, base, w0, map[], None, {s}, {s} + nested);
      while pending != {}
        invariant Sane(map[], None, {s} + nested) && Rebuilt()
        invariant Sweeping(w0.g, W(), s, pending, seen, rs) && Extends(w0, W(), 0) && Plain(old(events), events)
        invariant OldestFirst(w0.g.tokens, tokens, events, |old(events)|, pending)
        decreases |pending|
      {
        ghost var before, ev := pending, events;
        pending, seen, rs := CancelEarliest(s, "join_policy:" + PolicyName(policy), nested, pending, seen, rs, w0,
                                             |old(events)|);
        Smaller(pending, before);
        PlainTrans(old(events), ev, events);
      }
      SweepEnds(chart, base, w0, W(), s, seen, rs);
    }

    /** Adds one result for each token of the closing scope itself: its vote, or
        unanswered when it was cancelled. */
    method CollectOwn(s: Id, rs0: seq<BranchResult>, ghost w0: Work) returns (rs: seq<BranchResult>)
      requires Closing(chart, w0, W(), s, rs0)
      ensures Gathered(W(), s, rs, |rs0| + |TokenArms(w0.g, s)|)
    {
      hide Closing;
      hide Gathering;
      var todo := set t | t in tokens && tokens[t].scope == s && !tokens[t].status.Consumed?;
      assert todo == TokenArms(Img(), s);
      rs := rs0;
      GatherStarts(chart, w0, W(), s, rs0);
      while todo != {}
        invariant Gathering(chart, w0, W(), s, rs0, todo, rs)
        decreases |todo|
      {
        var t :| t in todo;
        GatherOne(chart, w0, W(), s, rs0, todo, rs, t);
        rs := rs + [if tokens[t].status.Waiting? then BranchResult(t, tokens[t].outcome, tokens[t].enteredSeq)
                    else BranchResult(t, Unanswered, tokens[t].endedSeq)];
        todo := todo - {t};
      }
      GatherEnds(chart, w0, W(), s, rs0, rs);
    }

    /** Finishes a round under `policy`: cancels what is pending inside `s` and
        returns one result per branch and the scopes the join must cancel. */
    method CloseBranches(s: Id, policy: Policy) returns (results: seq<BranchResult>, nested: set<Id>)
      requires Sane(map[], None, {s}) && Rebuilt() && s in scopes && scopes[s].status.ScopeOpen?
      requires policy == JoinPolicyOf(chart, Img(), s) && !policy.NoPolicy?
      modifies this`tokens, this`events, this`changed
      ensures nested == NestedIn(old(Img()), s) && Sane(map[], None, {s} + nested) && Rebuilt()
      ensures RoundDone(W(), s, results) && Quiesced(Img(), s) && Tallied(old(Img()), s, results)
      ensures Arrived(Img(), s) == Arrived(old(Img()), s) && scopes == old(scopes) && status == old(status)
      ensures Extends(old(W()), W(), 0)
      ensures Plain(old(events), events) && OldestFirst(old(tokens), tokens, events, |old(events)|, {})
    {
      hide OldestFirst;
      hide Works;
      hide Rebuilds;
      hide Heard;
      hide Signed;
      hide Extends;
      hide Sweeping;
      hide NestedIn;
      hide Closing;
      hide Quiesced;
      hide Sound;
      hide ScopesOk;
      hide IdsBelow;
      hide ParentsBelow;
      ghost var w0 := W();
      ScopeFacts(chart, base, w0, map[], None, {s});
      nested := FindNested(s);
      var rs := CancelPending(s, policy, nested);
      QuiescedAfter(chart, base, w0, W(), s, rs);
      CloseStarts(chart, base, w0, W(), s, {s} + nested, rs);
      ghost var n := |rs|;
      SweepCount(w0.g, W(), s, rs);
      rs := CollectOwn(s, rs, w0);
      RoundCounts(chart, base, w0, s);
      DistinctSeqs(W().log, rs, scopes[s].joinNode);
      results := SortResults(rs);
      SortedNames(W().log, rs, results, scopes[s].joinNode);
      SortedTokens(rs, results);
      TallySorted(w0.g, s, rs, results);
    }

    /** Moves `tok` onto a node it does not rest on. */
    method HopTo(ghost pend: Pend, tok: Id, tr: Transition, comment: string, next: Node)
      requires Sane(pend, Some(tok), {}) && Follows(d, unit, W().log, Img(), tok) && Leaves(chart, Img(), tok, tr)
      requires tok in tokens && next == NodeOf(d, tr.to) && !Rests(d, tr.to)
      requires Listened() && Bound(tok, tr) && Speaks(d, tr, comment)
      modifies this`tokens, this`events, this`changed
      ensures Sane(pend, Some(tok), {}) && Rebuilt() && Extends(old(W()), W(), 0)
      ensures events == old(events) + [old(Planned(tok, tokens[tok].scope, tokens[tok].node, tr.to,
                                                   Moved(tr.action, comment, None, "")))]
      ensures tok in tokens && Kept(old(tokens), tokens, tok)
      ensures JustMoved(chart, W(), tok, tr) && tokens[tok].scope in scopes && scopes == old(scopes)
      ensures Fits(chart, scopes[tokens[tok].scope], tr) || Strays(chart, scopes[tokens[tok].scope], tr)
      ensures Plain(old(events), events)
    {
      hide Picked;
      hide Works;
      hide Rebuilds;
      hide Heard;
      hide Signed;
      hide Extends;
      hide Follows;
      hide CanMove;
      hide Sound;
      ghost var w := W();
      ghost var e := Planned(tok, tokens[tok].scope, tokens[tok].node, tr.to, Moved(tr.action, comment, None, ""));
      SoundFacts(chart, base, w, pend, Some(tok), {});
      TakenFacts(chart, w.g, tok, tr);
      InFlight(chart, base, w, pend, tok);
      MoveOf(chart, w.g, tok, tr, e);
      WorkMove(chart, unit, base, w, pend, tok, e);
      LeavesFacts(chart, w.g, tok, tr);
      MovedFacts(chart, unit, w, e, tr);
      HeardMove(chart.d, unit, oracles, w.log, |stored|, rounds, e, tr);
      hide JustMoved;
      var seqNo := Emit(tok, tokens[tok].scope, tokens[tok].node, next.id, Moved(tr.action, comment, None, ""));
      tokens := tokens[tok := tokens[tok].(
        node := next.id, enteredSeq := seqNo, enteredAt := now,
        assignedTo := "", deadlineAt := None, expired := None, eligible := NO_ELIGIBILITY)];
      Touch(tok);
    }

    /** Records an event that leaves every token where it is. */
    method Annotate(ghost pend: Pend, token: Id, to: Token, body: Body)
      requires Sane(pend, None, {}) && Rebuilt() && token in tokens
      requires var e := Note(token, body);
        Annotates(e) && Apply(d, unit, Img(), e) == Img().(tokens := tokens[token := to])
      modifies this`tokens, this`events, this`changed
      ensures Sane(pend, None, {}) && Rebuilt() && Extends(old(W()), W(), 0)
      ensures tokens == old(tokens)[token := to]
      ensures events == old(events) + [old(Note(token, body))]
      ensures Plain(old(events), events)
    {
      hide Works;
      hide Rebuilds;
      hide Heard;
      hide Signed;
      hide Extends;
      hide Apply;
      ghost var w := W();
      ghost var e := Note(token, body);
      WorkAnnotate(chart, unit, base, w, pend, e);
      HeardNote(chart.d, unit, oracles, w.log, |stored|, rounds, e);
      var seqNo := Emit(token, tokens[token].scope, tokens[token].node, tokens[token].node, body);
      tokens := tokens[token := to];
      Touch(token);
    }

    /** Asks who a token resting on `n` goes to, and assigns it to the person the
        answer names. */
    method ApplyAssignRule(ghost pend: Pend, tok: Id, n: Node) returns (err: Option<Error>)
      requires Sane(pend, None, {}) && Rebuilt() && tok in tokens
      modifies this`tokens, this`events, this`changed, this`asked
      ensures err.Some? ==> err.value.AssigneeFailed? && Blamed(oracles, err.value)
      ensures err.None? ==> Sane(pend, None, {}) && Rebuilt() && Extends(old(W()), W(), 0)
      ensures err.None? && n.assignRule == "" ==> tokens == old(tokens) && events == old(events)
      ensures err.None? && n.assignRule != "" ==>
        var to := oracles.assignee(old(asked), n.assignRule, old(tokens[tok]), old(W().log));
        && to.Some? && tokens ==
          (if to.value == "" then old(tokens) else old(tokens)[tok := old(tokens[tok]).(assignedTo := to.value)])
        && |events| == |old(events)| + (if to.value == "" then 0 else 1)
        && (to.value != "" ==> events[|old(events)|].body == Assigned("", to.value, "assign_rule:" + n.assignRule))
      ensures err.None? ==> Plain(old(events), events)
    {
      hide Works;
      hide Rebuilds;
      hide Heard;
      hide Signed;
      hide Extends;
      ExtendsRefl(W());
      if n.assignRule == "" { return None; }
      var to := oracles.assignee(asked, n.assignRule, tokens[tok], stored + events);
      asked := asked + 1;
      if to.None? { return Some(AssigneeFailed); }
      if to.value == "" { return None; }
      Annotate(pend, tok, tokens[tok].(assignedTo := to.value), Assigned("", to.value, "assign_rule:" + n.assignRule));
      return None;
    }

    /** Token `k` as its deadline rule sees it on entering `next`. */
    function Entering(k: Token, next: Node, seqNo: nat): Token {
      k.(node := next.id, status := Active, eligible := ResolvedEligibility(next, unit), assignedTo := "",
         deadlineAt := None, expired := None, enteredSeq := seqNo, enteredAt := now)
    }

    /** `tok` comes to rest on task `next` with its eligibility and deadline; the
        hop that led there records the deadline. */
    method EnterTask(ghost pend: Pend, tok: Id, tr: Transition, comment: string, next: Node)
        returns (err: Option<Error>)
      requires Sane(pend, Some(tok), {}) && Follows(d, unit, W().log, Img(), tok) && Leaves(chart, Img(), tok, tr)
      requires next == NodeOf(d, tr.to) && Rests(d, tr.to)
      requires Listened() && Bound(tok, tr) && Speaks(d, tr, comment)
      modifies this`tokens, this`events, this`changed, this`asked
      ensures err.Some? ==> err.value.DeadlineFailed? && Blamed(oracles, err.value)
      ensures err.None? ==> |events| == |old(events)| + 1 && FirstHop(events[|old(events)|], tok, tr, comment)
      ensures err.None? ==> W() == MovesWork(chart, unit, old(W()), events[|old(events)|])
      ensures DueFor(oracles, old(asked), next, now, old(Entering(tokens[tok], next, NextSeq()))) ==
        if err.Some? then Err(err.value) else Ok(events[|old(events)|].body.deadline)
      ensures err.None? ==> Sane(pend, None, {}) && Rebuilt() && Extends(old(W()), W(), 0) && tok in tokens
      ensures err.None? ==> Plain(old(events), events)
    {
      hide Picked;
      hide Blamed;
      hide DueFor;
      hide DeadlineFits;
      hide Works;
      hide Rebuilds;
      hide Heard;
      hide Signed;
      hide Extends;
      hide Follows;
      hide CanMove;
      hide Sound;
      ghost var w := W();
      SoundFacts(chart, base, w, pend, Some(tok), {});
      TakenFacts(chart, w.g, tok, tr);
      InFlight(chart, base, w, pend, tok);
      hide EdgeSound;
      hide NodeSound;
      var hop := |events|;
      var seqNo := Emit(tok, tokens[tok].scope, tokens[tok].node, next.id, Moved(tr.action, comment, None, ""));
      tokens := tokens[tok := tokens[tok].(
        node := next.id, enteredSeq := seqNo, enteredAt := now,
        assignedTo := "", deadlineAt := None, expired := None, eligible := NO_ELIGIBILITY)];
      Touch(tok);
      tokens := tokens[tok := tokens[tok].(status := Active, eligible := ResolvedEligibility(next, unit))];
      var due := DueFor(oracles, asked, next, now, tokens[tok]);
      asked := asked + 1;
      if due.Err? { return Some(due.error); }
      tokens := tokens[tok := tokens[tok].(deadlineAt := due.value)];
      ghost var e := events[hop].(body := events[hop].body.(deadline := due.value));
      SignedStill(events, 0, now, actor, hop, e);
      events := events[hop := events[hop].(body := events[hop].body.(deadline := due.value))];
      MoveOf(chart, w.g, tok, tr, e);
      LeavesFacts(chart, w.g, tok, tr);
      DueFits(oracles, old(asked), next, now, old(Entering(tokens[tok], next, NextSeq())));
      HeardMove(chart.d, unit, oracles, w.log, |stored|, rounds, e, tr);
      hide Leaves;
      WorkMove(chart, unit, base, w, pend, tok, e);
      assert stored + events == w.log + [e];
      assert W() == MovesWork(chart, unit, w, e);
      RestsThere(chart, base, W(), pend, tok);
      return None;
    }

    method RestAt(ghost pend: Pend, tok: Id, tr: Transition, comment: string, next: Node) returns (err: Option<Error>)
      requires Sane(pend, Some(tok), {}) && Follows(d, unit, W().log, Img(), tok) && Leaves(chart, Img(), tok, tr)
      requires next == NodeOf(d, tr.to) && Rests(d, tr.to)
      requires Listened() && Bound(tok, tr) && Speaks(d, tr, comment)
      modifies this`tokens, this`events, this`changed, this`asked
      ensures err.Some? ==> (err.value.AssigneeFailed? || err.value.DeadlineFailed?) && Blamed(oracles, err.value)
      ensures err.None? ==> Sane(pend, None, {}) && Rebuilt() && Extends(old(W()), W(), 0)
      ensures err.None? ==> |events| > |old(events)| && FirstHop(events[|old(events)|], tok, tr, comment)
      ensures err.None? ==> Plain(old(events), events)
      ensures err.None? ==> Rested(old(tokens), tokens, tok, tr.to)
      ensures err.None? ==> AssigneeFits(oracles, next, tokens[tok].assignedTo)
    {
      hide Picked;
      hide Works;
      hide Rebuilds;
      hide Heard;
      hide Signed;
      hide Extends;
      hide Follows;
      hide Leaves;
      ghost var w, hop := W(), |events|;
      err := EnterTask(pend, tok, tr, comment, next);
      if err.Some? { return; }
      MovesRest(chart, unit, w, events[hop]);
      ghost var w2, ev2 := W(), events;
      err := ApplyAssignRule(pend, tok, next);
      if err.None? {
        PlainTrans(old(events), ev2, events);
        ExtendsTrans(w, w2, W(), 0, 0);
        LogPrefix(w2, W(), 0);
        EventsKept(stored, ev2, events, hop);
      }
    }

    /** Consumes `tok` on terminal node `node`, closing the root scope and the
        case. */
    method CloseCase(ghost pend: Pend, tok: Id, node: Node, action: string) returns (err: Option<Error>)
      requires Sane(pend, Some(tok), {}) && Rebuilt() && tok in tokens && tokens[tok].node == node.id
      requires tokens[tok].scope == ROOT ==> chart.root == ""
      modifies this`tokens, this`scopes, this`status, this`endState, this`events, this`changed
      ensures err == if old(tokens[tok].scope) != ROOT then Some(TerminalInsideBlock) else None
      ensures err.None? ==> Sane(pend, None, {}) && Rebuilt() && Extends(old(W()), W(), 0)
      ensures err.None? ==> status == CaseClosed && endState == node.id
      ensures err.None? ==> events == old(events) + [old(Planned(tok, ROOT, node.id, node.id, CaseClosedEvent(action)))]
      ensures err.None? ==> Plain(old(events), events)
    {
      hide Works;
      hide Rebuilds;
      hide Heard;
      hide Signed;
      hide Extends;
      if tokens[tok].scope != ROOT { return Some(TerminalInsideBlock); }
      ghost var w := W();
      InFlight(chart, base, w, pend, tok);
      ghost var e := Planned(tok, ROOT, node.id, node.id, CaseClosedEvent(action));
      WorkClose(chart, unit, base, w, pend, tok, e);
      HeardNote(chart.d, unit, oracles, w.log, |stored|, rounds, e);
      var seqNo := Emit(tok, ROOT, node.id, node.id, CaseClosedEvent(action));
      tokens := EndOne(tokens, tok, Consumed, seqNo, now);
      Touch(tok);
      scopes := scopes[ROOT := CloseScope(scopes[ROOT], ScopeClosed, seqNo)];
      Touch(ROOT);
      status, endState := CaseClosed, node.id;
      assert changed == TouchedAll(w.created, w.changed, {tok, ROOT});
      return None;
    }

    /** Ends each token of `ids`. */
    method EndEach(ids: set<Id>, seqNo: nat)
      requires ids <= tokens.Keys
      modifies this`tokens, this`changed
      ensures tokens == EndAll(old(tokens), ids, Consumed, seqNo, now)
      ensures changed == TouchedAll(created, old(changed), ids)
    {
      var todo := ids;
      while todo != {}
        invariant todo <= ids && tokens.Keys == old(tokens).Keys
        invariant tokens == EndAll(old(tokens), ids - todo, Consumed, seqNo, now)
        invariant changed == TouchedAll(created, old(changed), ids - todo)
        decreases |todo|
      {
        var t :| t in todo;
        tokens := tokens[t := Ended(tokens[t], Consumed, seqNo, now)];
        Touch(t);
        todo := todo - {t};
      }
    }

    /** Cancels each scope of `ids`. */
    method CancelEach(ids: set<Id>, seqNo: nat)
      requires ids <= scopes.Keys
      modifies this`scopes, this`changed
      ensures scopes == CancelScopes(old(scopes), ids, seqNo) && scopes.Keys == old(scopes).Keys
      ensures changed == TouchedAll(created, old(changed), ids)
    {
      var todo := ids;
      while todo != {}
        invariant todo <= ids && scopes.Keys == old(scopes).Keys
        invariant scopes == CancelScopes(old(scopes), ids - todo, seqNo)
        invariant changed == TouchedAll(created, old(changed), ids - todo)
        decreases |todo|
      {
        var s :| s in todo;
        scopes := scopes[s := CloseScope(scopes[s], ScopeCancelled, seqNo)];
        Touch(s);
        todo := todo - {s};
      }
    }

    /** Consumes the waiting tokens and closes the scope with what was open
        inside it. */
    method EndRound(next: Id, s: Id, join: string, waiting: set<Id>, nested: set<Id>, body: Body)
      requires s in scopes && waiting <= tokens.Keys && nested <= scopes.Keys && s !in nested
      modifies this`events, this`tokens, this`scopes, this`changed
      ensures events == old(events) + [old(Planned(next, s, join, join, body))]
      ensures tokens == EndAll(old(tokens), waiting, Consumed, old(NextSeq()), now)
      ensures scopes == CancelScopes(old(scopes), nested,
                                     old(NextSeq()))[s := CloseScope(old(scopes[s]), ScopeJoined, old(NextSeq()))]
      ensures changed == TouchedAll(created, old(changed), waiting + (nested + {s}))
      ensures old(Stamped()) ==> Stamped()
    {
      hide EndAll;
      hide CancelScopes;
      hide Signed;
      hide W;
      var scope := scopes[s];
      var seqNo := Emit(next, s, join, join, body);
      EndEach(waiting, seqNo);
      CancelEach(nested, seqNo);
      scopes := scopes[s := CloseScope(scope, ScopeJoined, seqNo)];
      Touch(s);
      TouchedIs(created, old(changed), waiting, nested, s);
    }

    /** Ends the round and creates the token that continues in the parent scope,
        unless a check refuses the join. */
    method ApplyJoin(s: Id, parent: Id, policy: Policy, verdict: Outcome, waiting: set<Id>, join: Node,
                     results: seq<BranchResult>, nested: set<Id>)
        returns (err: Option<Error>)
      requires s in scopes && waiting <= tokens.Keys && nested <= scopes.Keys && s !in nested
      modifies this`events, this`tokens, this`scopes, this`changed, this`created, this`nextId, this`asked
      modifies this`rounds, this`joined
      ensures err.Some? ==> Blamed(oracles, err.value)
      ensures events == old(events) + [old(Planned(nextId, s, join.id, join.id,
                                                   Joined(s, waiting, policy, verdict, results)))]
      ensures scopes == CancelScopes(old(scopes), nested,
                                     old(NextSeq()))[s := CloseScope(old(scopes[s]), ScopeJoined, old(NextSeq()))]
      ensures err == if oracles.joinCheck(old(asked), JoinRecord(s, scopes[s], waiting, verdict, results)) then None
                     else Some(JoinRefused)
      ensures nextId == old(nextId) + 1 && changed == TouchedAll(old(created), old(changed), waiting + (nested + {s}))
      ensures err.None? ==>
        tokens == EndAll(old(tokens), waiting, Consumed, old(NextSeq()), now)[old(nextId) := Newborn(parent, join.id)]
      ensures err.None? ==> created == old(created) + {old(nextId)}
      ensures err.None? ==> joined == old(joined) + [JoinRecord(s, scopes[s], waiting, verdict, results)]
      ensures err.None? ==>
        rounds == if policy.NoPolicy? then old(rounds) else old(rounds)[old(nextId) := Round(s, policy, verdict,
                                                                                             results)]
      ensures err.None? ==> Gated(old(events), events, join.id)
      ensures old(Stamped()) ==> Stamped()
    {
      hide EndAll;
      hide CancelScopes;
      hide Signed;
      hide TouchedAll;
      hide CloseScope;
      var next := nextId;
      nextId := nextId + 1;
      EndRound(next, s, join.id, waiting, nested, Joined(s, waiting, policy, verdict, results));
      var rec := JoinRecord(s, scopes[s], waiting, verdict, results);
      var agreed := oracles.joinCheck(asked, rec);
      asked := asked + 1;
      err := Some(JoinRefused);
      if agreed {
        joined := joined + [rec];
        tokens := tokens[next := Newborn(parent, join.id)];
        created := created + {next};
        if !policy.NoPolicy? { rounds := rounds[next := Round(s, policy, verdict, results)]; }
        err := None;
      }
    }

    /** A join commits: the case stays sane with the new token in flight. */
    method CommitJoin(ghost pend: Pend, ghost loose: set<Id>, s: Id, parent: Id, policy: Policy, verdict: Outcome,
                      waiting: set<Id>, join: Node, results: seq<BranchResult>, nested: set<Id>)
        returns (err: Option<Error>, next: Id)
      requires Sane(pend, None, loose) && Rebuilt() && CanJoin(Img(), pend, loose, s, parent, waiting, nextId)
      requires s in scopes && nested == NestedIn(Img(), s) && waiting <= tokens.Keys
      requires policy == JoinPolicyOf(chart, Img(), s) && (policy.NoPolicy? ==> verdict.NoOutcome? && results == [])
      requires !policy.NoPolicy? ==> RoundDone(W(), s, results) && verdict == VerdictOf(policy, results)
      requires !Rests(d, join.id) && Within(chart, Img(), parent, join.id)
      modifies this`events, this`tokens, this`scopes, this`changed, this`created, this`nextId, this`asked
      modifies this`rounds, this`joined
      ensures err.Some? ==> err.value.JoinRefused? && Blamed(oracles, err.value)
      ensures err.None? ==> Sane(pend, Some(next), {}) && Rebuilt() && gatewaySteps == old(gatewaySteps)
      ensures err.None? ==> next in tokens && tokens[next] == Newborn(parent, join.id)
      ensures err.None? ==> Within(chart, Img(), parent, join.id)
      ensures err.None? ==> Extends(old(W()), W(), if policy.NoPolicy? then 0 else 1)
      ensures err.None? ==> Gated(old(events), events, join.id)
    {
      hide Works;
      hide Rebuilds;
      hide Heard;
      hide Signed;
      hide Extends;
      hide CanJoin;
      hide NestedIn;
      hide RoundDone;
      hide RoundOk;
      ghost var w := W();
      next := nextId;
      ghost var e := Planned(next, s, join.id, join.id, Joined(s, waiting, policy, verdict, results));
      if !policy.NoPolicy? { RoundLogged(chart, w, s, e); }
      WorkJoin(chart, unit, base, w, pend, loose, s, parent, e);
      ScopesClosed(chart, base, w, pend, loose, s, nested, e.seqNo);
      JoinKeeps(chart, w, s, parent, e);
      hide Within;
      hide CancelScopes;
      hide JoinScopes;
      hide ClosedBy;
      hide EndAll;
      hide TouchedAll;
      err := ApplyJoin(s, parent, policy, verdict, waiting, join, results, nested);
      if err.None? {
        assert stored + events == w.log + [e];
        assert W() == JoinsWork(w, s, parent, e);
        RebuildsIs(chart, unit, W());
        HeardJoin(chart.d, unit, oracles, w.log, |stored|, old(rounds), e, old(asked), Img());
      }
    }

    /** Cancels what a policy left pending and commits the join of `s`. */
    method FireJoin(ghost pend: Pend, s: Id, policy: Policy, verdict: Outcome, waiting: set<Id>, join: Node)
        returns (err: Option<Error>, next: Id)
      requires Sane(pend, None, {s}) && Rebuilt() && s in scopes && scopes[s].status.ScopeOpen?
      requires policy == JoinPolicyOf(chart, Img(), s) && waiting == Arrived(Img(), s) && join.id == scopes[s].joinNode
      requires RulingAt(chart, Img(), s) == Closed(verdict)
      requires policy.NoPolicy? ==> waiting != {} && |Arrived(Img(), s)| + |Gone(Img(), s)| == scopes[s].expected
      requires !policy.NoPolicy? ==> pend == map[]
      modifies this`events, this`tokens, this`scopes, this`changed, this`created, this`nextId, this`asked
      modifies this`rounds, this`joined
      ensures err.Some? ==> err.value.JoinRefused? && Blamed(oracles, err.value)
      ensures err.None? ==> Sane(pend, Some(next), {}) && Rebuilt() && gatewaySteps == old(gatewaySteps)
      ensures err.None? ==> old(scopes[s].parent.Some?) && next in tokens
      ensures err.None? ==> tokens[next].scope == old(scopes[s].parent.value)
      ensures err.None? ==> next in tokens && tokens[next].node == join.id
      ensures err.None? ==> Within(chart, Img(), tokens[next].scope, join.id)
      ensures err.None? ==> Extends(old(W()), W(), if policy.NoPolicy? then 0 else 1)
      ensures err.None? ==> Gated(old(events), events, join.id)
    {
      hide Works;
      hide Rebuilds;
      hide Heard;
      hide Signed;
      hide Extends;
      hide CanJoin;
      hide NestedIn;
      hide RoundDone;
      hide Quiesced;
      ghost var w := W();
      NotRoot(chart, base, w, pend, {s}, s);
      var parent := scopes[s].parent.value;
      if policy.NoPolicy? {
        CanJoinPlain(chart, base, w, pend, s, parent);
        err, next := CommitJoin(pend, {s}, s, parent, policy, verdict, waiting, join, [], {});
      } else {
        var results, nested := CloseBranches(s, policy);
        ghost var w1 := W();
        SameNested(w.g, w1.g, s);
        CanJoinPolicy(chart, base, w1, s, parent, nested);
        VerdictFits(chart, w.g, s, results, verdict);
        err, next := CommitJoin(map[], {s} + nested, s, parent, policy, verdict, waiting, join, results, nested);
        if err.None? { ExtendsTrans(w, w1, W(), 0, 1); }
      }
    }

    /** `join` is the join of the scope `tok` is in. */
    ghost predicate Owns(tok: Id, join: string)
      requires tok in tokens
      reads this
    {
      tokens[tok].scope in scopes && scopes[tokens[tok].scope].joinNode == join
    }

    /** What a guard sees of `tok` at `node`. */
    function SnapshotAt(tok: Id, node: string): Snapshot
      requires tok in tokens
      reads this
    {
      Snapshot(node, tokens[tok], if tok in rounds then Some(rounds[tok]) else None)
    }

    /** Counts one split or join, `node`, against the cap. */
    method GatewayStep(ghost pend: Pend, ghost flight: Option<Id>, ghost loose: set<Id>, ghost node: string)
        returns (err: Option<Error>)
      requires Sane(pend, flight, loose) && Rebuilt() && Metered()
      requires Ranked(chart, depth) ==> node in GatewayIds(d) && node !in used
      modifies this`gatewaySteps, this`used
      ensures err == if caps.steps.Some? && old(gatewaySteps) >= caps.steps.value then Some(TooManyGateways) else None
      ensures err.Some? ==> Excused(err.value)
      ensures err.None? ==> Sane(pend, flight, loose) && Rebuilt() && gatewaySteps == old(gatewaySteps) + 1
      ensures err.None? ==> Extends(old(W()), W(), 0) && Metered() && used == old(used) + {node}
      ensures Ranked(chart, depth) ==> Once(events, old(used))
    {
      hide Works;
      hide Rebuilds;
      hide Heard;
      hide Signed;
      hide Extends;
      hide Ranked;
      Stepped(chart, unit, base, W(), pend, flight, loose, gatewaySteps + 1);
      if Ranked(chart, depth) { OneMore(used, node, GatewayIds(d)); }
      assert Ranked(chart, depth) ==> Once(events, used) && Once(events, used + {node});
      gatewaySteps := gatewaySteps + 1;
      used := used + {node};
      return if caps.steps.Some? && gatewaySteps > caps.steps.value then Some(TooManyGateways) else None;
    }

    /** Fires the join of `s` when its tokens call for it, and routes the token it
        creates. A policy closes at most one round, and never while a split is
        still emitting its branches. */
    method TryJoin(ghost pend: Pend, s: Id, ghost room: set<string>) returns (err: Option<Error>)
      requires Sane(pend, None, {s}) && Rebuilt() && s in scopes
      requires scopes[s].status.ScopeOpen? ==> Alive(Img(), pend, s)
      requires !JoinPolicyOf(chart, Img(), s).NoPolicy? ==> pend == map[]
      requires Metered() && Roomy(chart, depth, Img(), pend, s, scopes[s].joinNode, used, room)
      modifies this
      decreases MaxSteps(d, caps) - gatewaySteps, 1
      ensures err.Some? ==> Excused(err.value)
      ensures err.None? ==> Sane(pend, None, {}) && Rebuilt() && Metered() && Spent(old(used), room)
      ensures err.None? ==> Extends(old(W()), W(), if old(JoinPolicyOf(chart, Img(), s)).NoPolicy? then 0 else 1)
    {
      hide Works;
      hide Once;
      hide Rebuilds;
      hide Heard;
      hide Signed;
      hide Extends;
      hide Alive;
      hide Ranked;
      hide Roomy;
      ghost var w := W();
      ExtendsRefl(w);
      ExtendsMore(w, w, 0, 1);
      err := None;
      if !scopes[s].status.ScopeOpen? {
        ClosedIsCalm(chart, base, w, pend, s);
      } else {
        var policy := NodeOf(d, scopes[s].joinNode).policy;
        if !policy.NoPolicy? { VotesReadable(chart, base, w, pend, {s}, s); }
        var n, bad := CountRound(Image(tokens, scopes, status, endState), s, policy);
        if bad.Some? {
          err := Some(UnreadableVote);
        } else {
          var ruling := if policy.NoPolicy?
            then (if n.waiting == {} ||
                  |n.waiting| + n.cancelled != scopes[s].expected then Open else Closed(NoOutcome))
            else Closes(policy, Tally(n.approved, n.rejected, n.cancelled, scopes[s].expected));
          assert ruling == RulingAt(chart, w.g, s);
          match ruling
          case Open => WorkSettle(chart, base, w, pend, s);
          case Closed(verdict) =>
            DueIsEmitted(chart, base, w, pend, {s}, s);
            err := JoinAndRoute(pend, s, policy, verdict, n.waiting, room);
        }
      }
    }

    /** Fires the join of `s`, which is due, and routes on. */
    method JoinAndRoute(ghost pend: Pend, s: Id, policy: Policy, verdict: Outcome, waiting: set<Id>,
                        ghost room: set<string>) returns (err: Option<Error>)
      requires Sane(pend, None, {s}) && Rebuilt() && s in scopes && scopes[s].status.ScopeOpen?
      requires policy == JoinPolicyOf(chart, Img(), s) && waiting == Arrived(Img(), s)
      requires RulingAt(chart, Img(), s) == Closed(verdict)
      requires policy.NoPolicy? ==> waiting != {} && |Arrived(Img(), s)| + |Gone(Img(), s)| == scopes[s].expected
      requires !policy.NoPolicy? ==> pend == map[]
      requires Metered() && Pending(pend, s) == 0 && Roomy(chart, depth, Img(), pend, s, scopes[s].joinNode, used, room)
      modifies this
      decreases MaxSteps(d, caps) - gatewaySteps, 0
      ensures err.Some? ==> Excused(err.value)
      ensures err.None? ==> Sane(pend, None, {}) && Rebuilt() && Metered() && Spent(old(used), room)
      ensures err.None? ==> Extends(old(W()), W(), if policy.NoPolicy? then 0 else 1)
    {
      hide Blamed;
      hide RulingAt;
      hide Works;
      hide Once;
      hide Gated;
      hide Rebuilds;
      hide Heard;
      hide Signed;
      hide Extends;
      hide Follows;
      hide Leaves;
      hide Ranked;
      hide Roomy;
      hide LongChain;
      hide GatewayIds;
      hide Within;
      hide Arrived;
      hide Gone;
      hide JoinPolicyOf;
      ghost var w, used0 := W(), used;
      NotRoot(chart, base, w, pend, {s}, s);
      var joinNode := scopes[s].joinNode;
      RoomyJoin(chart, depth, base, w, pend, {s}, s, used, room);
      err := GatewayStep(pend, None, {s}, joinNode);
      if err.None? {
        ghost var w1, ev0 := W(), events;
        var out := Routes(d, joinNode);
        if !Has(d, joinNode) {
          err := Some(UnknownJoin);
        } else if |out| != 1 {
          err := Some(JoinArity);
        } else {
          var next;
          err, next := FireJoin(pend, s, policy, verdict, waiting, NodeOf(d, joinNode));
          if err.None? {
            ghost var w2 := W();
            if Ranked(chart, depth) { GatedOnce(ev0, events, joinNode, used0); }
            assert out[0] in out;
            ExtendsTrans(w, w1, w2, 0, if policy.NoPolicy? then 0 else 1);
            RoomyBeyond(chart, depth, base, w, w2, pend, {s}, if policy.NoPolicy? then 0 else 1, s, out[0], used0,
                        room);
            err := RouteOn(pend, next, out[0], w, if policy.NoPolicy? then 0 else 1, used0, room);
          }
        }
      }
    }

    /** Routes the token a join has just created out of it. */
    method RouteOn(ghost pend: Pend, tok: Id, tr: Transition, ghost w: Work, ghost n: nat, ghost before: set<string>,
                   ghost room: set<string>)
        returns (err: Option<Error>)
      requires Sane(pend, Some(tok), {}) && Rebuilt() && tok in tokens && tokens[tok].node == tr.from
      requires IsJoinNode(d, tr.from) && tr in d.transitions && Within(chart, Img(), tokens[tok].scope, tr.from)
      requires Extends(w, W(), n) && Metered() && used == before + {tr.from}
      requires (Ranked(chart, depth) ==> tr.from in room)
      requires Roomy(chart, depth, Img(), pend, tokens[tok].scope, tr.to, used, room - {tr.from})
      modifies this
      decreases MaxSteps(d, caps) - gatewaySteps, 8
      ensures err.Some? ==> Excused(err.value)
      ensures err.None? ==> Sane(pend, None, {}) && Rebuilt() && Metered() && Spent(before, room) && Extends(w, W(), n)
    {
      hide Works;
      hide Once;
      hide Rebuilds;
      hide Picked;
      hide Heard;
      hide Signed;
      hide Extends;
      hide Follows;
      hide Leaves;
      hide Ranked;
      hide Roomy;
      hide LongChain;
      hide GatewayIds;
      hide Within;
      ghost var w2 := W();
      LeavesOn(chart, base, w2, pend, tok, tr);
      ExactFollows(chart, unit, w2, tok);
      BoundFree(chart.d, unit, oracles, w2.log, |stored|, tok, tr);
      err := Route(pend, tok, tr, "", room - {tr.from});
      if err.None? { ExtendsTrans(w, w2, W(), n, 0); }
    }

    /** Parks `tok` at its scope's join and fires the join when it completes. */
    method Arrive(ghost pend: Pend, tok: Id, join: Node, outcome: Outcome, ghost via: Transition,
                  ghost room: set<string>) returns (err: Option<Error>)
      requires Sane(pend, Some(tok), {}) && Rebuilt() && JustMoved(chart, W(), tok, via) && via.to == join.id
      requires via.outcome == outcome
      requires IsJoinNode(d, join.id) && (!IsPolicyJoin(d, join.id) || outcome.Approved? || outcome.Rejected?)
      requires IsPolicyJoin(d, join.id) ==> pend == map[]
      requires Metered() && Roomy(chart, depth, Img(), pend, tokens[tok].scope, join.id, used, room)
      modifies this
      decreases MaxSteps(d, caps) - gatewaySteps, 2
      ensures err.Some? && old(Owns(tok, join.id)) ==> Excused(err.value)
      ensures !old(Owns(tok, join.id)) ==> err == Some(OutsideBlock)
      ensures err.None? ==> Sane(pend, None, {}) && Rebuilt() && Metered() && Spent(old(used), room)
      ensures err.None? ==> Extends(old(W()), W(), if IsPolicyJoin(d, join.id) then 1 else 0)
    {
      hide Works;
      hide Once;
      hide Rebuilds;
      hide Heard;
      hide Signed;
      hide Extends;
      hide Alive;
      hide Ranked;
      hide Roomy;
      ghost var w := W();
      InFlight(chart, base, w, pend, tok);
      var s := tokens[tok].scope;
      if s !in scopes || scopes[s].joinNode != join.id {
        err := Some(OutsideBlock);
      } else {
        ghost var e := Planned(tok, s, join.id, join.id, WaitingAtJoin(outcome));
        ReadyToArrive(chart, base, w, pend, tok, via, outcome, e);
        WorkArrive(chart, unit, base, w, pend, tok, e);
        ArrivedAlive(w, pend, tok, e);
        HeardNote(chart.d, unit, oracles, w.log, |stored|, rounds, e);
        hide ArrivesAt;
        tokens := tokens[tok := tokens[tok].(status := Waiting, outcome := outcome)];
        var _ := Emit(tok, s, join.id, join.id, WaitingAtJoin(outcome));
        ghost var w1 := W();
        assert w1 == Arrives(w, tok, e);
        if Ranked(chart, depth) { PlainOnce(old(events), events, used); }
        RoomyKept(chart, depth, base, w, w1, pend, Some(tok), {}, 0, s, join.id, used, room);
        err := TryJoin(pend, s, room);
        if err.None? { ExtendsTrans(w, w1, W(), 0, if IsPolicyJoin(d, join.id) then 1 else 0); }
      }
    }

    /** Consumes `tok` at split `node` and opens a scope for `n` branches, whose
        identifiers follow the scope's. */
    method OpenScope(ghost pend: Pend, tok: Id, node: Node, n: nat) returns (child: Id)
      requires Sane(pend, Some(tok), {}) && Rebuilt() && tok in tokens && tokens[tok].node == node.id
      requires Fans(d, node.id, n)
      requires IsSplitNode(d, node.id) && node == NodeOf(d, node.id) && Within(chart, Img(), tokens[tok].scope, node.id)
      modifies this`tokens, this`scopes, this`events, this`created, this`changed, this`nextId
      ensures child !in pend && child == old(nextId) && Sane(pend[child := n], None, {}) && Rebuilt()
      ensures Extends(old(W()), W(), 0) && Stands(chart, Img(), child, old(tokens[tok].scope), node.id)
      ensures forall b :: child < b <= child + n ==> Reserved(base, W(), b)
      ensures events == old(events) + [old(Planned(tok, tokens[tok].scope, node.id, node.id,
                                                   SplitOpened(child, BranchIds(child, n))))]
      ensures Gated(old(events), events, node.id)
    {
      hide Works;
      hide Rebuilds;
      hide Heard;
      hide Signed;
      hide Extends;
      hide Stands;
      hide Reserved;
      hide Within;
      ghost var w := W();
      child := nextId;
      var ids := BranchIds(child, n);
      var p := tokens[tok].scope;
      ghost var e := Planned(tok, p, node.id, node.id, SplitOpened(child, ids));
      ReadyToSplit(chart, base, w, pend, tok, e);
      WorkSplit(chart, unit, base, w, pend, tok, p, e);
      forall b | child < b <= child + n ensures Reserved(base, Splits(chart, w, tok, p, e), b) {
        SplitStands(chart, base, w, pend, tok, p, e, b);
      }
      SplitStands(chart, base, w, pend, tok, p, e, child + 1);
      HeardNote(chart.d, unit, oracles, w.log, |stored|, rounds, e);
      hide SplitsAt;
      nextId := nextId + 1 + n;
      var seqNo := Emit(tok, p, node.id, node.id, SplitOpened(child, ids));
      tokens := EndOne(tokens, tok, Consumed, seqNo, now);
      Touch(tok);
      scopes := scopes[child := Scope(Some(p), node.id, node.join, n, ScopeOpen, seqNo, 0)];
      created := created + {child};
      assert W() == Splits(chart, w, tok, p, e);
    }

    /** The split of scope `child`, the last of the plan `plan`, sends its branches
        along `taken`. */
    ghost predicate Sent(plan: seq<Event>, child: Id, taken: seq<Transition>) {
      forall i :: 0 <= i < |taken| ==>
        Branches(chart.d, unit, oracles, stored + plan, |stored|, child + 1 + i, taken[i])
    }

    lemma SentOn(plan: seq<Event>, more: seq<Event>, child: Id, taken: seq<Transition>, i: nat)
      requires Sent(plan, child, taken) && plan <= more && i < |taken|
      ensures Branches(chart.d, unit, oracles, stored + more, |stored|, child + 1 + i, taken[i])
    {
      hide Branches;
      BranchesLater(chart.d, unit, oracles, stored + plan, stored + more, |stored|, child + 1 + i, taken[i]);
    }

    /** Opens a scope for the routes a split takes. */
    method OpenTaken(ghost pend: Pend, tok: Id, node: Node, taken: seq<Transition>, ghost k: nat) returns (child: Id)
      requires Sane(pend, Some(tok), {}) && Rebuilt() && tok in tokens && tokens[tok].node == node.id
      requires Fans(d, node.id, |taken|) && Chose(tok, node.id, k, taken)
      requires forall tr :: tr in taken ==> tr.from == node.id
      requires IsSplitNode(d, node.id) && node == NodeOf(d, node.id) && Within(chart, Img(), tokens[tok].scope, node.id)
      modifies this`tokens, this`scopes, this`events, this`created, this`changed, this`nextId
      ensures child !in pend && child == old(nextId) && Sane(pend[child := |taken|], None, {}) && Rebuilt()
      ensures Extends(old(W()), W(), 0) && Stands(chart, Img(), child, old(tokens[tok].scope), node.id)
      ensures forall b :: child < b <= child + |taken| ==> Reserved(base, W(), b)
      ensures old(events) < events && Gated(old(events), events, node.id) && Sent(events, child, taken)
    {
      hide Works;
      hide Rebuilds;
      hide Heard;
      hide Signed;
      hide Extends;
      hide Stands;
      hide Reserved;
      hide Within;
      hide Gated;
      hide Branches;
      hide SplitTakes;
      hide SeenAt;
      ghost var w, e := W(), Planned(tok, tokens[tok].scope, node.id, node.id,
                                     SplitOpened(nextId, BranchIds(nextId, |taken|)));
      OpensBranches(chart.d, unit, oracles, w.log, e, |stored|, k, taken);
      child := OpenScope(pend, tok, node, |taken|);
      assert stored + events == w.log + [e];
    }

    /** Creates the next branch of scope `child` and routes it along `tr`. */
    method EmitBranch(ghost pend: Pend, child: Id, ghost p: Id, b: Id, tr: Transition, ghost w0: Work,
                      ghost room: set<string>) returns (err: Option<Error>)
      requires Sane(pend, None, {}) && Rebuilt() && Stands(chart, Img(), child, p, tr.from) && Reserved(base, W(), b)
      requires child in pend && pend[child] > 0 && tr in d.transitions && IsSplitNode(d, tr.from)
      requires Extends(w0, W(), 0) && b >= w0.next
      requires Branches(chart.d, unit, oracles, W().log, |stored|, b, tr)
      requires Metered() && Roomy(chart, depth, Img(), pend[child := pend[child] - 1], child, tr.to, used, room)
      modifies this
      decreases MaxSteps(d, caps) - gatewaySteps, 8
      ensures err.Some? ==> Excused(err.value)
      ensures err.None? ==> Sane(pend[child := pend[child] - 1], None, {}) && Rebuilt()
      ensures err.None? ==> Stands(chart, Img(), child, p, tr.from)
      ensures err.None? ==> gatewaySteps >= old(gatewaySteps) && Metered() && Spent(old(used), room)
      ensures err.None? ==> Extends(w0, W(), 0)
      ensures err.None? ==> forall b2 :: b2 != b && Reserved(base, old(W()), b2) ==> Reserved(base, W(), b2)
      ensures err.None? ==> old(events) < events && FirstHop(events[|old(events)|], b, tr, "")
    {
      hide Works;
      hide Once;
      hide Rebuilds;
      hide Branches;
      hide Turns;
      hide Heard;
      hide Signed;
      hide Extends;
      hide Stands;
      hide Reserved;
      hide Follows;
      hide Leaves;
      hide Ranked;
      hide Roomy;
      ghost var w := W();
      ghost var w1 := Spawns(w, b, child, tr.from);
      ReadyToSpawn(chart, base, w, pend, b, child);
      WorkSpawn(chart, unit, base, w, pend, b, child, tr.from);
      BranchLeaves(chart, base, w, pend, b, child, p, tr);
      ReservedUnused(base, w, b);
      SpawnExtends(w0, w, b, child, tr.from);
      tokens := tokens[b := Newborn(child, tr.from)];
      created := created + {b};
      assert W() == w1;
      RoomyScopes(chart, depth, w.g, w1.g, pend[child := pend[child] - 1], child, tr.to, used, room);
      err := Route(pend[child := pend[child] - 1], b, tr, "", room);
      if err.None? {
        ExtendsTrans(w0, w1, W(), 0, 0);
        LogPrefix(w1, W(), 0);
        EventsPrefix(stored, old(events), events);
        StandsKept(chart, w1, W(), 0, child, p, tr.from);
        forall b2 | b2 != b && Reserved(base, w, b2) ensures Reserved(base, W(), b2) {
          ReservedSpawn(base, w, b, child, tr.from, b2);
          ReservedKept(base, w1, W(), 0, b2);
        }
      }
    }

    /** Chooses the routes a split takes. */
    method TakeRoutes(tok: Id, node: Node) returns (r: Result<seq<Transition>>)
      requires Rebuilt() && tok in tokens && chart.d == d
      requires node == NodeOf(d, node.id) && NodeSound(chart, node) && node.kind.IsSplit()
      modifies this`asked
      ensures r.Err? ==> r.error.GuardFailed? && Blamed(oracles, r.error)
      ensures r.Ok? ==> r.value != [] && forall tr :: tr in r.value ==> tr in d.transitions && tr.from == node.id
      ensures r.Ok? && Ranked(chart, depth) ==> DistinctSeq(r.value)
      ensures r.Ok? ==> Chose(tok, node.id, old(asked), r.value)
      ensures r.Ok? ==> |r.value| <= |Routes(d, node.id)|
      ensures r.Ok? && node.kind.Parallel? ==> r.value == Routes(d, node.id)
    {
      hide Ranked;
      hide Rebuilds;
      hide Heard;
      hide Signed;
      hide Takes;
      ShownIs(chart, unit, oracles, W(), |stored|, rounds, tok, node.id);
      if Ranked(chart, depth) { RankedRoutes(chart, depth, node.id); }
      var routes := Routes(d, node.id);
      var taken;
      if node.kind.Parallel? {
        taken := Ok(routes);
      } else {
        var snap := SnapshotAt(tok, node.id);
        taken := SelectRoutes(oracles, asked, snap, routes);
        TakenAreRoutes(oracles, asked, snap, routes, |routes|);
        if Ranked(chart, depth) { PassingDistinct(oracles, asked, snap, routes, |routes|); }
        asked := asked + |routes|;
      }
      r := if taken.Ok? && taken.value == [] then Err(NoRoute) else taken;
    }

    /** Consumes `tok` at the split and routes one new token along each route it
        takes. */
    method Split(ghost pend: Pend, tok: Id, node: Node, ghost room: set<string>)
        returns (err: Option<Error>, ghost child: Id, ghost taken: seq<Transition>)
      requires Sane(pend, Some(tok), {}) && Rebuilt() && tok in tokens && tokens[tok].node == node.id
      requires IsSplitNode(d, node.id) && node == NodeOf(d, node.id) && Within(chart, Img(), tokens[tok].scope, node.id)
      requires Metered() && Roomy(chart, depth, Img(), pend, tokens[tok].scope, node.id, used, room)
      modifies this
      decreases MaxSteps(d, caps) - gatewaySteps, 3
      ensures err.Some? ==> Excused(err.value)
      ensures err.None? ==> Sane(pend, None, {}) && Rebuilt() && Extends(old(W()), W(), 0) && Metered()
      ensures err.None? ==> Spent(old(used), room)
      ensures err.None? ==> old(Chose(tok, node.id, asked, taken))
      ensures err.None? ==> old(events) <= events && Emitted(events, |old(events)|, child, taken, |taken|)
    {
      hide SplitTakes;
      hide SeenAt;
      hide Emitted;
      hide Blamed;
      hide Works;
      hide Once;
      hide Rebuilds;
      hide Heard;
      hide Signed;
      hide Extends;
      hide Stands;
      hide Reserved;
      hide Within;
      hide Ranked;
      hide Roomy;
      hide BranchesRoomy;
      hide DistinctSeq;
      hide GatewaysAhead;
      hide LongChain;
      hide GatewayIds;
      hide Stops;
      child, taken := ROOT, [];
      ghost var w, used0 := W(), used;
      SoundFacts(chart, base, w, pend, Some(tok), {});
      assert NodeSound(chart, node);
      hide Sound;
      hide NodeSound;
      InFlight(chart, base, w, pend, tok);
      RoomySplit(chart, depth, base, w, pend, Some(tok), tokens[tok].scope, node, used, room);
      err := GatewayStep(pend, Some(tok), {}, node.id);
      if err.None? {
        var r := TakeRoutes(tok, node);
        if r.Err? {
          err := Some(r.error);
        } else {
          taken := r.value;
          assert Ranked(chart, depth) ==> used0 == used - {node.id};
          BranchesHaveRoom(chart, depth, w.g, W().g, pend, tokens[tok].scope, node, r.value, used0, room);
          err, child := EmitBranches(pend, tok, node, r.value, w, room, old(asked));
        }
      }
    }

    /** Opens the scope of a split and routes one new token along each of `taken`;
        only the last may find its way beyond the join. */
    method EmitBranches(ghost pend: Pend, tok: Id, node: Node, taken: seq<Transition>, ghost w: Work,
                        ghost room: set<string>, ghost k: nat)
        returns (err: Option<Error>, ghost fork: Id)
      requires Sane(pend, Some(tok), {}) && Rebuilt() && tok in tokens && tokens[tok].node == node.id
      requires IsSplitNode(d, node.id) && node == NodeOf(d, node.id) && Within(chart, Img(), tokens[tok].scope, node.id)
      requires Fans(d, node.id, |taken|) && forall tr :: tr in taken ==> tr in d.transitions && tr.from == node.id
      requires Extends(w, W(), 0) && Chose(tok, node.id, k, taken)
      requires Ranked(chart, depth) ==> Once(events, used - {node.id})
      requires Metered() && BranchesRoomy(chart, depth, Img(), pend, tokens[tok].scope, node, taken, used, room)
      modifies this
      decreases MaxSteps(d, caps) - gatewaySteps, 9
      ensures err.Some? ==> Excused(err.value)
      ensures err.None? ==> Sane(pend, None, {}) && Rebuilt() && Extends(w, W(), 0) && Metered()
      ensures err.None? ==> Spent(old(used), room)
      ensures err.None? ==> old(events) <= events && Emitted(events, |old(events)|, fork, taken, |taken|)
    {
      hide Blamed;
      hide Works;
      hide Once;
      hide Gated;
      hide Rebuilds;
      hide Chose;
      hide Sent;
      hide Branches;
      hide Emitted;
      hide Heard;
      hide Signed;
      hide Extends;
      hide Stands;
      hide Reserved;
      hide Within;
      hide Ranked;
      hide Roomy;
      hide BranchesRoomy;
      hide RoomsLeft;
      hide LongChain;
      hide GatewayIds;
      hide Stops;
      hide BranchRoom;
      ghost var w1, p := W(), tokens[tok].scope;
      ghost var used0 := used;
      ghost var stops := Stops(w1.g, pend, p);
      InFlight(chart, base, w1, pend, tok);
      RoomsStart(chart, depth, w1.g, pend, p, node, taken, used, room);
      var child := OpenTaken(pend, tok, node, taken, k);
      ghost var first := events;
      EmittedNone(events, |old(events)|, child, taken);
      fork := child;
      if Ranked(chart, depth) {
        BranchesUse(chart, depth, w1.g, pend, p, node, taken, used, room);
        GatedOnce(old(events), events, node.id, used - {node.id});
      }
      LogPrefix(w1, W(), 0);
      ghost var steps := gatewaySteps;
      var i := 0;
      err := None;
      while i < |taken| && err.None?
        invariant 0 <= i <= |taken|
        invariant err.Some? ==> Excused(err.value)
        invariant err.None? ==> Sane(pend[child := |taken| - i], None, {}) && Rebuilt()
        invariant err.None? ==> Stands(chart, Img(), child, p, node.id)
        invariant err.None? ==> Extends(w1, W(), 0) && gatewaySteps >= steps
        invariant err.None? ==> forall b :: child + i < b <= child + |taken| ==> Reserved(base, W(), b)
        invariant err.None? ==> Metered() && RoomsLeft(chart, depth, stops, node, taken, i, used0, used, room)
        invariant err.None? ==> first <= events
        invariant err.None? ==> old(events) <= events && Emitted(events, |old(events)|, child, taken, i)
        decreases |taken| - i, err.None?
      {
        ghost var wi, usedi, m, evi := W(), used, |taken| - i - 1, events;
        assert taken[i] in taken;
        assert pend[child := |taken| - i][child := m] == pend[child := m];
        StandsFacts(chart, wi.g, child, p, node.id);
        RoomsNext(chart, depth, base, w1, wi, pend, tok, p, child, node, taken, i, used0, used, room);
        SentOn(first, events, child, taken, i);
        err := EmitBranch(pend[child := |taken| - i], child, p, child + 1 + i, taken[i], w1,
                          BranchRoom(d, stops, node.join, taken, i));
        if err.None? {
          RoomsFewer(chart, depth, stops, node, taken, i, used0, usedi, used, room);
          EmittedMore(evi, events, |old(events)|, child, taken, i);
        }
        i := i + 1;
      }
      if err.None? {
        WorkSplitDone(chart, base, W(), pend, child);
        ExtendsTrans(w, w1, W(), 0, 0);
        RoomsEnd(chart, depth, stops, node, taken, used0, used, room);
      }
    }

    /** `tok`, just moved onto a node it can neither rest on nor decide at,
        splits, waits or closes the case. */
    method Dispatch(ghost pend: Pend, tok: Id, node: Node, via: Transition, ghost room: set<string>)
        returns (err: Option<Error>)
      requires Sane(pend, Some(tok), {}) && Rebuilt() && JustMoved(chart, W(), tok, via) && tokens[tok].scope in scopes
      requires via in d.transitions && via.to == node.id && node == NodeOf(d, node.id) && !Rests(d, node.id)
      requires !node.kind.Decision?
      requires Fits(chart, scopes[tokens[tok].scope], via) || Strays(chart, scopes[tokens[tok].scope], via)
      requires IsPolicyJoin(d, node.id) ==> pend == map[]
      requires Metered() && Roomy(chart, depth, Img(), pend, tokens[tok].scope, node.id, used, room)
      modifies this
      decreases MaxSteps(d, caps) - gatewaySteps, 4
      ensures err.Some? ==> Excused(err.value)
      ensures old(Strays(chart, scopes[tokens[tok].scope], via)) ==> err == Some(OutsideBlock)
      ensures err.None? ==> Sane(pend, None, {}) && Rebuilt() && Metered() && Spent(old(used), room)
      ensures err.None? ==> Extends(old(W()), W(), if IsPolicyJoin(d, node.id) then 1 else 0)
    {
      hide Works;
      hide Once;
      hide Plain;
      hide Rebuilds;
      hide Heard;
      hide Signed;
      hide Extends;
      hide Ranked;
      hide Roomy;
      SoundFacts(chart, base, W(), pend, Some(tok), {});
      assert EdgeSound(chart, via);
      hide Sound;
      RootStands(chart, base, W(), pend, tok);
      if node.kind.IsSplit() {
        ghost var child, taken;
        err, child, taken := Split(pend, tok, node, room);
      } else if node.kind.Join? {
        err := Arrive(pend, tok, node, via.outcome, via, room);
      } else {
        err := CloseCase(pend, tok, node, via.action);
        if err.None? && Ranked(chart, depth) { PlainOnce(old(events), events, used); }
      }
    }

    /** Sends `tok` along `tr` and, hop by hop, to the first node that is no
        decision. */
    method Route(ghost pend: Pend, tok: Id, tr: Transition, comment: string, ghost room: set<string>)
        returns (err: Option<Error>)
      requires Sane(pend, Some(tok), {}) && Follows(d, unit, W().log, Img(), tok) && Leaves(chart, Img(), tok, tr)
      requires NodeOf(d, tr.from).kind.Task? ==> pend == map[]
      requires Metered() && tok in tokens && Roomy(chart, depth, Img(), pend, tokens[tok].scope, tr.to, used, room)
      requires Listened() && Bound(tok, tr) && Speaks(d, tr, comment)
      modifies this
      decreases MaxSteps(d, caps) - gatewaySteps, 7
      ensures err.Some? ==> Excused(err.value)
      ensures forall last :: EndsBy(oracles, d, caps, tr, last) && Astray(chart, old(Img()), tok, last) ==>
        err == Some(OutsideBlock)
      ensures err.None? ==> Sane(pend, None, {}) && Rebuilt() && Metered() && Spent(old(used), room)
      ensures err.None? ==> Extends(old(W()), W(), if NodeOf(d, tr.from).kind.Task? then 1 else 0)
      ensures err.None? ==> |events| > |old(events)| && FirstHop(events[|old(events)|], tok, tr, comment)
      ensures Endless(d, caps, tr.to) ==> err.Some? && (err.value.TooManyDecisions? || err.value.GuardFailed?)
      ensures forall last :: EndsBy(oracles, d, caps, tr, last) && Rests(d, last.to) ==>
        Landed(oracles, d, old(Img()), Img(), tok, last.to, err)
    {
      hide Picked;
      hide Rests;
      hide Landed;
      hide StillGoing;
      hide Astray;
      hide EndsBy;
      hide OnCourse;
      hide Doomed;
      hide Endless;
      hide Hopped;
      hide Guided;
      hide Turned;
      hide Works;
      hide Once;
      hide Rebuilds;
      hide Heard;
      hide Signed;
      hide Extends;
      hide Follows;
      hide Ranked;
      hide Roomy;
      hide DecisionChain;
      hide Decides;
      ghost var w0 := W();
      ExtendsRefl(w0);
      ghost var trail: seq<string> := [];
      NoChain(d);
      ghost var way := TheWay(oracles, d, caps, tr);
      CourseBegins(chart, oracles, way, Img(), tok);
      DoomBegins(d, caps, tr.to);
      var t, note, hops, done := tr, comment, 0, false;
      err := None;
      while !done
        invariant OnCourse(chart, oracles, way, hops, t, done, err, old(Img()), Img(), tok)
        invariant err.Some? ==> done && Excused(err.value)
        invariant !done ==> Sane(pend, Some(tok), {}) && Follows(d, unit, W().log, Img(), tok)
        invariant !done ==> Leaves(chart, Img(), tok, t) && Listened() && Bound(tok, t) && Speaks(d, t, note)
        invariant !done ==> Extends(w0, W(), 0) && gatewaySteps == w0.steps
        invariant !done && hops > 0 ==> NodeOf(d, t.from).kind.Decision?
        invariant !done && hops == 0 ==> t == tr && note == comment && events == old(events)
        invariant done && err.None? ==> Metered() && Spent(old(used), room)
        invariant done && err.None? ==> Sane(pend, None, {}) && Rebuilt()
        invariant done && err.None? ==> Extends(w0, W(), if NodeOf(d, tr.from).kind.Task? then 1 else 0)
        invariant err.None? && (hops > 0 || done) ==> |events| > |old(events)|
        invariant err.None? && (hops > 0 || done) ==> FirstHop(events[|old(events)|], tok, tr, comment)
        invariant !done ==> hops == 0 || hops < MaxHops(d, caps)
        invariant !done ==> Metered() && used == old(used) && tok in tokens
        invariant !done ==> Roomy(chart, depth, Img(), pend, tokens[tok].scope, t.to, used, room)
        invariant !done ==> Trailing(d, trail, hops, t.from)
        invariant Endless(d, caps, tr.to) ==> Doomed(d, caps, hops, t.to, done, err)
        decreases MaxHops(d, caps) - hops, !done
      {
        ghost var was, g := t, Img();
        t, hops, done, err, trail := Hop(pend, tok, t, note, hops, w0, room, trail);
        note := "";
        StaysOnCourse(chart, oracles, caps, way, hops - 1, was, t, done, err, old(Img()), g, Img(), tok);
        if Endless(d, caps, tr.to) { StaysDoomed(chart, oracles, caps, hops - 1, was, t, done, err, g, Img(), tok); }
        if done && err.None? {
          ExtendsMore(w0, W(), if NodeOf(d, was.from).kind.Task? then 1 else 0,
                      if NodeOf(d, tr.from).kind.Task? then 1 else 0);
        }
      }
      DoomEnds(d, caps, hops, t.to, err);
      CourseEnds(chart, oracles, caps, way, hops, tr, t, err, old(Img()), Img(), tok);
    }

    /** Asks the guards of decision `node` about `tok`, with the round behind it. */
    method Choose(tok: Id, node: Node) returns (r: Result<Transition>)
      requires Rebuilt() && tok in tokens && DefaultLast(Routes(d, node.id))
      modifies this`asked
      ensures r.Err? ==> r.error.GuardFailed? && Blamed(oracles, r.error)
      ensures Answered(tok, node.id, old(asked), r)
      ensures r.Ok? ==> r.value in d.transitions && r.value.from == node.id
      ensures r.Ok? && chart.d == d ==> Turns(chart.d, unit, oracles, W().log, |stored|, tok, r.value)
    {
      hide Rebuilds;
      hide Heard;
      hide Signed;
      hide RoundIn;
      hide FirstPassing;
      hide FirstFailing;
      hide DefaultLast;
      ShownIs(chart, unit, oracles, W(), |stored|, rounds, tok, node.id);
      var routes := Routes(d, node.id);
      var snap := SnapshotAt(tok, node.id);
      r := ResolveRoute(oracles, asked, snap, routes);
      asked := asked + |routes|;
      if r.Ok? { FirstIsRoute(oracles, old(asked), snap, routes, r.value); }
    }

    /** Chooses the route `tok` takes out of decision `node`. */
    method Decide(ghost pend: Pend, tok: Id, node: Node, via: Transition) returns (r: Result<Transition>)
      requires tok in tokens && tokens[tok].scope in scopes
      requires Sane(pend, Some(tok), {}) && Rebuilt() && JustMoved(chart, W(), tok, via)
      requires node == NodeOf(d, node.id) && Has(d, node.id) && node.kind.Decision? && via.to == node.id
      requires Fits(chart, scopes[tokens[tok].scope], via) || Strays(chart, scopes[tokens[tok].scope], via)
      modifies this`asked
      ensures r.Err? ==> r.error.GuardFailed? && Blamed(oracles, r.error)
      ensures r.Ok? ==> Leaves(chart, Img(), tok, r.value) && r.value.from == node.id
      ensures Answered(tok, node.id, old(asked), r)
      ensures r.Ok? ==> Bound(tok, r.value)
    {
      hide Works;
      hide Once;
      hide Rebuilds;
      hide Heard;
      hide Signed;
      hide RoundIn;
      hide FirstPassing;
      hide FirstFailing;
      hide Turns;
      SoundFacts(chart, base, W(), pend, Some(tok), {});
      assert NodeSound(chart, node);
      hide Sound;
      r := Choose(tok, node);
      if r.Ok? { LeavesOn(chart, base, W(), pend, tok, r.value); }
    }

    /** `tok`, just moved onto decision `next`, is to take transition `t2`. */
    method Turn(ghost pend: Pend, tok: Id, t: Transition, hops: nat, next: Node, ghost room: set<string>,
                ghost trail: seq<string>)
        returns (t2: Transition, err: Option<Error>, ghost trail2: seq<string>)
      requires Sane(pend, Some(tok), {}) && Rebuilt() && JustMoved(chart, W(), tok, t) && tokens[tok].scope in scopes
      requires next == NodeOf(d, t.to) && next.id == t.to && Has(d, t.to) && next.kind.Decision? && t in d.transitions
      requires Fits(chart, scopes[tokens[tok].scope], t) || Strays(chart, scopes[tokens[tok].scope], t)
      requires Metered() && tok in tokens && Roomy(chart, depth, Img(), pend, tokens[tok].scope, t.to, used, room)
      requires Trailing(d, trail, hops, t.from) && (hops == 0 || hops < MaxHops(d, caps))
      modifies this`asked
      ensures err.Some? ==> Excused(err.value) && (err.value.TooManyDecisions? || err.value.GuardFailed?)
      ensures err.None? ==> Follows(d, unit, W().log, Img(), tok) && Leaves(chart, Img(), tok, t2)
      ensures err.None? ==> t2 in d.transitions && t2.from == t.to
      ensures err.None? ==> tok in tokens && Roomy(chart, depth, Img(), pend, tokens[tok].scope, t2.to, used, room)
      ensures err.None? ==> Trailing(d, trail2, hops + 1, t2.from) && hops + 1 < MaxHops(d, caps)
      ensures err.None? ==> Bound(tok, t2)
      ensures Turned(oracles, d, caps, next.id, hops, t2, err)
    {
      hide Works;
      hide Once;
      hide Rebuilds;
      hide Picked;
      hide RoundIn;
      hide Heard;
      hide Signed;
      hide Follows;
      hide Leaves;
      hide JustMoved;
      hide Fits;
      hide Ranked;
      hide Roomy;
      hide DecisionChain;
      hide LongChain;
      hide Sound;
      ghost var w := W();
      SoundFacts(chart, base, w, pend, Some(tok), {});
      t2, err := t, None;
      trail2 := Lengthen(d, chart, trail, hops, t);
      if Ranked(chart, depth) { TrailLength(chart, depth, trail2, hops + 1, t.to); }
      if caps.hops.Some? && hops + 1 >= caps.hops.value {
        ChainIsLong(d, trail2, caps.hops.value);
        err := Some(TooManyDecisions);
      } else {
        var r := Decide(pend, tok, next, t);
        match r
        case Ok(chosen) =>
          t2 := chosen;
          LeavesFacts(chart, Img(), tok, chosen);
          ExactFollows(chart, unit, W(), tok);
          RoomyOn(chart, depth, base, w, pend, Some(tok), tokens[tok].scope, chosen, used, room);
        case Err(e) => err := Some(e);
      }
    }

    /** `tok`, just moved along `t`, settles at `next`, which is no decision. */
    method Settle(ghost pend: Pend, tok: Id, t: Transition, next: Node, ghost w0: Work, ghost room: set<string>)
        returns (err: Option<Error>)
      requires Sane(pend, Some(tok), {}) && Rebuilt() && JustMoved(chart, W(), tok, t) && tokens[tok].scope in scopes
      requires Extends(w0, W(), 0)
      requires next == NodeOf(d, t.to) && t in d.transitions && Has(d, t.to) && !Rests(d, t.to) && !next.kind.Decision?
      requires Fits(chart, scopes[tokens[tok].scope], t) || Strays(chart, scopes[tokens[tok].scope], t)
      requires NodeOf(d, t.from).kind.Task? ==> pend == map[]
      requires Metered() && Roomy(chart, depth, Img(), pend, tokens[tok].scope, t.to, used, room)
      modifies this
      decreases MaxSteps(d, caps) - gatewaySteps, 5, 0
      ensures err.Some? ==> Excused(err.value)
      ensures old(Strays(chart, scopes[tokens[tok].scope], t)) ==> err == Some(OutsideBlock)
      ensures err.None? ==> Sane(pend, None, {}) && Rebuilt() && Metered() && Spent(old(used), room)
      ensures err.None? ==> Extends(w0, W(), if NodeOf(d, t.from).kind.Task? then 1 else 0) && old(events) <= events
    {
      hide Blamed;
      hide Works;
      hide Once;
      hide Rebuilds;
      hide Heard;
      hide Signed;
      hide Extends;
      hide JustMoved;
      hide Fits;
      hide Strays;
      hide Ranked;
      hide Roomy;
      hide LongChain;
      hide Excusable;
      hide MaxSteps;
      hide GatewayIds;
      ghost var w, n := W(), if NodeOf(d, t.from).kind.Task? then 1 else 0;
      PolicyFromTask(chart, base, w, pend, tok, t);
      err := Dispatch(pend, tok, next, t, room);
      if err.None? {
        ExtendsMore(w, W(), if IsPolicyJoin(d, t.to) then 1 else 0, n);
        ExtendsTrans(w0, w, W(), 0, n);
        LogPrefix(w, W(), n);
        EventsPrefix(stored, old(events), events);
      }
    }

    /** `tok` moves onto a gateway, a decision or a terminal node. */
    method Cross(ghost pend: Pend, tok: Id, t: Transition, note: string, hops: nat, next: Node, ghost w0: Work,
                 ghost room: set<string>, ghost trail: seq<string>)
        returns (t2: Transition, hops2: nat, done: bool, err: Option<Error>, ghost trail2: seq<string>)
      requires next == NodeOf(d, t.to) && !Rests(d, t.to)
      requires Sane(pend, Some(tok), {}) && Follows(d, unit, W().log, Img(), tok) && Leaves(chart, Img(), tok, t)
      requires NodeOf(d, t.from).kind.Task? ==> pend == map[]
      requires Extends(w0, W(), 0)
      requires Metered() && tok in tokens && Roomy(chart, depth, Img(), pend, tokens[tok].scope, t.to, used, room)
      requires Trailing(d, trail, hops, t.from) && (hops == 0 || hops < MaxHops(d, caps))
      requires Listened() && Bound(tok, t) && Speaks(d, t, note)
      modifies this
      decreases MaxSteps(d, caps) - gatewaySteps, 5
      ensures err.Some? ==> done && Excused(err.value)
      ensures old(Astray(chart, Img(), tok, t)) ==> err == Some(OutsideBlock)
      ensures !done ==> Sane(pend, Some(tok), {}) && Follows(d, unit, W().log, Img(), tok)
      ensures !done ==> Leaves(chart, Img(), tok, t2) && Listened() && Bound(tok, t2)
      ensures !done ==> Extends(w0, W(), 0) && gatewaySteps == old(gatewaySteps) && NodeOf(d, t2.from).kind.Decision?
      ensures done && err.None? ==> Sane(pend, None, {}) && Rebuilt()
      ensures done && err.None? ==> Extends(w0, W(), if NodeOf(d, t.from).kind.Task? then 1 else 0)
      ensures !done ==> Metered() && used == old(used) && tok in tokens
      ensures !done ==> Roomy(chart, depth, Img(), pend, tokens[tok].scope, t2.to, used, room)
      ensures !done ==> Trailing(d, trail2, hops2, t2.from)
      ensures !done ==> t2 in d.transitions && t2.from == t.to
      ensures NodeOf(d, t.to).kind.Decision? ==> done == err.Some? && Turned(oracles, d, caps, t.to, hops, t2, err)
      ensures !done ==> StillGoing(old(Img()), Img(), tok)
      ensures done && err.None? ==> Metered() && Spent(old(used), room)
      ensures hops2 == hops + 1 && (!done ==> hops2 < MaxHops(d, caps))
      ensures err.None? ==> |events| > |old(events)| && FirstHop(events[|old(events)|], tok, t, note)
      ensures err.None? ==> old(events) <= events
    {
      hide Picked;
      hide Blamed;
      hide Works;
      hide Once;
      hide Plain;
      hide Rebuilds;
      hide Heard;
      hide Signed;
      hide Extends;
      hide Follows;
      hide Leaves;
      hide JustMoved;
      hide Fits;
      hide Ranked;
      hide Roomy;
      hide DecisionChain;
      hide LongChain;
      hide Strays;
      hide Excusable;
      hide MaxSteps;
      hide MaxHops;
      hide GatewayIds;
      ghost var w := W();
      LeavesFacts(chart, w.g, tok, t);
      t2, hops2, done, err, trail2 := t, hops + 1, true, None, trail;
      HopTo(pend, tok, t, note, next);
      ghost var w1 := W();
      if Ranked(chart, depth) { PlainOnce(old(events), events, used); }
      RoomyScopes(chart, depth, w.g, w1.g, pend, tokens[tok].scope, t.to, used, room);
      ExtendsTrans(w0, w, w1, 0, 0);
      if !next.kind.Decision? {
        err := Settle(pend, tok, t, next, w0, room);
      } else {
        StraysOntoJoin(chart, scopes[tokens[tok].scope], t);
        t2, err, trail2 := Turn(pend, tok, t, hops, next, room, trail);
        done := err.Some?;
      }
    }

    /** One move of the route: `tok` rests, leaves routing through a gateway, or
        is to take transition `t2` next. */
    method Hop(ghost pend: Pend, tok: Id, t: Transition, note: string, hops: nat, ghost w0: Work,
               ghost room: set<string>, ghost trail: seq<string>)
        returns (t2: Transition, hops2: nat, done: bool, err: Option<Error>, ghost trail2: seq<string>)
      requires Sane(pend, Some(tok), {}) && Follows(d, unit, W().log, Img(), tok) && Leaves(chart, Img(), tok, t)
      requires NodeOf(d, t.from).kind.Task? ==> pend == map[]
      requires Extends(w0, W(), 0)
      requires Metered() && tok in tokens && Roomy(chart, depth, Img(), pend, tokens[tok].scope, t.to, used, room)
      requires Trailing(d, trail, hops, t.from) && (hops == 0 || hops < MaxHops(d, caps))
      requires Listened() && Bound(tok, t) && Speaks(d, t, note)
      modifies this
      decreases MaxSteps(d, caps) - gatewaySteps, 6
      ensures err.Some? ==> done && Excused(err.value)
      ensures !done ==> Sane(pend, Some(tok), {}) && Follows(d, unit, W().log, Img(), tok)
      ensures !done ==> Leaves(chart, Img(), tok, t2) && Listened() && Bound(tok, t2)
      ensures !done ==> Extends(w0, W(), 0) && gatewaySteps == old(gatewaySteps) && NodeOf(d, t2.from).kind.Decision?
      ensures done && err.None? ==> Sane(pend, None, {}) && Rebuilt()
      ensures done && err.None? ==> Extends(w0, W(), if NodeOf(d, t.from).kind.Task? then 1 else 0)
      ensures !done ==> Metered() && used == old(used) && tok in tokens
      ensures !done ==> Roomy(chart, depth, Img(), pend, tokens[tok].scope, t2.to, used, room)
      ensures !done ==> Trailing(d, trail2, hops2, t2.from)
      ensures !done ==> t2 in d.transitions && t2.from == t.to
      ensures done && err.None? ==> Metered() && Spent(old(used), room)
      ensures hops2 == hops + 1 && (!done ==> hops2 < MaxHops(d, caps))
      ensures err.None? ==> |events| > |old(events)| && FirstHop(events[|old(events)|], tok, t, note)
      ensures err.None? ==> old(events) <= events
      ensures Hopped(chart, oracles, caps, hops, t, t2, done, err, old(Img()), Img(), tok)
    {
      hide Picked;
      hide Rested;
      hide Works;
      hide Once;
      hide Plain;
      hide Rebuilds;
      hide Heard;
      hide Signed;
      hide Extends;
      hide Follows;
      hide Leaves;
      hide JustMoved;
      hide Fits;
      hide Ranked;
      hide Roomy;
      hide DecisionChain;
      hide LongChain;
      hide Home;
      ghost var w, ev := W(), events;
      LeavesFacts(chart, w.g, tok, t);
      t2, hops2, done, err, trail2 := t, hops + 1, true, None, trail;
      var next := FindNode(d.nodes, t.to);
      if next.None? {
        err := Some(UnknownDestination);
      } else if Rests(d, t.to) {
        err := RestAt(pend, tok, t, note, next.value);
        if err.None? {
          if Ranked(chart, depth) { PlainOnce(ev, events, used); }
          LogPrefix(w, W(), 0);
          EventsPrefix(stored, ev, events);
          ExtendsTrans(w0, w, W(), 0, 0);
          ExtendsMore(w0, W(), 0, if NodeOf(d, t.from).kind.Task? then 1 else 0);
        }
      } else {
        t2, hops2, done, err, trail2 := Cross(pend, tok, t, note, hops, next.value, w0, room, trail);
      }
    }
  }
}
