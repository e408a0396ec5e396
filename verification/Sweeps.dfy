/** A policy round that closes: every pending token is cancelled and every
    branch gets exactly one result. */
module Sweeps {
  import opened Definitions
  import opened Soundness
  import opened Tokens
  import opened Replay
  import opened Invariant
  import opened Closings
  import opened History
  import opened Rounds
  import opened Planning
  import opened WorkingCopy

  predicate ParentsBelow(scopes: map<Id, Scope>) {
    forall s :: s in scopes && scopes[s].parent.Some? ==> scopes[s].parent.value in scopes && scopes[s].parent.value < s
  }

  lemma ScopeFacts(c: Chart, base: Image, w: Work, pend: Pend, flight: Option<Id>, loose: set<Id>)
    requires Works(c, base, w, pend, flight, loose)
    ensures ParentsBelow(w.g.scopes) && Sound(c) && ScopesOk(c, w.g) && IdsBelow(w.g, w.next)
  {
    forall s | s in w.g.scopes ensures ScopeOk(c, w.g, s) {}
  }

  lemma RestFacts(c: Chart, base: Image, w: Work, s: Id)
    requires Works(c, base, w, map[], None, {s})
    ensures ScopesOk(c, w.g) && Settled(c, w.g, map[], {s}) && forall y :: y in w.g.scopes ==> y < w.next
  {
  }

  lemma PendingIs(g: Image, s: Id, nested: set<Id>)
    requires nested == NestedIn(g, s)
    ensures PendingIn(g, s) == set t | t in g.tokens && ((g.tokens[t].scope == s && g.tokens[t].status.Active?)
                                             || (g.tokens[t].scope in nested && g.tokens[t].status.Live()))
  {
    forall x ensures x in nested <==> Inside(g.scopes, x, s) {
      if Inside(g.scopes, x, s) { assert x in g.scopes; }
    }
  }

  /** The sweep of a closing round: the tokens of `todo` are still to cancel, the
      branches of `reported` have their result in `rs`. */
  ghost predicate Sweeping(g0: Image, w: Work, s: Id, todo: set<Id>, reported: set<Id>, rs: seq<BranchResult>) {
    && s in g0.scopes && todo <= PendingIn(g0, s)
    && Swept(g0, w.g, PendingIn(g0, s), todo)
    && Collected(w.log, rs, g0.scopes[s].joinNode)
    && Reported(g0, s, PendingIn(g0, s), todo, reported, rs)
  }

  lemma SweepStarts(w: Work, s: Id)
    requires s in w.g.scopes
    ensures Sweeping(w.g, w, s, PendingIn(w.g, s), {}, [])
  {
  }

  lemma SweepKeys(g0: Image, w: Work, s: Id, todo: set<Id>, reported: set<Id>, rs: seq<BranchResult>)
    requires Sweeping(g0, w, s, todo, reported, rs)
    ensures todo <= w.g.tokens.Keys && w.g.scopes == g0.scopes
  {
  }

  /** Every token still to cancel is live, in the closing scope or inside it. */
  lemma SweepFacts(g0: Image, w: Work, s: Id, todo: set<Id>, reported: set<Id>, rs: seq<BranchResult>, t: Id)
    requires Sweeping(g0, w, s, todo, reported, rs) && t in todo
    ensures t in w.g.tokens && t in g0.tokens && w.g.tokens[t] == g0.tokens[t] && w.g.tokens[t].status.Live()
    ensures w.g.tokens[t].scope in {s} + NestedIn(g0, s) && w.g.scopes == g0.scopes
  {
  }

  /** The results after cancelling `t`, a token of branch `child` of the round. */
  function Report(rs: seq<BranchResult>, reported: set<Id>, t: Id, child: Option<Id>, seqNo: nat): seq<BranchResult> {
    if child.Some? && child.value !in reported then rs + [BranchResult(t, Unanswered, seqNo)] else rs
  }

  function ReportedBy(reported: set<Id>, child: Option<Id>): set<Id> {
    if child.Some? then reported + {child.value} else reported
  }

  lemma SweepOne(g0: Image, w: Work, s: Id, todo: set<Id>, reported: set<Id>, rs: seq<BranchResult>, t: Id, e: Event,
                 child: Option<Id>)
    requires Sweeping(g0, w, s, todo, reported, rs) && t in todo
    requires e.body.TokenCancelled? && e.token == t && e.seqNo == |w.log| + 1
    requires t in w.g.tokens && child == ChildOnPath(w.g.scopes, w.g.tokens[t].scope, s)
    ensures Sweeping(g0, Cancels(w, t, e), s, todo - {t}, ReportedBy(reported, child),
                     Report(rs, reported, t, child, e.seqNo))
  {
    var all, join := PendingIn(g0, s), g0.scopes[s].joinNode;
    SweepFacts(g0, w, s, todo, reported, rs, t);
    SweepStep(g0, w.g, all, todo, t, e.seqNo, e.at);
    hide PendingIn;
    hide Swept;
    CollectMore(w.log, e, rs, join);
    if child.Some? && child.value !in reported {
      ReportNew(g0, s, all, todo, reported, rs, t, child.value, e.seqNo);
      assert forall i :: 0 <= i < |rs| ==> rs[i].token != t;
      CollectOne(w.log + [e], rs, join, BranchResult(t, Unanswered, e.seqNo));
    } else {
      ReportSame(g0, s, all, todo, reported, rs, t);
      if child.Some? { assert reported + {child.value} == reported; }
    }
  }

  lemma SweepCount(g0: Image, w: Work, s: Id, rs: seq<BranchResult>)
    requires Sweeping(g0, w, s, {}, ScopeArms(g0, s), rs)
    ensures |rs| == |ScopeArms(g0, s)|
  {
  }

  lemma SweepEnds(c: Chart, base: Image, w0: Work, w: Work, s: Id, reported: set<Id>, rs: seq<BranchResult>)
    requires Works(c, base, w0, map[], None, {s}) && Sweeping(w0.g, w, s, {}, reported, rs)
    ensures Swept(w0.g, w.g, PendingIn(w0.g, s), {}) && reported == ScopeArms(w0.g, s)
  {
    hide Works;
    RestFacts(c, base, w0, s);
    hide ScopesOk;
    hide Settled;
    AllReported(c, w0.g, s, w0.next, reported, rs);
  }

  /** A round under a policy whose pending tokens were all cancelled: every token
      left in the scope waits with a vote or is cancelled. */
  ghost predicate Closing(c: Chart, w0: Work, w: Work, s: Id, rs: seq<BranchResult>) {
    && s in w.g.scopes && Logged(c, w.log, w.g) && Sweeping(w0.g, w, s, {}, ScopeArms(w0.g, s), rs)
    && TokenArms(w.g, s) == TokenArms(w0.g, s) && !Inside(w0.g.scopes, s, s)
    && (forall t :: t in TokenArms(w.g, s) && !w.g.tokens[t].status.Cancelled? ==>
          && w.g.tokens[t].status.Waiting? && w.g.tokens[t].node == w.g.scopes[s].joinNode
          && (w.g.tokens[t].outcome.Approved? || w.g.tokens[t].outcome.Rejected?))
  }

  ghost predicate Gathering(c: Chart, w0: Work, w: Work, s: Id, rs0: seq<BranchResult>, todo: set<Id>,
                            rs: seq<BranchResult>) {
    && Closing(c, w0, w, s, rs0) && todo <= TokenArms(w.g, s)
    && Collected(w.log, rs, w.g.scopes[s].joinNode)
    && |rs| == |rs0| + |TokenArms(w.g, s) - todo|
    && (forall i :: 0 <= i < |rs| ==> rs[i].token !in todo) && Polled(w.g, s, todo, rs)
  }

  /** The votes of the tokens outside `todo`, and no others, are among `rs`. */
  ghost predicate Polled(g: Image, s: Id, todo: set<Id>, rs: seq<BranchResult>) {
    && (forall i :: 0 <= i < |rs| && !rs[i].outcome.Unanswered? ==> rs[i].token in Votes(g, s, rs[i].outcome))
    && (forall t :: t in Arrived(g, s) && t !in todo ==> OwnResult(t, g.tokens[t]) in rs)
  }

  lemma PollOne(g: Image, s: Id, todo: set<Id>, rs: seq<BranchResult>, t: Id)
    requires Polled(g, s, todo, rs) && t in TokenArms(g, s)
    requires (g.tokens[t].status.Waiting? || g.tokens[t].status.Cancelled?)
    ensures Polled(g, s, todo - {t}, rs + [OwnResult(t, g.tokens[t])])
  {
  }

  /** `n` results, each naming its own event, with the votes of the round. */
  ghost predicate Gathered(w: Work, s: Id, rs: seq<BranchResult>, n: nat) {
    s in w.g.scopes && Collected(w.log, rs, w.g.scopes[s].joinNode) && |rs| == n && Tallied(w.g, s, rs)
  }

  lemma GatherStarts(c: Chart, w0: Work, w: Work, s: Id, rs0: seq<BranchResult>)
    requires Closing(c, w0, w, s, rs0)
    ensures Gathering(c, w0, w, s, rs0, TokenArms(w.g, s), rs0)
  {
    assert TokenArms(w.g, s) - TokenArms(w.g, s) == {};
    assert Arrived(w.g, s) <= TokenArms(w.g, s);
  }

  lemma ArmFacts(c: Chart, w0: Work, w: Work, s: Id, rs0: seq<BranchResult>, t: Id)
    requires Closing(c, w0, w, s, rs0) && t in TokenArms(w.g, s)
    ensures s in w.g.scopes && t in w.g.tokens && Logged(c, w.log, w.g)
    ensures var k := w.g.tokens[t];
      k.status.Cancelled? ||
        (k.status.Waiting? && k.node == w.g.scopes[s].joinNode && (k.outcome.Approved? || k.outcome.Rejected?))
  {
  }

  lemma GatherOne(c: Chart, w0: Work, w: Work, s: Id, rs0: seq<BranchResult>, todo: set<Id>, rs: seq<BranchResult>,
                  t: Id)
    requires Gathering(c, w0, w, s, rs0, todo, rs) && t in todo
    ensures t in w.g.tokens && Gathering(c, w0, w, s, rs0, todo - {t}, rs + [OwnResult(t, w.g.tokens[t])])
  {
    hide Closing;
    hide Logged;
    hide Polled;
    hide Names;
    hide TokenArms;
    ArmFacts(c, w0, w, s, rs0, t);
    PollOne(w.g, s, todo, rs, t);
    OwnNames(c, w.log, w.g, t, w.g.scopes[s].joinNode);
    CollectOne(w.log, rs, w.g.scopes[s].joinNode, OwnResult(t, w.g.tokens[t]));
    DropOne(TokenArms(w.g, s), todo, t);
  }

  lemma GatherEnds(c: Chart, w0: Work, w: Work, s: Id, rs0: seq<BranchResult>, rs: seq<BranchResult>)
    requires Gathering(c, w0, w, s, rs0, {}, rs)
    ensures Gathered(w, s, rs, |rs0| + |TokenArms(w0.g, s)|)
  {
    assert TokenArms(w.g, s) - {} == TokenArms(w.g, s);
    GatheredVotes(c, w0, w, s, rs0, rs, Approved);
    GatheredVotes(c, w0, w, s, rs0, rs, Rejected);
  }

  lemma GatheredVotes(c: Chart, w0: Work, w: Work, s: Id, rs0: seq<BranchResult>, rs: seq<BranchResult>, o: Outcome)
    requires Gathering(c, w0, w, s, rs0, {}, rs) && (o.Approved? || o.Rejected?)
    ensures Given(rs, o) <==> Votes(w.g, s, o) != {}
  {
    hide Closing;
    if Votes(w.g, s, o) != {} {
      var t :| t in Votes(w.g, s, o);
      assert t in Arrived(w.g, s) && OwnResult(t, w.g.tokens[t]) in rs;
    }
  }

  lemma NotInsideItself(c: Chart, g: Image, s: Id)
    requires ScopesOk(c, g)
    ensures !Inside(g.scopes, s, s)
  {
    if Inside(g.scopes, s, s) { InsideIsBelow(c, g, s, s); }
  }

  lemma SweptArms(g0: Image, g: Image, s: Id)
    requires Swept(g0, g, PendingIn(g0, s), {})
    ensures TokenArms(g, s) == TokenArms(g0, s) && Arrived(g, s) == Arrived(g0, s) - PendingIn(g0, s)
    ensures forall t :: t in TokenArms(g, s) && !g.tokens[t].status.Cancelled? ==> g.tokens[t].status.Waiting?
    ensures forall t :: t in g.tokens && g.tokens[t].status.Live() ==>
      !Inside(g0.scopes, g.tokens[t].scope, s) && (g.tokens[t].scope == s ==> t in Arrived(g, s))
  {
  }

  lemma WaitingFacts(c: Chart, base: Image, w: Work, pend: Pend, loose: set<Id>, t: Id)
    requires Works(c, base, w, pend, None, loose) && t in w.g.tokens && w.g.tokens[t].status.Waiting?
    ensures w.g.tokens[t].scope in w.g.scopes && w.g.tokens[t].node == w.g.scopes[w.g.tokens[t].scope].joinNode
    ensures Readable(c, w.g.tokens[t])
  {
    assert TokenOk(c, w.g, t, None);
  }

  lemma ScopeKnown(c: Chart, base: Image, w: Work, pend: Pend, flight: Option<Id>, loose: set<Id>, t: Id)
    requires Works(c, base, w, pend, flight, loose) && t in w.g.tokens
    ensures w.g.tokens[t].scope in w.g.scopes
  {
    assert TokenOk(c, w.g, t, flight);
  }

  lemma LogFacts(c: Chart, base: Image, w: Work, pend: Pend, flight: Option<Id>, loose: set<Id>)
    requires Works(c, base, w, pend, flight, loose)
    ensures Logged(c, w.log, w.g)
  {
  }

  /** What is left of a round once its pending tokens are cancelled. */
  lemma CloseStarts(c: Chart, base: Image, w0: Work, w: Work, s: Id, loose: set<Id>, rs: seq<BranchResult>)
    requires Works(c, base, w0, map[], None, {s}) && Works(c, base, w, map[], None, loose)
    requires Sweeping(w0.g, w, s, {}, ScopeArms(w0.g, s), rs) && s in w.g.scopes && !JoinPolicyOf(c, w.g, s).NoPolicy?
    ensures Closing(c, w0, w, s, rs)
  {
    hide Works;
    SweepKeys(w0.g, w, s, {}, ScopeArms(w0.g, s), rs);
    ScopeFacts(c, base, w0, map[], None, {s});
    LogFacts(c, base, w, map[], None, loose);
    hide Sound;
    hide Logged;
    hide IdsBelow;
    NotInsideItself(c, w0.g, s);
    hide ScopesOk;
    SweptArms(w0.g, w.g, s);
    forall t | t in TokenArms(w.g, s) && !w.g.tokens[t].status.Cancelled?
      ensures w.g.tokens[t].node == w.g.scopes[s].joinNode
      ensures (w.g.tokens[t].outcome.Approved? || w.g.tokens[t].outcome.Rejected?)
    {
      WaitingFacts(c, base, w, map[], loose, t);
    }
  }

  /** A finished round: one result per expected branch, in event order, each
      naming an event already in the history. */
  ghost predicate RoundDone(w: Work, s: Id, results: seq<BranchResult>) {
    && s in w.g.scopes && |results| == w.g.scopes[s].expected && Ascending(results) && OnePerToken(results)
    && (forall k :: 0 <= k < |results| ==> Names(w.log, results[k], w.g.scopes[s].joinNode))
  }

  lemma RoundCounts(c: Chart, base: Image, w0: Work, s: Id)
    requires Works(c, base, w0, map[], None, {s}) && s in w0.g.scopes && w0.g.scopes[s].status.ScopeOpen?
    ensures |TokenArms(w0.g, s)| + |ScopeArms(w0.g, s)| == w0.g.scopes[s].expected
  {
    assert Conserved(w0.g, map[], s);
  }

  /** Nothing of the round is left running. */
  ghost predicate Quiesced(g: Image, s: Id) {
    forall t :: t in g.tokens && g.tokens[t].status.Live() ==>
      !Inside(g.scopes, g.tokens[t].scope, s) && (g.tokens[t].scope == s ==> t in Arrived(g, s))
  }

  lemma QuiescedAfter(c: Chart, base: Image, w0: Work, w: Work, s: Id, rs: seq<BranchResult>)
    requires Works(c, base, w0, map[], None, {s}) && Sweeping(w0.g, w, s, {}, ScopeArms(w0.g, s), rs)
    ensures Quiesced(w.g, s) && Arrived(w.g, s) == Arrived(w0.g, s) && w.g.scopes == w0.g.scopes
    ensures forall o :: Votes(w.g, s, o) == Votes(w0.g, s, o)
  {
    hide Works;
    SweptArms(w0.g, w.g, s);
    ScopeFacts(c, base, w0, map[], None, {s});
    NotInsideItself(c, w0.g, s);
    hide ScopesOk;
    hide Sound;
    hide IdsBelow;
    hide ParentsBelow;
    SweptVotes(w0.g, w.g, s);
    hide Votes;
    hide Arrived;
    hide PendingIn;
  }

  /** Whoever already waits keeps waiting with the same vote. */
  lemma SweptVotes(g0: Image, g: Image, s: Id)
    requires Swept(g0, g, PendingIn(g0, s), {}) && !Inside(g0.scopes, s, s)
    ensures Arrived(g, s) == Arrived(g0, s) && forall o :: Votes(g, s, o) == Votes(g0, s, o)
  {
    assert Arrived(g0, s) !! PendingIn(g0, s);
  }

  lemma Smaller(a: set<Id>, b: set<Id>)
    requires a < b
    ensures |a| < |b|
  {
    assert b == a + (b - a);
  }

  // ------------------------------------------------------------- firing a join

  lemma RootWaitsNone(c: Chart, base: Image, w: Work, pend: Pend, loose: set<Id>)
    requires Works(c, base, w, pend, None, loose)
    ensures Arrived(w.g, ROOT) == {} && (ROOT in w.g.scopes ==> JoinPolicyOf(c, w.g, ROOT).NoPolicy?)
  {
    assert ScopeOk(c, w.g, ROOT);
    forall t | t in w.g.tokens && w.g.tokens[t].scope == ROOT ensures !w.g.tokens[t].status.Waiting? {
      assert TokenOk(c, w.g, t, None);
    }
  }

  /** Only a scope with a join can fire one. */
  lemma NotRoot(c: Chart, base: Image, w: Work, pend: Pend, loose: set<Id>, s: Id)
    requires Works(c, base, w, pend, None, loose) && s in w.g.scopes
    requires Arrived(w.g, s) != {} || !JoinPolicyOf(c, w.g, s).NoPolicy?
    ensures s != ROOT && w.g.scopes[s].parent.Some? && w.g.scopes[s].parent.value in w.g.scopes
    ensures w.g.scopes[s].parent.value < s
    ensures IsJoinNode(c.d, w.g.scopes[s].joinNode) && |Routes(c.d, w.g.scopes[s].joinNode)| == 1
    ensures Home(c, w.g.scopes[s].joinNode).split == Side(c, w.g.scopes[w.g.scopes[s].parent.value])
  {
    RootWaitsNone(c, base, w, pend, loose);
    ScopeFacts(c, base, w, pend, None, loose);
    hide Works;
    assert ScopeOk(c, w.g, s);
    assert NodeSound(c, NodeOf(c.d, w.g.scopes[s].splitNode));
    assert NodeSound(c, NodeOf(c.d, w.g.scopes[s].joinNode));
  }

  lemma CountFactsOf(c: Chart, base: Image, w: Work, pend: Pend, flight: Option<Id>, loose: set<Id>, s: Id)
    requires Works(c, base, w, pend, flight, loose) && s in w.g.scopes && w.g.scopes[s].status.ScopeOpen?
    ensures Conserved(w.g, pend, s) && w.next !in w.g.tokens && w.next !in w.g.scopes
  {
  }

  lemma CanJoinPlain(c: Chart, base: Image, w: Work, pend: Pend, s: Id, p: Id)
    requires Works(c, base, w, pend, None, {s}) && s in w.g.scopes && w.g.scopes[s].status.ScopeOpen? && s != ROOT
    requires w.g.scopes[s].parent == Some(p) && p in w.g.scopes && p < s
    requires |Arrived(w.g, s)| + |Gone(w.g, s)| == w.g.scopes[s].expected
    ensures CanJoin(w.g, pend, {s}, s, p, Arrived(w.g, s), w.next) && NestedIn(w.g, s) == {}
  {
    hide Works;
    CountFactsOf(c, base, w, pend, None, {s}, s);
    PlainJoinIsQuiet(c, w.g, pend, s);
    hide Conserved;
    forall t | t in w.g.tokens && w.g.tokens[t].status.Live() && w.g.tokens[t].scope == s ensures t in Arrived(w.g, s) {
      assert t in TokenArms(w.g, s);
    }
    assert Pending(pend, s) == 0;
  }

  lemma CanJoinPolicy(c: Chart, base: Image, w: Work, s: Id, p: Id, nested: set<Id>)
    requires Works(c, base, w, map[], None, {s} + nested) && s in w.g.scopes && w.g.scopes[s].status.ScopeOpen?
    requires s != ROOT
    requires w.g.scopes[s].parent == Some(p) && p in w.g.scopes && p < s
    requires Quiesced(w.g, s) && nested == NestedIn(w.g, s)
    ensures CanJoin(w.g, map[], {s} + nested, s, p, Arrived(w.g, s), w.next)
  {
    hide Works;
    CountFactsOf(c, base, w, map[], None, {s} + nested, s);
    hide Conserved;
  }

  lemma RoundLogged(c: Chart, w: Work, s: Id, e: Event)
    requires Next(w.log, e) && e.body.Joined? && e.body.closed == s && RoundDone(w, s, e.body.results)
    requires e.body.verdict == VerdictOf(e.body.policy, e.body.results)
    ensures RoundOk(w.log + [e], w.g, |w.log|)
  {
    assert (w.log + [e])[|w.log|] == e;
    forall k | 0 <= k < |e.body.results| ensures Names(w.log + [e], e.body.results[k], w.g.scopes[s].joinNode) {
      NamesMore(w.log, e, e.body.results[k], w.g.scopes[s].joinNode);
    }
  }

  function CancelScopes(scopes: map<Id, Scope>, ids: set<Id>, seqNo: nat): map<Id, Scope> {
    map x | x in scopes :: if x in ids then CloseScope(scopes[x], ScopeCancelled, seqNo) else scopes[x]
  }

  lemma JoinScopesIs(g: Image, s: Id, seqNo: nat)
    requires s in g.scopes && !Inside(g.scopes, s, s)
    ensures JoinScopes(g.scopes, s, seqNo)
      == CancelScopes(g.scopes, NestedIn(g, s), seqNo)[s := CloseScope(g.scopes[s], ScopeJoined, seqNo)]
    ensures ClosedBy(g, s) == NestedIn(g, s) + {s}
  {
  }

  lemma SameNested(g0: Image, g: Image, s: Id)
    requires g.scopes == g0.scopes
    ensures NestedIn(g, s) == NestedIn(g0, s)
  {
  }

  /** The parent scope still stands around the join node. */
  lemma JoinKeeps(c: Chart, w: Work, s: Id, p: Id, e: Event)
    requires e.body.Joined? && Within(c, w.g, p, e.to)
    ensures Within(c, JoinsWork(w, s, p, e).g, p, e.to)
  {
  }

  lemma ScopesClosed(c: Chart, base: Image, w: Work, pend: Pend, loose: set<Id>, s: Id, nested: set<Id>, seqNo: nat)
    requires Works(c, base, w, pend, None, loose) && s in w.g.scopes && nested == NestedIn(w.g, s)
    ensures nested <= w.g.scopes.Keys && s !in nested
    ensures JoinScopes(w.g.scopes, s, seqNo)
      == CancelScopes(w.g.scopes, nested, seqNo)[s := CloseScope(w.g.scopes[s], ScopeJoined, seqNo)]
    ensures ClosedBy(w.g, s) == nested + {s}
  {
    hide Works;
    ScopeFacts(c, base, w, pend, None, loose);
    NotInsideItself(c, w.g, s);
    JoinScopesIs(w.g, s, seqNo);
  }
}
