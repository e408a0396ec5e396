/** The results of a policy round: one per branch, in event order. */
module Rounds {
  import opened Definitions
  import opened Soundness
  import opened JoinPolicies
  import opened Tokens
  import opened Replay
  import opened Invariant
  import opened History
  import opened Closings

  /** Every result names its own event of the log, no token twice. */
  ghost predicate Collected(log: seq<Event>, rs: seq<BranchResult>, join: string) {
    && (forall i :: 0 <= i < |rs| ==> Names(log, rs[i], join))
    && OnePerToken(rs)
  }

  lemma CollectMore(log: seq<Event>, e: Event, rs: seq<BranchResult>, join: string)
    requires Collected(log, rs, join)
    ensures Collected(log + [e], rs, join)
  {
    forall i | 0 <= i < |rs| ensures Names(log + [e], rs[i], join) { NamesMore(log, e, rs[i], join); }
  }

  function Insert(rs: seq<BranchResult>, r: BranchResult): seq<BranchResult> {
    if rs == [] || rs[|rs| - 1].seqNo < r.seqNo then rs + [r]
    else Insert(rs[..|rs| - 1], r) + [rs[|rs| - 1]]
  }

  lemma InsertHolds(rs: seq<BranchResult>, r: BranchResult)
    ensures multiset(Insert(rs, r)) == multiset(rs) + multiset{r} && |Insert(rs, r)| == |rs| + 1
  {
    if rs == [] || rs[|rs| - 1].seqNo < r.seqNo {
    } else {
      assert rs == rs[..|rs| - 1] + [rs[|rs| - 1]];
      InsertHolds(rs[..|rs| - 1], r);
    }
  }

  lemma {:induction false} InsertSorts(rs: seq<BranchResult>, r: BranchResult)
    requires Ascending(rs) && forall i :: 0 <= i < |rs| ==> rs[i].seqNo != r.seqNo
    ensures Ascending(Insert(rs, r))
  {
    if rs == [] || rs[|rs| - 1].seqNo < r.seqNo {
    } else {
      var front, last := rs[..|rs| - 1], rs[|rs| - 1];
      InsertSorts(front, r);
      InsertHolds(front, r);
      var mid := Insert(front, r);
      forall i | 0 <= i < |mid| ensures mid[i].seqNo < last.seqNo {
        assert mid[i] in multiset(front) + multiset{r};
      }
      assert Insert(rs, r) == mid + [last];
      hide Insert;
    }
  }

  /** Sorts by sequence number, keeping every result. */
  method SortResults(rs: seq<BranchResult>) returns (sorted: seq<BranchResult>)
    requires forall i, j :: 0 <= i < j < |rs| ==> rs[i].seqNo != rs[j].seqNo
    ensures Ascending(sorted) && multiset(sorted) == multiset(rs) && |sorted| == |rs|
  {
    sorted := [];
    var i := 0;
    while i < |rs|
      invariant 0 <= i <= |rs|
      invariant Ascending(sorted) && multiset(sorted) == multiset(rs[..i]) && |sorted| == i
    {
      forall k | 0 <= k < |sorted| ensures sorted[k].seqNo != rs[i].seqNo {
        assert sorted[k] in multiset(rs[..i]);
      }
      InsertSorts(sorted, rs[i]);
      InsertHolds(sorted, rs[i]);
      sorted := Insert(sorted, rs[i]);
      assert rs[..i + 1] == rs[..i] + [rs[i]];
      i := i + 1;
    }
    assert rs[..i] == rs;
  }

  lemma DistinctSeqs(log: seq<Event>, rs: seq<BranchResult>, join: string)
    requires Collected(log, rs, join)
    ensures forall i, j :: 0 <= i < j < |rs| ==> rs[i].seqNo != rs[j].seqNo
  {
  }

  /** Sorted results still name their events. */
  lemma SortedNames(log: seq<Event>, rs: seq<BranchResult>, sorted: seq<BranchResult>, join: string)
    requires Collected(log, rs, join) && multiset(sorted) == multiset(rs)
    ensures forall k :: 0 <= k < |sorted| ==> Names(log, sorted[k], join)
  {
    forall k | 0 <= k < |sorted| ensures Names(log, sorted[k], join) { assert sorted[k] in multiset(rs); }
  }

  lemma SortedTokens(rs: seq<BranchResult>, sorted: seq<BranchResult>)
    requires OnePerToken(rs) && Ascending(sorted) && multiset(sorted) == multiset(rs)
    ensures OnePerToken(sorted)
  {
    forall i, j | 0 <= i < j < |sorted| ensures sorted[i].token != sorted[j].token {
      assert sorted[i] in multiset(rs) && sorted[j] in multiset(rs);
      var a :| 0 <= a < |rs| && rs[a] == sorted[i];
      var b :| 0 <= b < |rs| && rs[b] == sorted[j];
      assert a != b;
    }
  }

  // ------------------------------------------------- every branch is running

  lemma BelowInherits(g: Image, x: Id, z: Id, s: Id)
    requires Inside(g.scopes, x, s) && z in g.scopes && g.scopes[z].status.ScopeOpen?
    requires g.scopes[z].parent == Some(x) && x != s && x < z
    ensures ChildOnPath(g.scopes, z, s) == ChildOnPath(g.scopes, x, s)
  {
  }

  /** Inside every open branch of a scope, some token is live. */
  lemma LiveBelow(c: Chart, g: Image, x: Id, s: Id, next: Id) returns (t: Id)
    requires ScopesOk(c, g) && Settled(c, g, map[], {s}) && (forall y :: y in g.scopes ==> y < next)
    requires Inside(g.scopes, x, s) && x != s
    ensures t in g.tokens && g.tokens[t].status.Live()
    ensures ChildOnPath(g.scopes, g.tokens[t].scope, s) == ChildOnPath(g.scopes, x, s)
    decreases next - x
  {
    assert Calm(c, g, map[], x);
    if u :| In(g, u, x) && g.tokens[u].status.Live() {
      t := u;
    } else {
      var z :| z in ScopeArms(g, x);
      assert ScopeOk(c, g, z);
      BelowInherits(g, x, z, s);
      InsideIsBelow(c, g, x, s);
      t := LiveBelow(c, g, z, s, next);
    }
  }

  // ------------------------------------------------------ cancelling in order

  /** The events from `from` on cancel tokens, oldest first, counting from where
      they entered their nodes in `before`; the tokens of `todo` are still as they
      were there, and none of them is older than one cancelled already. */
  predicate OldestFirst(before: map<Id, Token>, after: map<Id, Token>, events: seq<Event>, from: nat, todo: set<Id>) {
    && from <= |events|
    && (forall i :: from <= i < |events| ==> events[i].body.TokenCancelled? && events[i].token in before)
    && (forall i, j :: from <= i < j < |events| ==>
          before[events[i].token].enteredSeq <= before[events[j].token].enteredSeq)
    && (forall t :: t in todo ==> t in before && t in after && after[t] == before[t])
    && (forall i, t :: from <= i < |events| && t in todo ==> before[events[i].token].enteredSeq <= before[t].enteredSeq)
  }

  lemma OldestStarts(tokens: map<Id, Token>, events: seq<Event>, todo: set<Id>)
    requires todo <= tokens.Keys
    ensures OldestFirst(tokens, tokens, events, |events|, todo)
  {
  }

  lemma OldestNext(before: map<Id, Token>, a: map<Id, Token>, b: map<Id, Token>, events: seq<Event>, from: nat,
                   todo: set<Id>, t: Id, e: Event)
    requires OldestFirst(before, a, events, from, todo) && t in todo && todo <= a.Keys
    requires forall u :: u in todo ==> a[t].enteredSeq <= a[u].enteredSeq
    requires e.token == t && e.body.TokenCancelled? && forall u :: u in todo && u != t ==> u in b && b[u] == a[u]
    ensures OldestFirst(before, b, events + [e], from, todo - {t})
  {
  }

  /** The same, behind the history; another event follows them. */
  lemma OldestStored(before: map<Id, Token>, after: map<Id, Token>, log: seq<Event>, events: seq<Event>)
    requires events != [] && OldestFirst(before, after, events[..|events| - 1], 0, {})
    ensures OldestFirst(before, after, (log + events)[..|log + events| - 1], |log|, {})
  {
    var some := events[..|events| - 1];
    var all := log + some;
    assert (log + events)[..|log + events| - 1] == all;
    forall i | |log| <= i < |all| ensures all[i] == some[i - |log|] {}
    forall i, j | |log| <= i < j < |all| ensures before[all[i].token].enteredSeq <= before[all[j].token].enteredSeq {
      assert all[i] == some[i - |log|] && all[j] == some[j - |log|];
    }
  }

  /** The earliest of a set of tokens. */
  lemma Earliest(tokens: map<Id, Token>, ids: set<Id>)
    requires ids != {} && ids <= tokens.Keys
    ensures exists t :: t in ids && forall u :: u in ids ==> tokens[t].enteredSeq <= tokens[u].enteredSeq
  {
    var t :| t in ids;
    var rest := ids - {t};
    assert ids == rest + {t};
    if rest != {} {
      Earliest(tokens, rest);
      var m :| m in rest && forall u :: u in rest ==> tokens[m].enteredSeq <= tokens[u].enteredSeq;
      var best := if tokens[m].enteredSeq <= tokens[t].enteredSeq then m else t;
      assert forall u :: u in ids ==> tokens[best].enteredSeq <= tokens[u].enteredSeq;
    }
  }

  // ------------------------------------------------------ counting the votes

  lemma DropOne(a: set<Id>, todo: set<Id>, t: Id)
    requires t in todo
    ensures t in a ==> a - (todo - {t}) == (a - todo) + {t} && |a - (todo - {t})| == |a - todo| + 1
    ensures t !in a ==> a - (todo - {t}) == a - todo
  {
    if t in a { assert a - (todo - {t}) == (a - todo) + {t}; } else { assert a - (todo - {t}) == a - todo; }
  }

  datatype Count = Count(waiting: set<Id>, approved: nat, rejected: nat, cancelled: nat)

  /** What token `t` of scope `s` adds to the count. */
  function Add(n: Count, t: Id, k: Token): Count {
    if k.status.Waiting? then
      n.(waiting := n.waiting + {t},
         approved := n.approved + (if k.outcome.Approved? then 1 else 0),
         rejected := n.rejected + (if k.outcome.Rejected? then 1 else 0))
    else if k.status.Cancelled? then n.(cancelled := n.cancelled + 1)
    else n
  }

  /** `n` counts every token of `s` outside `todo`. */
  ghost predicate Counts(g: Image, s: Id, todo: set<Id>, n: Count) {
    && n.waiting == Arrived(g, s) - todo
    && n.approved == |Votes(g, s, Approved) - todo|
    && n.rejected == |Votes(g, s, Rejected) - todo|
    && n.cancelled == |Gone(g, s) - todo|
  }

  lemma CountFacts(g: Image, s: Id, t: Id)
    requires t in g.tokens
    ensures t in Arrived(g, s) <==> g.tokens[t].scope == s && g.tokens[t].status.Waiting?
    ensures forall o :: t in Votes(g, s, o) <==>
      g.tokens[t].scope == s && g.tokens[t].status.Waiting? && g.tokens[t].outcome == o
    ensures t in Gone(g, s) <==> g.tokens[t].scope == s && g.tokens[t].status.Cancelled?
  {
  }

  lemma CountStep(g: Image, s: Id, todo: set<Id>, n: Count, t: Id)
    requires Counts(g, s, todo, n) && t in todo && t in g.tokens
    ensures Counts(g, s, todo - {t}, if g.tokens[t].scope == s then Add(n, t, g.tokens[t]) else n)
  {
    CountFacts(g, s, t);
    hide Arrived;
    hide Votes;
    hide Gone;
    DropOne(Arrived(g, s), todo, t);
    DropOne(Votes(g, s, Approved), todo, t);
    DropOne(Votes(g, s, Rejected), todo, t);
    DropOne(Gone(g, s), todo, t);
  }

  lemma CountStart(g: Image, s: Id)
    ensures Counts(g, s, g.tokens.Keys, Count({}, 0, 0, 0))
  {
    assert Votes(g, s, Approved) - g.tokens.Keys == {};
    assert Votes(g, s, Rejected) - g.tokens.Keys == {};
    assert Gone(g, s) - g.tokens.Keys == {};
  }

  lemma CountEnd(g: Image, s: Id, n: Count)
    requires Counts(g, s, {}, n)
    ensures n == Count(Arrived(g, s), |Votes(g, s, Approved)|, |Votes(g, s, Rejected)|, |Gone(g, s)|)
  {
    assert Votes(g, s, Approved) - {} == Votes(g, s, Approved);
    assert Votes(g, s, Rejected) - {} == Votes(g, s, Rejected);
    assert Gone(g, s) - {} == Gone(g, s);
  }

  /** Counts what the tokens of `s` say: who waits, how they voted and who is
      cancelled. It gives up on a waiting token whose vote a policy cannot read. */
  method CountRound(g: Image, s: Id, policy: Policy) returns (n: Count, bad: Option<Id>)
    ensures bad.Some? ==> !policy.NoPolicy? && bad.value in Arrived(g, s)
    ensures bad.Some? ==> !g.tokens[bad.value].outcome.Approved? && !g.tokens[bad.value].outcome.Rejected?
    ensures bad.None? ==> n == Count(Arrived(g, s), |Votes(g, s, Approved)|, |Votes(g, s, Rejected)|, |Gone(g, s)|)
    ensures bad.None? && !policy.NoPolicy? ==>
      forall t :: t in Arrived(g, s) ==> g.tokens[t].outcome.Approved? || g.tokens[t].outcome.Rejected?
  {
    var todo := g.tokens.Keys;
    n := Count({}, 0, 0, 0);
    CountStart(g, s);
    while todo != {}
      invariant todo <= g.tokens.Keys && Counts(g, s, todo, n)
      invariant !policy.NoPolicy? ==>
        forall t :: t in Arrived(g, s) && t !in todo ==> g.tokens[t].outcome.Approved? || g.tokens[t].outcome.Rejected?
      decreases |todo|
    {
      var t :| t in todo;
      CountStep(g, s, todo, n, t);
      hide Counts;
      todo := todo - {t};
      if g.tokens[t].scope == s {
        var k := g.tokens[t];
        if k.status.Waiting? && !k.outcome.Approved? && !k.outcome.Rejected? && !policy.NoPolicy? {
          return n, Some(t);
        }
        n := Add(n, t, k);
      }
    }
    CountEnd(g, s, n);
    bad := None;
  }

  // ------------------------------------------------------ closing the branches

  /** The tokens a round that closes early still has to cancel. */
  function PendingIn(g: Image, s: Id): set<Id> {
    set t | t in g.tokens && ((g.tokens[t].scope == s && g.tokens[t].status.Active?)
                              || (Inside(g.scopes, g.tokens[t].scope, s) && g.tokens[t].status.Live()))
  }

  function NestedIn(g: Image, s: Id): set<Id> { set x | x in g.scopes && Inside(g.scopes, x, s) }

  /** `g` is `g0` with the tokens of `all` outside `todo` cancelled. */
  ghost predicate Swept(g0: Image, g: Image, all: set<Id>, todo: set<Id>) {
    && g.scopes == g0.scopes && g.tokens.Keys == g0.tokens.Keys
    && (forall t :: t in g.tokens ==>
          if t in all && t !in todo then g.tokens[t].status.Cancelled? && g.tokens[t].scope == g0.tokens[t].scope
          else g.tokens[t] == g0.tokens[t])
  }

  lemma SweepStep(g0: Image, g: Image, all: set<Id>, todo: set<Id>, t: Id, seqNo: nat, at: int)
    requires Swept(g0, g, all, todo) && t in todo && t in all && t in g.tokens
    ensures Swept(g0, g.(tokens := EndOne(g.tokens, t, Cancelled, seqNo, at)), all, todo - {t})
  {
  }

  /** One result for each branch of `s` that ran a nested block and has had a
      token cancelled. */
  ghost predicate Reported(g0: Image, s: Id, all: set<Id>, todo: set<Id>, reported: set<Id>, rs: seq<BranchResult>) {
    && |rs| == |reported| && reported <= ScopeArms(g0, s)
    && (forall t :: t in all && t !in todo && t in g0.tokens && Inside(g0.scopes, g0.tokens[t].scope, s) ==>
          ChildOnPath(g0.scopes, g0.tokens[t].scope, s).value in reported)
    && (forall i :: 0 <= i < |rs| ==>
          rs[i].token in g0.tokens && rs[i].token !in todo && Inside(g0.scopes, g0.tokens[rs[i].token].scope, s) &&
            rs[i].outcome.Unanswered?)
  }

  lemma ReportSame(g0: Image, s: Id, all: set<Id>, todo: set<Id>, reported: set<Id>, rs: seq<BranchResult>, t: Id)
    requires Reported(g0, s, all, todo, reported, rs) && t in todo && t in g0.tokens
    requires Inside(g0.scopes, g0.tokens[t].scope, s) ==>
      ChildOnPath(g0.scopes, g0.tokens[t].scope, s).value in reported
    ensures Reported(g0, s, all, todo - {t}, reported, rs)
  {
  }

  lemma ReportNew(g0: Image, s: Id, all: set<Id>, todo: set<Id>, reported: set<Id>, rs: seq<BranchResult>, t: Id,
                  child: Id, seqNo: nat)
    requires Reported(g0, s, all, todo, reported, rs) && t in todo && t in g0.tokens
    requires ChildOnPath(g0.scopes, g0.tokens[t].scope, s) == Some(child) && child !in reported
    ensures Reported(g0, s, all, todo - {t}, reported + {child}, rs + [BranchResult(t, Unanswered, seqNo)])
  {
    assert child in ScopeArms(g0, s);
  }

  /** Once every pending token is cancelled, every open branch is reported. */
  lemma AllReported(c: Chart, g0: Image, s: Id, next: Id, reported: set<Id>, rs: seq<BranchResult>)
    requires ScopesOk(c, g0) && Settled(c, g0, map[], {s}) && forall y :: y in g0.scopes ==> y < next
    requires Reported(g0, s, PendingIn(g0, s), {}, reported, rs)
    ensures reported == ScopeArms(g0, s)
  {
    forall x | x in ScopeArms(g0, s) ensures x in reported {
      assert ScopeOk(c, g0, x);
      assert ChildOnPath(g0.scopes, x, s) == Some(x);
      var t := LiveBelow(c, g0, x, s, next);
      assert t in PendingIn(g0, s);
    }
  }

  /** The result a waiting or cancelled token of the closing scope gives. */
  function OwnResult(t: Id, k: Token): BranchResult {
    if k.status.Waiting? then BranchResult(t, k.outcome, k.enteredSeq) else BranchResult(t, Unanswered, k.endedSeq)
  }

  /** The results hold an approval, or a rejection, exactly when a token waiting
      in the scope cast one. */
  ghost predicate Tallied(g: Image, s: Id, rs: seq<BranchResult>) {
    && (Given(rs, Approved) <==> Votes(g, s, Approved) != {})
    && (Given(rs, Rejected) <==> Votes(g, s, Rejected) != {})
  }

  lemma TallySorted(g: Image, s: Id, rs: seq<BranchResult>, sorted: seq<BranchResult>)
    requires Tallied(g, s, rs) && multiset(sorted) == multiset(rs)
    ensures Tallied(g, s, sorted)
  {
    GivenSorted(rs, sorted, Approved);
    GivenSorted(rs, sorted, Rejected);
  }

  lemma GivenSorted(a: seq<BranchResult>, b: seq<BranchResult>, o: Outcome)
    requires multiset(a) == multiset(b)
    ensures Given(a, o) <==> Given(b, o)
  {
    if i :| 0 <= i < |a| && a[i].outcome == o { assert a[i] in multiset(b); }
    if i :| 0 <= i < |b| && b[i].outcome == o { assert b[i] in multiset(a); }
  }

  /** A round rules what its results call for. */
  lemma VerdictFits(c: Chart, g: Image, s: Id, rs: seq<BranchResult>, verdict: Outcome)
    requires s in g.scopes && !JoinPolicyOf(c, g, s).NoPolicy? && RulingAt(c, g, s) == Closed(verdict)
    requires Tallied(g, s, rs)
    ensures verdict == VerdictOf(JoinPolicyOf(c, g, s), rs)
  {
  }

  lemma OwnNames(c: Chart, log: seq<Event>, g: Image, t: Id, join: string)
    requires Logged(c, log, g) && t in g.tokens
    requires g.tokens[t].status.Cancelled? || (g.tokens[t].status.Waiting? && g.tokens[t].node == join
               && (g.tokens[t].outcome.Approved? || g.tokens[t].outcome.Rejected?))
    ensures var r := OwnResult(t, g.tokens[t]); Names(log, r, join)
  {
    assert TokenLogged(c, log, g, t);
  }

  lemma CollectOne(log: seq<Event>, rs: seq<BranchResult>, join: string, r: BranchResult)
    requires Collected(log, rs, join) && forall i :: 0 <= i < |rs| ==> rs[i].token != r.token
    requires Names(log, r, join)
    ensures Collected(log, rs + [r], join)
  {
  }
}
