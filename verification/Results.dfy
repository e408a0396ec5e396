/** Reading the closed rounds of a case back from its history. */
module Results {
  import opened Definitions
  import opened Soundness
  import opened Tokens
  import opened Replay
  import opened History
  import opened WorkingCopy

  datatype JoinBranch = JoinBranch(result: BranchResult, actor: Actor, comment: string, cause: string)

  datatype JoinResult = JoinResult(
    scope: Id, join: string, policy: Policy, verdict: Outcome, seqNo: nat, branches: seq<JoinBranch>)

  predicate IsRound(e: Event) { e.body.Joined? && !e.body.policy.NoPolicy? }

  function CommentOf(e: Event): string { if e.body.Moved? then e.body.comment else "" }

  /** Why the event happened on its own, if it did. */
  function CauseOf(e: Event): string {
    match e.body
    case Moved(_, _, _, cause) => cause
    case TokenCancelled(reason) => reason
    case _ => ""
  }

  /** Every result of round `i` names an event of the case. */
  predicate Resolvable(log: seq<Event>, i: nat)
    requires i < |log| && IsRound(log[i])
  {
    forall k :: 0 <= k < |log[i].body.results| ==> 1 <= log[i].body.results[k].seqNo <= |log|
  }

  function BranchAt(log: seq<Event>, r: BranchResult): JoinBranch
    requires 1 <= r.seqNo <= |log|
  {
    var e := log[r.seqNo - 1];
    JoinBranch(r, e.actor, CommentOf(e), CauseOf(e))
  }

  /** Round `i` with each branch's actor, comment and cause. */
  function RoundAt(log: seq<Event>, i: nat): JoinResult
    requires i < |log| && IsRound(log[i]) && Resolvable(log, i)
  {
    var b := log[i].body;
    JoinResult(b.closed, log[i].to, b.policy, b.verdict, log[i].seqNo,
               seq(|b.results|, k requires 0 <= k < |b.results| => BranchAt(log, b.results[k])))
  }

  /** The rounds among the first `n` events, oldest first. */
  function RoundsOf(log: seq<Event>, n: nat): seq<JoinResult>
    requires n <= |log| && forall i :: 0 <= i < n && IsRound(log[i]) ==> Resolvable(log, i)
  {
    if n == 0 then []
    else RoundsOf(log, n - 1) + (if IsRound(log[n - 1]) then [RoundAt(log, n - 1)] else [])
  }

  lemma {:induction false} RoundsCounted(log: seq<Event>, n: nat)
    requires n <= |log| && forall i :: 0 <= i < n && IsRound(log[i]) ==> Resolvable(log, i)
    ensures |RoundsOf(log, n)| == PolicyJoins(log[..n])
  {
    if n > 0 {
      RoundsCounted(log, n - 1);
      assert log[..n][..n - 1] == log[..n - 1];
    }
  }

  /** The branches of one round, looked up by sequence number. */
  method ResolveBranches(log: seq<Event>, bySeq: map<nat, Event>, i: nat) returns (branches: Option<seq<JoinBranch>>)
    requires i < |log| && IsRound(log[i])
    requires forall q :: q in bySeq <==> 1 <= q <= |log|
    requires forall q :: q in bySeq ==> bySeq[q] == log[q - 1]
    ensures branches.Some? <==> Resolvable(log, i)
    ensures branches.Some? ==> branches.value == RoundAt(log, i).branches
  {
    var results := log[i].body.results;
    var out := [];
    var k := 0;
    while k < |results|
      invariant 0 <= k <= |results| && |out| == k
      invariant forall j :: 0 <= j < k ==> 1 <= results[j].seqNo <= |log| && out[j] == BranchAt(log, results[j])
    {
      if results[k].seqNo !in bySeq { return None; }
      var e := bySeq[results[k].seqNo];
      out := out + [JoinBranch(results[k], e.actor, CommentOf(e), CauseOf(e))];
      k := k + 1;
    }
    return Some(out);
  }

  /** `b` tells who gave the branch result `r`, with what comment, and why if
      nobody did, as event `e` has it. */
  predicate TellsBranch(e: Event, r: BranchResult, b: JoinBranch) {
    && b.result == r && b.actor == e.actor
    && (e.body.Moved? ==> b.comment == e.body.comment && b.cause == e.body.cause)
    && (e.body.TokenCancelled? ==> b.comment == "" && b.cause == e.body.reason)
    && (!e.body.Moved? && !e.body.TokenCancelled? ==> b.comment == "" && b.cause == "")
  }

  /** `r` tells the round event `e` closed, each branch by the event it names. */
  predicate TellsRound(log: seq<Event>, e: Event, r: JoinResult) {
    && e.body.Joined? && r.scope == e.body.closed && r.join == e.to && r.policy == e.body.policy
    && r.verdict == e.body.verdict && r.seqNo == e.seqNo && |r.branches| == |e.body.results|
    && forall k :: 0 <= k < |r.branches| ==>
         && 1 <= e.body.results[k].seqNo <= |log|
         && TellsBranch(log[e.body.results[k].seqNo - 1], e.body.results[k], r.branches[k])
  }

  /** `rs` tell, in order, the rounds closed by the events `at`, and those are all
      the events that close one. */
  ghost predicate TellsAll(log: seq<Event>, at: seq<nat>, rs: seq<JoinResult>) {
    && |at| == |rs| && (forall i, j :: 0 <= i < j < |at| ==> at[i] < at[j])
    && (forall i: nat :: i in at <==> i < |log| && log[i].body.Joined? && !log[i].body.policy.NoPolicy?)
    && (forall m :: 0 <= m < |at| ==> at[m] < |log| && TellsRound(log, log[at[m]], rs[m]))
  }

  lemma RoundTells(log: seq<Event>, i: nat)
    requires i < |log| && IsRound(log[i]) && Resolvable(log, i)
    ensures TellsRound(log, log[i], RoundAt(log, i))
  {
  }

  lemma {:induction false} RoundsTell(log: seq<Event>, n: nat) returns (at: seq<nat>)
    requires n <= |log| && forall i :: 0 <= i < n && IsRound(log[i]) ==> Resolvable(log, i)
    ensures |at| == |RoundsOf(log, n)| && (forall i, j :: 0 <= i < j < |at| ==> at[i] < at[j])
    ensures forall i: nat :: i in at <==> i < n && IsRound(log[i])
    ensures forall m :: 0 <= m < |at| ==> at[m] < |log| && TellsRound(log, log[at[m]], RoundsOf(log, n)[m])
  {
    at := [];
    if n > 0 {
      at := RoundsTell(log, n - 1);
      if IsRound(log[n - 1]) {
        RoundTells(log, n - 1);
        forall i | 0 <= i < |at| ensures at[i] < n - 1 { assert at[i] in at; }
        ghost var before := at;
        at := at + [n - 1];
        forall i: nat ensures i in at <==> i in before || i == n - 1 {}
      }
    }
  }

  /** One result per fired join with a policy, oldest first; it fails exactly
      when a round names an event the history lacks. */
  method JoinResults(log: seq<Event>) returns (r: Option<seq<JoinResult>>)
    requires Numbered(log)
    ensures r.Some? <==> forall i :: 0 <= i < |log| && IsRound(log[i]) ==> Resolvable(log, i)
    ensures r.Some? ==> r.value == RoundsOf(log, |log|) && |r.value| == PolicyJoins(log)
    ensures r.Some? ==> exists at :: TellsAll(log, at, r.value)
  {
    var bySeq: map<nat, Event> := map[];
    var i := 0;
    while i < |log|
      invariant 0 <= i <= |log|
      invariant forall q :: q in bySeq <==> 1 <= q <= i
      invariant forall q :: q in bySeq ==> bySeq[q] == log[q - 1]
    {
      bySeq := bySeq[log[i].seqNo := log[i]];
      i := i + 1;
    }
    var results := [];
    i := 0;
    while i < |log|
      invariant 0 <= i <= |log|
      invariant forall j :: 0 <= j < i && IsRound(log[j]) ==> Resolvable(log, j)
      invariant results == RoundsOf(log, i)
    {
      var e := log[i];
      if e.body.Joined? && !e.body.policy.NoPolicy? {
        var branches := ResolveBranches(log, bySeq, i);
        if branches.None? { return None; }
        results := results + [JoinResult(e.body.closed, e.to, e.body.policy, e.body.verdict, e.seqNo, branches.value)];
      }
      i := i + 1;
    }
    RoundsCounted(log, |log|);
    assert log[..|log|] == log;
    ghost var at := RoundsTell(log, |log|);
    assert TellsAll(log, at, results);
    return Some(results);
  }

  /** The branch was answered by a move along a transition with that vote. */
  ghost predicate Answered(c: Chart, log: seq<Event>, r: BranchResult) {
    1 <= r.seqNo <= |log| && exists tr :: Along(c.d, log[r.seqNo - 1], tr) && tr.outcome == r.outcome
  }

  /** On a case's own history reading the rounds never misses an event; each
      round holds one result per branch of its scope, each of another token,
      oldest first, naming the move or the cancellation of that token. A move
      counts as the vote its transition carries, and the verdict is the one the
      join's own policy draws from those votes. */
  lemma RoundsComplete(c: Chart, log: seq<Event>, g: Image, i: nat)
    requires Logged(c, log, g) && i < |log| && IsRound(log[i])
    ensures Resolvable(log, i) && log[i].body.closed in g.scopes
    ensures |RoundAt(log, i).branches| == g.scopes[log[i].body.closed].expected && Ascending(log[i].body.results)
    ensures OnePerToken(log[i].body.results)
    ensures forall k :: 0 <= k < |log[i].body.results| ==>
      Names(log, log[i].body.results[k], g.scopes[log[i].body.closed].joinNode)
    ensures forall k :: 0 <= k < |log[i].body.results| && !log[i].body.results[k].outcome.Unanswered? ==>
      Answered(c, log, log[i].body.results[k])
    ensures log[i].body.policy == NodeOf(c.d, g.scopes[log[i].body.closed].joinNode).policy
    ensures log[i].body.verdict == VerdictOf(log[i].body.policy, log[i].body.results)
  {
    assert EventLogged(c, log, g, i);
    var rs := log[i].body.results;
    forall k | 0 <= k < |rs| && !rs[k].outcome.Unanswered? ensures Answered(c, log, rs[k]) {
      assert Names(log, rs[k], g.scopes[log[i].body.closed].joinNode);
      assert EventLogged(c, log, g, rs[k].seqNo);
    }
  }
}
