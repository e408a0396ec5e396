/** What the history of a case says about the state it rebuilds. */
module History {
  import opened Definitions
  import opened Soundness
  import opened Tokens
  import opened Replay

  predicate Numbered(log: seq<Event>) {
    forall i :: 0 <= i < |log| ==> log[i].seqNo == i + 1
  }

  /** `e` puts its token on node `e.to`. */
  predicate Enters(e: Event) { e.body.Opened? || e.body.Moved? }

  /** `e` records a move along `tr`. */
  predicate Along(d: Definition, e: Event, tr: Transition) {
    && e.body.Moved? && tr in d.transitions
    && tr.from == e.from && tr.to == e.to && tr.action == e.body.action
  }

  /** Each token's sequence numbers name the events about that very token. */
  ghost predicate TokenLogged(c: Chart, log: seq<Event>, g: Image, t: Id)
    requires t in g.tokens
  {
    var k := g.tokens[t];
    && (k.enteredSeq > 0 ==>
          && k.enteredSeq <= |log| && Enters(log[k.enteredSeq - 1])
          && log[k.enteredSeq - 1].token == t && log[k.enteredSeq - 1].to == k.node)
    && (k.enteredSeq == 0 ==> !Rests(c.d, k.node))
    && (k.status.Waiting? ==>
          && 0 < k.enteredSeq < |log| && log[k.enteredSeq - 1].body.Moved?
          && log[k.enteredSeq].token == t && log[k.enteredSeq].body == WaitingAtJoin(k.outcome))
    && (k.status.Cancelled? ==>
          && 1 <= k.endedSeq <= |log| && log[k.endedSeq - 1].body.TokenCancelled? && log[k.endedSeq - 1].token == t)
  }

  /** The event a branch result names is the one to read about that branch: its
      cancellation, or the move that cast the vote the next event records. */
  predicate Names(log: seq<Event>, r: BranchResult, join: string) {
    && 1 <= r.seqNo <= |log| && log[r.seqNo - 1].token == r.token
    && if r.outcome.Unanswered? then log[r.seqNo - 1].body.TokenCancelled?
       else
         && log[r.seqNo - 1].body.Moved? && log[r.seqNo - 1].to == join && (r.outcome.Approved? || r.outcome.Rejected?)
         && r.seqNo < |log| && log[r.seqNo].token == r.token && log[r.seqNo].body == WaitingAtJoin(r.outcome)
  }

  predicate Given(results: seq<BranchResult>, o: Outcome) { exists i :: 0 <= i < |results| && results[i].outcome == o }

  /** The verdict the results of a round call for. */
  function VerdictOf(p: Policy, results: seq<BranchResult>): Outcome {
    match p
    case AllApprove => if Given(results, Rejected) then Rejected else Approved
    case AnyApprove => if Given(results, Approved) then Approved else Rejected
    case Collect => NoOutcome
    case NoPolicy => NoOutcome
  }

  predicate Ascending(results: seq<BranchResult>) {
    forall i, j :: 0 <= i < j < |results| ==> results[i].seqNo < results[j].seqNo
  }

  predicate OnePerToken(results: seq<BranchResult>) {
    forall i, j :: 0 <= i < j < |results| ==> results[i].token != results[j].token
  }

  /** A closed round holds one result per branch of its scope, oldest first,
      each naming an earlier event of the case, and the verdict they call for. */
  ghost predicate RoundOk(log: seq<Event>, g: Image, i: nat)
    requires i < |log| && log[i].body.Joined?
  {
    var b := log[i].body;
    && b.closed in g.scopes
    && |b.results| == g.scopes[b.closed].expected
    && Ascending(b.results) && OnePerToken(b.results) && b.verdict == VerdictOf(b.policy, b.results)
    && (forall k :: 0 <= k < |b.results| ==>
          b.results[k].seqNo <= i && Names(log, b.results[k], g.scopes[b.closed].joinNode))
  }

  ghost predicate EntryLogged(c: Chart, log: seq<Event>, g: Image, i: nat)
    requires i < |log| && Enters(log[i])
  {
    var e := log[i];
    && e.token in g.tokens && g.tokens[e.token].scope == e.scope && e.scope in g.scopes
    && (Rests(c.d, e.to) ==> Home(c, e.to).split == Side(c, g.scopes[e.scope]))
    && (e.body.Moved? ==> exists tr :: Along(c.d, e, tr))
    && (e.body.Moved? && Rests(c.d, e.from) ==>
          exists j :: 0 <= j < i && Enters(log[j]) && log[j].token == e.token && log[j].to == e.from)
  }

  /** A token arrives at a join with the vote of the transition it just took. */
  ghost predicate VoteLogged(c: Chart, log: seq<Event>, i: nat)
    requires i < |log| && log[i].body.WaitingAtJoin?
  {
    && i > 0 && log[i - 1].token == log[i].token
    && exists tr :: Along(c.d, log[i - 1], tr) && tr.outcome == log[i].body.outcome
  }

  /** A join fires under the policy of its own node, and without one it gives no
      verdict. */
  predicate Ruled(c: Chart, g: Image, b: Body)
    requires b.Joined?
  {
    && b.closed in g.scopes && b.policy == NodeOf(c.d, g.scopes[b.closed].joinNode).policy
    && (b.policy.NoPolicy? ==> b.verdict.NoOutcome? && b.results == [])
  }

  /** A scope joins once, at the event its row names. */
  ghost predicate JoinLogged(c: Chart, log: seq<Event>, g: Image, i: nat)
    requires i < |log| && log[i].body.Joined?
  {
    var b := log[i].body;
    && b.closed in g.scopes && g.scopes[b.closed].status.ScopeJoined? && g.scopes[b.closed].closedSeq == i + 1
    && Ruled(c, g, b) && (!b.policy.NoPolicy? ==> RoundOk(log, g, i))
  }

  /** `n` is a number of branches split `node` may take: all of them if it is
      parallel. */
  predicate Fans(d: Definition, node: string, n: nat) {
    1 <= n <= |Routes(d, node)| && (NodeOf(d, node).kind.Parallel? ==> n == |Routes(d, node)|)
  }

  /** A split opens one scope and expects it to end as many branches as it
      started. */
  ghost predicate ForkLogged(c: Chart, log: seq<Event>, g: Image, i: nat)
    requires i < |log| && log[i].body.SplitOpened?
  {
    var b := log[i].body;
    && b.child in g.scopes && g.scopes[b.child].splitNode == log[i].to
    && g.scopes[b.child].expected == |b.branches| && Fans(c.d, log[i].to, |b.branches|)
  }

  ghost predicate EventLogged(c: Chart, log: seq<Event>, g: Image, i: nat)
    requires i < |log|
  {
    && (Enters(log[i]) ==> EntryLogged(c, log, g, i))
    && (log[i].body.Joined? ==> JoinLogged(c, log, g, i))
    && (log[i].body.WaitingAtJoin? ==> VoteLogged(c, log, i))
    && (log[i].body.SplitOpened? ==> ForkLogged(c, log, g, i))
  }

  ghost predicate Logged(c: Chart, log: seq<Event>, g: Image) {
    && Numbered(log)
    && (forall t :: t in g.tokens ==> TokenLogged(c, log, g, t))
    && (forall i :: 0 <= i < |log| ==> EventLogged(c, log, g, i))
  }

  // ------------------------------------------------------ appending an event

  /** State only grows: rows keep their identity and a joined scope is final. */
  ghost predicate Grows(g: Image, g2: Image) {
    && (forall t :: t in g.tokens ==> t in g2.tokens && g2.tokens[t].scope == g.tokens[t].scope)
    && (forall s :: s in g.scopes ==>
          && s in g2.scopes
          && g2.scopes[s].splitNode == g.scopes[s].splitNode && g2.scopes[s].joinNode == g.scopes[s].joinNode
          && g2.scopes[s].expected == g.scopes[s].expected && g2.scopes[s].parent == g.scopes[s].parent
          && (g.scopes[s].status.ScopeJoined? ==> g2.scopes[s] == g.scopes[s]))
  }

  lemma OldEvent(c: Chart, log: seq<Event>, g: Image, g2: Image, e: Event, i: nat)
    requires i < |log| && EventLogged(c, log, g, i) && Grows(g, g2)
    ensures EventLogged(c, log + [e], g2, i)
  {
    var log2 := log + [e];
    assert log2[i] == log[i];
    if Enters(log[i]) && log[i].body.Moved? && Rests(c.d, log[i].from) {
      var j :| 0 <= j < i && Enters(log[j]) && log[j].token == log[i].token && log[j].to == log[i].from;
      assert log2[j] == log[j];
    }
    if log[i].body.WaitingAtJoin? && i > 0 { assert log2[i - 1] == log[i - 1]; }
    if log[i].body.Joined? && !log[i].body.policy.NoPolicy? {
      OldRound(log, g, g2, e, i);
    }
  }

  lemma OldRound(log: seq<Event>, g: Image, g2: Image, e: Event, i: nat)
    requires i < |log| && log[i].body.Joined? && RoundOk(log, g, i) && Grows(g, g2)
    ensures RoundOk(log + [e], g2, i)
  {
    var b := log[i].body;
    assert (log + [e])[i] == log[i];
    forall k | 0 <= k < |b.results| ensures Names(log + [e], b.results[k], g2.scopes[b.closed].joinNode) {
      NamesMore(log, e, b.results[k], g.scopes[b.closed].joinNode);
    }
  }

  lemma NamesMore(log: seq<Event>, e: Event, r: BranchResult, join: string)
    requires Names(log, r, join)
    ensures Names(log + [e], r, join)
  {
    assert (log + [e])[r.seqNo - 1] == log[r.seqNo - 1];
    if r.seqNo < |log| { assert (log + [e])[r.seqNo] == log[r.seqNo]; }
  }

  /** The token facts an appended event must not disturb. */
  ghost predicate KeepsToken(g: Image, g2: Image, t: Id) {
    && t in g.tokens && t in g2.tokens
    && g2.tokens[t].enteredSeq == g.tokens[t].enteredSeq && g2.tokens[t].node == g.tokens[t].node
    && (g2.tokens[t].status.Waiting? ==> g.tokens[t].status.Waiting? && g2.tokens[t].outcome == g.tokens[t].outcome)
    && (g2.tokens[t].status.Cancelled? ==>
        g.tokens[t].status.Cancelled? && g2.tokens[t].endedSeq == g.tokens[t].endedSeq)
  }

  lemma OldToken(c: Chart, log: seq<Event>, g: Image, g2: Image, e: Event, t: Id)
    requires KeepsToken(g, g2, t) && TokenLogged(c, log, g, t)
    ensures TokenLogged(c, log + [e], g2, t)
  {
    var k := g.tokens[t];
    if k.enteredSeq > 0 { assert (log + [e])[k.enteredSeq - 1] == log[k.enteredSeq - 1]; }
    if k.status.Waiting? { assert (log + [e])[k.enteredSeq] == log[k.enteredSeq]; }
    if k.status.Cancelled? { assert (log + [e])[k.endedSeq - 1] == log[k.endedSeq - 1]; }
  }

  /** `g2` grew out of `g` by a change to no token but `t`. */
  ghost predicate Framed(g: Image, g2: Image, t: Id) {
    Grows(g, g2) && forall u :: u in g2.tokens && u != t ==> KeepsToken(g, g2, u)
  }

  /** Appending `e` to `log`, which takes `g` to `g2` and touches no token but
      `t`, keeps the log in order. */
  lemma Append(c: Chart, log: seq<Event>, g: Image, g2: Image, e: Event, t: Id)
    requires Logged(c, log, g) && e.seqNo == |log| + 1 && Framed(g, g2, t)
    requires t in g2.tokens ==> TokenLogged(c, log + [e], g2, t)
    requires EventLogged(c, log + [e], g2, |log|)
    ensures Logged(c, log + [e], g2)
  {
    var log2 := log + [e];
    hide TokenLogged;
    hide EventLogged;
    forall u | u in g2.tokens ensures TokenLogged(c, log2, g2, u) {
      if u != t { OldToken(c, log, g, g2, e, u); }
    }
    forall i | 0 <= i < |log2| ensures EventLogged(c, log2, g2, i) {
      if i < |log| { OldEvent(c, log, g, g2, e, i); }
    }
  }

  /** An event that rewrites at most its own token's claim, deadline, vote or
      end. */
  lemma AppendPlain(c: Chart, log: seq<Event>, g: Image, g2: Image, e: Event)
    requires Logged(c, log, g) && e.seqNo == |log| + 1 && Grows(g, g2)
    requires !Enters(e) && !e.body.Joined? && !e.body.WaitingAtJoin?
    requires e.body.SplitOpened? ==> ForkLogged(c, log + [e], g2, |log|)
    requires forall u :: u in g2.tokens ==> KeepsToken(g, g2, u)
    ensures Logged(c, log + [e], g2)
  {
    var log2 := log + [e];
    hide TokenLogged;
    hide JoinLogged;
    hide EntryLogged;
    forall u | u in g2.tokens ensures TokenLogged(c, log2, g2, u) { OldToken(c, log, g, g2, e, u); }
    forall i | 0 <= i < |log2| ensures EventLogged(c, log2, g2, i) {
      if i < |log| { OldEvent(c, log, g, g2, e, i); }
    }
  }

  // ------------------------------------------------------- the engine's events

  function AfterMove(d: Definition, unit: string, g: Image, t: Id, to: string, deadline: Option<int>, seqNo: nat,
                     at: int): Image {
    if t in g.tokens then g.(tokens := g.tokens[t := Entered(d, unit, g.tokens[t], to, deadline, seqNo, at)]) else g
  }

  function Moves(d: Definition, unit: string, g: Image, e: Event): Image {
    if e.body.Moved? then AfterMove(d, unit, g, e.token, e.to, e.body.deadline, e.seqNo, e.at) else g
  }

  /** `e` moves a token of the case from where it stands, inside its branch. */
  ghost predicate CanMove(c: Chart, g: Image, e: Event) {
    && (exists tr :: Along(c.d, e, tr))
    && e.token in g.tokens && g.tokens[e.token].scope == e.scope && e.scope in g.scopes
    && e.from == g.tokens[e.token].node
    && (Rests(c.d, e.to) ==> Home(c, e.to).split == Side(c, g.scopes[e.scope]))
  }

  lemma MoveToken(c: Chart, unit: string, log: seq<Event>, g: Image, e: Event)
    requires e.seqNo == |log| + 1 && CanMove(c, g, e)
    ensures Framed(g, Moves(c.d, unit, g, e), e.token)
    ensures e.token in Moves(c.d, unit, g, e).tokens && TokenLogged(c, log + [e], Moves(c.d, unit, g, e), e.token)
  {
  }

  lemma MoveEntry(c: Chart, unit: string, log: seq<Event>, g: Image, e: Event)
    requires CanMove(c, g, e) && TokenLogged(c, log, g, e.token)
    ensures EventLogged(c, log + [e], Moves(c.d, unit, g, e), |log|)
  {
    var log2 := log + [e];
    assert log2[|log|] == e;
    if Rests(c.d, e.from) {
      var j := g.tokens[e.token].enteredSeq - 1;
      assert log2[j] == log[j];
    }
  }

  lemma AppendMove(c: Chart, unit: string, log: seq<Event>, g: Image, e: Event)
    requires Logged(c, log, g) && e.seqNo == |log| + 1 && CanMove(c, g, e)
    ensures Logged(c, log + [e], Moves(c.d, unit, g, e))
  {
    hide TokenLogged;
    hide EventLogged;
    hide Framed;
    MoveToken(c, unit, log, g, e);
    MoveEntry(c, unit, log, g, e);
    hide Moves;
    Append(c, log, g, Moves(c.d, unit, g, e), e, e.token);
  }

  lemma AppendOpen(c: Chart, e: Event, g2: Image)
    requires e.seqNo == 1 && e.body.Opened? && Rests(c.d, e.to)
    requires g2.tokens.Keys == {e.token} && g2.tokens[e.token].enteredSeq == 1 && g2.tokens[e.token].node == e.to
    requires g2.tokens[e.token].status.Active? && g2.tokens[e.token].scope == e.scope
    requires e.scope in g2.scopes && Home(c, e.to).split == Side(c, g2.scopes[e.scope])
    ensures Logged(c, [e], g2)
  {
  }

  lemma AppendArrive(c: Chart, log: seq<Event>, g: Image, e: Event, o: Outcome)
    requires Logged(c, log, g) && e.seqNo == |log| + 1 && e.body.WaitingAtJoin?
    requires e.token in g.tokens && g.tokens[e.token].enteredSeq == |log| > 0 && e.body.outcome == o
    requires exists tr :: Along(c.d, log[|log| - 1], tr) && tr.outcome == o
    ensures Logged(c, log + [e], g.(tokens := g.tokens[e.token := g.tokens[e.token].(status := Waiting, outcome := o)]))
  {
    var g2 := g.(tokens := g.tokens[e.token := g.tokens[e.token].(status := Waiting, outcome := o)]);
    assert TokenLogged(c, log, g, e.token);
    hide Logged;
    var log2 := log + [e];
    assert log2[|log| - 1] == log[|log| - 1] && log2[|log|] == e;
    Append(c, log, g, g2, e, e.token);
  }

  lemma AppendCancel(c: Chart, log: seq<Event>, g: Image, e: Event)
    requires Logged(c, log, g) && e.seqNo == |log| + 1 && e.body.TokenCancelled? && e.token in g.tokens
    ensures Logged(c, log + [e], g.(tokens := EndOne(g.tokens, e.token, Cancelled, e.seqNo, e.at)))
  {
    var g2 := g.(tokens := EndOne(g.tokens, e.token, Cancelled, e.seqNo, e.at));
    assert TokenLogged(c, log, g, e.token);
    hide Logged;
    var k := g.tokens[e.token].enteredSeq;
    if k > 0 { assert (log + [e])[k - 1] == log[k - 1]; }
    Append(c, log, g, g2, e, e.token);
  }

  function Joins(g: Image, e: Event, p: Id): Image {
    if e.body.Joined? then
      g.(tokens := EndAll(g.tokens, e.body.consumed, Consumed, e.seqNo, e.at)[e.token := Newborn(p, e.to)],
         scopes := JoinScopes(g.scopes, e.body.closed, e.seqNo))
    else g
  }

  lemma JoinFramed(c: Chart, log: seq<Event>, g: Image, e: Event, p: Id)
    requires e.body.Joined? && e.token !in g.tokens && e.body.closed in g.scopes
    requires !g.scopes[e.body.closed].status.ScopeJoined?
    requires !Rests(c.d, e.to)
    ensures Framed(g, Joins(g, e, p), e.token)
    ensures e.token in Joins(g, e, p).tokens && TokenLogged(c, log + [e], Joins(g, e, p), e.token)
  {
  }

  lemma JoinRound(c: Chart, log: seq<Event>, g: Image, e: Event, p: Id)
    requires e.body.Joined? && Ruled(c, g, e.body) && (!e.body.policy.NoPolicy? ==> RoundOk(log + [e], g, |log|))
    requires e.seqNo == |log| + 1
    ensures EventLogged(c, log + [e], Joins(g, e, p), |log|)
  {
    assert (log + [e])[|log|] == e;
  }

  lemma AppendJoin(c: Chart, log: seq<Event>, g: Image, e: Event, p: Id)
    requires Logged(c, log, g) && e.seqNo == |log| + 1 && e.body.Joined? && e.token !in g.tokens
    requires e.body.closed in g.scopes && !g.scopes[e.body.closed].status.ScopeJoined?
    requires !Rests(c.d, e.to) && Ruled(c, g, e.body)
    requires !e.body.policy.NoPolicy? ==> RoundOk(log + [e], g, |log|)
    ensures Logged(c, log + [e], Joins(g, e, p))
  {
    hide Logged;
    hide TokenLogged;
    hide EventLogged;
    hide Framed;
    hide RoundOk;
    hide Joins;
    JoinFramed(c, log, g, e, p);
    JoinRound(c, log, g, e, p);
    Append(c, log, g, Joins(g, e, p), e, e.token);
  }

  /** The token a split or a join creates enters the log with its first move. */
  lemma LogSpawn(c: Chart, log: seq<Event>, g: Image, b: Id, s: Id, node: string)
    requires Logged(c, log, g) && b !in g.tokens && !Rests(c.d, node)
    ensures Logged(c, log, g.(tokens := g.tokens[b := Newborn(s, node)]))
  {
    var g2 := g.(tokens := g.tokens[b := Newborn(s, node)]);
    forall t | t in g2.tokens ensures TokenLogged(c, log, g2, t) {
      if t != b { assert TokenLogged(c, log, g, t); }
    }
    forall i | 0 <= i < |log| ensures EventLogged(c, log, g2, i) { assert EventLogged(c, log, g, i); }
  }
}
