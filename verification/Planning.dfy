/** One planned event at a time: the state, the history it rebuilds from and the
    invariant move together. */
module Planning {
  import opened Definitions
  import opened Soundness
  import opened Tokens
  import opened Replay
  import opened Invariant
  import opened Steps
  import opened Closings
  import opened History

  /** Identifiers come from one counter; only the root's token and scope share
      theirs. */
  predicate IdsBelow(g: Image, next: Id) {
    && next > 0
    && (forall t :: t in g.tokens ==> t < next)
    && (forall s :: s in g.scopes ==> s < next)
    && (forall t :: t in g.tokens && t in g.scopes ==> t == ROOT)
  }

  ghost predicate Holds(c: Chart, g: Image, log: seq<Event>, next: Id, pend: Pend, flight: Option<Id>, loose: set<Id>) {
    Inv(c, g, pend, flight, loose) && Logged(c, log, g) && IdsBelow(g, next)
  }

  /** The history rebuilds exactly this state. */
  ghost predicate Exact(d: Definition, unit: string, log: seq<Event>, g: Image) { Rebuild(d, unit, log) == g }

  /** The history rebuilds this state, except that token `f`, just created by a
      split, enters it with its first move. */
  ghost predicate Follows(d: Definition, unit: string, log: seq<Event>, g: Image, f: Id) {
    || Exact(d, unit, log, g)
    || (f in g.tokens && f !in Rebuild(d, unit, log).tokens
        && g == Rebuild(d, unit, log).(tokens := Rebuild(d, unit, log).tokens[f := Newborn(g.tokens[f].scope,
                                                                                           g.tokens[f].node)]))
  }

  lemma RebuildAppend(d: Definition, unit: string, log: seq<Event>, e: Event)
    ensures Rebuild(d, unit, log + [e]) == Apply(d, unit, Rebuild(d, unit, log), e)
  {
    assert (log + [e])[..|log|] == log;
  }

  /** `e` is the next event of `log`. */
  predicate Next(log: seq<Event>, e: Event) { e.seqNo == |log| + 1 }

  /** `e` is about token `t` where it stands. */
  predicate About(g: Image, e: Event, t: Id) { t in g.tokens && e.token == t && e.scope == g.tokens[t].scope }

  /** Node `to` lies in the branch a token of scope `s` may be in. */
  predicate Within(c: Chart, g: Image, s: Id, to: string) {
    s in g.scopes && Home(c, to).split == Side(c, g.scopes[s])
  }

  lemma FlightFacts(c: Chart, g: Image, pend: Pend, f: Id, loose: set<Id>)
    requires Inv(c, g, pend, Some(f), loose)
    ensures f in g.tokens && g.tokens[f].status.Active? && g.tokens[f].scope in g.scopes
    ensures g.scopes[g.tokens[f].scope].status.ScopeOpen?
  {
    assert TokenOk(c, g, f, Some(f));
  }

  lemma MoveExact(c: Chart, unit: string, g: Image, log: seq<Event>, f: Id, e: Event)
    requires Follows(c.d, unit, log, g, f) && CanMove(c, g, e) && e.token == f
    ensures Exact(c.d, unit, log + [e], Moves(c.d, unit, g, e))
  {
    RebuildAppend(c.d, unit, log, e);
    hide Entered;
  }

  lemma MoveInv(c: Chart, unit: string, g: Image, pend: Pend, f: Id, e: Event)
    requires Inv(c, g, pend, Some(f), {}) && e.token == f
    ensures Inv(c, Moves(c.d, unit, g, e), pend, Some(f), {})
  {
    FlightFacts(c, g, pend, f, {});
    hide Inv;
    if e.body.Moved? {
      Rewrite(c, g, pend, Some(f), {}, f, Entered(c.d, unit, g.tokens[f], e.to, e.body.deadline, e.seqNo, e.at));
    }
  }

  lemma PlanMove(c: Chart, unit: string, g: Image, log: seq<Event>, next: Id, pend: Pend, f: Id, e: Event)
    requires Holds(c, g, log, next, pend, Some(f), {}) && Follows(c.d, unit, log, g, f)
    requires Next(log, e) && CanMove(c, g, e) && e.token == f
    ensures var g2 := Moves(c.d, unit, g, e);
      Holds(c, g2, log + [e], next, pend, Some(f), {}) && Exact(c.d, unit, log + [e], g2)
  {
    hide Logged;
    hide Inv;
    hide Exact;
    hide Follows;
    FlightFacts(c, g, pend, f, {});
    hide CanMove;
    MoveExact(c, unit, g, log, f, e);
    AppendMove(c, unit, log, g, e);
    MoveInv(c, unit, g, pend, f, e);
  }

  lemma PlanRest(c: Chart, g: Image, log: seq<Event>, next: Id, pend: Pend, f: Id)
    requires Holds(c, g, log, next, pend, Some(f), {}) && f in g.tokens && g.tokens[f].scope in g.scopes
    requires AtRest(c, g, g.tokens[f])
    ensures Holds(c, g, log, next, pend, None, {})
  {
    Land(c, g, pend, f);
  }

  lemma SplitFrame(c: Chart, g: Image, f: Id, e: Event)
    requires f in g.tokens && e.body.SplitOpened? && e.body.child !in g.scopes
    ensures var g2 := AfterSplit(c.d, g, f, g.tokens[f].scope, e.body.child, e.to, |e.body.branches|, e.seqNo, e.at);
      Grows(g, g2) && forall u :: u in g2.tokens ==> KeepsToken(g, g2, u)
  {
  }

  lemma SplitExact(d: Definition, unit: string, g: Image, log: seq<Event>, f: Id, e: Event)
    requires Exact(d, unit, log, g) && About(g, e, f) && e.body.SplitOpened?
    ensures Exact(d, unit, log + [e],
                  AfterSplit(d, g, f, g.tokens[f].scope, e.body.child, e.to, |e.body.branches|, e.seqNo, e.at))
  {
    RebuildAppend(d, unit, log, e);
  }

  lemma SplitLogged(c: Chart, unit: string, g: Image, log: seq<Event>, f: Id, e: Event)
    requires Logged(c, log, g) && Exact(c.d, unit, log, g) && Next(log, e) && About(g, e, f) && e.body.SplitOpened?
    requires e.body.child !in g.scopes && Fans(c.d, e.to, |e.body.branches|)
    ensures var g2 := AfterSplit(c.d, g, f, g.tokens[f].scope, e.body.child, e.to, |e.body.branches|, e.seqNo, e.at);
      Logged(c, log + [e], g2) && Exact(c.d, unit, log + [e], g2)
  {
    var g2 := AfterSplit(c.d, g, f, g.tokens[f].scope, e.body.child, e.to, |e.body.branches|, e.seqNo, e.at);
    hide Logged;
    assert (log + [e])[|log|] == e;
    AppendPlain(c, log, g, g2, e) by { SplitFrame(c, g, f, e); }
    SplitExact(c.d, unit, g, log, f, e);
  }

  /** Token `f`, standing on split node `e.to` inside its branch, splits. */
  ghost predicate SplitsAt(c: Chart, g: Image, log: seq<Event>, next: Id, f: Id, p: Id, e: Event) {
    && Next(log, e) && About(g, e, f) && g.tokens[f].scope == p
    && e.body.SplitOpened? && e.body.child == next && Fans(c.d, e.to, |e.body.branches|)
    && e.to == g.tokens[f].node && IsSplitNode(c.d, e.to) && Within(c, g, p, e.to)
  }

  lemma PlanSplit(c: Chart, unit: string, g: Image, log: seq<Event>, next: Id, pend: Pend, f: Id, p: Id, e: Event)
    requires Holds(c, g, log, next, pend, Some(f), {}) && Exact(c.d, unit, log, g)
    requires SplitsAt(c, g, log, next, f, p, e)
    ensures var g2 := AfterSplit(c.d, g, f, p, next, e.to, |e.body.branches|, e.seqNo, e.at);
      && Holds(c, g2, log + [e], next + 1, pend[next := |e.body.branches|], None, {})
      && Exact(c.d, unit, log + [e], g2)
  {
    hide Logged;
    hide Inv;
    hide Exact;
    FlightFacts(c, g, pend, f, {});
    SplitLogged(c, unit, g, log, f, e);
    SplitStep(c, g, pend, f, p, next, e.to, |e.body.branches|, e.seqNo, e.at);
  }

  lemma PlanSpawn(c: Chart, unit: string, g: Image, log: seq<Event>, next: Id, pend: Pend, b: Id, s: Id, node: string)
    requires Holds(c, g, log, next, pend, None, {}) && Exact(c.d, unit, log, g)
    requires b !in g.tokens && b !in g.scopes && b < next && CanSpawn(g, pend, b, s) && !Rests(c.d, node)
    ensures var g2 := AfterSpawn(g, b, s, node);
      && Holds(c, g2, log, next, pend[s := pend[s] - 1], Some(b), {}) && Follows(c.d, unit, log, g2, b)
  {
    hide Inv;
    hide Logged;
    SpawnStep(c, g, pend, b, s, node);
    LogSpawn(c, log, g, b, s, node);
  }

  lemma PlanArrive(c: Chart, unit: string, g: Image, log: seq<Event>, next: Id, pend: Pend, f: Id, e: Event)
    requires Holds(c, g, log, next, pend, Some(f), {}) && Exact(c.d, unit, log, g)
    requires Next(log, e) && About(g, e, f) && e.body.WaitingAtJoin?
    requires CanArrive(c, g, f, e.body.outcome)
    requires 0 < g.tokens[f].enteredSeq == |log|
    requires exists tr :: Along(c.d, log[|log| - 1], tr) && tr.outcome == e.body.outcome
    ensures var g2 := AfterArrive(g, f, e.body.outcome);
      Holds(c, g2, log + [e], next, pend, None, {g.tokens[f].scope}) && Exact(c.d, unit, log + [e], g2)
  {
    RebuildAppend(c.d, unit, log, e);
    hide Inv;
    hide Logged;
    ArriveStep(c, g, pend, f, e.body.outcome);
    AppendArrive(c, log, g, e, e.body.outcome);
  }

  lemma PlanCancel(c: Chart, unit: string, g: Image, log: seq<Event>, next: Id, pend: Pend, loose: set<Id>, t: Id,
                   e: Event)
    requires Holds(c, g, log, next, pend, None, loose) && Exact(c.d, unit, log, g)
    requires Next(log, e) && About(g, e, t) && e.body.TokenCancelled? && g.tokens[t].status.Live()
    ensures var g2 := AfterCancel(g, t, e.seqNo, e.at);
      Holds(c, g2, log + [e], next, pend, None, loose + {g.tokens[t].scope}) && Exact(c.d, unit, log + [e], g2)
  {
    RebuildAppend(c.d, unit, log, e);
    hide Inv;
    hide Logged;
    CancelStep(c, g, pend, loose, t, e.seqNo, e.at);
    AppendCancel(c, log, g, e);
  }

  lemma JoinExact(d: Definition, unit: string, g: Image, log: seq<Event>, s: Id, p: Id, e: Event)
    requires Exact(d, unit, log, g) && e.body.Joined? && e.body.closed == s && s in g.scopes
    requires g.scopes[s].parent == Some(p)
    ensures Exact(d, unit, log + [e], AfterJoin(g, s, p, e.body.consumed, e.token, e.to, e.seqNo, e.at))
    ensures Joins(g, e, p) == AfterJoin(g, s, p, e.body.consumed, e.token, e.to, e.seqNo, e.at)
  {
    RebuildAppend(d, unit, log, e);
  }

  lemma JoinFacts(g: Image, pend: Pend, loose: set<Id>, s: Id, p: Id, consumed: set<Id>, next: Id)
    requires CanJoin(g, pend, loose, s, p, consumed, next)
    ensures s in g.scopes && g.scopes[s].status.ScopeOpen? && g.scopes[s].parent == Some(p) && next !in g.tokens
    ensures p in g.scopes && s != ROOT
  {
  }

  lemma JoinIds(g: Image, s: Id, p: Id, consumed: set<Id>, next: Id, node: string, seqNo: nat, at: int)
    requires IdsBelow(g, next)
    ensures IdsBelow(AfterJoin(g, s, p, consumed, next, node, seqNo, at), next + 1)
  {
  }

  /** The event of the join of `s` firing. */
  ghost predicate JoinsAt(c: Chart, g: Image, log: seq<Event>, next: Id, s: Id, e: Event) {
    && Next(log, e) && e.body.Joined? && e.body.closed == s && e.token == next && !Rests(c.d, e.to)
    && Ruled(c, g, e.body) && (!e.body.policy.NoPolicy? ==> RoundOk(log + [e], g, |log|))
  }

  lemma PlanJoin(c: Chart, unit: string, g: Image, log: seq<Event>, next: Id, pend: Pend, loose: set<Id>, s: Id, p: Id,
                 e: Event)
    requires Holds(c, g, log, next, pend, None, loose) && Exact(c.d, unit, log, g)
    requires JoinsAt(c, g, log, next, s, e) && CanJoin(g, pend, loose, s, p, e.body.consumed, next)
    ensures var g2 := AfterJoin(g, s, p, e.body.consumed, next, e.to, e.seqNo, e.at);
      Holds(c, g2, log + [e], next + 1, pend, Some(next), {}) && Exact(c.d, unit, log + [e], g2)
  {
    hide Inv;
    hide Logged;
    hide RoundOk;
    hide CanJoin;
    hide Exact;
    hide IdsBelow;
    hide AfterJoin;
    hide Joins;
    JoinFacts(g, pend, loose, s, p, e.body.consumed, next);
    JoinExact(c.d, unit, g, log, s, p, e);
    JoinStep(c, g, pend, loose, s, p, e.body.consumed, next, e.to, e.seqNo, e.at);
    AppendJoin(c, log, g, e, p);
    JoinIds(g, s, p, e.body.consumed, next, e.to, e.seqNo, e.at);
  }

  lemma CloseFrame(c: Chart, g: Image, f: Id, e: Event)
    requires f in g.tokens && ROOT in g.scopes && !g.scopes[ROOT].status.ScopeJoined?
    ensures var g2 := AfterClose(g, f, e.to, e.seqNo, e.at);
      Grows(g, g2) && forall u :: u in g2.tokens ==> KeepsToken(g, g2, u)
  {
  }

  lemma CloseExact(d: Definition, unit: string, g: Image, log: seq<Event>, f: Id, e: Event)
    requires Exact(d, unit, log, g) && About(g, e, f) && e.body.CaseClosedEvent? && ROOT in g.scopes
    ensures Exact(d, unit, log + [e], AfterClose(g, f, e.to, e.seqNo, e.at))
  {
    RebuildAppend(d, unit, log, e);
  }

  lemma CloseLogged(c: Chart, unit: string, g: Image, log: seq<Event>, f: Id, e: Event)
    requires Logged(c, log, g) && Exact(c.d, unit, log, g) && Next(log, e) && About(g, e, f) && e.body.CaseClosedEvent?
    requires ROOT in g.scopes && !g.scopes[ROOT].status.ScopeJoined?
    ensures var g2 := AfterClose(g, f, e.to, e.seqNo, e.at);
      Logged(c, log + [e], g2) && Exact(c.d, unit, log + [e], g2)
  {
    hide Logged;
    hide Exact;
    CloseFrame(c, g, f, e);
    CloseExact(c.d, unit, g, log, f, e);
    hide AfterClose;
    AppendPlain(c, log, g, AfterClose(g, f, e.to, e.seqNo, e.at), e);
  }

  lemma PlanClose(c: Chart, unit: string, g: Image, log: seq<Event>, next: Id, pend: Pend, f: Id, e: Event)
    requires Holds(c, g, log, next, pend, Some(f), {}) && Exact(c.d, unit, log, g)
    requires Next(log, e) && About(g, e, f) && e.body.CaseClosedEvent? && e.scope == ROOT && ROOT in g.scopes
    requires c.root == ""
    ensures var g2 := AfterClose(g, f, e.to, e.seqNo, e.at);
      Holds(c, g2, log + [e], next, pend, None, {}) && Exact(c.d, unit, log + [e], g2)
  {
    hide Logged;
    hide Inv;
    hide Exact;
    FlightFacts(c, g, pend, f, {});
    CloseLogged(c, unit, g, log, f, e);
    CloseStep(c, g, pend, f, e.to, e.seqNo, e.at);
  }

  /** Events that leave every token where it is: a claim, a deadline, an expiry
      or a note. */
  predicate Annotates(e: Event) {
    || e.body.Assigned? || e.body.Unassigned? || e.body.DeadlineChanged? || e.body.DeadlineExpired?
    || e.body.StepSubmitted? || e.body.FailureRecorded?
  }

  lemma AnnotateFrame(d: Definition, unit: string, g: Image, e: Event)
    requires Annotates(e) && e.token in g.tokens
    ensures var g2 := Apply(d, unit, g, e);
      && g2 == g.(tokens := g.tokens[e.token := g2.tokens[e.token]])
      && g2.tokens[e.token].scope == g.tokens[e.token].scope && g2.tokens[e.token].status == g.tokens[e.token].status
      && g2.tokens[e.token].outcome == g.tokens[e.token].outcome && g2.tokens[e.token].node == g.tokens[e.token].node
      && g2.tokens[e.token].enteredSeq == g.tokens[e.token].enteredSeq &&
        g2.tokens[e.token].endedSeq == g.tokens[e.token].endedSeq
  {
  }

  lemma AnnotateKeeps(g: Image, t: Id, k: Token)
    requires t in g.tokens && k.scope == g.tokens[t].scope && k.status == g.tokens[t].status
    requires k.node == g.tokens[t].node
    requires k.enteredSeq == g.tokens[t].enteredSeq && k.endedSeq == g.tokens[t].endedSeq
    requires k.outcome == g.tokens[t].outcome
    ensures var g2 := g.(tokens := g.tokens[t := k]);
      Grows(g, g2) && forall u :: u in g2.tokens ==> KeepsToken(g, g2, u)
  {
  }

  lemma PlanAnnotate(c: Chart, unit: string, g: Image, log: seq<Event>, next: Id, pend: Pend, e: Event)
    requires Holds(c, g, log, next, pend, None, {}) && Exact(c.d, unit, log, g)
    requires Next(log, e) && Annotates(e) && e.token in g.tokens
    ensures var g2 := Apply(c.d, unit, g, e);
      Holds(c, g2, log + [e], next, pend, None, {}) && Exact(c.d, unit, log + [e], g2)
  {
    hide Logged;
    hide Inv;
    hide Apply;
    RebuildAppend(c.d, unit, log, e);
    AnnotateFrame(c.d, unit, g, e);
    var k := Apply(c.d, unit, g, e).tokens[e.token];
    AnnotateKeeps(g, e.token, k);
    AppendPlain(c, log, g, Apply(c.d, unit, g, e), e);
    Rewrite(c, g, pend, None, {}, e.token, k);
  }
}
