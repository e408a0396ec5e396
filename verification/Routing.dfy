/** Where a token may go next, and what holds when it gets there. */
module Routing {
  import opened Definitions
  import opened Soundness
  import opened Tokens
  import opened Replay
  import opened Invariant
  import opened Steps
  import opened History
  import opened Planning
  import opened WorkingCopy
  import opened Sweeps

  /** Transition `tr` leads a token of scope `sc` to its own join or to a node of
      the branch it is in. */
  predicate Fits(c: Chart, sc: Scope, tr: Transition) {
    && Has(c.d, tr.to)
    && if IsJoinNode(c.d, tr.to) then tr.to == sc.joinNode else Home(c, tr.to).split == Side(c, sc)
  }

  lemma FitsFrom(c: Chart, g: Image, s: Id, tr: Transition)
    requires Sound(c) && ScopesOk(c, g) && s in g.scopes && tr in c.d.transitions
    requires !IsSplitNode(c.d, tr.from) && Home(c, tr.from).split == Side(c, g.scopes[s])
    ensures Fits(c, g.scopes[s], tr) || Strays(c, g.scopes[s], tr)
  {
    assert EdgeSound(c, tr);
    assert ScopeOk(c, g, s);
  }

  lemma FitsBranch(c: Chart, sc: Scope, tr: Transition)
    requires Sound(c) && tr in c.d.transitions && IsSplitNode(c.d, tr.from)
    requires sc.parent.Some? && sc.splitNode == tr.from && sc.joinNode == NodeOf(c.d, tr.from).join
    ensures Fits(c, sc, tr)
  {
    assert EdgeSound(c, tr);
  }

  /** Transition `tr` leads a token of scope `sc` to the join of the block its
      case started in, which is nobody's join. */
  predicate Strays(c: Chart, sc: Scope, tr: Transition) {
    sc.parent.None? && c.root != "" && IsJoinNode(c.d, tr.to) && tr.to != sc.joinNode
  }

  lemma StraysOntoJoin(c: Chart, sc: Scope, tr: Transition)
    ensures Strays(c, sc, tr) ==> NodeOf(c.d, tr.to).kind.Join?
  {
  }

  /** Token `t` is about to take transition `tr`. */
  ghost predicate Leaves(c: Chart, g: Image, t: Id, tr: Transition) {
    && t in g.tokens && g.tokens[t].scope in g.scopes && tr in c.d.transitions
    && g.tokens[t].node == tr.from
    && (Fits(c, g.scopes[g.tokens[t].scope], tr) || Strays(c, g.scopes[g.tokens[t].scope], tr))
  }

  lemma LeavesFacts(c: Chart, g: Image, t: Id, tr: Transition)
    requires Leaves(c, g, t, tr)
    ensures tr in c.d.transitions && Has(c.d, tr.to) && t in g.tokens && g.tokens[t].node == tr.from
  {
  }

  /** A token at rest may take any transition of its node. */
  lemma LeavesRest(c: Chart, base: Image, w: Work, pend: Pend, t: Id, tr: Transition)
    requires Works(c, base, w, pend, None, {}) && t in w.g.tokens && w.g.tokens[t].status.Active?
    requires tr in c.d.transitions && tr.from == w.g.tokens[t].node
    ensures Leaves(c, w.g, t, tr) && Rests(c.d, tr.from)
  {
    assert TokenOk(c, w.g, t, None);
    FitsFrom(c, w.g, w.g.tokens[t].scope, tr);
  }

  /** A token routed onto a node inside its branch may take any transition of
      that node, unless it is a split. */
  lemma LeavesOn(c: Chart, base: Image, w: Work, pend: Pend, t: Id, tr: Transition)
    requires Works(c, base, w, pend, Some(t), {}) && t in w.g.tokens && Within(c, w.g, w.g.tokens[t].scope, tr.from)
    requires tr in c.d.transitions && tr.from == w.g.tokens[t].node && !IsSplitNode(c.d, tr.from)
    ensures Leaves(c, w.g, t, tr)
  {
    FitsFrom(c, w.g, w.g.tokens[t].scope, tr);
  }

  lemma TakenFacts(c: Chart, g: Image, t: Id, tr: Transition)
    requires Sound(c) && Leaves(c, g, t, tr)
    ensures Has(c.d, tr.to) && EdgeSound(c, tr) && NodeOf(c.d, tr.to).id == tr.to && NodeSound(c, NodeOf(c.d, tr.to))
    ensures !NodeOf(c.d, tr.to).kind.Join? ==> Within(c, g, g.tokens[t].scope, tr.to)
    ensures NodeOf(c.d, tr.to).kind.Join? ==>
      tr.to == g.scopes[g.tokens[t].scope].joinNode || Strays(c, g.scopes[g.tokens[t].scope], tr)
  {
  }

  lemma MoveOf(c: Chart, g: Image, t: Id, tr: Transition, e: Event)
    requires Leaves(c, g, t, tr) && e.body.Moved? && e.token == t && e.scope == g.tokens[t].scope
    requires e.from == g.tokens[t].node && e.to == tr.to && e.body.action == tr.action
    ensures CanMove(c, g, e)
  {
    assert Along(c.d, e, tr);
  }

  lemma SoundFacts(c: Chart, base: Image, w: Work, pend: Pend, flight: Option<Id>, loose: set<Id>)
    requires Works(c, base, w, pend, flight, loose)
    ensures Sound(c)
  {
  }

  lemma InFlight(c: Chart, base: Image, w: Work, pend: Pend, t: Id)
    requires Works(c, base, w, pend, Some(t), {})
    ensures t in w.g.tokens && w.g.tokens[t].status.Active? && w.g.tokens[t].scope in w.g.scopes
    ensures w.g.scopes[w.g.tokens[t].scope].status.ScopeOpen?
  {
    FlightFacts(c, w.g, pend, t, {});
  }

  lemma Departs(c: Chart, base: Image, w: Work, pend: Pend, t: Id)
    requires Works(c, base, w, pend, None, {}) && t in w.g.tokens && w.g.tokens[t].status.Active?
    ensures Works(c, base, w, pend, Some(t), {})
  {
    hide Logged;
    hide Sound;
    hide Marked;
    hide MarksBelow;
    hide IdsBelow;
    hide Inv;
    TakeOff(c, w.g, pend, {}, t);
  }

  /** On a task of its branch a routed token is at rest. */
  lemma RestsThere(c: Chart, base: Image, w: Work, pend: Pend, t: Id)
    requires Works(c, base, w, pend, Some(t), {}) && t in w.g.tokens
    requires Rests(c.d, w.g.tokens[t].node) && Within(c, w.g, w.g.tokens[t].scope, w.g.tokens[t].node)
    ensures Works(c, base, w, pend, None, {})
  {
    hide Works;
    WorkRest(c, base, w, pend, t);
  }

  lemma ExactFollows(c: Chart, unit: string, w: Work, t: Id)
    requires Rebuilds(c, unit, w)
    ensures Follows(c.d, unit, w.log, w.g, t)
  {
  }

  /** Only the root scope stands for no branch. */
  lemma RootStands(c: Chart, base: Image, w: Work, pend: Pend, t: Id)
    requires Works(c, base, w, pend, Some(t), {}) && t in w.g.tokens && w.g.tokens[t].scope in w.g.scopes
    ensures Side(c, w.g.scopes[w.g.tokens[t].scope]) == "" ==> w.g.tokens[t].scope == ROOT && c.root == ""
  {
    assert ScopeOk(c, w.g, w.g.tokens[t].scope);
  }

  /** Only a task leads to a join with a policy. */
  lemma PolicyFromTask(c: Chart, base: Image, w: Work, pend: Pend, t: Id, tr: Transition)
    requires Works(c, base, w, pend, Some(t), {}) && tr in c.d.transitions
    ensures IsPolicyJoin(c.d, tr.to) ==> NodeOf(c.d, tr.from).kind.Task?
    ensures IsPolicyJoin(c.d, tr.to) ==> (tr.outcome.Approved? || tr.outcome.Rejected?)
  {
    assert EdgeSound(c, tr);
  }

  /** Only token `t` changed, and it now rests on `node` in the same scope. */
  predicate Rested(a: map<Id, Token>, b: map<Id, Token>, t: Id, node: string) {
    && t in a && t in b && b == a[t := b[t]]
    && b[t].node == node && b[t].scope == a[t].scope && b[t].status.Active?
  }

  /** Only token `t` changed, and it stayed in its scope. */
  predicate Kept(a: map<Id, Token>, b: map<Id, Token>, t: Id) {
    t in a && t in b && b == a[t := b[t]] && b[t].scope == a[t].scope
  }

  lemma KeptTrans(a: map<Id, Token>, b: map<Id, Token>, c: map<Id, Token>, t: Id)
    requires Kept(a, b, t) && Kept(b, c, t)
    ensures Kept(a, c, t)
  {
  }

  lemma RestedAfter(a: map<Id, Token>, b: map<Id, Token>, c: map<Id, Token>, t: Id, node: string)
    requires Kept(a, b, t) && Rested(b, c, t, node)
    ensures Rested(a, c, t, node)
  {
  }

  lemma MovesRest(c: Chart, unit: string, w: Work, e: Event)
    requires e.body.Moved? && e.token in w.g.tokens
    ensures Rested(w.g.tokens, MovesWork(c, unit, w, e).g.tokens, e.token, e.to)
    ensures MovesWork(c, unit, w, e).g.scopes == w.g.scopes
    ensures MovesWork(c, unit, w, e).g.tokens[e.token].assignedTo == ""
  {
  }

  // ---------------------------------------------------------- at a gateway

  /** The last thing that happened was the move of `t` along `via`. */
  ghost predicate JustMoved(c: Chart, w: Work, t: Id, via: Transition) {
    && t in w.g.tokens && w.g.tokens[t].node == via.to
    && 0 < w.g.tokens[t].enteredSeq == |w.log| && Along(c.d, w.log[|w.log| - 1], via)
    && (t in w.created || t in w.changed)
  }

  lemma MovedFacts(c: Chart, unit: string, w: Work, e: Event, via: Transition)
    requires Along(c.d, e, via) && e.token in w.g.tokens && Next(w.log, e)
    ensures var w2 := MovesWork(c, unit, w, e);
      && JustMoved(c, w2, e.token, via)
      && w2.g.tokens[e.token].scope == w.g.tokens[e.token].scope
      && w2.g.scopes == w.g.scopes && w2.steps == w.steps && w2.next == w.next
  {
  }

  lemma ReadyToArrive(c: Chart, base: Image, w: Work, pend: Pend, t: Id, via: Transition, o: Outcome, e: Event)
    requires Works(c, base, w, pend, Some(t), {}) && t in w.g.tokens && JustMoved(c, w, t, via) && o == via.outcome
    requires w.g.tokens[t].scope in w.g.scopes && w.g.scopes[w.g.tokens[t].scope].joinNode == w.g.tokens[t].node
    requires IsJoinNode(c.d, w.g.tokens[t].node)
    requires (!IsPolicyJoin(c.d, w.g.tokens[t].node) || o.Approved? || o.Rejected?)
    requires Next(w.log, e) && About(w.g, e, t) && e.body == WaitingAtJoin(o)
    ensures ArrivesAt(c, w, t, e)
  {
    hide Works;
    InFlight(c, base, w, pend, t);
  }

  /** A token waiting in `s` keeps it alive. */
  lemma ArrivedAlive(w: Work, pend: Pend, t: Id, e: Event)
    requires t in w.g.tokens && e.body.WaitingAtJoin?
    ensures var w2 := Arrives(w, t, e);
      && Alive(w2.g, pend, w.g.tokens[t].scope)
      && w2.g.scopes == w.g.scopes && w2.steps == w.steps
  {
    assert In(Arrives(w, t, e).g, t, w.g.tokens[t].scope);
  }

  /** Every vote at a join with a policy can be read. */
  lemma VotesReadable(c: Chart, base: Image, w: Work, pend: Pend, loose: set<Id>, s: Id)
    requires Works(c, base, w, pend, None, loose) && s in w.g.scopes && !JoinPolicyOf(c, w.g, s).NoPolicy?
    ensures forall t :: t in Arrived(w.g, s) ==> w.g.tokens[t].outcome.Approved? || w.g.tokens[t].outcome.Rejected?
  {
    forall t | t in Arrived(w.g, s) ensures w.g.tokens[t].outcome.Approved? || w.g.tokens[t].outcome.Rejected? {
      WaitingFacts(c, base, w, pend, loose, t);
    }
  }

  /** A scope that is not open has no join left to decide. */
  lemma ClosedIsCalm(c: Chart, base: Image, w: Work, pend: Pend, s: Id)
    requires Works(c, base, w, pend, None, {s}) && s in w.g.scopes && !w.g.scopes[s].status.ScopeOpen?
    ensures Works(c, base, w, pend, None, {})
  {
    hide Logged;
    hide Sound;
    hide Marked;
    hide MarksBelow;
    hide IdsBelow;
    hide ScopesOk;
    hide TokensOk;
    hide Counted;
    hide Calm;
  }

  // ---------------------------------------------------------- at a split

  /** The identifiers a split hands its branches. */
  function BranchIds(child: Id, n: nat): (ids: seq<Id>)
    ensures |ids| == n && forall i :: 0 <= i < n ==> ids[i] == child + 1 + i
  {
    seq(n, i => child + 1 + i)
  }

  lemma ReadyToSplit(c: Chart, base: Image, w: Work, pend: Pend, t: Id, e: Event)
    requires Works(c, base, w, pend, Some(t), {}) && t in w.g.tokens && IsSplitNode(c.d, w.g.tokens[t].node)
    requires Within(c, w.g, w.g.tokens[t].scope, w.g.tokens[t].node)
    requires Next(w.log, e) && About(w.g, e, t) && e.to == w.g.tokens[t].node
    requires e.body.SplitOpened? && e.body.child == w.next && Fans(c.d, e.to, |e.body.branches|)
    ensures SplitsAt(c, w.g, w.log, w.next, t, w.g.tokens[t].scope, e) && w.next !in pend
  {
  }

  /** The scope a split opened stands for its branches. */
  ghost predicate Stands(c: Chart, g: Image, s: Id, p: Id, node: string) {
    && s in g.scopes && g.scopes[s].splitNode == node && g.scopes[s].joinNode == NodeOf(c.d, node).join
    && g.scopes[s].parent == Some(p)
  }

  lemma StandsFacts(c: Chart, g: Image, s: Id, p: Id, node: string)
    requires Stands(c, g, s, p, node)
    ensures s in g.scopes && g.scopes[s].joinNode == NodeOf(c.d, node).join && g.scopes[s].parent == Some(p)
  {
  }

  lemma SplitStands(c: Chart, base: Image, w: Work, pend: Pend, f: Id, p: Id, e: Event, b: Id)
    requires Works(c, base, w, pend, Some(f), {}) && SplitsAt(c, w.g, w.log, w.next, f, p, e)
    requires w.next < b <= w.next + |e.body.branches|
    ensures Reserved(base, Splits(c, w, f, p, e), b)
    ensures Stands(c, Splits(c, w, f, p, e).g, w.next, p, e.to)
  {
    hide Works;
    hide Within;
    MarkFacts(c, base, w, pend, Some(f), {});
  }

  lemma MarkFacts(c: Chart, base: Image, w: Work, pend: Pend, flight: Option<Id>, loose: set<Id>)
    requires Works(c, base, w, pend, flight, loose)
    ensures MarksBelow(base, w) && IdsBelow(w.g, w.next)
  {
  }

  lemma StandsKept(c: Chart, w: Work, w2: Work, n: nat, s: Id, p: Id, node: string)
    requires Stands(c, w.g, s, p, node) && Extends(w, w2, n)
    ensures Stands(c, w2.g, s, p, node)
  {
  }

  lemma ReadyToSpawn(c: Chart, base: Image, w: Work, pend: Pend, b: Id, s: Id)
    requires Works(c, base, w, pend, None, {}) && s in pend && pend[s] > 0 && Reserved(base, w, b)
    ensures CanSpawn(w.g, pend, b, s)
  {
  }

  lemma BranchLeaves(c: Chart, base: Image, w: Work, pend: Pend, b: Id, s: Id, p: Id, tr: Transition)
    requires Works(c, base, w, pend, None, {}) && Stands(c, w.g, s, p, tr.from) && tr in c.d.transitions
    requires IsSplitNode(c.d, tr.from)
    ensures Leaves(c, Spawns(w, b, s, tr.from).g, b, tr) && Stands(c, Spawns(w, b, s, tr.from).g, s, p, tr.from)
  {
    FitsBranch(c, w.g.scopes[s], tr);
  }
}
