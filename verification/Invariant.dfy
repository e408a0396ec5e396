/** What every engine step keeps: placement, conservation of branches, quiet
    closed scopes and joins that never stay ready.

    Three exemptions describe a call in progress. `pend` maps a scope to the
    branches its split has still to emit, `flight` is the token being routed,
    and `loose` holds the scopes whose join is being decided. A stored case has
    none of them. */
module Invariant {
  import opened Definitions
  import opened Soundness
  import opened JoinPolicies
  import opened Tokens
  import opened Replay

  // ---------------------------------------------------------------- the arms

  predicate In(g: Image, t: Id, s: Id) { t in g.tokens && g.tokens[t].scope == s }

  /** The tokens of `s` no split or join consumed. */
  function TokenArms(g: Image, s: Id): set<Id> {
    set t | t in g.tokens && g.tokens[t].scope == s && !g.tokens[t].status.Consumed?
  }

  /** The open scopes standing for a branch of `s`. */
  function ScopeArms(g: Image, s: Id): set<Id> {
    set x | x in g.scopes && g.scopes[x].parent == Some(s) && g.scopes[x].status.ScopeOpen?
  }

  function Arrived(g: Image, s: Id): set<Id> {
    set t | t in g.tokens && g.tokens[t].scope == s && g.tokens[t].status.Waiting?
  }

  function Votes(g: Image, s: Id, o: Outcome): set<Id> {
    set t | t in g.tokens && g.tokens[t].scope == s && g.tokens[t].status.Waiting? && g.tokens[t].outcome == o
  }

  function Gone(g: Image, s: Id): set<Id> {
    set t | t in g.tokens && g.tokens[t].scope == s && g.tokens[t].status.Cancelled?
  }

  function JoinPolicyOf(c: Chart, g: Image, s: Id): Policy
    requires s in g.scopes
  {
    NodeOf(c.d, g.scopes[s].joinNode).policy
  }

  /** Whether the join of `s` fires on what its tokens say now. */
  function RulingAt(c: Chart, g: Image, s: Id): Ruling
    requires s in g.scopes
  {
    var sc := g.scopes[s];
    if JoinPolicyOf(c, g, s).NoPolicy? then
      if Arrived(g, s) == {} || |Arrived(g, s)| + |Gone(g, s)| != sc.expected then Open else Closed(NoOutcome)
    else
      Closes(JoinPolicyOf(c, g, s),
             Tally(|Votes(g, s, Approved)|, |Votes(g, s, Rejected)|, |Gone(g, s)|, sc.expected))
  }

  type Pend = map<Id, nat>

  function Pending(pend: Pend, s: Id): nat { if s in pend then pend[s] else 0 }

  // ----------------------------------------------------------- the invariant

  ghost predicate ScopeOk(c: Chart, g: Image, s: Id)
    requires s in g.scopes
  {
    var sc := g.scopes[s];
    if s == ROOT then
      sc.parent == None && sc.splitNode == "" && sc.joinNode == "" && sc.expected == 1
    else
      && sc.parent.Some? && sc.parent.value in g.scopes && sc.parent.value < s
      && IsSplitNode(c.d, sc.splitNode) && sc.joinNode == NodeOf(c.d, sc.splitNode).join
      && Home(c, sc.splitNode).split == Side(c, g.scopes[sc.parent.value])
      && (sc.status.ScopeOpen? ==> g.scopes[sc.parent.value].status.ScopeOpen?)
  }

  ghost predicate ScopesOk(c: Chart, g: Image) {
    && ROOT in g.scopes
    && (g.status.CaseOpen? <==> g.scopes[ROOT].status.ScopeOpen?)
    && (g.status.CaseClosed? ==> c.root == "")
    && (forall s :: s in g.scopes ==> ScopeOk(c, g, s))
  }

  /** A vote the join can read. */
  predicate Readable(c: Chart, k: Token) {
    NodeOf(c.d, k.node).policy.NoPolicy? || k.outcome.Approved? || k.outcome.Rejected?
  }

  /** `k` rests on a task of the branch its scope stands for. */
  ghost predicate AtRest(c: Chart, g: Image, k: Token)
    requires k.scope in g.scopes
  {
    Rests(c.d, k.node) && Home(c, k.node).split == Side(c, g.scopes[k.scope])
  }

  ghost predicate TokenOk(c: Chart, g: Image, t: Id, flight: Option<Id>)
    requires t in g.tokens
  {
    var k := g.tokens[t];
    && k.scope in g.scopes
    && (k.status.Live() ==> g.scopes[k.scope].status.ScopeOpen?)
    && (k.status.Waiting? ==> IsJoinNode(c.d, k.node) && k.node == g.scopes[k.scope].joinNode && Readable(c, k))
    && (k.status.Active? && flight != Some(t) ==> AtRest(c, g, k))
  }

  ghost predicate TokensOk(c: Chart, g: Image, flight: Option<Id>) {
    && (forall t :: t in g.tokens ==> TokenOk(c, g, t, flight))
    && (flight.Some? ==> flight.value in g.tokens && g.tokens[flight.value].status.Active?)
  }

  /** Every branch an open scope expects is accounted for exactly once. */
  ghost predicate Conserved(g: Image, pend: Pend, s: Id)
    requires s in g.scopes
  {
    |TokenArms(g, s)| + |ScopeArms(g, s)| + Pending(pend, s) == g.scopes[s].expected
  }

  ghost predicate Counted(g: Image, pend: Pend) {
    && (forall s :: s in g.scopes && g.scopes[s].status.ScopeOpen? ==> Conserved(g, pend, s))
    && (forall s :: s in pend && pend[s] > 0 ==> s != ROOT && s in g.scopes && g.scopes[s].status.ScopeOpen?)
  }

  /** Some branch of `s` can still go on. */
  ghost predicate Alive(g: Image, pend: Pend, s: Id) {
    || (exists t :: In(g, t, s) && g.tokens[t].status.Live())
    || ScopeArms(g, s) != {}
    || Pending(pend, s) > 0
  }

  /** The join of `s` is not ready, and `s` can go on. */
  ghost predicate Calm(c: Chart, g: Image, pend: Pend, s: Id)
    requires s in g.scopes
  {
    RulingAt(c, g, s).Open? && Alive(g, pend, s)
  }

  ghost predicate Settled(c: Chart, g: Image, pend: Pend, loose: set<Id>) {
    forall s :: s in g.scopes && g.scopes[s].status.ScopeOpen? && s !in loose ==> Calm(c, g, pend, s)
  }

  ghost predicate Inv(c: Chart, g: Image, pend: Pend, flight: Option<Id>, loose: set<Id>) {
    && ScopesOk(c, g)
    && TokensOk(c, g, flight)
    && Counted(g, pend)
    && Settled(c, g, pend, loose)
  }

  /** The invariant of a stored case. */
  ghost predicate Quiet(c: Chart, g: Image) { Inv(c, g, map[], None, {}) }

  // ------------------------------------------------- steps that keep a shape

  /** `g2` differs from `g` in no token's scope, status or vote. */
  ghost predicate SameShape(g: Image, g2: Image) {
    && g2.scopes == g.scopes && g2.status == g.status
    && g2.tokens.Keys == g.tokens.Keys
    && (forall t :: t in g.tokens ==>
          && g2.tokens[t].scope == g.tokens[t].scope
          && g2.tokens[t].status == g.tokens[t].status
          && g2.tokens[t].outcome == g.tokens[t].outcome)
  }

  /** What the join of `s` sees is the same in `g` and `g2`. */
  ghost predicate SameView(g: Image, g2: Image, s: Id) {
    && Arrived(g2, s) == Arrived(g, s) && Gone(g2, s) == Gone(g, s)
    && Votes(g2, s, Approved) == Votes(g, s, Approved) && Votes(g2, s, Rejected) == Votes(g, s, Rejected)
  }

  lemma SameSets(g: Image, g2: Image, s: Id)
    requires SameShape(g, g2)
    ensures TokenArms(g2, s) == TokenArms(g, s) && ScopeArms(g2, s) == ScopeArms(g, s)
    ensures SameView(g, g2, s)
  {
  }

  lemma ShapeCalm(c: Chart, g: Image, g2: Image, pend: Pend, s: Id)
    requires SameShape(g, g2) && s in g.scopes && Calm(c, g, pend, s)
    ensures Calm(c, g2, pend, s)
  {
    SameSets(g, g2, s);
    if t :| In(g, t, s) && g.tokens[t].status.Live() { assert In(g2, t, s); }
  }

  lemma ShapeKeeps(c: Chart, g: Image, g2: Image, pend: Pend, loose: set<Id>)
    requires SameShape(g, g2) && Counted(g, pend) && Settled(c, g, pend, loose)
    ensures Counted(g2, pend) && Settled(c, g2, pend, loose)
  {
    hide Calm;
    forall s | s in g.scopes && Conserved(g, pend, s) ensures Conserved(g2, pend, s) { SameSets(g, g2, s); }
    forall s | s in g.scopes && Calm(c, g, pend, s) ensures Calm(c, g2, pend, s) { ShapeCalm(c, g, g2, pend, s); }
  }

  lemma SameScopes(c: Chart, g: Image, g2: Image)
    requires ScopesOk(c, g) && g2.scopes == g.scopes && g2.status == g.status
    ensures ScopesOk(c, g2)
  {
    forall s | s in g2.scopes ensures ScopeOk(c, g2, s) { assert ScopeOk(c, g, s); }
  }

  lemma SameTokens(c: Chart, g: Image, flight: Option<Id>, t: Id, k: Token)
    requires TokensOk(c, g, flight) && t in g.tokens
    requires k.scope == g.tokens[t].scope && k.status == g.tokens[t].status && k.outcome == g.tokens[t].outcome
    requires k.node == g.tokens[t].node || flight == Some(t)
    ensures TokensOk(c, g.(tokens := g.tokens[t := k]), flight)
  {
    var g2 := g.(tokens := g.tokens[t := k]);
    forall u | u in g2.tokens ensures TokenOk(c, g2, u, flight) { assert TokenOk(c, g, u, flight); }
  }

  /** Rewriting the routed token's node, or any token's claim and deadline. */
  lemma Rewrite(c: Chart, g: Image, pend: Pend, flight: Option<Id>, loose: set<Id>, t: Id, k: Token)
    requires Inv(c, g, pend, flight, loose) && t in g.tokens
    requires k.scope == g.tokens[t].scope && k.status == g.tokens[t].status && k.outcome == g.tokens[t].outcome
    requires k.node == g.tokens[t].node || flight == Some(t)
    ensures Inv(c, g.(tokens := g.tokens[t := k]), pend, flight, loose)
  {
    var g2 := g.(tokens := g.tokens[t := k]);
    hide Settled;
    hide Counted;
    hide ScopesOk;
    SameTokens(c, g, flight, t, k);
    SameScopes(c, g, g2);
    ShapeKeeps(c, g, g2, pend, loose);
  }

  lemma TakeOff(c: Chart, g: Image, pend: Pend, loose: set<Id>, t: Id)
    requires Inv(c, g, pend, None, loose) && t in g.tokens && g.tokens[t].status.Active?
    ensures Inv(c, g, pend, Some(t), loose)
  {
    forall u | u in g.tokens ensures TokenOk(c, g, u, Some(t)) { assert TokenOk(c, g, u, None); }
  }

  lemma Land(c: Chart, g: Image, pend: Pend, t: Id)
    requires Inv(c, g, pend, Some(t), {}) && AtRest(c, g, g.tokens[t])
    ensures Inv(c, g, pend, None, {})
  {
    forall u | u in g.tokens ensures TokenOk(c, g, u, None) { assert TokenOk(c, g, u, Some(t)); }
  }
}
