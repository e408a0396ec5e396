/** Each engine step keeps the invariant. */
module Steps {
  import opened Definitions
  import opened Soundness
  import opened Tokens
  import opened Replay
  import opened Invariant

  // --------------------------------------------------------------- the split

  /** `f` consumed, `child` opened below its scope expecting `n` branches. */
  function AfterSplit(d: Definition, g: Image, f: Id, p: Id, child: Id, node: string, n: nat, seqNo: nat,
                      at: int): Image {
    g.(tokens := EndOne(g.tokens, f, Consumed, seqNo, at),
       scopes := g.scopes[child :=
         Scope(Some(p), node, NodeOf(d, node).join, n, ScopeOpen, seqNo, 0)])
  }

  /** What a split may start from. */
  ghost predicate CanSplit(c: Chart, g: Image, f: Id, p: Id, child: Id, node: string) {
    && f in g.tokens && g.tokens[f].status.Active? && g.tokens[f].scope == p && p in g.scopes
    && child !in g.scopes && child != ROOT
    && (forall s :: s in g.scopes ==> s < child)
    && IsSplitNode(c.d, node)
    && Home(c, node).split == Side(c, g.scopes[p])
  }

  lemma SplitScopes(c: Chart, g: Image, f: Id, p: Id, child: Id, node: string, n: nat, seqNo: nat, at: int)
    requires CanSplit(c, g, f, p, child, node) && ScopesOk(c, g)
    requires g.scopes[p].status.ScopeOpen?
    ensures ScopesOk(c, AfterSplit(c.d, g, f, p, child, node, n, seqNo, at))
  {
    var g2 := AfterSplit(c.d, g, f, p, child, node, n, seqNo, at);
    forall s | s in g2.scopes ensures ScopeOk(c, g2, s) {
      if s != child { assert ScopeOk(c, g, s); }
    }
  }

  lemma SplitTokens(c: Chart, g: Image, f: Id, p: Id, child: Id, node: string, n: nat, seqNo: nat, at: int)
    requires CanSplit(c, g, f, p, child, node) && TokensOk(c, g, Some(f))
    ensures TokensOk(c, AfterSplit(c.d, g, f, p, child, node, n, seqNo, at), None)
  {
    var g2 := AfterSplit(c.d, g, f, p, child, node, n, seqNo, at);
    forall t | t in g2.tokens ensures TokenOk(c, g2, t, None) { assert TokenOk(c, g, t, Some(f)); }
  }

  lemma SplitArms(c: Chart, g: Image, f: Id, p: Id, child: Id, node: string, n: nat, seqNo: nat, at: int, s: Id)
    requires CanSplit(c, g, f, p, child, node) && s in g.scopes
    ensures var g2 := AfterSplit(c.d, g, f, p, child, node, n, seqNo, at);
      && TokenArms(g2, s) == TokenArms(g, s) - {f}
      && ScopeArms(g2, s) == ScopeArms(g, s) + (if s == p then {child} else {})
      && SameView(g, g2, s)
  {
  }

  lemma SplitFresh(c: Chart, g: Image, f: Id, p: Id, child: Id, node: string, n: nat, seqNo: nat, at: int)
    requires CanSplit(c, g, f, p, child, node) && TokensOk(c, g, Some(f)) && ScopesOk(c, g)
    ensures var g2 := AfterSplit(c.d, g, f, p, child, node, n, seqNo, at);
      && TokenArms(g2, child) == {} && ScopeArms(g2, child) == {} && Arrived(g2, child) == {} && Gone(g2, child) == {}
      && Votes(g2, child, Approved) == {} && Votes(g2, child, Rejected) == {}
  {
    var g2 := AfterSplit(c.d, g, f, p, child, node, n, seqNo, at);
    forall t | t in g2.tokens ensures g2.tokens[t].scope != child { assert TokenOk(c, g, t, Some(f)); }
    forall s | s in g2.scopes ensures g2.scopes[s].parent != Some(child) {
      if s != child { assert ScopeOk(c, g, s); }
    }
  }

  lemma SplitChild(c: Chart, g: Image, pend: Pend, f: Id, p: Id, child: Id, node: string, n: nat, seqNo: nat, at: int)
    requires CanSplit(c, g, f, p, child, node) && TokensOk(c, g, Some(f)) && ScopesOk(c, g) && n > 0
    ensures var g2 := AfterSplit(c.d, g, f, p, child, node, n, seqNo, at);
      Conserved(g2, pend[child := n], child) && Calm(c, g2, pend[child := n], child)
  {
    SplitFresh(c, g, f, p, child, node, n, seqNo, at);
    hide TokensOk;
    hide ScopesOk;
  }

  lemma SplitConserves(c: Chart, g: Image, pend: Pend, f: Id, p: Id, child: Id, node: string, n: nat, seqNo: nat,
                       at: int, s: Id)
    requires CanSplit(c, g, f, p, child, node) && s in g.scopes && Conserved(g, pend, s)
    ensures Conserved(AfterSplit(c.d, g, f, p, child, node, n, seqNo, at), pend[child := n], s)
  {
    SplitArms(c, g, f, p, child, node, n, seqNo, at, s);
    if s == p {
      assert f in TokenArms(g, s) && child !in ScopeArms(g, s);
    } else {
      assert f !in TokenArms(g, s);
    }
  }

  lemma SplitCounted(c: Chart, g: Image, pend: Pend, f: Id, p: Id, child: Id, node: string, n: nat, seqNo: nat, at: int)
    requires CanSplit(c, g, f, p, child, node) && TokensOk(c, g, Some(f)) && ScopesOk(c, g) && Counted(g, pend)
    requires n > 0
    ensures Counted(AfterSplit(c.d, g, f, p, child, node, n, seqNo, at), pend[child := n])
  {
    var g2 := AfterSplit(c.d, g, f, p, child, node, n, seqNo, at);
    hide TokensOk;
    hide ScopesOk;
    hide Conserved;
    hide Calm;
    assert child != ROOT && child !in g.scopes;
    hide CanSplit;
    SplitChild(c, g, pend, f, p, child, node, n, seqNo, at);
    forall s | s in g.scopes && Conserved(g, pend, s) ensures Conserved(g2, pend[child := n], s) {
      SplitConserves(c, g, pend, f, p, child, node, n, seqNo, at, s);
    }
  }

  lemma SplitCalm(c: Chart, g: Image, pend: Pend, f: Id, p: Id, child: Id, node: string, n: nat, seqNo: nat, at: int,
                  s: Id)
    requires CanSplit(c, g, f, p, child, node) && s in g.scopes && Calm(c, g, pend, s)
    ensures Calm(c, AfterSplit(c.d, g, f, p, child, node, n, seqNo, at), pend[child := n], s)
  {
    var g2 := AfterSplit(c.d, g, f, p, child, node, n, seqNo, at);
    SplitArms(c, g, f, p, child, node, n, seqNo, at, s);
    if s == p {
      assert child in ScopeArms(g2, s);
    } else if t :| In(g, t, s) && g.tokens[t].status.Live() {
      assert In(g2, t, s);
    }
  }

  lemma SplitSettled(c: Chart, g: Image, pend: Pend, f: Id, p: Id, child: Id, node: string, n: nat, seqNo: nat, at: int)
    requires CanSplit(c, g, f, p, child, node) && TokensOk(c, g, Some(f)) && ScopesOk(c, g) && Settled(c, g, pend, {})
    requires n > 0
    ensures Settled(c, AfterSplit(c.d, g, f, p, child, node, n, seqNo, at), pend[child := n], {})
  {
    var g2 := AfterSplit(c.d, g, f, p, child, node, n, seqNo, at);
    hide TokensOk;
    hide ScopesOk;
    hide Conserved;
    hide Calm;
    assert child != ROOT && child !in g.scopes;
    hide CanSplit;
    SplitChild(c, g, pend, f, p, child, node, n, seqNo, at);
    forall s | s in g.scopes && Calm(c, g, pend, s) ensures Calm(c, g2, pend[child := n], s) {
      SplitCalm(c, g, pend, f, p, child, node, n, seqNo, at, s);
    }
  }

  lemma SplitStep(c: Chart, g: Image, pend: Pend, f: Id, p: Id, child: Id, node: string, n: nat, seqNo: nat, at: int)
    requires CanSplit(c, g, f, p, child, node) && Inv(c, g, pend, Some(f), {})
    requires n > 0
    ensures Inv(c, AfterSplit(c.d, g, f, p, child, node, n, seqNo, at), pend[child := n], None, {})
  {
    assert TokenOk(c, g, f, Some(f));
    SplitScopes(c, g, f, p, child, node, n, seqNo, at);
    SplitTokens(c, g, f, p, child, node, n, seqNo, at);
    SplitCounted(c, g, pend, f, p, child, node, n, seqNo, at);
    SplitSettled(c, g, pend, f, p, child, node, n, seqNo, at);
  }

  // -------------------------------------------------------- a branch emitted

  function AfterSpawn(g: Image, b: Id, s: Id, node: string): Image {
    g.(tokens := g.tokens[b := Newborn(s, node)])
  }

  ghost predicate CanSpawn(g: Image, pend: Pend, b: Id, s: Id) {
    && b !in g.tokens && s in g.scopes && g.scopes[s].status.ScopeOpen?
    && s in pend && pend[s] > 0
  }

  lemma SpawnTokens(c: Chart, g: Image, pend: Pend, b: Id, s: Id, node: string)
    requires CanSpawn(g, pend, b, s) && TokensOk(c, g, None)
    ensures TokensOk(c, AfterSpawn(g, b, s, node), Some(b))
  {
    var g2 := AfterSpawn(g, b, s, node);
    forall t | t in g2.tokens ensures TokenOk(c, g2, t, Some(b)) {
      if t != b { assert TokenOk(c, g, t, None); }
    }
  }

  lemma SpawnArms(g: Image, b: Id, s: Id, node: string, x: Id)
    requires b !in g.tokens
    ensures var g2 := AfterSpawn(g, b, s, node);
      && TokenArms(g2, x) == TokenArms(g, x) + (if x == s then {b} else {})
      && ScopeArms(g2, x) == ScopeArms(g, x) && SameView(g, g2, x)
  {
  }

  lemma SpawnConserves(g: Image, pend: Pend, b: Id, s: Id, node: string, x: Id)
    requires CanSpawn(g, pend, b, s) && x in g.scopes && Conserved(g, pend, x)
    ensures Conserved(AfterSpawn(g, b, s, node), pend[s := pend[s] - 1], x)
  {
    SpawnArms(g, b, s, node, x);
    assert b !in TokenArms(g, x);
  }

  lemma SpawnCalm(c: Chart, g: Image, pend: Pend, b: Id, s: Id, node: string, x: Id)
    requires CanSpawn(g, pend, b, s) && x in g.scopes && Calm(c, g, pend, x)
    ensures Calm(c, AfterSpawn(g, b, s, node), pend[s := pend[s] - 1], x)
  {
    var g2 := AfterSpawn(g, b, s, node);
    SpawnArms(g, b, s, node, x);
    if x == s {
      assert In(g2, b, x);
    } else if t :| In(g, t, x) && g.tokens[t].status.Live() {
      assert In(g2, t, x);
    }
  }

  lemma SpawnCounted(g: Image, pend: Pend, b: Id, s: Id, node: string)
    requires CanSpawn(g, pend, b, s) && Counted(g, pend)
    ensures Counted(AfterSpawn(g, b, s, node), pend[s := pend[s] - 1])
  {
    var g2 := AfterSpawn(g, b, s, node);
    var pend2 := pend[s := pend[s] - 1];
    hide Conserved;
    forall x | x in g.scopes && Conserved(g, pend, x) ensures Conserved(g2, pend2, x) {
      SpawnConserves(g, pend, b, s, node, x);
    }
  }

  lemma SpawnSettled(c: Chart, g: Image, pend: Pend, b: Id, s: Id, node: string)
    requires CanSpawn(g, pend, b, s) && Settled(c, g, pend, {})
    ensures Settled(c, AfterSpawn(g, b, s, node), pend[s := pend[s] - 1], {})
  {
    var g2 := AfterSpawn(g, b, s, node);
    var pend2 := pend[s := pend[s] - 1];
    hide Calm;
    forall x | x in g.scopes && Calm(c, g, pend, x) ensures Calm(c, g2, pend2, x) {
      SpawnCalm(c, g, pend, b, s, node, x);
    }
  }

  lemma SpawnStep(c: Chart, g: Image, pend: Pend, b: Id, s: Id, node: string)
    requires CanSpawn(g, pend, b, s) && Inv(c, g, pend, None, {})
    ensures Inv(c, AfterSpawn(g, b, s, node), pend[s := pend[s] - 1], Some(b), {})
  {
    hide TokensOk;
    hide ScopesOk;
    hide Counted;
    hide Settled;
    SpawnTokens(c, g, pend, b, s, node);
    SameScopes(c, g, AfterSpawn(g, b, s, node));
    SpawnCounted(g, pend, b, s, node);
    SpawnSettled(c, g, pend, b, s, node);
  }

  // ------------------------------------------- a token arrives or is cancelled

  /** Token `t` leaves the active ones but stays a branch of its scope. */
  ghost predicate Parks(g: Image, g2: Image, t: Id) {
    && t in g.tokens && t in g2.tokens && g2.scopes == g.scopes && g2.status == g.status
    && g2.tokens == g.tokens[t := g2.tokens[t]]
    && g2.tokens[t].scope == g.tokens[t].scope
    && !g.tokens[t].status.Consumed?
    && (g2.tokens[t].status.Waiting? || g2.tokens[t].status.Cancelled?)
  }

  lemma ParkArms(g: Image, g2: Image, t: Id, x: Id)
    requires Parks(g, g2, t)
    ensures TokenArms(g2, x) == TokenArms(g, x) && ScopeArms(g2, x) == ScopeArms(g, x)
    ensures x != g.tokens[t].scope ==> SameView(g, g2, x)
  {
  }

  lemma ParkCalm(c: Chart, g: Image, g2: Image, pend: Pend, t: Id, x: Id)
    requires Parks(g, g2, t) && x in g.scopes && Calm(c, g, pend, x) && x != g.tokens[t].scope
    ensures Calm(c, g2, pend, x)
  {
    ParkArms(g, g2, t, x);
    if u :| In(g, u, x) && g.tokens[u].status.Live() { assert In(g2, u, x); }
  }

  lemma ParkKeeps(c: Chart, g: Image, g2: Image, pend: Pend, loose: set<Id>, t: Id)
    requires Parks(g, g2, t) && Counted(g, pend) && Settled(c, g, pend, loose)
    ensures Counted(g2, pend) && Settled(c, g2, pend, loose + {g.tokens[t].scope})
  {
    hide Calm;
    forall x | x in g.scopes && Conserved(g, pend, x) ensures Conserved(g2, pend, x) { ParkArms(g, g2, t, x); }
    hide Conserved;
    forall x | x in g.scopes && Calm(c, g, pend, x) && x != g.tokens[t].scope ensures Calm(c, g2, pend, x) {
      ParkCalm(c, g, g2, pend, t, x);
    }
  }

  function AfterArrive(g: Image, f: Id, o: Outcome): Image
    requires f in g.tokens
  {
    g.(tokens := g.tokens[f := g.tokens[f].(status := Waiting, outcome := o)])
  }

  /** `f` stands at the join of its scope with a vote the join can read. */
  ghost predicate CanArrive(c: Chart, g: Image, f: Id, o: Outcome) {
    && f in g.tokens && g.tokens[f].status.Active? && g.tokens[f].scope in g.scopes
    && IsJoinNode(c.d, g.tokens[f].node) && g.tokens[f].node == g.scopes[g.tokens[f].scope].joinNode
    && Readable(c, g.tokens[f].(outcome := o))
  }

  lemma ArriveTokens(c: Chart, g: Image, f: Id, o: Outcome)
    requires CanArrive(c, g, f, o) && TokensOk(c, g, Some(f))
    ensures TokensOk(c, AfterArrive(g, f, o), None)
  {
    var g2 := AfterArrive(g, f, o);
    forall t | t in g2.tokens ensures TokenOk(c, g2, t, None) { assert TokenOk(c, g, t, Some(f)); }
  }

  lemma ArriveStep(c: Chart, g: Image, pend: Pend, f: Id, o: Outcome)
    requires CanArrive(c, g, f, o) && Inv(c, g, pend, Some(f), {})
    ensures Inv(c, AfterArrive(g, f, o), pend, None, {g.tokens[f].scope})
  {
    var g2 := AfterArrive(g, f, o);
    ArriveTokens(c, g, f, o);
    assert Parks(g, g2, f);
    hide TokensOk;
    hide ScopesOk;
    hide Counted;
    ParkKeeps(c, g, g2, pend, {}, f);
    SameScopes(c, g, g2);
    assert {} + {g.tokens[f].scope} == {g.tokens[f].scope};
  }

  function AfterCancel(g: Image, t: Id, seqNo: nat, at: int): Image {
    g.(tokens := EndOne(g.tokens, t, Cancelled, seqNo, at))
  }

  lemma CancelTokens(c: Chart, g: Image, t: Id, seqNo: nat, at: int)
    requires t in g.tokens && TokensOk(c, g, None)
    ensures TokensOk(c, AfterCancel(g, t, seqNo, at), None)
  {
    var g2 := AfterCancel(g, t, seqNo, at);
    forall u | u in g2.tokens ensures TokenOk(c, g2, u, None) { assert TokenOk(c, g, u, None); }
  }

  lemma CancelStep(c: Chart, g: Image, pend: Pend, loose: set<Id>, t: Id, seqNo: nat, at: int)
    requires t in g.tokens && g.tokens[t].status.Live() && Inv(c, g, pend, None, loose)
    ensures Inv(c, AfterCancel(g, t, seqNo, at), pend, None, loose + {g.tokens[t].scope})
  {
    var g2 := AfterCancel(g, t, seqNo, at);
    CancelTokens(c, g, t, seqNo, at);
    assert Parks(g, g2, t);
    hide TokensOk;
    hide ScopesOk;
    hide Counted;
    ParkKeeps(c, g, g2, pend, loose, t);
    SameScopes(c, g, g2);
  }

  /** A scope whose join is not ready needs no exemption. */
  lemma SettleStep(c: Chart, g: Image, pend: Pend, s: Id)
    requires Inv(c, g, pend, None, {s}) && s in g.scopes && Calm(c, g, pend, s)
    ensures Inv(c, g, pend, None, {})
  {
    hide Calm;
  }

  /** A scope still emitting branches has no join to fire unless a policy reads
      the votes it already holds. */
  lemma EmittingIsOpen(c: Chart, g: Image, pend: Pend, s: Id)
    requires s in g.scopes && Conserved(g, pend, s) && Pending(pend, s) > 0
    requires JoinPolicyOf(c, g, s).NoPolicy?
    ensures RulingAt(c, g, s).Open?
  {
    assert Arrived(g, s) !! Gone(g, s);
    Below(Arrived(g, s) + Gone(g, s), TokenArms(g, s));
  }

  lemma Below(a: set<Id>, b: set<Id>)
    requires a <= b
    ensures |a| <= |b|
  {
    assert b == a + (b - a);
  }
}
