/** The steps that close scopes: a join firing, the case closing, the case
    cancelled, and the case opening. */
module Closings {
  import opened Definitions
  import opened Soundness
  import opened Tokens
  import opened Replay
  import opened Invariant

  // ---------------------------------------------------------- a join that fires

  function AfterJoin(g: Image, s: Id, p: Id, consumed: set<Id>, next: Id, node: string, seqNo: nat, at: int): Image {
    g.(tokens := EndAll(g.tokens, consumed, Consumed, seqNo, at)[next := Newborn(p, node)],
       scopes := JoinScopes(g.scopes, s, seqNo))
  }

  /** Nothing is left running in `s`: its live tokens are the waiting ones the
      join consumes, and the scopes inside it hold none. */
  ghost predicate CanJoin(g: Image, pend: Pend, loose: set<Id>, s: Id, p: Id, consumed: set<Id>, next: Id) {
    && s in g.scopes && s != ROOT && g.scopes[s].status.ScopeOpen? && g.scopes[s].parent == Some(p)
    && p in g.scopes && p < s
    && consumed == Arrived(g, s) && next !in g.tokens
    && (forall t :: t in g.tokens && g.tokens[t].status.Live() ==>
          !Inside(g.scopes, g.tokens[t].scope, s) && (g.tokens[t].scope == s ==> t in consumed))
    && (forall x :: x in pend && pend[x] > 0 ==> x != s && !Inside(g.scopes, x, s))
    && (forall x :: x in loose ==> x == s || Inside(g.scopes, x, s))
  }

  /** Open after the join: neither the joined scope nor inside it. */
  predicate Outlives(g: Image, s: Id, x: Id) {
    x in g.scopes && g.scopes[x].status.ScopeOpen? && x != s && !Inside(g.scopes, x, s)
  }

  lemma ParentOutlives(g: Image, s: Id, x: Id)
    requires Outlives(g, s, x) && g.scopes[x].parent.Some?
    requires var p := g.scopes[x].parent.value; p in g.scopes && p < x && g.scopes[p].status.ScopeOpen?
    ensures Outlives(g, s, g.scopes[x].parent.value)
  {
  }

  lemma ChildOutlives(g: Image, s: Id, x: Id, y: Id)
    requires Outlives(g, s, x) && y in g.scopes && g.scopes[y].status.ScopeOpen? && g.scopes[y].parent == Some(x)
    requires y != s
    ensures Outlives(g, s, y)
  {
  }

  lemma JoinScopesOk(c: Chart, g: Image, pend: Pend, loose: set<Id>, s: Id, p: Id, consumed: set<Id>, next: Id,
                     node: string, seqNo: nat, at: int)
    requires CanJoin(g, pend, loose, s, p, consumed, next) && ScopesOk(c, g)
    ensures ScopesOk(c, AfterJoin(g, s, p, consumed, next, node, seqNo, at))
  {
    var g2 := AfterJoin(g, s, p, consumed, next, node, seqNo, at);
    assert ScopeOk(c, g, ROOT);
    forall x | x in g2.scopes ensures ScopeOk(c, g2, x) {
      assert ScopeOk(c, g, x);
      if x != ROOT && g2.scopes[x].status.ScopeOpen? {
        assert Outlives(g, s, x);
        ParentOutlives(g, s, x);
      }
    }
  }

  lemma JoinParent(c: Chart, g: Image, pend: Pend, loose: set<Id>, s: Id, p: Id, consumed: set<Id>, next: Id)
    requires CanJoin(g, pend, loose, s, p, consumed, next) && ScopesOk(c, g)
    ensures Outlives(g, s, p)
  {
    assert ScopeOk(c, g, s);
    if Inside(g.scopes, p, s) { InsideIsBelow(c, g, p, s); }
  }

  lemma InsideIsBelow(c: Chart, g: Image, x: Id, s: Id)
    requires ScopesOk(c, g) && Inside(g.scopes, x, s)
    ensures s < x
  {
    assert ScopeOk(c, g, x);
    var q := g.scopes[x].parent.value;
    if q != s { InsideIsBelow(c, g, q, s); }
  }

  lemma JoinTokens(c: Chart, g: Image, pend: Pend, loose: set<Id>, s: Id, p: Id, consumed: set<Id>, next: Id,
                   node: string, seqNo: nat, at: int)
    requires CanJoin(g, pend, loose, s, p, consumed, next) && TokensOk(c, g, None) && Outlives(g, s, p)
    ensures TokensOk(c, AfterJoin(g, s, p, consumed, next, node, seqNo, at), Some(next))
  {
    var g2 := AfterJoin(g, s, p, consumed, next, node, seqNo, at);
    forall t | t in g2.tokens ensures TokenOk(c, g2, t, Some(next)) {
      if t != next { assert TokenOk(c, g, t, None); }
    }
  }

  lemma JoinTokenArms(c: Chart, g: Image, pend: Pend, loose: set<Id>, s: Id, p: Id, consumed: set<Id>, next: Id,
                      node: string, seqNo: nat, at: int, x: Id)
    requires CanJoin(g, pend, loose, s, p, consumed, next) && Outlives(g, s, x)
    ensures TokenArms(AfterJoin(g, s, p, consumed, next, node, seqNo, at), x) ==
      TokenArms(g, x) + (if x == p then {next} else {})
  {
    hide JoinScopes;
    hide Inside;
  }

  lemma JoinScopeArms(c: Chart, g: Image, pend: Pend, loose: set<Id>, s: Id, p: Id, consumed: set<Id>, next: Id,
                      node: string, seqNo: nat, at: int, x: Id)
    requires CanJoin(g, pend, loose, s, p, consumed, next) && Outlives(g, s, x)
    ensures ScopeArms(AfterJoin(g, s, p, consumed, next, node, seqNo, at), x) == ScopeArms(g, x) - {s}
  {
    hide EndAll;
    var g2 := AfterJoin(g, s, p, consumed, next, node, seqNo, at);
    forall y | y in ScopeArms(g, x) && y != s ensures y in ScopeArms(g2, x) { ChildOutlives(g, s, x, y); }
  }

  lemma JoinView(c: Chart, g: Image, pend: Pend, loose: set<Id>, s: Id, p: Id, consumed: set<Id>, next: Id,
                 node: string, seqNo: nat, at: int, x: Id)
    requires CanJoin(g, pend, loose, s, p, consumed, next) && Outlives(g, s, x)
    ensures SameView(g, AfterJoin(g, s, p, consumed, next, node, seqNo, at), x)
  {
    hide JoinScopes;
    hide Inside;
  }

  lemma JoinArms(c: Chart, g: Image, pend: Pend, loose: set<Id>, s: Id, p: Id, consumed: set<Id>, next: Id,
                 node: string, seqNo: nat, at: int, x: Id)
    requires CanJoin(g, pend, loose, s, p, consumed, next) && Outlives(g, s, x)
    ensures var g2 := AfterJoin(g, s, p, consumed, next, node, seqNo, at);
      && TokenArms(g2, x) == TokenArms(g, x) + (if x == p then {next} else {})
      && ScopeArms(g2, x) == ScopeArms(g, x) - {s}
      && SameView(g, g2, x)
  {
    JoinTokenArms(c, g, pend, loose, s, p, consumed, next, node, seqNo, at, x);
    JoinScopeArms(c, g, pend, loose, s, p, consumed, next, node, seqNo, at, x);
    JoinView(c, g, pend, loose, s, p, consumed, next, node, seqNo, at, x);
  }

  lemma JoinConserves(c: Chart, g: Image, pend: Pend, loose: set<Id>, s: Id, p: Id, consumed: set<Id>, next: Id,
                      node: string, seqNo: nat, at: int, x: Id)
    requires CanJoin(g, pend, loose, s, p, consumed, next) && Outlives(g, s, x) && Conserved(g, pend, x)
    ensures Conserved(AfterJoin(g, s, p, consumed, next, node, seqNo, at), pend, x)
  {
    JoinArms(c, g, pend, loose, s, p, consumed, next, node, seqNo, at, x);
    assert next !in TokenArms(g, x);
    if x == p { assert s in ScopeArms(g, x); } else { assert s !in ScopeArms(g, x); }
  }

  lemma JoinCounted(c: Chart, g: Image, pend: Pend, loose: set<Id>, s: Id, p: Id, consumed: set<Id>, next: Id,
                    node: string, seqNo: nat, at: int)
    requires CanJoin(g, pend, loose, s, p, consumed, next) && Counted(g, pend)
    ensures Counted(AfterJoin(g, s, p, consumed, next, node, seqNo, at), pend)
  {
    var g2 := AfterJoin(g, s, p, consumed, next, node, seqNo, at);
    hide Conserved;
    forall x | x in g2.scopes && g2.scopes[x].status.ScopeOpen? ensures Conserved(g2, pend, x) {
      assert Outlives(g, s, x);
      JoinConserves(c, g, pend, loose, s, p, consumed, next, node, seqNo, at, x);
    }
  }

  lemma JoinCalm(c: Chart, g: Image, pend: Pend, loose: set<Id>, s: Id, p: Id, consumed: set<Id>, next: Id,
                 node: string, seqNo: nat, at: int, x: Id)
    requires CanJoin(g, pend, loose, s, p, consumed, next) && Outlives(g, s, x) && Calm(c, g, pend, x)
    ensures Calm(c, AfterJoin(g, s, p, consumed, next, node, seqNo, at), pend, x)
  {
    var g2 := AfterJoin(g, s, p, consumed, next, node, seqNo, at);
    JoinArms(c, g, pend, loose, s, p, consumed, next, node, seqNo, at, x);
    if x == p {
      assert In(g2, next, x);
    } else if t :| In(g, t, x) && g.tokens[t].status.Live() {
      assert In(g2, t, x) && t !in consumed;
    } else if ScopeArms(g, x) != {} {
      assert s !in ScopeArms(g, x);
    }
  }

  lemma JoinSettled(c: Chart, g: Image, pend: Pend, loose: set<Id>, s: Id, p: Id, consumed: set<Id>, next: Id,
                    node: string, seqNo: nat, at: int)
    requires CanJoin(g, pend, loose, s, p, consumed, next) && Settled(c, g, pend, loose)
    ensures Settled(c, AfterJoin(g, s, p, consumed, next, node, seqNo, at), pend, {})
  {
    var g2 := AfterJoin(g, s, p, consumed, next, node, seqNo, at);
    hide Calm;
    forall x | x in g2.scopes && g2.scopes[x].status.ScopeOpen? ensures Calm(c, g2, pend, x) {
      assert Outlives(g, s, x) && x !in loose;
      JoinCalm(c, g, pend, loose, s, p, consumed, next, node, seqNo, at, x);
    }
  }

  lemma JoinStep(c: Chart, g: Image, pend: Pend, loose: set<Id>, s: Id, p: Id, consumed: set<Id>, next: Id,
                 node: string, seqNo: nat, at: int)
    requires CanJoin(g, pend, loose, s, p, consumed, next) && Inv(c, g, pend, None, loose)
    ensures Inv(c, AfterJoin(g, s, p, consumed, next, node, seqNo, at), pend, Some(next), {})
  {
    hide CanJoin;
    hide TokensOk;
    hide ScopesOk;
    hide Counted;
    hide Settled;
    hide AfterJoin;
    hide Outlives;
    JoinParent(c, g, pend, loose, s, p, consumed, next);
    JoinScopesOk(c, g, pend, loose, s, p, consumed, next, node, seqNo, at);
    JoinTokens(c, g, pend, loose, s, p, consumed, next, node, seqNo, at);
    JoinCounted(c, g, pend, loose, s, p, consumed, next, node, seqNo, at);
    JoinSettled(c, g, pend, loose, s, p, consumed, next, node, seqNo, at);
  }

  lemma InsideHasArm(g: Image, x: Id, s: Id)
    ensures Inside(g.scopes, x, s) ==> ScopeArms(g, s) != {}
  {
    if Inside(g.scopes, x, s) { assert ChildOnPath(g.scopes, x, s).value in ScopeArms(g, s); }
  }

  /** A join without a policy fires only when its scope has emitted, and holds,
      nothing but waiting and cancelled tokens. */
  lemma PlainJoinIsQuiet(c: Chart, g: Image, pend: Pend, s: Id)
    requires s in g.scopes && Conserved(g, pend, s)
    requires |Arrived(g, s)| + |Gone(g, s)| == g.scopes[s].expected
    ensures Pending(pend, s) == 0 && ScopeArms(g, s) == {}
    ensures TokenArms(g, s) == Arrived(g, s) + Gone(g, s)
    ensures forall x :: !Inside(g.scopes, x, s)
  {
    var w := Arrived(g, s) + Gone(g, s);
    assert Arrived(g, s) !! Gone(g, s) && w <= TokenArms(g, s);
    var rest := TokenArms(g, s) - w;
    assert TokenArms(g, s) == w + rest && w !! rest;
    assert |rest| == 0 && |ScopeArms(g, s)| == 0;
    forall x ensures !Inside(g.scopes, x, s) { InsideHasArm(g, x, s); }
  }

  // --------------------------------------------------------- the case closes

  function AfterClose(g: Image, f: Id, node: string, seqNo: nat, at: int): Image
    requires ROOT in g.scopes
  {
    g.(tokens := EndOne(g.tokens, f, Consumed, seqNo, at),
       scopes := g.scopes[ROOT := CloseScope(g.scopes[ROOT], ScopeClosed, seqNo)],
       status := CaseClosed, endState := node)
  }

  /** The routed token is all that is left once it stands in the root scope. */
  lemma LastToken(c: Chart, g: Image, pend: Pend, f: Id)
    requires Inv(c, g, pend, Some(f), {}) && f in g.tokens && g.tokens[f].scope == ROOT
    ensures TokenArms(g, ROOT) == {f} && ScopeArms(g, ROOT) == {}
  {
    assert TokenOk(c, g, f, Some(f));
    assert ScopeOk(c, g, ROOT) && Conserved(g, pend, ROOT);
    assert f in TokenArms(g, ROOT);
    var rest := TokenArms(g, ROOT) - {f};
    assert TokenArms(g, ROOT) == {f} + rest;
    assert |TokenArms(g, ROOT)| == 1 + |rest|;
  }

  /** Above every open scope lies one open directly below the root. */
  lemma RootArm(c: Chart, g: Image, s: Id)
    requires ScopesOk(c, g) && s in g.scopes && g.scopes[s].status.ScopeOpen? && s != ROOT
    ensures ScopeArms(g, ROOT) != {}
  {
    assert ScopeOk(c, g, s);
    var p := g.scopes[s].parent.value;
    if p == ROOT { assert s in ScopeArms(g, ROOT); } else { RootArm(c, g, p); }
  }

  lemma CloseScopes(c: Chart, g: Image, f: Id, node: string, seqNo: nat, at: int)
    requires ScopesOk(c, g) && c.root == "" && forall s :: s in g.scopes && g.scopes[s].status.ScopeOpen? ==> s == ROOT
    ensures ScopesOk(c, AfterClose(g, f, node, seqNo, at))
  {
    var g2 := AfterClose(g, f, node, seqNo, at);
    forall s | s in g2.scopes ensures ScopeOk(c, g2, s) { assert ScopeOk(c, g, s); }
  }

  lemma CloseTokens(c: Chart, g: Image, f: Id, node: string, seqNo: nat, at: int)
    requires TokensOk(c, g, Some(f)) && ROOT in g.scopes && TokenArms(g, ROOT) == {f}
    requires forall s :: s in g.scopes && g.scopes[s].status.ScopeOpen? ==> s == ROOT
    ensures TokensOk(c, AfterClose(g, f, node, seqNo, at), None)
  {
    var g2 := AfterClose(g, f, node, seqNo, at);
    forall t | t in g2.tokens ensures TokenOk(c, g2, t, None) {
      assert TokenOk(c, g, t, Some(f));
      assert t in TokenArms(g, ROOT) ==> t == f;
    }
  }

  lemma CloseStep(c: Chart, g: Image, pend: Pend, f: Id, node: string, seqNo: nat, at: int)
    requires Inv(c, g, pend, Some(f), {}) && f in g.tokens && g.tokens[f].scope == ROOT && ROOT in g.scopes
    requires c.root == ""
    ensures Inv(c, AfterClose(g, f, node, seqNo, at), pend, None, {})
  {
    var g2 := AfterClose(g, f, node, seqNo, at);
    hide Counted;
    hide Settled;
    hide TokensOk;
    hide ScopesOk;
    LastToken(c, g, pend, f);
    forall s | s in g.scopes && g.scopes[s].status.ScopeOpen? ensures s == ROOT { if s != ROOT { RootArm(c, g, s); } }
    CloseScopes(c, g, f, node, seqNo, at);
    CloseTokens(c, g, f, node, seqNo, at);
    NoneOpen(c, g, g2, pend);
  }

  lemma NoneOpen(c: Chart, g: Image, g2: Image, pend: Pend)
    requires Counted(g, pend) && forall s :: s in g.scopes && g.scopes[s].status.ScopeOpen? ==> s == ROOT
    requires forall s :: s in g2.scopes ==> !g2.scopes[s].status.ScopeOpen?
    ensures Counted(g2, pend) && Settled(c, g2, pend, {})
  {
  }

  // ------------------------------------------------------ the case cancelled

  function AfterCaseCancel(g: Image, state: string, seqNo: nat): Image {
    g.(scopes := CancelOpen(g.scopes, seqNo), status := CaseCancelled, endState := state)
  }

  lemma CaseCancelStep(c: Chart, g: Image, loose: set<Id>, state: string, seqNo: nat)
    requires Inv(c, g, map[], None, loose) && forall t :: t in g.tokens ==> !g.tokens[t].status.Live()
    ensures Quiet(c, AfterCaseCancel(g, state, seqNo))
  {
    var g2 := AfterCaseCancel(g, state, seqNo);
    forall s | s in g2.scopes ensures ScopeOk(c, g2, s) { assert ScopeOk(c, g, s); }
    forall t | t in g2.tokens ensures TokenOk(c, g2, t, None) { assert TokenOk(c, g, t, None); }
  }

  // --------------------------------------------------------- the case opened

  function AfterOpen(d: Definition, unit: string, start: string, deadline: Option<int>, at: int): Image {
    NOTHING.(scopes := NOTHING.scopes[ROOT := Scope(None, "", "", 1, ScopeOpen, 1, 0)],
             tokens := NOTHING.tokens[ROOT := Entered(d, unit, Newborn(ROOT, start), start, deadline, 1, at)],
             status := CaseOpen)
  }

  /** An opened case satisfies the invariant exactly when its start task lies in
      the root scope. */
  lemma OpenStep(c: Chart, unit: string, start: string, deadline: Option<int>, at: int)
    requires Rests(c.d, start)
    ensures Quiet(c, AfterOpen(c.d, unit, start, deadline, at)) <==> Home(c, start).split == c.root
  {
    var g := AfterOpen(c.d, unit, start, deadline, at);
    assert TokenArms(g, ROOT) == {ROOT} && ScopeArms(g, ROOT) == {} && Arrived(g, ROOT) == {} && Gone(g, ROOT) == {};
    assert Votes(g, ROOT, Approved) == {} && Votes(g, ROOT, Rejected) == {};
    assert In(g, ROOT, ROOT);
    if Quiet(c, g) { assert TokenOk(c, g, ROOT, None); }
  }
}
