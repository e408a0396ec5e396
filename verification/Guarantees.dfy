/** What the invariant of a stored case means for the people who use it. */
module Guarantees {
  import opened Definitions
  import opened Soundness
  import opened JoinPolicies
  import opened Tokens
  import opened Replay
  import opened Invariant
  import opened Rounds

  // ------------------------------------------------------ token conservation

  function Working(g: Image, s: Id): set<Id> {
    set t | t in g.tokens && g.tokens[t].scope == s && g.tokens[t].status.Active?
  }

  lemma ThreeWays(g: Image, s: Id)
    ensures |TokenArms(g, s)| == |Working(g, s)| + |Arrived(g, s)| + |Gone(g, s)|
  {
    assert TokenArms(g, s) == Working(g, s) + Arrived(g, s) + Gone(g, s);
    assert Working(g, s) !! Arrived(g, s) && (Working(g, s) + Arrived(g, s)) !! Gone(g, s);
  }

  /** Every branch an open scope expects is an active, waiting or cancelled token
      or an open block, exactly once. */
  lemma TokenConservation(c: Chart, g: Image, s: Id)
    requires Quiet(c, g) && s in g.scopes && g.scopes[s].status.ScopeOpen?
    ensures |Working(g, s)| + |Arrived(g, s)| + |Gone(g, s)| + |ScopeArms(g, s)| == g.scopes[s].expected
  {
    assert Conserved(g, map[], s);
    ThreeWays(g, s);
  }

  /** `s` is `ancestor` or lies below it, whatever the status of the scopes on
      the way. */
  predicate Under(g: Image, s: Id, ancestor: Id)
    decreases s
  {
    s == ancestor
    || (s in g.scopes && g.scopes[s].parent.Some? && g.scopes[s].parent.value < s &&
        Under(g, g.scopes[s].parent.value, ancestor))
  }

  /** A scope that is not open is quiet: no live token and no open scope is left
      anywhere below it. */
  lemma {:induction false} ClosedIsQuiet(c: Chart, g: Image, s: Id, x: Id)
    requires Quiet(c, g) && s in g.scopes && !g.scopes[s].status.ScopeOpen? && x in g.scopes && Under(g, x, s)
    ensures !g.scopes[x].status.ScopeOpen?
    ensures forall t :: t in g.tokens && g.tokens[t].scope == x ==> !g.tokens[t].status.Live()
    decreases x
  {
    assert ScopeOk(c, g, x);
    if x != s { ClosedIsQuiet(c, g, s, g.scopes[x].parent.value); }
    forall t | t in g.tokens && g.tokens[t].scope == x ensures !g.tokens[t].status.Live() {
      assert TokenOk(c, g, t, None);
    }
  }

  // ------------------------------------------------------------ no stuck case

  /** A complete round closes under every policy. */
  lemma CompleteCloses(p: Policy, t: Tally)
    requires !p.NoPolicy? && t.approved + t.rejected > 0 && t.approved + t.rejected + t.cancelled == t.expected
    ensures Closes(p, t).Closed?
  {
  }

  lemma VotesAll(c: Chart, g: Image, s: Id)
    requires TokensOk(c, g, None) && s in g.scopes && !JoinPolicyOf(c, g, s).NoPolicy?
    ensures |Votes(g, s, Approved)| + |Votes(g, s, Rejected)| == |Arrived(g, s)|
  {
    forall t | t in Arrived(g, s) ensures t in Votes(g, s, Approved) + Votes(g, s, Rejected) {
      assert TokenOk(c, g, t, None);
    }
    assert Arrived(g, s) == Votes(g, s, Approved) + Votes(g, s, Rejected);
  }

  /** A round with nothing left on its way closes. */
  lemma DoneRoundCloses(c: Chart, g: Image, s: Id)
    requires TokensOk(c, g, None) && s in g.scopes && Conserved(g, map[], s)
    requires Working(g, s) == {} && ScopeArms(g, s) == {} && Arrived(g, s) != {}
    ensures RulingAt(c, g, s).Closed?
  {
    ThreeWays(g, s);
    assert |Arrived(g, s)| + |Gone(g, s)| == g.scopes[s].expected;
    if !JoinPolicyOf(c, g, s).NoPolicy? {
      VotesAll(c, g, s);
      CompleteCloses(JoinPolicyOf(c, g, s),
                     Tally(|Votes(g, s, Approved)|, |Votes(g, s, Rejected)|, |Gone(g, s)|, g.scopes[s].expected));
    }
  }

  /** A live scope has a token of its own or an open block. */
  lemma AliveHow(g: Image, s: Id)
    requires Alive(g, map[], s)
    ensures Working(g, s) != {} || Arrived(g, s) != {} || ScopeArms(g, s) != {}
  {
    if t :| In(g, t, s) && g.tokens[t].status.Live() { assert t in Working(g, s) + Arrived(g, s); }
  }

  /** A scope whose join is not ready has an active token or an open block. */
  lemma GoesOn(c: Chart, g: Image, s: Id)
    requires TokensOk(c, g, None) && s in g.scopes && Conserved(g, map[], s) && Calm(c, g, map[], s)
    ensures Working(g, s) != {} || ScopeArms(g, s) != {}
  {
    hide RulingAt;
    AliveHow(g, s);
    if Working(g, s) == {} && ScopeArms(g, s) == {} { DoneRoundCloses(c, g, s); }
  }

  lemma UnderTrans(g: Image, a: Id, b: Id, s: Id)
    requires Under(g, a, b) && Under(g, b, s)
    ensures Under(g, a, s)
    decreases a
  {
    if a != b { UnderTrans(g, g.scopes[a].parent.value, b, s); }
  }

  /** Somebody can always act: in every open scope, directly or inside a block
      still open below it, an active token rests on a task of its branch. */
  lemma {:induction false} NoStuckScope(c: Chart, g: Image, s: Id, bound: Id) returns (t: Id)
    requires Quiet(c, g) && s in g.scopes && g.scopes[s].status.ScopeOpen? && forall x :: x in g.scopes ==> x < bound
    ensures t in g.tokens && g.tokens[t].status.Active? && g.tokens[t].scope in g.scopes && AtRest(c, g, g.tokens[t])
    ensures Under(g, g.tokens[t].scope, s)
    decreases bound - s
  {
    hide Settled;
    SettledAt(c, g, map[], {}, s);
    assert Conserved(g, map[], s);
    hide Calm;
    GoesOn(c, g, s);
    if Working(g, s) != {} {
      t :| t in Working(g, s);
      assert TokenOk(c, g, t, None);
    } else {
      var x :| x in ScopeArms(g, s);
      assert ScopeOk(c, g, x);
      t := NoStuckScope(c, g, x, bound);
      UnderTrans(g, g.tokens[t].scope, x, s);
    }
  }

  lemma SettledAt(c: Chart, g: Image, pend: Pend, loose: set<Id>, s: Id)
    requires Settled(c, g, pend, loose) && s in g.scopes && g.scopes[s].status.ScopeOpen? && s !in loose
    ensures Calm(c, g, pend, s)
  {
  }

  lemma Bounded(ids: set<Id>) returns (b: Id)
    ensures forall x :: x in ids ==> x < b
  {
    if ids == {} { return 0; }
    var x :| x in ids;
    var r := Bounded(ids - {x});
    b := if r > x then r else x + 1;
    forall y | y in ids ensures y < b { if y != x { assert y in ids - {x}; } }
  }

  /** An open case always has a task somebody can act on. */
  lemma NoStuckCase(c: Chart, g: Image) returns (t: Id)
    requires Quiet(c, g) && g.status.CaseOpen?
    ensures t in g.tokens && g.tokens[t].status.Active? && Rests(c.d, g.tokens[t].node)
  {
    var b := Bounded(g.scopes.Keys);
    t := NoStuckScope(c, g, ROOT, b);
  }

  /** And a case that is not open has none left. */
  lemma EndedCaseIsQuiet(c: Chart, g: Image)
    requires Quiet(c, g) && !g.status.CaseOpen?
    ensures forall t :: t in g.tokens ==> !g.tokens[t].status.Live()
    ensures forall s :: s in g.scopes ==> !g.scopes[s].status.ScopeOpen?
  {
    forall s | s in g.scopes ensures !g.scopes[s].status.ScopeOpen? {
      RootAbove(c, g, s);
      ClosedIsQuiet(c, g, ROOT, s);
    }
    forall t | t in g.tokens ensures !g.tokens[t].status.Live() { assert TokenOk(c, g, t, None); }
  }

  lemma {:induction false} RootAbove(c: Chart, g: Image, s: Id)
    requires ScopesOk(c, g) && s in g.scopes
    ensures Under(g, s, ROOT)
    decreases s
  {
    assert ScopeOk(c, g, s);
    if s != ROOT { RootAbove(c, g, g.scopes[s].parent.value); }
  }
}
