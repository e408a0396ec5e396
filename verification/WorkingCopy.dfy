/** The working copy of a case as a value, and what each planned step does to
    it: state, history, identifiers and the marks of the rows to write. */
module WorkingCopy {
  import opened Definitions
  import opened Soundness
  import opened Tokens
  import opened Replay
  import opened Invariant
  import opened Steps
  import opened Closings
  import opened History
  import opened Planning

  datatype Work = Work(
    g: Image, log: seq<Event>, next: Id, created: set<Id>, changed: set<Id>, steps: nat)

  // ------------------------------------------------------------ the row marks

  /** Whatever differs from the case as it was read is marked, and the marks
      tell new rows from changed ones. */
  ghost predicate Marked(base: Image, g: Image, created: set<Id>, changed: set<Id>) {
    && (forall t :: t in g.tokens ==>
          && (t !in created && t !in changed ==> t in base.tokens && g.tokens[t] == base.tokens[t])
          && (t in created ==> t !in base.tokens)
          && (t in changed ==> t in base.tokens))
    && (forall s :: s in g.scopes ==>
          && (s !in created && s !in changed ==> s in base.scopes && g.scopes[s] == base.scopes[s])
          && (s in created ==> s !in base.scopes)
          && (s in changed ==> s in base.scopes))
  }

  function Touched(created: set<Id>, changed: set<Id>, id: Id): set<Id> {
    if id in created then changed else changed + {id}
  }

  lemma MarkToken(base: Image, g: Image, created: set<Id>, changed: set<Id>, t: Id, k: Token)
    requires Marked(base, g, created, changed) && t in g.tokens && (t in g.scopes ==> t in base.scopes)
    ensures Marked(base, g.(tokens := g.tokens[t := k]), created, Touched(created, changed, t))
  {
  }

  lemma MarkNewToken(base: Image, g: Image, created: set<Id>, changed: set<Id>, t: Id, k: Token)
    requires Marked(base, g, created, changed) && t !in g.scopes && t !in base.tokens && t !in changed
    ensures Marked(base, g.(tokens := g.tokens[t := k]), created + {t}, changed)
  {
  }

  lemma MarkNewScope(base: Image, g: Image, created: set<Id>, changed: set<Id>, s: Id, sc: Scope)
    requires Marked(base, g, created, changed) && s !in g.tokens && s !in base.scopes && s !in changed
    ensures Marked(base, g.(scopes := g.scopes[s := sc]), created + {s}, changed)
  {
  }

  /** The marks name identifiers already handed out, and the case as read held
      its root rows. */
  ghost predicate MarksBelow(base: Image, w: Work) {
    && IdsBelow(base, w.next) && ROOT in base.tokens && ROOT in base.scopes
    && (forall x :: x in w.created || x in w.changed ==> x < w.next)
  }

  lemma MarkOne(c: Chart, base: Image, w: Work, t: Id, k: Token, log: seq<Event>)
    requires Marked(base, w.g, w.created, w.changed) && MarksBelow(base, w) && IdsBelow(w.g, w.next) && t in w.g.tokens
    ensures var w2 := w.(g := w.g.(tokens := w.g.tokens[t := k]), log := log,
                         changed := Touched(w.created, w.changed, t));
      Marked(base, w2.g, w2.created, w2.changed) && MarksBelow(base, w2)
  {
    MarkToken(base, w.g, w.created, w.changed, t, k);
    hide Marked;
  }

  // --------------------------------------------------------------- the bundle

  ghost predicate Works(c: Chart, base: Image, w: Work, pend: Pend, flight: Option<Id>, loose: set<Id>) {
    && Sound(c)
    && Holds(c, w.g, w.log, w.next, pend, flight, loose)
    && Marked(base, w.g, w.created, w.changed)
    && MarksBelow(base, w)
    && (forall s :: s in pend ==> s < w.next)
  }

  ghost predicate Rebuilds(c: Chart, unit: string, w: Work) { Exact(c.d, unit, w.log, w.g) }

  /** How many rounds under a policy a history closes. */
  function PolicyJoins(log: seq<Event>): nat {
    if log == [] then 0
    else
      var e := log[|log| - 1];
      PolicyJoins(log[..|log| - 1]) + (if e.body.Joined? && !e.body.policy.NoPolicy? then 1 else 0)
  }

  lemma PolicyJoinsAppend(log: seq<Event>, e: Event)
    ensures PolicyJoins(log + [e]) == PolicyJoins(log) + (if e.body.Joined? && !e.body.policy.NoPolicy? then 1 else 0)
  {
    assert (log + [e])[..|log|] == log;
  }

  /** `w2` comes later in the same call than `w`, having closed at most `n`
      rounds under a policy in between. */
  ghost predicate Extends(w: Work, w2: Work, n: nat) {
    && w.log <= w2.log && w.next <= w2.next && w.steps <= w2.steps
    && PolicyJoins(w2.log) <= PolicyJoins(w.log) + n
    && Grows(w.g, w2.g)
    && (forall t :: t in w2.g.tokens ==> t in w.g.tokens || t >= w.next)
    && (forall s :: s in w2.g.scopes ==> s in w.g.scopes || s >= w.next)
    && (forall x :: x in w2.created || x in w2.changed ==>
          x in w.created || x in w.changed || x in w.g.tokens || x in w.g.scopes || x >= w.next)
  }

  lemma ExtendsTrans(a: Work, b: Work, c: Work, m: nat, n: nat)
    requires Extends(a, b, m) && Extends(b, c, n)
    ensures Extends(a, c, m + n)
  {
  }

  lemma ExtendsMore(w: Work, w2: Work, m: nat, n: nat)
    requires Extends(w, w2, m) && m <= n
    ensures Extends(w, w2, n)
  {
  }

  lemma ExtendsRefl(w: Work)
    ensures Extends(w, w, 0)
  {
  }

  lemma LogPrefix(w: Work, w2: Work, n: nat)
    requires Extends(w, w2, n)
    ensures w.log <= w2.log && w.steps <= w2.steps && w.next <= w2.next
  {
  }

  /** Counting a gateway changes nothing else. */
  lemma Stepped(c: Chart, unit: string, base: Image, w: Work, pend: Pend, flight: Option<Id>, loose: set<Id>, n: nat)
    requires Works(c, base, w, pend, flight, loose) && Rebuilds(c, unit, w) && w.steps <= n
    ensures Works(c, base, w.(steps := n), pend, flight, loose) && Rebuilds(c, unit, w.(steps := n))
    ensures Extends(w, w.(steps := n), 0)
  {
    hide Holds;
    hide Sound;
    hide Marked;
    hide Exact;
  }

  lemma MoreLoose(c: Chart, base: Image, w: Work, pend: Pend, flight: Option<Id>, loose: set<Id>, loose2: set<Id>)
    requires Works(c, base, w, pend, flight, loose) && loose <= loose2
    ensures Works(c, base, w, pend, flight, loose2)
  {
    hide Logged;
    hide Sound;
    hide Marked;
    hide MarksBelow;
    hide IdsBelow;
    hide ScopesOk;
    hide TokensOk;
    hide Counted;
    hide Calm;
  }

  // ------------------------------------------------------- a token cancelled

  function Cancels(w: Work, t: Id, e: Event): Work {
    w.(g := AfterCancel(w.g, t, e.seqNo, e.at), log := w.log + [e], changed := Touched(w.created, w.changed, t))
  }

  lemma CancelExtends(w: Work, t: Id, e: Event)
    requires t in w.g.tokens && e.body.TokenCancelled?
    ensures Extends(w, Cancels(w, t, e), 0)
  {
    PolicyJoinsAppend(w.log, e);
  }

  lemma WorkCancel(c: Chart, unit: string, base: Image, w: Work, pend: Pend, loose: set<Id>, t: Id, e: Event)
    requires Works(c, base, w, pend, None, loose) && Rebuilds(c, unit, w)
    requires Next(w.log, e) && About(w.g, e, t) && e.body.TokenCancelled? && w.g.tokens[t].status.Live()
    ensures Works(c, base, Cancels(w, t, e), pend, None, loose + {w.g.tokens[t].scope})
    ensures Rebuilds(c, unit, Cancels(w, t, e)) && Extends(w, Cancels(w, t, e), 0)
  {
    hide Extends;
    hide Inv;
    hide Logged;
    hide Sound;
    hide Exact;
    hide Marked;
    hide MarksBelow;
    hide IdsBelow;
    CancelExtends(w, t, e);
    PlanCancel(c, unit, w.g, w.log, w.next, pend, loose, t, e);
    MarkOne(c, base, w, t, Ended(w.g.tokens[t], Cancelled, e.seqNo, e.at), w.log + [e]);
  }

  // ------------------------------------------------------------ a token moved

  function MovesWork(c: Chart, unit: string, w: Work, e: Event): Work {
    w.(g := Moves(c.d, unit, w.g, e), log := w.log + [e], changed := Touched(w.created, w.changed, e.token))
  }

  lemma MoveExtends(c: Chart, unit: string, w: Work, e: Event)
    requires e.token in w.g.tokens && e.body.Moved?
    ensures Extends(w, MovesWork(c, unit, w, e), 0)
  {
    PolicyJoinsAppend(w.log, e);
  }

  lemma MoveMarks(c: Chart, unit: string, base: Image, w: Work, e: Event)
    requires Marked(base, w.g, w.created, w.changed) && MarksBelow(base, w) && IdsBelow(w.g, w.next)
    requires e.token in w.g.tokens && e.body.Moved?
    ensures var w2 := MovesWork(c, unit, w, e); Marked(base, w2.g, w2.created, w2.changed) && MarksBelow(base, w2)
  {
    hide Marked;
    hide MarksBelow;
    hide IdsBelow;
    MarkOne(c, base, w, e.token, Entered(c.d, unit, w.g.tokens[e.token], e.to, e.body.deadline, e.seqNo, e.at),
            w.log + [e]);
  }

  lemma WorkMove(c: Chart, unit: string, base: Image, w: Work, pend: Pend, f: Id, e: Event)
    requires Works(c, base, w, pend, Some(f), {}) && Follows(c.d, unit, w.log, w.g, f)
    requires Next(w.log, e) && CanMove(c, w.g, e) && e.token == f
    ensures var w2 := MovesWork(c, unit, w, e);
      Works(c, base, w2, pend, Some(f), {}) && Rebuilds(c, unit, w2) && Extends(w, w2, 0)
  {
    hide Extends;
    hide Inv;
    hide Logged;
    hide Sound;
    hide Exact;
    hide Follows;
    hide Marked;
    hide MarksBelow;
    hide IdsBelow;
    assert e.token in w.g.tokens && e.body.Moved?;
    hide CanMove;
    MoveExtends(c, unit, w, e);
    PlanMove(c, unit, w.g, w.log, w.next, pend, f, e);
    MoveMarks(c, unit, base, w, e);
  }

  lemma WorkRest(c: Chart, base: Image, w: Work, pend: Pend, f: Id)
    requires Works(c, base, w, pend, Some(f), {}) && f in w.g.tokens && w.g.tokens[f].scope in w.g.scopes
    requires AtRest(c, w.g, w.g.tokens[f])
    ensures Works(c, base, w, pend, None, {})
  {
    hide Inv;
    hide Logged;
    hide Sound;
    hide Marked;
    hide MarksBelow;
    hide IdsBelow;
    hide AtRest;
    PlanRest(c, w.g, w.log, w.next, pend, f);
  }

  // -------------------------------------------------------------- a split opened

  function Splits(c: Chart, w: Work, f: Id, p: Id, e: Event): Work {
    if e.body.SplitOpened? then
      w.(g := AfterSplit(c.d, w.g, f, p, e.body.child, e.to, |e.body.branches|, e.seqNo, e.at), log := w.log + [e],
         next := w.next + 1 + |e.body.branches|, created := w.created + {e.body.child},
         changed := Touched(w.created, w.changed, f))
    else w
  }

  lemma SplitFacts(c: Chart, g: Image, log: seq<Event>, next: Id, f: Id, p: Id, e: Event)
    requires SplitsAt(c, g, log, next, f, p, e)
    ensures e.body.SplitOpened? && e.body.child == next && f in g.tokens
  {
  }

  lemma SplitExtends(c: Chart, w: Work, f: Id, p: Id, e: Event)
    requires SplitsAt(c, w.g, w.log, w.next, f, p, e) && IdsBelow(w.g, w.next)
    ensures Extends(w, Splits(c, w, f, p, e), 0)
  {
    PolicyJoinsAppend(w.log, e);
  }

  lemma SplitMarks(c: Chart, base: Image, w: Work, f: Id, p: Id, e: Event)
    requires Marked(base, w.g, w.created, w.changed) && MarksBelow(base, w) && IdsBelow(w.g, w.next)
    requires SplitsAt(c, w.g, w.log, w.next, f, p, e)
    ensures var w2 := Splits(c, w, f, p, e); Marked(base, w2.g, w2.created, w2.changed) && MarksBelow(base, w2)
  {
    var g1 := w.g.(tokens := EndOne(w.g.tokens, f, Consumed, e.seqNo, e.at));
    var changed := Touched(w.created, w.changed, f);
    MarkOne(c, base, w, f, Ended(w.g.tokens[f], Consumed, e.seqNo, e.at), w.log);
    assert e.body.child !in base.scopes && e.body.child !in changed && e.body.child !in g1.tokens;
    hide Marked;
    MarkNewScope(base, g1, w.created, changed, e.body.child,
                 Scope(Some(p), e.to, NodeOf(c.d, e.to).join, |e.body.branches|, ScopeOpen, e.seqNo, 0));
  }

  lemma IdsGrow(g: Image, next: Id, next2: Id)
    requires IdsBelow(g, next) && next <= next2
    ensures IdsBelow(g, next2)
  {
  }

  lemma WorkSplit(c: Chart, unit: string, base: Image, w: Work, pend: Pend, f: Id, p: Id, e: Event)
    requires Works(c, base, w, pend, Some(f), {}) && Rebuilds(c, unit, w) && SplitsAt(c, w.g, w.log, w.next, f, p, e)
    ensures var w2 := Splits(c, w, f, p, e);
      && Works(c, base, w2, pend[w.next := |e.body.branches|], None, {})
      && Rebuilds(c, unit, w2) && Extends(w, w2, 0)
  {
    hide Extends;
    hide Inv;
    hide Logged;
    hide Sound;
    hide Exact;
    hide Marked;
    hide MarksBelow;
    hide IdsBelow;
    hide AfterSplit;
    hide SplitsAt;
    SplitFacts(c, w.g, w.log, w.next, f, p, e);
    var n := |e.body.branches|;
    SplitExtends(c, w, f, p, e);
    SplitMarks(c, base, w, f, p, e);
    PlanSplit(c, unit, w.g, w.log, w.next, pend, f, p, e);
    IdsGrow(AfterSplit(c.d, w.g, f, p, w.next, e.to, n, e.seqNo, e.at), w.next + 1, w.next + 1 + n);
  }

  // ----------------------------------------------------------- a branch emitted

  function Spawns(w: Work, b: Id, s: Id, node: string): Work {
    w.(g := AfterSpawn(w.g, b, s, node), created := w.created + {b})
  }

  /** `b` is an identifier the split of `s` reserved and has not used yet. */
  ghost predicate Reserved(base: Image, w: Work, b: Id) {
    && b !in w.g.tokens && b !in w.g.scopes && b < w.next
    && b !in base.tokens && b !in base.scopes && b !in w.changed && b !in w.created
  }

  /** A reserved identifier stays so while others are handed out. */
  lemma ReservedKept(base: Image, w: Work, w2: Work, n: nat, b: Id)
    requires Reserved(base, w, b) && Extends(w, w2, n)
    ensures Reserved(base, w2, b)
  {
  }

  lemma ReservedUnused(base: Image, w: Work, b: Id)
    requires Reserved(base, w, b)
    ensures b !in w.g.tokens
  {
  }

  lemma ReservedSpawn(base: Image, w: Work, b: Id, s: Id, node: string, b2: Id)
    requires Reserved(base, w, b2) && b2 != b
    ensures Reserved(base, Spawns(w, b, s, node), b2)
  {
  }

  lemma SpawnExtends(w0: Work, w: Work, b: Id, s: Id, node: string)
    requires Extends(w0, w, 0) && b >= w0.next && b !in w.g.tokens
    ensures Extends(w0, Spawns(w, b, s, node), 0)
  {
  }

  lemma SpawnMarks(base: Image, w: Work, b: Id, s: Id, node: string)
    requires Marked(base, w.g, w.created, w.changed) && MarksBelow(base, w) && Reserved(base, w, b)
    ensures var w2 := Spawns(w, b, s, node); Marked(base, w2.g, w2.created, w2.changed) && MarksBelow(base, w2)
  {
    MarkNewToken(base, w.g, w.created, w.changed, b, Newborn(s, node));
    hide Marked;
  }

  lemma WorkSpawn(c: Chart, unit: string, base: Image, w: Work, pend: Pend, b: Id, s: Id, node: string)
    requires Works(c, base, w, pend, None, {}) && Rebuilds(c, unit, w)
    requires Reserved(base, w, b) && CanSpawn(w.g, pend, b, s) && !Rests(c.d, node)
    ensures var w2 := Spawns(w, b, s, node);
      Works(c, base, w2, pend[s := pend[s] - 1], Some(b), {}) && Follows(c.d, unit, w2.log, w2.g, b)
  {
    hide Inv;
    hide Logged;
    hide Sound;
    hide Exact;
    hide Follows;
    hide Marked;
    hide MarksBelow;
    hide IdsBelow;
    hide AfterSpawn;
    SpawnMarks(base, w, b, s, node);
    PlanSpawn(c, unit, w.g, w.log, w.next, pend, b, s, node);
  }

  /** A split that has emitted every branch needs no exemption. */
  lemma PendDone(c: Chart, g: Image, pend: Pend, s: Id)
    requires Inv(c, g, pend[s := 0], None, {}) && s !in pend
    ensures Inv(c, g, pend, None, {})
  {
    hide ScopesOk;
    hide TokensOk;
    hide Calm;
    hide Conserved;
    forall x | x in g.scopes && Conserved(g, pend[s := 0], x)
      ensures Conserved(g, pend, x)
    {
      PendSame(c, g, pend, s, x);
    }
    forall x | x in g.scopes && Calm(c, g, pend[s := 0], x) ensures Calm(c, g, pend, x) { PendSame(c, g, pend, s, x); }
    forall x | x in pend && pend[x] > 0 ensures x != ROOT && x in g.scopes && g.scopes[x].status.ScopeOpen? {
      assert x in pend[s := 0] && pend[s := 0][x] > 0;
    }
  }

  lemma PendSame(c: Chart, g: Image, pend: Pend, s: Id, x: Id)
    requires s !in pend && x in g.scopes
    ensures Conserved(g, pend[s := 0], x) ==> Conserved(g, pend, x)
    ensures Calm(c, g, pend[s := 0], x) ==> Calm(c, g, pend, x)
  {
    hide RulingAt;
    assert Pending(pend[s := 0], x) == Pending(pend, x);
  }

  lemma WorkSplitDone(c: Chart, base: Image, w: Work, pend: Pend, s: Id)
    requires Works(c, base, w, pend[s := 0], None, {}) && s !in pend
    ensures Works(c, base, w, pend, None, {})
  {
    hide Inv;
    hide Logged;
    hide Sound;
    hide Marked;
    hide MarksBelow;
    hide IdsBelow;
    PendDone(c, w.g, pend, s);
    forall x | x in pend ensures x < w.next { assert x in pend[s := 0]; }
  }

  // ----------------------------------------------------- a token at its join

  function Arrives(w: Work, f: Id, e: Event): Work {
    if e.body.WaitingAtJoin? && f in w.g.tokens then
      w.(g := AfterArrive(w.g, f, e.body.outcome), log := w.log + [e])
    else w
  }

  ghost predicate ArrivesAt(c: Chart, w: Work, f: Id, e: Event) {
    && Next(w.log, e) && About(w.g, e, f) && e.body.WaitingAtJoin? && CanArrive(c, w.g, f, e.body.outcome)
    && 0 < w.g.tokens[f].enteredSeq == |w.log|
    && (exists tr :: Along(c.d, w.log[|w.log| - 1], tr) && tr.outcome == e.body.outcome)
    && (f in w.created || f in w.changed)
  }

  lemma ArriveExtends(c: Chart, w: Work, f: Id, e: Event)
    requires ArrivesAt(c, w, f, e)
    ensures Extends(w, Arrives(w, f, e), 0)
  {
    PolicyJoinsAppend(w.log, e);
  }

  /** A token already marked may change again. */
  lemma ArriveMarks(c: Chart, base: Image, w: Work, f: Id, e: Event)
    requires Marked(base, w.g, w.created, w.changed) && MarksBelow(base, w) && ArrivesAt(c, w, f, e)
    ensures var w2 := Arrives(w, f, e); Marked(base, w2.g, w2.created, w2.changed) && MarksBelow(base, w2)
  {
  }

  lemma ArriveFacts(c: Chart, w: Work, f: Id, e: Event)
    requires ArrivesAt(c, w, f, e)
    ensures f in w.g.tokens && e.body.WaitingAtJoin?
  {
  }

  lemma ArrivePlan(c: Chart, unit: string, w: Work, pend: Pend, f: Id, e: Event)
    requires ArrivesAt(c, w, f, e) && Holds(c, w.g, w.log, w.next, pend, Some(f), {}) && Exact(c.d, unit, w.log, w.g)
    ensures var w2 := Arrives(w, f, e);
      Holds(c, w2.g, w2.log, w.next, pend, None, {w.g.tokens[f].scope}) && Exact(c.d, unit, w2.log, w2.g)
  {
    hide Holds;
    hide Exact;
    PlanArrive(c, unit, w.g, w.log, w.next, pend, f, e);
  }

  lemma WorkArrive(c: Chart, unit: string, base: Image, w: Work, pend: Pend, f: Id, e: Event)
    requires Works(c, base, w, pend, Some(f), {}) && Rebuilds(c, unit, w) && ArrivesAt(c, w, f, e)
    ensures var w2 := Arrives(w, f, e);
      Works(c, base, w2, pend, None, {w.g.tokens[f].scope}) && Rebuilds(c, unit, w2) && Extends(w, w2, 0)
  {
    hide Extends;
    hide Holds;
    hide Sound;
    hide Exact;
    hide Marked;
    hide MarksBelow;
    hide ArrivesAt;
    ArriveFacts(c, w, f, e);
    ArriveExtends(c, w, f, e);
    ArriveMarks(c, base, w, f, e);
    ArrivePlan(c, unit, w, pend, f, e);
  }

  lemma WorkSettle(c: Chart, base: Image, w: Work, pend: Pend, s: Id)
    requires Works(c, base, w, pend, None, {s}) && s in w.g.scopes && Calm(c, w.g, pend, s)
    ensures Works(c, base, w, pend, None, {})
  {
    hide Logged;
    hide Sound;
    hide Marked;
    hide MarksBelow;
    hide IdsBelow;
    hide Calm;
    hide Inv;
    SettleStep(c, w.g, pend, s);
  }

  // --------------------------------------------------------- a join that fires

  function TouchedAll(created: set<Id>, changed: set<Id>, ids: set<Id>): set<Id> { changed + (ids - created) }

  /** The scopes a join of `s` closes. */
  function ClosedBy(g: Image, s: Id): set<Id> { set x | x in g.scopes && (x == s || Inside(g.scopes, x, s)) }

  function JoinsWork(w: Work, s: Id, p: Id, e: Event): Work {
    if e.body.Joined? then
      w.(g := AfterJoin(w.g, s, p, e.body.consumed, w.next, e.to, e.seqNo, e.at), log := w.log + [e],
         next := w.next + 1,
         created := w.created + {w.next}, changed := TouchedAll(w.created, w.changed,
                                                                e.body.consumed + ClosedBy(w.g, s)))
    else w
  }

  lemma JoinGrows(w: Work, s: Id, p: Id, e: Event)
    requires e.body.Joined? && w.next !in w.g.tokens && s in w.g.scopes && w.g.scopes[s].status.ScopeOpen?
    ensures Grows(w.g, JoinsWork(w, s, p, e).g)
  {
    hide ChildOnPath;
  }

  lemma JoinNew(w: Work, s: Id, p: Id, e: Event)
    requires e.body.Joined? && e.body.consumed <= w.g.tokens.Keys
    ensures var w2 := JoinsWork(w, s, p, e);
      && (forall t :: t in w2.g.tokens ==> t in w.g.tokens || t >= w.next)
      && (forall x :: x in w2.g.scopes ==> x in w.g.scopes)
      && (forall x :: x in w2.created || x in w2.changed ==>
            x in w.created || x in w.changed || x in w.g.tokens || x in w.g.scopes || x >= w.next)
  {
    hide Inside;
  }

  lemma JoinExtends(c: Chart, w: Work, s: Id, p: Id, e: Event)
    requires IdsBelow(w.g, w.next) && JoinsAt(c, w.g, w.log, w.next, s, e) && s in w.g.scopes
    requires w.g.scopes[s].status.ScopeOpen?
    requires e.body.consumed <= w.g.tokens.Keys
    ensures Extends(w, JoinsWork(w, s, p, e), if e.body.policy.NoPolicy? then 0 else 1)
  {
    hide AfterJoin;
    hide ClosedBy;
    hide RoundOk;
    hide Grows;
    PolicyJoinsAppend(w.log, e);
    assert w.next !in w.g.tokens;
    JoinGrows(w, s, p, e);
    JoinNew(w, s, p, e);
  }

  lemma JoinMarks(c: Chart, base: Image, w: Work, s: Id, p: Id, e: Event)
    requires Marked(base, w.g, w.created, w.changed) && MarksBelow(base, w) && IdsBelow(w.g, w.next)
    requires e.body.Joined? && e.body.consumed <= w.g.tokens.Keys
    ensures var w2 := JoinsWork(w, s, p, e); Marked(base, w2.g, w2.created, w2.changed) && MarksBelow(base, w2)
  {
    var w2 := JoinsWork(w, s, p, e);
    forall x | x in w2.created || x in w2.changed ensures x < w2.next {}
    hide MarksBelow;
    JoinMarked(c, base, w, s, p, e);
  }

  lemma JoinMarked(c: Chart, base: Image, w: Work, s: Id, p: Id, e: Event)
    requires Marked(base, w.g, w.created, w.changed) && MarksBelow(base, w) && IdsBelow(w.g, w.next)
    requires e.body.Joined? && e.body.consumed <= w.g.tokens.Keys
    ensures var w2 := JoinsWork(w, s, p, e); Marked(base, w2.g, w2.created, w2.changed)
  {
  }

  lemma WorkJoin(c: Chart, unit: string, base: Image, w: Work, pend: Pend, loose: set<Id>, s: Id, p: Id, e: Event)
    requires Works(c, base, w, pend, None, loose) && Rebuilds(c, unit, w)
    requires JoinsAt(c, w.g, w.log, w.next, s, e) && CanJoin(w.g, pend, loose, s, p, e.body.consumed, w.next)
    ensures var w2 := JoinsWork(w, s, p, e);
      && Works(c, base, w2, pend, Some(w.next), {}) && Rebuilds(c, unit, w2)
      && Extends(w, w2, if e.body.policy.NoPolicy? then 0 else 1)
  {
    hide Extends;
    hide Inv;
    hide Logged;
    hide Sound;
    hide Exact;
    hide Marked;
    hide MarksBelow;
    hide IdsBelow;
    hide CanJoin;
    hide AfterJoin;
    hide RoundOk;
    JoinFacts(w.g, pend, loose, s, p, e.body.consumed, w.next);
    ConsumedKnown(w.g, pend, loose, s, p, e.body.consumed, w.next);
    JoinExtends(c, w, s, p, e);
    JoinMarks(c, base, w, s, p, e);
    PlanJoin(c, unit, w.g, w.log, w.next, pend, loose, s, p, e);
  }

  lemma ConsumedKnown(g: Image, pend: Pend, loose: set<Id>, s: Id, p: Id, consumed: set<Id>, next: Id)
    requires CanJoin(g, pend, loose, s, p, consumed, next)
    ensures consumed <= g.tokens.Keys
  {
  }

  // ----------------------------------------------------------- the case closes

  function EndsCase(w: Work, f: Id, e: Event): Work
    requires ROOT in w.g.scopes
  {
    w.(g := AfterClose(w.g, f, e.to, e.seqNo, e.at), log := w.log + [e],
       changed := TouchedAll(w.created, w.changed, {f, ROOT}))
  }

  lemma CloseExtends(w: Work, f: Id, e: Event)
    requires ROOT in w.g.scopes && w.g.scopes[ROOT].status.ScopeOpen? && e.body.CaseClosedEvent? && f in w.g.tokens
    ensures Extends(w, EndsCase(w, f, e), 0)
  {
    PolicyJoinsAppend(w.log, e);
  }

  lemma CloseMarks(base: Image, w: Work, f: Id, e: Event)
    requires Marked(base, w.g, w.created, w.changed) && MarksBelow(base, w) && IdsBelow(w.g, w.next)
    requires f in w.g.tokens && ROOT in w.g.scopes
    ensures var w2 := EndsCase(w, f, e); Marked(base, w2.g, w2.created, w2.changed) && MarksBelow(base, w2)
  {
  }

  lemma WorkClose(c: Chart, unit: string, base: Image, w: Work, pend: Pend, f: Id, e: Event)
    requires Works(c, base, w, pend, Some(f), {}) && Rebuilds(c, unit, w)
    requires Next(w.log, e) && About(w.g, e, f) && e.body.CaseClosedEvent? && e.scope == ROOT && ROOT in w.g.scopes
    requires c.root == ""
    ensures var w2 := EndsCase(w, f, e);
      Works(c, base, w2, pend, None, {}) && Rebuilds(c, unit, w2) && Extends(w, w2, 0)
  {
    hide Extends;
    hide Inv;
    hide Logged;
    hide Sound;
    hide Exact;
    hide Marked;
    hide MarksBelow;
    hide IdsBelow;
    FlightFacts(c, w.g, pend, f, {});
    CloseExtends(w, f, e);
    CloseMarks(base, w, f, e);
    PlanClose(c, unit, w.g, w.log, w.next, pend, f, e);
  }

  // ------------------------------------------------------------- an annotation

  function Annotated(c: Chart, unit: string, w: Work, e: Event): Work {
    w.(g := Apply(c.d, unit, w.g, e), log := w.log + [e], changed := Touched(w.created, w.changed, e.token))
  }

  lemma AnnotateExtends(c: Chart, unit: string, w: Work, e: Event)
    requires Annotates(e) && e.token in w.g.tokens
    ensures Extends(w, Annotated(c, unit, w, e), 0)
  {
    hide Apply;
    PolicyJoinsAppend(w.log, e);
    AnnotateFrame(c.d, unit, w.g, e);
  }

  lemma AnnotateMarks(c: Chart, unit: string, base: Image, w: Work, e: Event)
    requires Marked(base, w.g, w.created, w.changed) && MarksBelow(base, w) && IdsBelow(w.g, w.next)
    requires Annotates(e) && e.token in w.g.tokens
    ensures var w2 := Annotated(c, unit, w, e); Marked(base, w2.g, w2.created, w2.changed) && MarksBelow(base, w2)
  {
    hide Apply;
    hide Marked;
    hide MarksBelow;
    hide IdsBelow;
    AnnotateFrame(c.d, unit, w.g, e);
    MarkOne(c, base, w, e.token, Apply(c.d, unit, w.g, e).tokens[e.token], w.log + [e]);
  }

  lemma WorkAnnotate(c: Chart, unit: string, base: Image, w: Work, pend: Pend, e: Event)
    requires Works(c, base, w, pend, None, {}) && Rebuilds(c, unit, w)
    requires Next(w.log, e) && Annotates(e) && e.token in w.g.tokens
    ensures var w2 := Annotated(c, unit, w, e);
      Works(c, base, w2, pend, None, {}) && Rebuilds(c, unit, w2) && Extends(w, w2, 0)
  {
    hide Extends;
    hide Inv;
    hide Logged;
    hide Sound;
    hide Exact;
    hide Marked;
    hide MarksBelow;
    hide IdsBelow;
    hide Apply;
    AnnotateExtends(c, unit, w, e);
    AnnotateMarks(c, unit, base, w, e);
    PlanAnnotate(c, unit, w.g, w.log, w.next, pend, e);
  }

  // ---------------------------------------------------------- the case cancelled

  function OpenScopes(g: Image): set<Id> { set s | s in g.scopes && g.scopes[s].status.ScopeOpen? }

  function CancelsCase(w: Work, e: Event): Work {
    w.(g := AfterCaseCancel(w.g, e.to, e.seqNo), log := w.log + [e],
       changed := TouchedAll(w.created, w.changed, OpenScopes(w.g)))
  }

  lemma CaseCancelExtends(w: Work, e: Event)
    requires e.body.CaseCancelledEvent?
    ensures Extends(w, CancelsCase(w, e), 0)
  {
    PolicyJoinsAppend(w.log, e);
  }

  lemma CaseCancelMarks(base: Image, w: Work, e: Event)
    requires Marked(base, w.g, w.created, w.changed) && MarksBelow(base, w) && IdsBelow(w.g, w.next)
    ensures var w2 := CancelsCase(w, e); Marked(base, w2.g, w2.created, w2.changed) && MarksBelow(base, w2)
  {
  }

  lemma CaseCancelLogged(c: Chart, unit: string, w: Work, e: Event)
    requires Logged(c, w.log, w.g) && Exact(c.d, unit, w.log, w.g) && Next(w.log, e) && e.body.CaseCancelledEvent?
    ensures var w2 := CancelsCase(w, e); Logged(c, w2.log, w2.g) && Exact(c.d, unit, w2.log, w2.g)
  {
    RebuildAppend(c.d, unit, w.log, e);
    hide Logged;
    AppendPlain(c, w.log, w.g, CancelsCase(w, e).g, e);
  }

  lemma WorkCaseCancel(c: Chart, unit: string, base: Image, w: Work, loose: set<Id>, e: Event)
    requires Works(c, base, w, map[], None, loose) && Rebuilds(c, unit, w)
    requires Next(w.log, e) && e.body.CaseCancelledEvent?
    requires forall t :: t in w.g.tokens ==> !w.g.tokens[t].status.Live()
    ensures var w2 := CancelsCase(w, e);
      Works(c, base, w2, map[], None, {}) && Rebuilds(c, unit, w2) && Extends(w, w2, 0)
  {
    hide Extends;
    hide Inv;
    hide Logged;
    hide Sound;
    hide Exact;
    hide Marked;
    hide MarksBelow;
    CaseCancelExtends(w, e);
    CaseCancelMarks(base, w, e);
    CaseCancelLogged(c, unit, w, e);
    CaseCancelStep(c, w.g, loose, e.to, e.seqNo);
  }

  // ------------------------------------------------------------- a case as read

  /** What a stored case promises. */
  ghost predicate StoredOk(c: Chart, unit: string, g: Image, log: seq<Event>, next: Id) {
    && Sound(c) && Holds(c, g, log, next, map[], None, {}) && Exact(c.d, unit, log, g)
    && ROOT in g.tokens
  }

  function Loaded(g: Image, log: seq<Event>, next: Id): Work { Work(g, log, next, {}, {}, 0) }

  lemma Loads(c: Chart, unit: string, g: Image, log: seq<Event>, next: Id)
    requires StoredOk(c, unit, g, log, next)
    ensures Works(c, g, Loaded(g, log, next), map[], None, {}) && Rebuilds(c, unit, Loaded(g, log, next))
  {
    hide Sound;
    hide Logged;
    hide Exact;
    hide TokensOk;
    hide Counted;
    hide Settled;
  }

  /** Writing the marked rows over the case as read stores the working copy. */
  lemma Stores(c: Chart, unit: string, g: Image, log: seq<Event>, next: Id, w: Work, n: nat)
    requires Works(c, g, w, map[], None, {}) && Rebuilds(c, unit, w) && Extends(Loaded(g, log, next), w, n)
    ensures StoredOk(c, unit, w.g, w.log, w.next)
    ensures g.tokens + (map t | t in w.g.tokens && (t in w.created || t in w.changed) :: w.g.tokens[t]) == w.g.tokens
    ensures g.scopes + (map s | s in w.g.scopes && (s in w.created || s in w.changed) :: w.g.scopes[s]) == w.g.scopes
    ensures log <= w.log && PolicyJoins(w.log) <= PolicyJoins(log) + n && (w.g.status.CaseOpen? ==> w.g.endState == "")
  {
    OpenHasNoEnd(c.d, unit, w.log);
    hide Sound;
    hide Logged;
    hide Inv;
    hide IdsBelow;
  }
}
