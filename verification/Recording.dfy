/** Events a call rewrites before it commits them: a route taken because a
    deadline expired records that cause on its first move. */
module Recording {
  import opened Definitions
  import opened Soundness
  import opened Tokens
  import opened Replay
  import opened Invariant
  import opened History
  import opened WorkingCopy

  function Recaused(e: Event, cause: string): Event {
    if e.body.Moved? then e.(body := e.body.(cause := cause)) else e
  }

  predicate Alike(x: Event, y: Event) {
    x == y || (x.body.Moved? && y.body.Moved? && y == Recaused(x, y.body.cause))
  }

  /** `b` is `a` up to the causes its moves record. */
  predicate SameButCause(a: seq<Event>, b: seq<Event>) {
    |a| == |b| && forall i :: 0 <= i < |a| ==> Alike(a[i], b[i])
  }

  lemma CauseOnce(log: seq<Event>, i: nat, cause: string)
    requires i < |log|
    ensures SameButCause(log, log[i := Recaused(log[i], cause)])
  {
  }

  /** Replay does not look at a move's cause. */
  lemma {:induction false} CauseRebuilds(d: Definition, unit: string, a: seq<Event>, b: seq<Event>)
    requires SameButCause(a, b)
    ensures Rebuild(d, unit, b) == Rebuild(d, unit, a) && PolicyJoins(b) == PolicyJoins(a)
  {
    if a != [] {
      var n := |a| - 1;
      CauseRebuilds(d, unit, a[..n], b[..n]);
      assert Alike(a[n], b[n]);
    }
  }

  lemma CauseEvent(a: seq<Event>, b: seq<Event>, i: nat)
    requires SameButCause(a, b) && i < |a|
    ensures b[i].seqNo == a[i].seqNo && b[i].token == a[i].token && b[i].scope == a[i].scope
    ensures b[i].from == a[i].from && b[i].to == a[i].to && (b[i].body.Moved? <==> a[i].body.Moved?)
    ensures a[i].body.Moved? ==> b[i].body.action == a[i].body.action
    ensures !a[i].body.Moved? ==> b[i] == a[i]
  {
    assert Alike(a[i], b[i]);
  }

  lemma CauseRound(a: seq<Event>, b: seq<Event>, g: Image, i: nat)
    requires SameButCause(a, b) && i < |a| && a[i].body.Joined? && RoundOk(a, g, i)
    ensures b[i] == a[i] && RoundOk(b, g, i)
  {
    CauseEvent(a, b, i);
    var rs := a[i].body.results;
    forall k | 0 <= k < |rs| ensures Names(b, rs[k], g.scopes[a[i].body.closed].joinNode) {
      assert Names(a, rs[k], g.scopes[a[i].body.closed].joinNode);
      CauseEvent(a, b, rs[k].seqNo - 1);
      if rs[k].seqNo < |a| { CauseEvent(a, b, rs[k].seqNo); }
    }
  }

  lemma CauseAlong(c: Chart, a: seq<Event>, b: seq<Event>, i: nat)
    requires SameButCause(a, b) && i < |a|
    ensures forall tr :: Along(c.d, a[i], tr) ==> Along(c.d, b[i], tr)
  {
    CauseEvent(a, b, i);
  }

  lemma CauseEntry(c: Chart, a: seq<Event>, b: seq<Event>, g: Image, i: nat)
    requires SameButCause(a, b) && i < |a| && EventLogged(c, a, g, i)
    ensures EventLogged(c, b, g, i)
  {
    CauseEvent(a, b, i);
    if a[i].body.Joined? && !a[i].body.policy.NoPolicy? { CauseRound(a, b, g, i); }
    if Enters(a[i]) && a[i].body.Moved? && Rests(c.d, a[i].from) {
      var j :| 0 <= j < i && Enters(a[j]) && a[j].token == a[i].token && a[j].to == a[i].from;
      CauseEvent(a, b, j);
      assert Enters(b[j]);
    }
    CauseAlong(c, a, b, i);
    if a[i].body.WaitingAtJoin? && i > 0 { CauseAlong(c, a, b, i - 1); CauseEvent(a, b, i - 1); }
  }

  lemma CauseLogged(c: Chart, a: seq<Event>, b: seq<Event>, g: Image)
    requires SameButCause(a, b) && Logged(c, a, g)
    ensures Logged(c, b, g)
  {
    forall i | 0 <= i < |b| ensures b[i].seqNo == i + 1 { CauseEvent(a, b, i); }
    forall t | t in g.tokens ensures TokenLogged(c, b, g, t) {
      assert TokenLogged(c, a, g, t);
      var k := g.tokens[t];
      if k.enteredSeq > 0 { CauseEvent(a, b, k.enteredSeq - 1); }
      if k.status.Waiting? { CauseEvent(a, b, k.enteredSeq); }
      if k.status.Cancelled? { CauseEvent(a, b, k.endedSeq - 1); }
    }
    forall i | 0 <= i < |b| ensures EventLogged(c, b, g, i) { CauseEntry(c, a, b, g, i); }
  }

  lemma RecauseExtends(w0: Work, w: Work, n: nat, i: nat, cause: string)
    requires Extends(w0, w, n) && |w0.log| <= i < |w.log|
    requires PolicyJoins(w.log[i := Recaused(w.log[i], cause)]) == PolicyJoins(w.log)
    ensures Extends(w0, w.(log := w.log[i := Recaused(w.log[i], cause)]), n)
  {
  }

  /** Recording a cause leaves everything a call promises in place. */
  lemma WorkRecause(c: Chart, unit: string, base: Image, w0: Work, w: Work, n: nat, i: nat, cause: string)
    requires Works(c, base, w, map[], None, {}) && Rebuilds(c, unit, w) && Extends(w0, w, n) && |w0.log| <= i < |w.log|
    ensures var w2 := w.(log := w.log[i := Recaused(w.log[i], cause)]);
      Works(c, base, w2, map[], None, {}) && Rebuilds(c, unit, w2) && Extends(w0, w2, n)
  {
    hide Extends;
    var log2 := w.log[i := Recaused(w.log[i], cause)];
    assert SameButCause(w.log, log2);
    hide SameButCause;
    hide Logged;
    hide Inv;
    hide Sound;
    hide Marked;
    CauseRebuilds(c.d, unit, w.log, log2);
    RecauseExtends(w0, w, n, i, cause);
    CauseLogged(c, w.log, log2, w.g);
  }
}
