/** The way guards lead a token through decisions, and where it ends. */
module Ways {
  import opened Definitions
  import opened Soundness
  import opened Tokens
  import opened Guards
  import opened Caps
  import opened Replay
  import opened Routing

  /** Whatever the case looks like, the guards let a token out of decision `id`
      along `tr`. */
  ghost predicate Steers(o: Oracles, d: Definition, id: string, tr: Transition) {
    forall tick: nat, snap: Snapshot :: snap.node == id ==> FirstPassing(o, tick, snap, Routes(d, id), tr)
  }

  /** Once, at least, they did. */
  ghost predicate Picks(o: Oracles, d: Definition, id: string, tr: Transition) {
    exists tick: nat, snap: Snapshot :: snap.node == id && FirstPassing(o, tick, snap, Routes(d, id), tr)
  }

  /** Once, at least, a guard failed before one passed. */
  ghost predicate Balks(o: Oracles, d: Definition, id: string) {
    exists tick: nat, snap: Snapshot :: snap.node == id && FirstFailing(o, tick, snap, Routes(d, id))
  }

  lemma SteersAlways(o: Oracles, d: Definition, id: string, tr: Transition)
    requires Steers(o, d, id, tr)
    ensures !Balks(o, d, id) && forall other :: Picks(o, d, id, other) ==> other == tr
  {
    forall tick: nat, snap: Snapshot | snap.node == id ensures !FirstFailing(o, tick, snap, Routes(d, id)) {
      assert FirstPassing(o, tick, snap, Routes(d, id), tr);
    }
    forall other | Picks(o, d, id, other) ensures other == tr {
      var tick: nat, snap: Snapshot :| snap.node == id && FirstPassing(o, tick, snap, Routes(d, id), other);
      assert FirstPassing(o, tick, snap, Routes(d, id), tr);
    }
  }

  /** How the turn at decision `id`, after `hops` others, ended: in a route the
      guards picked, a guard that failed, or the cap. */
  ghost predicate Turned(o: Oracles, d: Definition, caps: Caps, id: string, hops: nat, tr: Transition,
                         err: Option<Error>) {
    if err.None? then Picks(o, d, id, tr)
    else
      || (err.value.GuardFailed? && Balks(o, d, id))
      || (err.value.TooManyDecisions? && caps.hops.Some? && hops + 1 >= caps.hops.value)
  }

  /** A first transition and the routes the guards then pick, decision by
      decision, fewer of them than the cap. */
  ghost predicate Guided(o: Oracles, d: Definition, caps: Caps, way: seq<Transition>) {
    && way != [] && (caps.hops.Some? && |way| > 1 ==> |way| <= caps.hops.value)
    && forall i :: 0 <= i < |way| - 1 ==> IsDecision(d, way[i].to) && Steers(o, d, way[i].to, way[i + 1])
  }

  function Last(way: seq<Transition>): Transition
    requires way != []
  {
    way[|way| - 1]
  }

  ghost predicate Led(o: Oracles, d: Definition, caps: Caps, tr: Transition, way: seq<Transition>, last: Transition) {
    way != [] && Guided(o, d, caps, way) && way[0] == tr && Last(way) == last
  }

  /** A token that leaves along `tr` is led to take `last` in the end. */
  ghost predicate EndsBy(o: Oracles, d: Definition, caps: Caps, tr: Transition, last: Transition) {
    exists way :: Led(o, d, caps, tr, way, last)
  }

  lemma EndsByItself(o: Oracles, d: Definition, caps: Caps, tr: Transition)
    ensures EndsBy(o, d, caps, tr, tr)
  {
    assert Led(o, d, caps, tr, [tr], tr);
  }

  /** Guards that always pick the same routes lead one way only. */
  lemma {:induction false} SameWay(o: Oracles, d: Definition, caps: Caps, a: seq<Transition>, b: seq<Transition>,
                                   n: nat)
    requires Guided(o, d, caps, a) && Guided(o, d, caps, b) && a[0] == b[0] && n < |a| && n < |b|
    ensures a[n] == b[n]
  {
    hide Steers;
    if n > 0 {
      SameWay(o, d, caps, a, b, n - 1);
      SteersBoth(o, d, a[n - 1].to, a[n - 1 + 1], b[n - 1 + 1]);
    }
  }

  lemma SteersBoth(o: Oracles, d: Definition, id: string, a: Transition, b: Transition)
    requires Steers(o, d, id, a) && Steers(o, d, id, b)
    ensures a == b
  {
    var snap := Snapshot(id, Newborn(ROOT, id), None);
    assert FirstPassing(o, 0, snap, Routes(d, id), a) && FirstPassing(o, 0, snap, Routes(d, id), b);
  }

  lemma SameEnd(o: Oracles, d: Definition, caps: Caps, a: seq<Transition>, b: seq<Transition>)
    requires Guided(o, d, caps, a) && Guided(o, d, caps, b) && a[0] == b[0]
    requires !IsDecision(d, Last(a).to) && !IsDecision(d, Last(b).to)
    ensures Last(a) == Last(b)
  {
    NoLonger(o, d, caps, a, b);
    NoLonger(o, d, caps, b, a);
    SameWay(o, d, caps, a, b, |a| - 1);
  }

  lemma NoLonger(o: Oracles, d: Definition, caps: Caps, a: seq<Transition>, b: seq<Transition>)
    requires Guided(o, d, caps, a) && Guided(o, d, caps, b) && a[0] == b[0] && !IsDecision(d, Last(a).to)
    ensures |b| <= |a|
  {
    hide Steers;
    hide IsDecision;
    if |a| < |b| { SameWay(o, d, caps, a, b, |a| - 1); }
  }

  /** The way that begins with `tr`, if it ends anywhere but at a decision. */
  lemma TheWay(o: Oracles, d: Definition, caps: Caps, tr: Transition) returns (way: seq<Transition>)
    ensures way != [] && Guided(o, d, caps, way) && way[0] == tr
    ensures forall last :: EndsBy(o, d, caps, tr, last) && !IsDecision(d, last.to) ==> last == Last(way)
  {
    hide Guided;
    hide IsDecision;
    way := [tr];
    EndsByItself(o, d, caps, tr);
    GuidedOne(o, d, caps, tr);
    if w, end :| Led(o, d, caps, tr, w, end) && !IsDecision(d, end.to) {
      LedFacts(o, d, caps, tr, w, end);
      way := w;
      forall last | EndsBy(o, d, caps, tr, last) && !IsDecision(d, last.to) ensures last == end {
        var v :| Led(o, d, caps, tr, v, last);
        LedFacts(o, d, caps, tr, v, last);
        SameEnd(o, d, caps, v, w);
      }
    }
  }

  lemma LedFacts(o: Oracles, d: Definition, caps: Caps, tr: Transition, way: seq<Transition>, last: Transition)
    requires Led(o, d, caps, tr, way, last)
    ensures way != [] && Guided(o, d, caps, way) && way[0] == tr && Last(way) == last
  {
  }

  lemma GuidedOne(o: Oracles, d: Definition, caps: Caps, tr: Transition)
    ensures Guided(o, d, caps, [tr])
  {
  }

  /** Step `h` of a guided way takes the next route of it. */
  lemma OnWay(o: Oracles, d: Definition, caps: Caps, way: seq<Transition>, h: nat, tr: Transition, err: Option<Error>)
    requires Guided(o, d, caps, way) && h < |way| - 1 && Turned(o, d, caps, way[h].to, h, tr, err)
    ensures err.None? && tr == way[h + 1]
  {
    SteersAlways(o, d, way[h].to, way[h + 1]);
  }

  // ------------------------------------------------------------ a token on it

  /** How entering task `node` ended: only token `t` changed and it rests there, in
      the hands its rule named, or one of the task's own functions failed. */
  ghost predicate Landed(o: Oracles, d: Definition, g: Image, g2: Image, t: Id, node: string, err: Option<Error>) {
    if err.None? then
      && Rested(g.tokens, g2.tokens, t, node) && AssigneeFits(o, NodeOf(d, node), g2.tokens[t].assignedTo)
      && g2.scopes == g.scopes && g2.status == g.status
    else err.value.AssigneeFailed? || err.value.DeadlineFailed?
  }

  /** Nothing but token `t` has moved yet, within its scope. */
  predicate StillGoing(g: Image, g2: Image, t: Id) {
    Kept(g.tokens, g2.tokens, t) && g2.scopes == g.scopes && g2.status == g.status
  }

  /** The join `tr` leads to is not that of the scope of token `t`, which belongs
      to a case that started inside a block. */
  predicate Astray(c: Chart, g: Image, t: Id, tr: Transition) {
    t in g.tokens && g.tokens[t].scope in g.scopes && Strays(c, g.scopes[g.tokens[t].scope], tr)
  }

  /** After `hops` moves of token `t` along `way`: it is about to take the next
      transition of it, or has taken the last one and ended where that leads. */
  ghost predicate OnCourse(c: Chart, o: Oracles, way: seq<Transition>, hops: nat, tr: Transition, done: bool,
                           err: Option<Error>, g: Image, g2: Image, t: Id) {
    && way != [] && (!done && hops < |way| ==> tr == way[hops] && StillGoing(g, g2, t))
    && (done || hops >= |way| ==>
          && (Rests(c.d, Last(way).to) ==> done && Landed(o, c.d, g, g2, t, Last(way).to, err))
          && (Astray(c, g, t, Last(way)) ==> done && err == Some(OutsideBlock)))
  }

  /** What one move along `tr` does, seen from the way. */
  ghost predicate Hopped(c: Chart, o: Oracles, caps: Caps, hops: nat, tr: Transition, t2: Transition, done: bool,
                         err: Option<Error>, g: Image, g2: Image, t: Id) {
    && (err.Some? ==> done) && (!done ==> StillGoing(g, g2, t))
    && (NodeOf(c.d, tr.to).kind.Decision? ==> done == err.Some? && Turned(o, c.d, caps, tr.to, hops, t2, err))
    && (Rests(c.d, tr.to) ==> done && Landed(o, c.d, g, g2, t, tr.to, err))
    && (Astray(c, g, t, tr) ==> err == Some(OutsideBlock))
  }

  lemma CourseBegins(c: Chart, o: Oracles, way: seq<Transition>, g: Image, t: Id)
    requires way != [] && t in g.tokens
    ensures OnCourse(c, o, way, 0, way[0], false, None, g, g, t)
  {
  }

  /** One move along a guided way leads to the next, and the last one to its
      end. */
  lemma StaysOnCourse(c: Chart, o: Oracles, caps: Caps, way: seq<Transition>, hops: nat, tr: Transition, t2: Transition,
                      done: bool, err: Option<Error>, g0: Image, g: Image, g2: Image, t: Id)
    requires Guided(o, c.d, caps, way) && OnCourse(c, o, way, hops, tr, false, None, g0, g, t)
    requires Hopped(c, o, caps, hops, tr, t2, done, err, g, g2, t)
    ensures OnCourse(c, o, way, hops + 1, t2, done, err, g0, g2, t)
  {
    hide Steers;
    hide Strays;
    hide Rests;
    hide Turned;
    hide AssigneeFits;
    if hops + 1 < |way| {
      OnWay(o, c.d, caps, way, hops, t2, err);
      KeptTrans(g0.tokens, g.tokens, g2.tokens, t);
    } else if hops + 1 == |way| && Rests(c.d, tr.to) && err.None? {
      RestedAfter(g0.tokens, g.tokens, g2.tokens, t, tr.to);
    }
  }

  /** What holds at the way's own end holds wherever the guards may lead. */
  lemma CourseEnds(c: Chart, o: Oracles, caps: Caps, way: seq<Transition>, hops: nat, tr: Transition, t2: Transition,
                   err: Option<Error>, g: Image, g2: Image, t: Id)
    requires OnCourse(c, o, way, hops, t2, true, err, g, g2, t)
    requires forall last :: EndsBy(o, c.d, caps, tr, last) && !IsDecision(c.d, last.to) ==> last == Last(way)
    ensures forall last :: EndsBy(o, c.d, caps, tr, last) && Rests(c.d, last.to) ==>
      Landed(o, c.d, g, g2, t, last.to, err)
    ensures forall last :: EndsBy(o, c.d, caps, tr, last) && Astray(c, g, t, last) ==> err == Some(OutsideBlock)
  {
    hide EndsBy;
    hide Landed;
    forall last | EndsBy(o, c.d, caps, tr, last) && Rests(c.d, last.to) ensures Landed(o, c.d, g, g2, t, last.to, err) {
      assert !IsDecision(c.d, last.to);
    }
    forall last | EndsBy(o, c.d, caps, tr, last) && Astray(c, g, t, last) ensures err == Some(OutsideBlock) {
      assert !IsDecision(c.d, last.to);
    }
  }

  // ------------------------------------------------------- too many decisions

  /** A route into too many decisions, after `hops` of them: more are to come, or
      it ended in the error for that, or at a guard that failed. */
  ghost predicate Doomed(d: Definition, caps: Caps, hops: nat, at: string, done: bool, err: Option<Error>) {
    if done then err.Some? && (err.value.TooManyDecisions? || err.value.GuardFailed?)
    else hops < MaxHops(d, caps) && Decides(d, at, MaxHops(d, caps) - hops)
  }

  lemma DoomBegins(d: Definition, caps: Caps, at: string)
    ensures Endless(d, caps, at) ==> Doomed(d, caps, 0, at, false, None)
  {
  }

  lemma DoomEnds(d: Definition, caps: Caps, hops: nat, at: string, err: Option<Error>)
    ensures Doomed(d, caps, hops, at, true, err) ==>
      err.Some? && (err.value.TooManyDecisions? || err.value.GuardFailed?)
  {
  }

  lemma StaysDoomed(c: Chart, o: Oracles, caps: Caps, hops: nat, tr: Transition, t2: Transition, done: bool,
                    err: Option<Error>, g: Image, g2: Image, t: Id)
    requires Doomed(c.d, caps, hops, tr.to, false, None) && Hopped(c, o, caps, hops, tr, t2, done, err, g, g2, t)
    requires !done ==> t2 in c.d.transitions && t2.from == tr.to && hops + 1 < MaxHops(c.d, caps)
    ensures Doomed(c.d, caps, hops + 1, t2.to, done, err)
  {
    hide Steers;
    DecidesOn(c.d, tr.to, MaxHops(c.d, caps) - hops, t2, done);
  }
}
