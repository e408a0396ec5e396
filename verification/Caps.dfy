/** How far one call may route: the caps on decisions and gateways, when they
    can be met, and the gateways a call passes. */
module Caps {
  import opened Definitions
  import opened Soundness
  import opened Tokens
  import opened Graphs
  import opened Cycles
  import opened Validity
  import opened Budget
  import opened Guards

  /** The caps of an engine; without one, nothing is counted against it. */
  datatype Caps = Caps(steps: Option<nat>, hops: Option<nat>)
  {
    predicate Off() { steps.None? || hops.None? }
  }

  const SHIPPED := Caps(Some(256), Some(32))

  // --------------------------------------------------------- decisions in a row

  function DecisionIds(d: Definition): set<string> { set n | n in d.nodes && n.kind.Decision? :: n.id }

  /** Decisions that lead straight to one another. */
  predicate DecisionChain(d: Definition, p: seq<string>) {
    && (forall i :: 0 <= i < |p| ==> Has(d, p[i]) && NodeOf(d, p[i]).kind.Decision?)
    && (forall i :: 0 <= i < |p| - 1 ==> Edge(Gateways(d), p[i], p[i + 1]))
  }

  /** A definition with `n` decisions in a row. */
  ghost predicate LongChain(d: Definition, n: nat) { exists p :: |p| == n && DecisionChain(d, p) }

  /** `trail` holds the decisions a route has passed, `from` being the last. */
  ghost predicate Trailing(d: Definition, trail: seq<string>, hops: nat, from: string) {
    DecisionChain(d, trail) && |trail| == hops && (hops > 0 ==> trail[hops - 1] == from)
  }

  lemma NoChain(d: Definition)
    ensures DecisionChain(d, [])
  {
  }

  lemma Lengthen(d: Definition, c: Chart, trail: seq<string>, hops: nat, t: Transition) returns (trail2: seq<string>)
    requires Trailing(d, trail, hops, t.from) && c.d == d && Sound(c) && t in d.transitions
    requires NodeOf(d, t.to).kind.Decision?
    ensures Trailing(d, trail2, hops + 1, t.to)
  {
    hide Gateways;
    trail2 := trail + [t.to];
    if hops > 0 {
      assert NodeOf(d, trail[hops - 1]).kind.Decision?;
      GatewayEdge(d, t);
    }
  }

  lemma ChainIsLong(d: Definition, trail: seq<string>, n: nat)
    requires DecisionChain(d, trail) && |trail| >= n
    ensures LongChain(d, n)
  {
    hide Gateways;
    assert DecisionChain(d, trail[..n]);
  }

  /** Without a cycle of gateways no node comes twice on a path of them. */
  lemma ChainDistinct(g: Graph, p: seq<string>, i: nat, j: nat)
    requires Acyclic(g) && i < j < |p| && forall k :: 0 <= k < |p| - 1 ==> Edge(g, p[k], p[k + 1])
    ensures p[i] != p[j]
  {
    if p[i] == p[j] {
      var q := p[i..j + 1];
      forall k | 0 <= k < |q| - 1 ensures Edge(g, q[k], q[k + 1]) { assert Edge(g, p[i + k], p[i + k + 1]); }
      assert IsCycle(g, q);
    }
  }

  lemma OneLonger(p: seq<string>, n: nat)
    requires 0 < n <= |p| && forall i :: 0 <= i < n - 1 ==> p[i] != p[n - 1]
    ensures (set i | 0 <= i < n :: p[i]) == (set i | 0 <= i < n - 1 :: p[i]) + {p[n - 1]}
    ensures p[n - 1] !in (set i | 0 <= i < n - 1 :: p[i])
  {
  }

  lemma {:induction false} ChainFits(d: Definition, p: seq<string>, n: nat)
    requires Acyclic(Gateways(d)) && DecisionChain(d, p) && n <= |p|
    ensures |(set i | 0 <= i < n :: p[i])| == n && (set i | 0 <= i < n :: p[i]) <= DecisionIds(d)
  {
    hide Gateways;
    hide Acyclic;
    hide NodeOf;
    if n > 0 {
      ChainFits(d, p, n - 1);
      forall i | 0 <= i < n - 1 ensures p[i] != p[n - 1] { ChainDistinct(Gateways(d), p, i, n - 1); }
      OneLonger(p, n);
      assert NodeOf(d, p[n - 1]) in d.nodes;
    }
  }

  /** A chain of decisions passes each decision once. */
  lemma ChainLength(d: Definition, p: seq<string>)
    requires Acyclic(Gateways(d)) && DecisionChain(d, p)
    ensures |p| <= |DecisionIds(d)|
  {
    hide Gateways;
    hide Acyclic;
    hide DecisionChain;
    ChainFits(d, p, |p|);
    var all := set i | 0 <= i < |p| :: p[i];
    var rest := DecisionIds(d) - all;
    assert DecisionIds(d) == all + rest;
  }

  lemma TrailLength(c: Chart, depth: map<string, nat>, trail: seq<string>, hops: nat, from: string)
    requires Ranked(c, depth) && Trailing(c.d, trail, hops, from)
    ensures hops <= |DecisionIds(c.d)|
  {
    ChainLength(c.d, trail);
  }

  /** Every path from `id` begins with `n` decisions. */
  ghost predicate Decides(d: Definition, id: string, n: nat)
    decreases n
  {
    n > 0 ==>
      && Has(d, id) && NodeOf(d, id).kind.Decision?
      && forall tr :: tr in d.transitions && tr.from == id ==> Decides(d, tr.to, n - 1)
  }

  lemma DecidesOn(d: Definition, id: string, n: nat, tr: Transition, done: bool)
    requires Decides(d, id, n) && n > 0 && (!done ==> tr in d.transitions && tr.from == id)
    ensures NodeOf(d, id).kind.Decision? && (!done ==> Decides(d, tr.to, n - 1))
  {
  }

  /** How many gateways a call can pass: as many as its cap allows or, without
      one, as the definition has. */
  function MaxSteps(d: Definition, caps: Caps): nat { if caps.steps.Some? then caps.steps.value else |GatewayIds(d)| }

  /** How many decisions stop a route. */
  function MaxHops(d: Definition, caps: Caps): nat { if caps.hops.Some? then caps.hops.value else |DecisionIds(d)| + 1 }

  /** Every route that begins at `id` meets too many decisions. */
  ghost predicate Endless(d: Definition, caps: Caps, id: string) {
    MaxHops(d, caps) > 0 && Decides(d, id, MaxHops(d, caps))
  }

  // ------------------------------------------------------- when a cap is met

  /** A cap is met only in a definition with more gateways than the cap, or with
      that many decisions in a row. */
  ghost predicate Capped(c: Chart, depth: map<string, nat>, caps: Caps, e: Error) {
    && (e.TooManyGateways? ==> caps.steps.Some? && (Ranked(c, depth) ==> |GatewayIds(c.d)| > caps.steps.value))
    && (e.TooManyDecisions? ==> caps.hops.Some? && LongChain(c.d, caps.hops.value))
  }

  /** An error routing may end in: a cap, a function of the engine that failed,
      or the join of the block the case started in. */
  ghost predicate Excusable(c: Chart, depth: map<string, nat>, caps: Caps, o: Oracles, e: Error) {
    (e.Routing() || (e.OutsideBlock? && c.root != "")) && Capped(c, depth, caps, e) && Blamed(o, e)
  }

  /** What explains an error of any call. */
  ghost predicate Explains(c: Chart, depth: map<string, nat>, caps: Caps, o: Oracles, e: Error) {
    (e.Structural() ==> e.OutsideBlock? && c.root != "") && Capped(c, depth, caps, e) && Blamed(o, e)
  }

  /** A definition with no more gateways and fewer decisions than the caps. */
  predicate Small(d: Definition, caps: Caps) {
    && (caps.steps.Some? ==> |GatewayIds(d)| <= caps.steps.value)
    && (caps.hops.Some? ==> |DecisionIds(d)| < caps.hops.value)
  }

  /** No cap is ever met in a small definition without a cycle of gateways. */
  lemma SmallIsUncapped(c: Chart, depth: map<string, nat>, caps: Caps, e: Error)
    requires Ranked(c, depth) && Small(c.d, caps) && Capped(c, depth, caps, e)
    ensures !e.TooManyGateways? && !e.TooManyDecisions?
  {
    if e.TooManyDecisions? {
      var p :| |p| == caps.hops.value && DecisionChain(c.d, p);
      ChainLength(c.d, p);
    }
  }

  /** The shipped caps leave room for 31 decisions and 256 gateways. */
  lemma ShippedIsUncapped(c: Chart, depth: map<string, nat>, e: Error)
    requires Ranked(c, depth) && |DecisionIds(c.d)| <= 31 && |GatewayIds(c.d)| <= 256
    requires Capped(c, depth, SHIPPED, e)
    ensures !e.TooManyGateways? && !e.TooManyDecisions?
  {
    SmallIsUncapped(c, depth, SHIPPED, e);
  }

  // --------------------------------------------------- the gateways of a call

  /** The events of a gateway being passed: a split opens, a join fires. */
  predicate Gate(e: Event) { e.body.SplitOpened? || e.body.Joined? }

  /** The events name gateways of `used`, none of them twice. */
  ghost predicate Once(events: seq<Event>, used: set<string>) {
    && (forall i :: 0 <= i < |events| && Gate(events[i]) ==> events[i].to in used)
    && PassesOnce(events, 0)
  }

  /** From event `from` on, each split opens and each join fires at most once. */
  ghost predicate PassesOnce(events: seq<Event>, from: nat) {
    forall i, j :: from <= i < j < |events| && Gate(events[i]) && Gate(events[j]) ==> events[i].to != events[j].to
  }

  /** `b` adds events to `a`, but no gateway. */
  ghost predicate Plain(a: seq<Event>, b: seq<Event>) {
    a <= b && forall i :: |a| <= i < |b| ==> !Gate(b[i])
  }

  /** `b` adds events to `a`, the last of them, and only that one, a gateway `x`. */
  ghost predicate Gated(a: seq<Event>, b: seq<Event>, x: string) {
    && a < b && Gate(b[|b| - 1]) && b[|b| - 1].to == x
    && forall i :: |a| <= i < |b| - 1 ==> !Gate(b[i])
  }

  lemma PlainRefl(a: seq<Event>)
    ensures Plain(a, a)
  {
  }

  lemma PlainOne(a: seq<Event>, e: Event)
    requires !Gate(e)
    ensures Plain(a, a + [e])
  {
  }

  lemma PlainTrans(a: seq<Event>, b: seq<Event>, c: seq<Event>)
    requires Plain(a, b) && Plain(b, c)
    ensures Plain(a, c)
  {
  }

  lemma PlainOnce(a: seq<Event>, b: seq<Event>, used: set<string>)
    requires Once(a, used) && Plain(a, b)
    ensures Once(b, used)
  {
  }

  lemma GatedOnce(a: seq<Event>, b: seq<Event>, x: string, used: set<string>)
    requires Once(a, used) && x !in used && Gated(a, b, x)
    ensures Once(b, used + {x})
  {
  }

  lemma PlainStored(stored: seq<Event>, events: seq<Event>)
    requires Plain([], events)
    ensures PassesOnce(stored + events, |stored|)
  {
  }

  /** An error of no gateway, function or structure explains itself. */
  lemma Harmless(c: Chart, depth: map<string, nat>, caps: Caps, o: Oracles, e: Error)
    requires !e.Structural() && !e.Routing()
    ensures Explains(c, depth, caps, o, e)
  {
  }

  /** A move's cause says nothing about gateways. */
  lemma RecausedOnce(a: seq<Event>, i: nat, e: Event, used: set<string>)
    requires Once(a, used) && i < |a| && !Gate(a[i]) && !Gate(e)
    ensures Once(a[i := e], used)
  {
  }

  /** What a call passed is what its part of the history shows. */
  lemma OnceStored(stored: seq<Event>, events: seq<Event>, used: set<string>)
    requires Once(events, used)
    ensures PassesOnce(stored + events, |stored|)
  {
  }
}
