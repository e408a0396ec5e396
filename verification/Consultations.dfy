/** What the functions an engine is configured with were asked, read off the
    events a call appends: every join was agreed to, every token left a decision
    by the first route that passed and a split by a route it takes, and what a
    guard saw is what the history says. */
module Consultations {
  import opened Definitions
  import opened Tokens
  import opened Replay
  import opened Guards
  import opened Recording

  // ---------------------------------------------------------- what a guard sees

  /** The round whose join created token `t`, if a policy closed it since the
      history had length `from`. */
  function RoundIn(log: seq<Event>, from: nat, t: Id): Option<Round> {
    if |log| <= from then None
    else
      var e := log[|log| - 1];
      if e.token == t && e.body.Joined? && !e.body.policy.NoPolicy? then
        Some(Round(e.body.closed, e.body.policy, e.body.verdict, e.body.results))
      else RoundIn(log[..|log| - 1], from, t)
  }

  /** What a guard is shown of token `t` at `node`: the token as the history
      rebuilds it and, if a policy join created it in this call, the round. */
  function SeenAt(d: Definition, unit: string, log: seq<Event>, from: nat, t: Id, node: string): Snapshot
    requires t in Rebuild(d, unit, log).tokens
  {
    Snapshot(node, Rebuild(d, unit, log).tokens[t], RoundIn(log, from, t))
  }

  // ------------------------------------------------------- what an event shows

  /** The record of join `e`: the scope as it closed, the tokens consumed, the
      verdict and the results. */
  function RecordOf(d: Definition, unit: string, log: seq<Event>, e: Event): JoinRecord
    requires e.body.Joined? && e.body.closed in Rebuild(d, unit, log + [e]).scopes
  {
    JoinRecord(e.body.closed, Rebuild(d, unit, log + [e]).scopes[e.body.closed], e.body.consumed, e.body.verdict,
               e.body.results)
  }

  /** The join check was asked about this very join, and agreed. */
  ghost predicate Agreed(d: Definition, unit: string, o: Oracles, log: seq<Event>, e: Event)
    requires e.body.Joined?
  {
    e.body.closed in Rebuild(d, unit, log + [e]).scopes && exists k: nat :: o.joinCheck(k, RecordOf(d, unit, log, e))
  }

  /** At the decision token `t` stands at, `tr` was the first route to pass. */
  ghost predicate Turns(d: Definition, unit: string, o: Oracles, log: seq<Event>, from: nat, t: Id, tr: Transition) {
    && t in Rebuild(d, unit, log).tokens
    && exists k: nat :: FirstPassing(o, k, SeenAt(d, unit, log, from, t, tr.from), Routes(d, tr.from), tr)
  }

  /** `taken` are the routes split `node` takes: every one if it is parallel. */
  ghost predicate SplitTakes(d: Definition, o: Oracles, k: nat, snap: Snapshot, node: string, taken: seq<Transition>) {
    if NodeOf(d, node).kind.Parallel? then taken == Routes(d, node) else Takes(o, k, snap, Routes(d, node), taken)
  }

  /** Split `e` took as many routes as it opened branches, and sent branch `t`
      along `tr`. */
  ghost predicate Sends(d: Definition, unit: string, o: Oracles, log: seq<Event>, e: Event, from: nat, t: Id,
                        tr: Transition) {
    && e.body.SplitOpened? && e.from == tr.from && e.token in Rebuild(d, unit, log).tokens
    && exists k: nat, taken :: SendsAt(d, o, k, SeenAt(d, unit, log, from, e.token, e.from), e, taken, t, tr)
  }

  ghost predicate SendsAt(d: Definition, o: Oracles, k: nat, snap: Snapshot, e: Event, taken: seq<Transition>, t: Id,
                          tr: Transition)
    requires e.body.SplitOpened?
  {
    && SplitTakes(d, o, k, snap, e.from, taken) && |taken| == |e.body.branches|
    && exists b :: 0 <= b < |taken| && e.body.branches[b] == t && taken[b] == tr
  }

  /** Token `t` is a branch, and the split that opened it sent it along `tr`. */
  ghost predicate Branches(d: Definition, unit: string, o: Oracles, log: seq<Event>, from: nat, t: Id, tr: Transition) {
    exists j :: 0 <= j < |log| && Sends(d, unit, o, log[..j], log[j], from, t, tr)
  }

  /** A call that began at length `from` has recorded why it was made, and nothing
      else yet. */
  predicate JustBegun(log: seq<Event>, from: nat) {
    forall j :: from <= j < |log| ==> Prefatory(log[j])
  }

  predicate Prefatory(e: Event) { e.body.StepSubmitted? || e.body.DeadlineExpired? }

  predicate Preface(events: seq<Event>) { forall i :: 0 <= i < |events| ==> Prefatory(events[i]) }

  lemma PrefaceBegins(stored: seq<Event>, events: seq<Event>)
    requires Preface(events)
    ensures JustBegun(stored + events, |stored|)
  {
  }

  /** Token `t` leaves along `tr` for a reason. */
  ghost predicate Picked(d: Definition, unit: string, o: Oracles, log: seq<Event>, from: nat, t: Id, tr: Transition) {
    && (IsDecision(d, tr.from) ==> Turns(d, unit, o, log, from, t, tr))
    && (IsSplitNode(d, tr.from) ==> Branches(d, unit, o, log, from, t, tr))
    && (Rests(d, tr.from) ==> JustBegun(log, from))
  }

  /** A comment is for leaving a task; no other move has one. */
  predicate Speaks(d: Definition, tr: Transition, comment: string) { Rests(d, tr.from) || comment == "" }

  predicate GoesAlong(e: Event, tr: Transition) {
    e.body.Moved? && e.from == tr.from && e.to == tr.to && e.body.action == tr.action
  }

  /** Token `k` as it enters task `n` in a case of unit `unit`: open to whom the
      task is, in nobody's hands, with its deadline and no mark of an earlier one. */
  predicate EntersFresh(n: Node, unit: string, e: Event, k: Token)
    requires e.body.Moved?
  {
    && k.node == e.to && k.status.Active? && k.enteredSeq == e.seqNo && k.enteredAt == e.at
    && k.assignedTo == "" && k.deadlineAt == e.body.deadline && k.expired.None?
    && k.eligible.position == n.eligible.position
    && (n.eligible.position == "" ==> k.eligible.unit == "")
    && (n.eligible.position != "" && n.eligible.unit != "" ==> k.eligible.unit == n.eligible.unit)
    && (n.eligible.position != "" && n.eligible.unit == "" ==> k.eligible.unit == unit)
  }

  /** A move onto a task leaves its token there, with the deadline the task's rule
      gives. */
  ghost predicate Enters(d: Definition, unit: string, o: Oracles, log: seq<Event>, e: Event)
    requires e.body.Moved?
  {
    Rests(d, e.to) ==>
      && DeadlineFits(o, NodeOf(d, e.to), e.at, e.body.deadline)
      && e.token in Rebuild(d, unit, log + [e]).tokens
      && EntersFresh(NodeOf(d, e.to), unit, e, Rebuild(d, unit, log + [e]).tokens[e.token])
  }

  /** The engine's functions allowed event `e`, appended to `log` by a call that
      began at length `from`. */
  ghost predicate Allowed(d: Definition, unit: string, o: Oracles, log: seq<Event>, from: nat, e: Event) {
    && (e.body.Joined? ==> Agreed(d, unit, o, log, e))
    && (e.body.Moved? ==> Enters(d, unit, o, log, e))
    && (e.body.Moved? ==>
          exists tr :: tr in d.transitions && GoesAlong(e, tr) && Picked(d, unit, o, log, from, e.token, tr)
            && Speaks(d, tr, e.body.comment))
  }

  /** They allowed every event from `from` on. */
  ghost predicate AllAllowed(d: Definition, unit: string, o: Oracles, log: seq<Event>, from: nat) {
    from <= |log| && forall i :: from <= i < |log| ==> Allowed(d, unit, o, log[..i], from, log[i])
  }

  /** The same of a plan, whose rounds are those its joins closed. */
  ghost predicate Heard(d: Definition, unit: string, o: Oracles, log: seq<Event>, from: nat, rounds: map<Id, Round>) {
    && AllAllowed(d, unit, o, log, from)
    && forall t :: RoundIn(log, from, t) == (if t in rounds then Some(rounds[t]) else None)
  }

  /** Every event from `from` on is `actor`'s, of time `now`. */
  predicate Signed(log: seq<Event>, from: nat, now: int, actor: Actor) {
    forall i :: from <= i < |log| ==> log[i].at == now && log[i].actor == actor
  }

  lemma SignedNone(log: seq<Event>, now: int, actor: Actor)
    ensures Signed(log, |log|, now, actor)
  {
  }

  lemma SignedStill(log: seq<Event>, from: nat, now: int, actor: Actor, i: nat, e: Event)
    requires Signed(log, from, now, actor) && i < |log| && e.at == log[i].at && e.actor == log[i].actor
    ensures Signed(log[i := e], from, now, actor)
  {
  }

  lemma SignedStored(stored: seq<Event>, events: seq<Event>, now: int, actor: Actor)
    requires Signed(events, 0, now, actor)
    ensures Signed(stored + events, |stored|, now, actor)
  {
  }

  // ------------------------------------------------------------ one event more

  lemma HeardNone(d: Definition, unit: string, o: Oracles, log: seq<Event>)
    ensures Heard(d, unit, o, log, |log|, map[])
  {
  }

  lemma AllowedMore(d: Definition, unit: string, o: Oracles, log: seq<Event>, from: nat, e: Event)
    requires AllAllowed(d, unit, o, log, from) && Allowed(d, unit, o, log, from, e)
    ensures AllAllowed(d, unit, o, log + [e], from)
  {
    hide Allowed;
    var more := log + [e];
    forall i | from <= i < |more| ensures Allowed(d, unit, o, more[..i], from, more[i]) {
      assert more[..i] == log[..i];
      if i == |log| { assert log[..i] == log; }
    }
  }

  /** An event no function is asked about is always allowed. */
  lemma NoteAllowed(d: Definition, unit: string, o: Oracles, log: seq<Event>, e: Event)
    requires !e.body.Joined? && !e.body.Moved?
    ensures AllAllowed(d, unit, o, log + [e], |log|)
  {
    AllowedMore(d, unit, o, log, |log|, e);
  }

  lemma RoundMore(log: seq<Event>, from: nat, e: Event, t: Id)
    requires from <= |log|
    ensures RoundIn(log + [e], from, t) ==
      if e.token == t && e.body.Joined? && !e.body.policy.NoPolicy? then
        Some(Round(e.body.closed, e.body.policy, e.body.verdict, e.body.results))
      else RoundIn(log, from, t)
  {
    assert (log + [e])[..|log|] == log;
  }

  /** An event no function is asked about. */
  lemma HeardNote(d: Definition, unit: string, o: Oracles, log: seq<Event>, from: nat, rounds: map<Id, Round>, e: Event)
    requires Heard(d, unit, o, log, from, rounds) && !e.body.Joined? && !e.body.Moved?
    ensures Heard(d, unit, o, log + [e], from, rounds)
  {
    AllowedMore(d, unit, o, log, from, e);
    hide AllAllowed;
    forall t ensures RoundIn(log + [e], from, t) == RoundIn(log, from, t) { RoundMore(log, from, e, t); }
  }

  lemma EntersAs(d: Definition, unit: string, log: seq<Event>, e: Event)
    requires e.body.Moved?
    ensures e.token in Rebuild(d, unit, log + [e]).tokens
    ensures Rests(d, e.to) ==>
      EntersFresh(NodeOf(d, e.to), unit, e, Rebuild(d, unit, log + [e]).tokens[e.token])
  {
    assert (log + [e])[..|log|] == log;
  }

  lemma HeardMove(d: Definition, unit: string, o: Oracles, log: seq<Event>, from: nat, rounds: map<Id, Round>, e: Event,
                  tr: Transition)
    requires Heard(d, unit, o, log, from, rounds) && tr in d.transitions && GoesAlong(e, tr)
    requires Picked(d, unit, o, log, from, e.token, tr) && Speaks(d, tr, e.body.comment)
    requires Rests(d, e.to) ==> DeadlineFits(o, NodeOf(d, e.to), e.at, e.body.deadline)
    ensures Heard(d, unit, o, log + [e], from, rounds)
  {
    hide Picked;
    hide DeadlineFits;
    EntersAs(d, unit, log, e);
    AllowedMore(d, unit, o, log, from, e);
    hide AllAllowed;
    forall t ensures RoundIn(log + [e], from, t) == RoundIn(log, from, t) { RoundMore(log, from, e, t); }
  }

  lemma HeardJoin(d: Definition, unit: string, o: Oracles, log: seq<Event>, from: nat, rounds: map<Id, Round>, e: Event,
                  k: nat, g: Image)
    requires Heard(d, unit, o, log, from, rounds) && e.body.Joined? && Rebuild(d, unit, log + [e]) == g
    requires e.body.closed in g.scopes
    requires var joined := g.scopes[e.body.closed];
      o.joinCheck(k, JoinRecord(e.body.closed, joined, e.body.consumed, e.body.verdict, e.body.results))
    ensures var round := Round(e.body.closed, e.body.policy, e.body.verdict, e.body.results);
      Heard(d, unit, o, log + [e], from, if e.body.policy.NoPolicy? then rounds else rounds[e.token := round])
  {
    assert o.joinCheck(k, RecordOf(d, unit, log, e));
    AllowedMore(d, unit, o, log, from, e);
    hide AllAllowed;
    forall t { RoundMore(log, from, e, t); }
  }

  /** What a working copy shows a guard is what the history says. */
  lemma SnapshotIs(d: Definition, unit: string, o: Oracles, log: seq<Event>, from: nat, rounds: map<Id, Round>,
                   g: Image, t: Id, node: string)
    requires Heard(d, unit, o, log, from, rounds) && Rebuild(d, unit, log) == g && t in g.tokens
    ensures SeenAt(d, unit, log, from, t, node) ==
      Snapshot(node, g.tokens[t], if t in rounds then Some(rounds[t]) else None)
  {
  }

  lemma HeardAllows(d: Definition, unit: string, o: Oracles, log: seq<Event>, from: nat, rounds: map<Id, Round>)
    requires Heard(d, unit, o, log, from, rounds)
    ensures AllAllowed(d, unit, o, log, from)
  {
  }

  /** No function is asked about leaving a task or a join. */
  lemma BoundFree(d: Definition, unit: string, o: Oracles, log: seq<Event>, from: nat, t: Id, tr: Transition)
    requires !IsDecision(d, tr.from) && !IsSplitNode(d, tr.from) && (Rests(d, tr.from) ==> JustBegun(log, from))
    ensures Picked(d, unit, o, log, from, t, tr)
  {
  }

  /** A split that takes `taken` sends its branches along them, in order. */
  lemma OpensBranches(d: Definition, unit: string, o: Oracles, log: seq<Event>, e: Event, from: nat, k: nat,
                      taken: seq<Transition>)
    requires e.body.SplitOpened? && |e.body.branches| == |taken| && e.token in Rebuild(d, unit, log).tokens
    requires SplitTakes(d, o, k, SeenAt(d, unit, log, from, e.token, e.from), e.from, taken)
    requires forall tr :: tr in taken ==> tr.from == e.from
    ensures forall i :: 0 <= i < |taken| ==> Branches(d, unit, o, log + [e], from, e.body.branches[i], taken[i])
  {
    hide SplitTakes;
    hide SeenAt;
    var more := log + [e];
    assert more[..|log|] == log && more[|log|] == e;
    forall i | 0 <= i < |taken| ensures Branches(d, unit, o, more, from, e.body.branches[i], taken[i]) {
      assert taken[i] in taken;
      assert SendsAt(d, o, k, SeenAt(d, unit, log, from, e.token, e.from), e, taken, e.body.branches[i], taken[i]);
      assert Sends(d, unit, o, more[..|log|], more[|log|], from, e.body.branches[i], taken[i]);
    }
  }

  /** A branch stays picked as the history grows. */
  lemma BranchesLater(d: Definition, unit: string, o: Oracles, log: seq<Event>, more: seq<Event>, from: nat, t: Id,
                      tr: Transition)
    requires Branches(d, unit, o, log, from, t, tr) && log <= more
    ensures Branches(d, unit, o, more, from, t, tr)
  {
    hide Sends;
    var j :| 0 <= j < |log| && Sends(d, unit, o, log[..j], log[j], from, t, tr);
    assert more[..j] == log[..j] && more[j] == log[j];
  }

  // --------------------------------------------------- a cause recorded later

  lemma {:induction false} CauseRoundIn(a: seq<Event>, b: seq<Event>, from: nat, t: Id)
    requires SameButCause(a, b)
    ensures RoundIn(b, from, t) == RoundIn(a, from, t)
  {
    if |a| > from {
      CauseEvent(a, b, |a| - 1);
      CauseRoundIn(a[..|a| - 1], b[..|a| - 1], from, t);
    }
  }

  lemma CauseSeen(d: Definition, unit: string, a: seq<Event>, b: seq<Event>, from: nat, t: Id, node: string)
    requires SameButCause(a, b) && t in Rebuild(d, unit, a).tokens
    ensures t in Rebuild(d, unit, b).tokens && SeenAt(d, unit, b, from, t, node) == SeenAt(d, unit, a, from, t, node)
  {
    CauseRebuilds(d, unit, a, b);
    CauseRoundIn(a, b, from, t);
  }

  lemma CausePicked(d: Definition, unit: string, o: Oracles, a: seq<Event>, b: seq<Event>, from: nat, t: Id,
                    tr: Transition)
    requires SameButCause(a, b) && Picked(d, unit, o, a, from, t, tr)
    ensures Picked(d, unit, o, b, from, t, tr)
  {
    hide FirstPassing;
    hide SendsAt;
    hide SeenAt;
    if IsDecision(d, tr.from) { CauseSeen(d, unit, a, b, from, t, tr.from); }
    if IsSplitNode(d, tr.from) {
      var j :| 0 <= j < |a| && Sends(d, unit, o, a[..j], a[j], from, t, tr);
      CauseEvent(a, b, j);
      CauseSeen(d, unit, a[..j], b[..j], from, a[j].token, a[j].from);
      assert Sends(d, unit, o, b[..j], b[j], from, t, tr);
    }
    if Rests(d, tr.from) { forall j | from <= j < |b| ensures Prefatory(b[j]) { CauseEvent(a, b, j); } }
  }

  lemma CauseAllowed(d: Definition, unit: string, o: Oracles, a: seq<Event>, b: seq<Event>, from: nat, i: nat)
    requires SameButCause(a, b) && i < |a| && Allowed(d, unit, o, a[..i], from, a[i])
    ensures Allowed(d, unit, o, b[..i], from, b[i])
  {
    hide Picked;
    CauseEvent(a, b, i);
    if a[i].body.Joined? {
      CauseRebuilds(d, unit, a[..i] + [a[i]], b[..i] + [b[i]]);
      var k: nat :| o.joinCheck(k, RecordOf(d, unit, a[..i], a[i]));
      assert RecordOf(d, unit, b[..i], b[i]) == RecordOf(d, unit, a[..i], a[i]);
    }
    if a[i].body.Moved? {
      var tr :| tr in d.transitions && GoesAlong(a[i], tr) && Picked(d, unit, o, a[..i], from, a[i].token, tr)
        && Speaks(d, tr, a[i].body.comment);
      CausePicked(d, unit, o, a[..i], b[..i], from, a[i].token, tr);
      CauseRebuilds(d, unit, a[..i] + [a[i]], b[..i] + [b[i]]);
      assert GoesAlong(b[i], tr);
    }
  }

  lemma CauseHeard(d: Definition, unit: string, o: Oracles, a: seq<Event>, b: seq<Event>, from: nat,
                   rounds: map<Id, Round>)
    requires SameButCause(a, b) && Heard(d, unit, o, a, from, rounds)
    ensures Heard(d, unit, o, b, from, rounds)
  {
    hide Allowed;
    forall i | from <= i < |b| ensures Allowed(d, unit, o, b[..i], from, b[i]) {
      CauseAllowed(d, unit, o, a, b, from, i);
    }
    forall t ensures RoundIn(b, from, t) == RoundIn(a, from, t) { CauseRoundIn(a, b, from, t); }
  }
}
