/** The room a call has left: the gateways ahead of the token it routes are none
    it has passed before. */
module Rooms {
  import opened Definitions
  import opened Soundness
  import opened Tokens
  import opened Replay
  import opened Invariant
  import opened Steps
  import opened History
  import opened WorkingCopy
  import opened Sweeps
  import opened Cycles
  import opened Placement
  import opened Validity
  import opened Budget
  import opened Guards

  /** A token of scope `s` that moves onto `node` passes only gateways of `room`,
      none of them used before. */
  ghost predicate Roomy(c: Chart, depth: map<string, nat>, g: Image, pend: Pend, s: Id, node: string, used: set<string>,
                        room: set<string>) {
    Ranked(c, depth) ==> room !! used && GatewaysAhead(c.d, Stops(g, pend, s), node) <= room
  }

  lemma CountedFacts(c: Chart, base: Image, w: Work, pend: Pend, flight: Option<Id>, loose: set<Id>)
    requires Works(c, base, w, pend, flight, loose)
    ensures Sound(c) && ScopesOk(c, w.g) && Counted(w.g, pend)
  {
    hide Sound;
    hide ScopesOk;
    hide Counted;
  }

  lemma ExtendsGrows(w: Work, w2: Work, n: nat)
    requires Extends(w, w2, n)
    ensures Grows(w.g, w2.g)
  {
  }

  lemma RoomyKept(c: Chart, depth: map<string, nat>, base: Image, w: Work, w2: Work, pend: Pend, flight: Option<Id>,
                  loose: set<Id>, n: nat,
                  s: Id, node: string, used: set<string>, room: set<string>)
    requires Works(c, base, w, pend, flight, loose) && Extends(w, w2, n) && s in w.g.scopes
    requires Roomy(c, depth, w.g, pend, s, node, used, room)
    ensures Roomy(c, depth, w2.g, pend, s, node, used, room)
  {
    hide Works;
    hide Extends;
    hide Ranked;
    hide Sound;
    hide Counted;
    CountedFacts(c, base, w, pend, flight, loose);
    ExtendsGrows(w, w2, n);
    StopsKept(c, w.g, w2.g, pend, s);
  }

  lemma {:induction false} StopsScopes(g: Image, g2: Image, pend: Pend, s: Id)
    requires g.scopes == g2.scopes
    ensures Stops(g2, pend, s) == Stops(g, pend, s)
    decreases s
  {
    if s in g.scopes && g.scopes[s].parent.Some? && g.scopes[s].parent.value < s {
      StopsScopes(g, g2, pend, g.scopes[s].parent.value);
    }
  }

  lemma RoomyScopes(c: Chart, depth: map<string, nat>, g: Image, g2: Image, pend: Pend, s: Id, node: string,
                    used: set<string>, room: set<string>)
    requires g.scopes == g2.scopes && Roomy(c, depth, g, pend, s, node, used, room)
    ensures Roomy(c, depth, g2, pend, s, node, used, room)
  {
    StopsScopes(g, g2, pend, s);
  }

  /** A join that is due has no branch left to emit. */
  lemma DueIsEmitted(c: Chart, base: Image, w: Work, pend: Pend, loose: set<Id>, s: Id)
    requires Works(c, base, w, pend, None, loose) && s in w.g.scopes && w.g.scopes[s].status.ScopeOpen?
    requires RulingAt(c, w.g, s).Closed?
    requires !JoinPolicyOf(c, w.g, s).NoPolicy? ==> pend == map[]
    ensures Pending(pend, s) == 0
  {
    hide Works;
    hide RulingAt;
    CountFactsOf(c, base, w, pend, None, loose, s);
    if Pending(pend, s) > 0 { EmittingIsOpen(c, w.g, pend, s); }
  }

  // ------------------------------------------------------ routes stay distinct

  lemma {:induction false} FromDistinct(trs: seq<Transition>, id: string)
    requires DistinctSeq(trs)
    ensures DistinctSeq(From(trs, id))
  {
    if trs != [] {
      FromDistinct(trs[1..], id);
      if trs[0].from == id {
        forall tr | tr in From(trs[1..], id) ensures tr != trs[0] {
          var j :| 0 <= j < |trs[1..]| && trs[1..][j] == tr;
          assert trs[j + 1] == tr;
        }
      }
    }
  }

  lemma {:induction false} PassingDistinct(o: Oracles, tick: nat, snap: Snapshot, routes: seq<Transition>, n: nat)
    requires n <= |routes| && DistinctSeq(routes)
    ensures DistinctSeq(Passing(o, tick, snap, routes, n)) && DistinctSeq(Unguarded(routes, n))
    ensures forall tr :: tr in Passing(o, tick, snap, routes, n) || tr in Unguarded(routes, n) ==> tr in routes[..n]
  {
    if n > 0 {
      PassingDistinct(o, tick, snap, routes, n - 1);
      forall tr | tr in routes[..n - 1] ensures tr in routes[..n] && tr != routes[n - 1] {
        var j :| 0 <= j < n - 1 && routes[..n - 1][j] == tr;
        assert routes[..n][j] == tr && routes[j] != routes[n - 1];
      }
      assert routes[..n][n - 1] == routes[n - 1];
      DistinctMore(Passing(o, tick, snap, routes, n - 1), routes[n - 1]);
      DistinctMore(Unguarded(routes, n - 1), routes[n - 1]);
    }
  }

  lemma DistinctMore(trs: seq<Transition>, x: Transition)
    requires DistinctSeq(trs) && x !in trs
    ensures DistinctSeq(trs + [x])
  {
  }

  lemma RankedRoutes(c: Chart, depth: map<string, nat>, id: string)
    requires Ranked(c, depth)
    ensures DistinctSeq(Routes(c.d, id))
  {
    hide BranchesApart;
    hide Layered;
    FromDistinct(c.d.transitions, id);
  }

  /** A call starts with all the room there is. */
  lemma RoomyAll(c: Chart, depth: map<string, nat>, g: Image, pend: Pend, s: Id, node: string)
    ensures Roomy(c, depth, g, pend, s, node, {}, GatewayIds(c.d))
  {
  }

  lemma RankedFacts(c: Chart, depth: map<string, nat>)
    requires Ranked(c, depth)
    ensures Unique(c.d) && KnownEnds(c.d) && Acyclic(Gateways(c.d)) && Layered(c, depth)
  {
  }

  /** A gateway or decision that is no join is never a stop. */
  lemma NotStopped(c: Chart, base: Image, w: Work, pend: Pend, flight: Option<Id>, loose: set<Id>, s: Id, node: string)
    requires Works(c, base, w, pend, flight, loose) && s in w.g.scopes && !IsJoinNode(c.d, node)
    ensures node !in Stops(w.g, pend, s)
  {
    hide Works;
    hide Sound;
    hide ScopesOk;
    hide Counted;
    CountedFacts(c, base, w, pend, flight, loose);
    if node in Stops(w.g, pend, s) { StopsAreJoins(c, w.g, pend, s, node); }
  }

  /** A decision leads to nothing that was not ahead of it. */
  lemma RoomyOn(c: Chart, depth: map<string, nat>, base: Image, w: Work, pend: Pend, flight: Option<Id>, s: Id,
                tr: Transition,
                used: set<string>, room: set<string>)
    requires Works(c, base, w, pend, flight, {}) && s in w.g.scopes && tr in c.d.transitions
    requires NodeOf(c.d, tr.from).kind.Decision?
    requires Roomy(c, depth, w.g, pend, s, tr.from, used, room)
    ensures Roomy(c, depth, w.g, pend, s, tr.to, used, room)
  {
    hide Works;
    hide Ranked;
    NotStopped(c, base, w, pend, flight, {}, s, tr.from);
    if Ranked(c, depth) {
      RankedFacts(c, depth);
      AheadShrinks(c.d, Stops(w.g, pend, s), tr);
    }
  }

  /** A split about to be entered was not entered before in this call. */
  lemma RoomySplit(c: Chart, depth: map<string, nat>, base: Image, w: Work, pend: Pend, flight: Option<Id>, s: Id,
                   node: Node,
                   used: set<string>, room: set<string>)
    requires Works(c, base, w, pend, flight, {}) && s in w.g.scopes && node in c.d.nodes && IsSplitNode(c.d, node.id)
    requires node == NodeOf(c.d, node.id)
    requires Roomy(c, depth, w.g, pend, s, node.id, used, room)
    ensures node.id !in Stops(w.g, pend, s)
    ensures Ranked(c, depth) ==> node.id in GatewayIds(c.d) && node.id in room && node.id !in used
  {
    hide Works;
    hide Ranked;
    NotStopped(c, base, w, pend, flight, {}, s, node.id);
    if Ranked(c, depth) { AheadHere(c.d, Stops(w.g, pend, s), node); }
  }

  /** A join about to fire has not fired before in this call. */
  lemma RoomyJoin(c: Chart, depth: map<string, nat>, base: Image, w: Work, pend: Pend, loose: set<Id>, s: Id,
                  used: set<string>, room: set<string>)
    requires Works(c, base, w, pend, None, loose) && s in w.g.scopes && s != ROOT && Pending(pend, s) == 0
    requires IsJoinNode(c.d, w.g.scopes[s].joinNode)
    requires Roomy(c, depth, w.g, pend, s, w.g.scopes[s].joinNode, used, room)
    ensures Ranked(c, depth) ==>
      var j := w.g.scopes[s].joinNode; j in GatewayIds(c.d) && j in room && j !in used
  {
    hide Works;
    hide Ranked;
    if Ranked(c, depth) {
      RankedFacts(c, depth);
      CountedFacts(c, base, w, pend, None, loose);
      hide Sound;
      hide ScopesOk;
      hide Counted;
      hide Layered;
      JoinNotStopped(c, depth, w.g, pend, s);
      AheadHere(c.d, Stops(w.g, pend, s), NodeOf(c.d, w.g.scopes[s].joinNode));
    }
  }

  /** What the token a join creates may pass. */
  lemma RoomyBeyond(c: Chart, depth: map<string, nat>, base: Image, w: Work, w2: Work, pend: Pend, loose: set<Id>,
                    n: nat, s: Id, tr: Transition,
                    used: set<string>, room: set<string>)
    requires Works(c, base, w, pend, None, loose) && Extends(w, w2, n) && s in w.g.scopes && s != ROOT
    requires Pending(pend, s) == 0
    requires w.g.scopes[s].parent.Some? && tr in c.d.transitions && tr.from == w.g.scopes[s].joinNode
    requires IsJoinNode(c.d, tr.from)
    requires Roomy(c, depth, w.g, pend, s, tr.from, used, room)
    ensures Roomy(c, depth, w2.g, pend, w.g.scopes[s].parent.value, tr.to, used + {tr.from}, room - {tr.from})
  {
    hide Works;
    hide Ranked;
    hide Extends;
    if Ranked(c, depth) {
      RankedFacts(c, depth);
      CountedFacts(c, base, w, pend, None, loose);
      ExtendsGrows(w, w2, n);
      hide Sound;
      hide Counted;
      hide Layered;
      JoinNotStopped(c, depth, w.g, pend, s);
      ParentKnown(c, w.g, s);
      StopsKept(c, w.g, w2.g, pend, w.g.scopes[s].parent.value);
      hide ScopesOk;
      AheadShrinks(c.d, Stops(w.g, pend, s), tr);
      NotAheadAgain(c.d, Stops(w.g, pend, s), tr);
    }
  }

  lemma ParentKnown(c: Chart, g: Image, s: Id)
    requires ScopesOk(c, g) && s in g.scopes && g.scopes[s].parent.Some?
    ensures g.scopes[s].parent.value in g.scopes && g.scopes[s].parent.value < s
  {
    assert ScopeOk(c, g, s);
  }

  // -------------------------------------------------------------- the branches

  /** What branch `i` of a split may pass: only the last may go beyond the join. */
  ghost function BranchRoom(d: Definition, stops: set<string>, join: string, taken: seq<Transition>,
                            i: nat): set<string>
    requires i < |taken|
  {
    GatewaysAhead(d, if i + 1 < |taken| then stops + {join} else stops, taken[i].to)
  }

  predicate DistinctSeq(trs: seq<Transition>) { forall i, j :: 0 <= i < j < |trs| ==> trs[i] != trs[j] }

  lemma RoutesAreApart(c: Chart, depth: map<string, nat>, node: Node, a: Transition, b: Transition)
    requires Ranked(c, depth) && node in c.d.nodes && node.kind.IsSplit() && a != b
    requires a in c.d.transitions && a.from == node.id && b in c.d.transitions && b.from == node.id
    ensures GatewaysAhead(c.d, {node.join}, a.to) !! GatewaysAhead(c.d, {}, b.to)
  {
    hide GatewaysAhead;
    assert a in Routes(c.d, node.id) && b in Routes(c.d, node.id);
  }

  lemma BranchRoomsApart(c: Chart, depth: map<string, nat>, node: Node, stops: set<string>, taken: seq<Transition>,
                         i: nat, k: nat)
    requires Ranked(c, depth) && node in c.d.nodes && node.kind.IsSplit() && DistinctSeq(taken) && i < k < |taken|
    requires forall tr :: tr in taken ==> tr in c.d.transitions && tr.from == node.id
    ensures BranchRoom(c.d, stops, node.join, taken, i) !! BranchRoom(c.d, stops, node.join, taken, k)
  {
    hide Ranked;
    hide GatewaysAhead;
    var a, b := taken[i], taken[k];
    RoutesAreApart(c, depth, node, a, b);
    AheadFewer(c.d, {node.join}, stops + {node.join}, a.to);
    AheadFewer(c.d, {}, stops, b.to);
    AheadFewer(c.d, {}, stops + {node.join}, b.to);
  }

  lemma BranchRoomWithin(c: Chart, depth: map<string, nat>, node: Node, stops: set<string>, taken: seq<Transition>,
                         i: nat)
    requires Ranked(c, depth) && node.id !in stops && node == NodeOf(c.d, node.id) && node.kind.IsSplit() && i < |taken|
    requires taken[i] in c.d.transitions && taken[i].from == node.id
    ensures BranchRoom(c.d, stops, node.join, taken, i) <= GatewaysAhead(c.d, stops, node.id) - {node.id}
  {
    RankedFacts(c, depth);
    hide Ranked;
    hide GatewaysAhead;
    AheadFewer(c.d, stops, stops + {node.join}, taken[i].to);
    AheadShrinks(c.d, stops, taken[i]);
    NotAheadAgain(c.d, stops, taken[i]);
  }

  /** Where branch `i` of scope `child` must stop. */
  lemma BranchStops(c: Chart, base: Image, w1: Work, w: Work, pend0: Pend, pend: Pend, flight: Option<Id>, p: Id,
                    child: Id, m: nat)
    requires Works(c, base, w1, pend0, flight, {}) && Grows(w1.g, w.g) && p in w1.g.scopes && p < child
    requires child in w.g.scopes
    requires w.g.scopes[child].parent == Some(p)
    ensures Stops(w.g, pend[child := m], child) ==
      Stops(w1.g, pend, p) + (if m > 0 then {w.g.scopes[child].joinNode} else {})
  {
    hide Works;
    hide Sound;
    hide Counted;
    CountedFacts(c, base, w1, pend0, flight, {});
    StopsKept(c, w1.g, w.g, pend, p);
    StopsAbove(w.g, pend, child, m, p);
  }

  /** What a split that was just counted leaves its branches. */
  ghost predicate BranchesRoomy(c: Chart, depth: map<string, nat>, g: Image, pend: Pend, s: Id, node: Node,
                                taken: seq<Transition>,
                                used: set<string>, room: set<string>) {
    Ranked(c, depth) ==>
      && node.id in used && node.id !in Stops(g, pend, s) && DistinctSeq(taken)
      && room !! (used - {node.id}) && GatewaysAhead(c.d, Stops(g, pend, s), node.id) <= room
  }

  lemma BranchesUse(c: Chart, depth: map<string, nat>, g: Image, pend: Pend, s: Id, node: Node, taken: seq<Transition>,
                    used: set<string>, room: set<string>)
    requires Ranked(c, depth) && BranchesRoomy(c, depth, g, pend, s, node, taken, used, room)
    ensures used - {node.id} + {node.id} == used
  {
  }

  lemma BranchesHaveRoom(c: Chart, depth: map<string, nat>, g: Image, g2: Image, pend: Pend, s: Id, node: Node,
                         taken: seq<Transition>,
                         used: set<string>, room: set<string>)
    requires Roomy(c, depth, g, pend, s, node.id, used, room) && g2.scopes == g.scopes && node.id !in Stops(g, pend, s)
    requires Ranked(c, depth) ==> DistinctSeq(taken) && node.id !in used
    ensures BranchesRoomy(c, depth, g2, pend, s, node, taken, used + {node.id}, room)
  {
    hide Ranked;
    StopsScopes(g, g2, pend, s);
    assert used + {node.id} - {node.id} == used - {node.id};
  }

  /** The rooms of the branches still to emit are untouched. */
  ghost predicate RoomsLeft(c: Chart, depth: map<string, nat>, stops: set<string>, node: Node, taken: seq<Transition>,
                            i: nat,
                            used0: set<string>, used: set<string>, room: set<string>) {
    Ranked(c, depth) ==>
      && used <= used0 + room && DistinctSeq(taken)
      && (forall k :: i <= k < |taken| ==>
          BranchRoom(c.d, stops, node.join, taken, k) !! used && BranchRoom(c.d, stops, node.join, taken, k) <= room)
  }

  lemma RoomsStart(c: Chart, depth: map<string, nat>, g: Image, pend: Pend, s: Id, node: Node, taken: seq<Transition>,
                   used: set<string>, room: set<string>)
    requires BranchesRoomy(c, depth, g, pend, s, node, taken, used, room) && node == NodeOf(c.d, node.id)
    requires node.kind.IsSplit()
    requires forall tr :: tr in taken ==> tr in c.d.transitions && tr.from == node.id
    ensures RoomsLeft(c, depth, Stops(g, pend, s), node, taken, 0, used, used, room)
  {
    hide Ranked;
    hide BranchRoom;
    hide GatewaysAhead;
    if Ranked(c, depth) {
      forall k | 0 <= k < |taken|
        ensures BranchRoom(c.d, Stops(g, pend, s), node.join, taken, k) !! used
        ensures BranchRoom(c.d, Stops(g, pend, s), node.join, taken, k) <= room
      {
        BranchRoomWithin(c, depth, node, Stops(g, pend, s), taken, k);
      }
    }
  }

  /** The next branch has room of its own. */
  lemma RoomsNext(c: Chart, depth: map<string, nat>, base: Image, w1: Work, w: Work, pend: Pend, tok: Id, p: Id,
                  child: Id, node: Node,
                  taken: seq<Transition>, i: nat, used0: set<string>, used: set<string>, room: set<string>)
    requires Works(c, base, w1, pend, Some(tok), {}) && Extends(w1, w, 0) && p in w1.g.scopes && child == w1.next
    requires child in w.g.scopes && w.g.scopes[child].parent == Some(p) && w.g.scopes[child].joinNode == node.join
    requires i < |taken|
    requires RoomsLeft(c, depth, Stops(w1.g, pend, p), node, taken, i, used0, used, room)
    ensures var m := |taken| - i - 1;
      Roomy(c, depth, w.g, pend[child := m], child, taken[i].to, used,
            BranchRoom(c.d, Stops(w1.g, pend, p), node.join, taken, i))
  {
    hide Works;
    hide Extends;
    hide Ranked;
    ExtendsGrows(w1, w, 0);
    BelowNext(c, base, w1, pend, Some(tok), p);
    BranchStops(c, base, w1, w, pend, pend, Some(tok), p, child, |taken| - i - 1);
  }

  lemma BelowNext(c: Chart, base: Image, w: Work, pend: Pend, flight: Option<Id>, p: Id)
    requires Works(c, base, w, pend, flight, {}) && p in w.g.scopes
    ensures p < w.next
  {
  }

  lemma RoomsFewer(c: Chart, depth: map<string, nat>, stops: set<string>, node: Node, taken: seq<Transition>, i: nat,
                   used0: set<string>, used: set<string>, used2: set<string>, room: set<string>)
    requires RoomsLeft(c, depth, stops, node, taken, i, used0, used, room) && i < |taken|
    requires node in c.d.nodes && node.kind.IsSplit()
    requires forall tr :: tr in taken ==> tr in c.d.transitions && tr.from == node.id
    requires Ranked(c, depth) ==> used2 <= used + BranchRoom(c.d, stops, node.join, taken, i)
    ensures RoomsLeft(c, depth, stops, node, taken, i + 1, used0, used2, room)
  {
    hide Ranked;
    hide BranchRoom;
    if Ranked(c, depth) {
      forall k | i + 1 <= k < |taken| ensures BranchRoom(c.d, stops, node.join, taken, k) !! used2 {
        BranchRoomsApart(c, depth, node, stops, taken, i, k);
      }
    }
  }

  lemma RoomsEnd(c: Chart, depth: map<string, nat>, stops: set<string>, node: Node, taken: seq<Transition>,
                 used0: set<string>, used: set<string>, room: set<string>)
    requires RoomsLeft(c, depth, stops, node, taken, |taken|, used0, used, room)
    ensures Ranked(c, depth) ==> used <= used0 + room
  {
  }
}
