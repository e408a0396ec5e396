/** Which earlier nodes a return transition may go back to. */
module Returns {
  import opened Definitions
  import opened Soundness
  import opened Tokens
  import opened Replay
  import opened History

  /** The history of `scope` opened at, left or entered `node`. */
  predicate OccupiedAt(log: seq<Event>, scope: Id, node: string) {
    exists i :: 0 <= i < |log| && Occupies(log[i], scope, node)
  }

  predicate Occupies(e: Event, scope: Id, node: string) {
    && e.scope == scope
    && ((e.body.Opened? && e.to == node) || (e.body.Moved? && (e.from == node || e.to == node)))
  }

  method OccupiedStates(log: seq<Event>, scope: Id) returns (occupied: set<string>)
    ensures forall node :: node in occupied <==> OccupiedAt(log, scope, node)
  {
    occupied := {};
    var i := 0;
    while i < |log|
      invariant 0 <= i <= |log|
      invariant forall node :: node in occupied <==> exists j :: 0 <= j < i && Occupies(log[j], scope, node)
    {
      var e := log[i];
      var more := if e.scope != scope then {}
                  else if e.body.Opened? then {e.to}
                  else if e.body.Moved? then {e.from, e.to}
                  else {};
      assert forall node :: node in more <==> Occupies(log[i], scope, node);
      forall node ensures node in occupied + more <==> exists j :: 0 <= j < i + 1 && Occupies(log[j], scope, node) {
        if node in occupied {
          var j :| 0 <= j < i && Occupies(log[j], scope, node);
          assert 0 <= j < i + 1;
        }
      }
      occupied := occupied + more;
      i := i + 1;
    }
  }

  /** Event `i` brought a token of `scope` to rest on task `node`. */
  ghost predicate RestedAt(c: Chart, log: seq<Event>, g: Image, scope: Id, node: string, i: int) {
    && 0 <= i < |log| && Enters(log[i]) && log[i].to == node && Rests(c.d, node)
    && log[i].token in g.tokens && g.tokens[log[i].token].scope == scope
  }

  /** A task counts as occupied exactly when a token of the very same scope
      rested there: no other scope, and so no earlier round of the block, can
      make a return possible. */
  lemma OccupiedIsVisited(c: Chart, log: seq<Event>, g: Image, scope: Id, node: string)
    requires Logged(c, log, g) && Rests(c.d, node)
    ensures OccupiedAt(log, scope, node) <==> exists i :: RestedAt(c, log, g, scope, node, i)
  {
    if OccupiedAt(log, scope, node) {
      var i :| 0 <= i < |log| && Occupies(log[i], scope, node);
      assert EventLogged(c, log, g, i);
      if log[i].to == node {
        assert RestedAt(c, log, g, scope, node, i);
      } else {
        var j :| 0 <= j < i && Enters(log[j]) && log[j].token == log[i].token && log[j].to == log[i].from;
        assert EventLogged(c, log, g, j);
        assert RestedAt(c, log, g, scope, node, j);
      }
    }
    if i :| RestedAt(c, log, g, scope, node, i) {
      assert EventLogged(c, log, g, i);
      assert Occupies(log[i], scope, node);
    }
  }

  /** A return stays in the branch it starts in. */
  lemma ReturnStaysInBranch(c: Chart, tr: Transition)
    requires Sound(c) && tr in c.d.transitions && tr.back
    ensures Rests(c.d, tr.from) || NodeOf(c.d, tr.from).terminal
    ensures Rests(c.d, tr.to) && Home(c, tr.to) == Home(c, tr.from)
  {
    assert EdgeSound(c, tr);
  }
}
