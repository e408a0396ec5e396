/** The case row a list of tokens projects to. */
module Projection {
  import opened Definitions
  import opened Tokens
  import opened Replay

  function ActiveIds(g: Image): set<Id> { set t | t in g.tokens && g.tokens[t].status.Active? }

  /** `due` is the earliest deadline among the tokens of `ids`. */
  predicate FirstDue(tokens: map<Id, Token>, ids: set<Id>, due: Option<int>)
    requires ids <= tokens.Keys
  {
    && (due.Some? ==> exists t :: t in ids && tokens[t].deadlineAt == due)
    && (forall t :: t in ids && tokens[t].deadlineAt.Some? ==> due.Some? && due.value <= tokens[t].deadlineAt.value)
  }

  /** What the case row shows: the only active token's node and assignee, and
      the earliest active deadline; of a case no longer open, where it ended. */
  predicate Projects(g: Image, state: string, assignedTo: string, due: Option<int>) {
    if g.status.CaseOpen? then
      && (forall t :: t in g.tokens && ActiveIds(g) == {t} ==>
          state == g.tokens[t].node && assignedTo == g.tokens[t].assignedTo)
      && (|ActiveIds(g)| != 1 ==> state == "" && assignedTo == "")
      && FirstDue(g.tokens, ActiveIds(g), due)
    else
      state == g.endState && assignedTo == "" && due == None
  }

  lemma Single(ids: set<Id>) returns (t: Id)
    requires |ids| == 1
    ensures ids == {t}
  {
    t :| t in ids;
    assert |ids - {t}| == 0;
  }

  /** The row is a function of the tokens. */
  lemma ProjectsOnce(g: Image, s1: string, a1: string, d1: Option<int>, s2: string, a2: string, d2: Option<int>)
    requires Projects(g, s1, a1, d1) && Projects(g, s2, a2, d2)
    ensures s1 == s2 && a1 == a2 && d1 == d2
  {
    if g.status.CaseOpen? && |ActiveIds(g)| == 1 {
      var t := Single(ActiveIds(g));
    }
  }

  /** The earliest deadline, found token by token. */
  method Soonest(tokens: map<Id, Token>, ids: set<Id>) returns (due: Option<int>)
    requires ids <= tokens.Keys
    ensures FirstDue(tokens, ids, due)
  {
    due := None;
    var todo := ids;
    while todo != {}
      invariant todo <= ids && FirstDue(tokens, ids - todo, due)
      decreases |todo|
    {
      var t :| t in todo;
      var mine := tokens[t].deadlineAt;
      assert ids - (todo - {t}) == (ids - todo) + {t};
      todo := todo - {t};
      if mine.Some? && (due.None? || mine.value < due.value) { due := mine; }
    }
    assert ids - todo == ids;
  }

  method Project(g: Image) returns (state: string, assignedTo: string, due: Option<int>)
    ensures Projects(g, state, assignedTo, due)
  {
    if !g.status.CaseOpen? { return g.endState, "", None; }
    var active := ActiveIds(g);
    state, assignedTo := "", "";
    if |active| == 1 {
      ghost var one := Single(active);
      var t :| t in active;
      state, assignedTo := g.tokens[t].node, g.tokens[t].assignedTo;
    }
    due := Soonest(g.tokens, active);
  }
}
