/** The two definitions the rules accept and no case of which can go on, met by
    the engine's own calls: a start task inside a block, and a long row of
    decisions behind it. */
module Misplaced {
  import opened Definitions
  import opened Soundness
  import opened Tokens
  import opened Replay
  import opened WorkingCopy
  import opened Closings
  import opened Projection
  import opened Blocks
  import opened Validity
  import opened Guards
  import opened Routing
  import opened Budget
  import opened Caps
  import opened Operations
  import opened Cases
  import opened Runs
  import opened StartInside
  import opened LongChains
  import opened Cycles
  import opened Ways
  import opened Exits

  /** A case just opened has one token, at rest on its start task. */
  lemma JustOpened(d: Definition, unit: string, start: string, due: Option<int>, at: int)
    ensures var g := AfterOpen(d, unit, start, due, at);
      && ActiveIds(g) == {ROOT} && ROOT in g.tokens && g.tokens[ROOT].node == start && g.tokens[ROOT].scope == ROOT
      && ROOT in g.scopes && g.scopes[ROOT] == Scope(None, "", "", 1, ScopeOpen, 1, 0)
  {
  }

  lemma OpenToMoves(row: Row, g: Image)
    requires row.status.CaseOpen? && ActiveIds(g) == {ROOT}
    ensures Refusal(row, g, None, None, CaseNotOpen) == None
  {
  }

  /** Nothing keeps a token from a transition without guard or comment rule. */
  lemma Unguarded(o: Oracles, d: Definition, log: seq<Event>, k: Token, input: MoveInput, tr: Transition)
    requires Chosen(d, k.node, input.action) == Some(tr) && tr.guard == "" && tr.comment.CommentNone?
    requires input.comment == "" && !tr.back
    ensures MoveRefusal(o, 0, d, log, k, Seen(k), input) == None
  {
  }

  lemma ForkedStart()
    ensures StartOf(FORKED.nodes) == Some(DRAFT) && DRAFT.id == "d" && DRAFT.deadlineRule == ""
    ensures Chosen(FORKED, "d", "x") == Some(T0)
    ensures NodeOf(FORKED, "d") == DRAFT && Rests(FORKED, "d") && IsJoinNode(FORKED, "m")
  {
    assert FORKED.nodes[0] == DRAFT;
    Lookups();
    RoutesOf("d");
  }

  lemma ForkedChart(c: Chart)
    requires c == ChartOf(FORKED, FORK_BLOCKS).(root := "f")
    ensures c.d == FORKED && Sound(c) && Ranked(c, Depths(FORKED, FORK_BLOCKS)) && Home(c, "d").split == "f"
    ensures c.root == "f"
  {
    hide Accepted;
    hide ChartOf;
    ForkAccepted();
    DraftHome();
    ChartIs(FORKED, FORK_BLOCKS);
    AcceptedRuns(FORKED, FORK_BLOCKS, "f");
  }

  /** `c` is a case of `d` just opened on task `start`. */
  ghost predicate JustOpenedOn(c: StoredCase, d: Definition, start: string)
    reads c
  {
    && c.Good() && c.d == d && c.row.status.CaseOpen?
    && exists due, at :: c.Img() == AfterOpen(d, c.unit, start, due, at)
  }

  /** A move of a case just opened, along a transition nothing guards, goes the
      way routing goes. */
  method FirstMove(c: StoredCase, input: MoveInput, ghost tr: Transition, answers: Oracles, now: int, mover: Actor,
                   ghost start: string)
      returns (err: Option<Error>)
    requires JustOpenedOn(c, c.d, start) && Chosen(c.d, start, input.action) == Some(tr)
    requires tr.guard == "" && tr.comment.CommentNone? && !tr.back
    requires input == MoveInput(None, input.action, "", false, None)
    modifies c
    ensures ROOT in old(c.tokens) && old(c.tokens)[ROOT].scope == ROOT
    ensures ROOT in old(c.scopes) && old(c.scopes)[ROOT] == Scope(None, "", "", 1, ScopeOpen, 1, 0)
    ensures Routed(c.chart, c.depth, c.caps, answers, old(c.Img()), ROOT, tr, err, c.Img())
  {
    hide StoredOk;
    hide Projects;
    hide Ranked;
    hide Routed;
    hide Legal;
    hide Explains;
    hide Returned;
    hide PassesOnce;
    hide PolicyJoins;
    ghost var g := c.Img();
    ghost var due, at :| g == AfterOpen(c.d, c.unit, start, due, at);
    JustOpened(c.d, c.unit, start, due, at);
    OpenToMoves(c.row, g);
    Unguarded(answers, c.d, c.log, g.tokens[ROOT], input, tr);
    hide Refusal;
    hide MoveRefusal;
    ghost var tok, t;
    err, tok, t := c.Move(input, answers, now, mover);
    assert Routed(c.chart, c.depth, c.caps, answers, g, ROOT, tr, err, c.Img());
  }

  /** Whatever the functions of the engine answer, the only move out of the start
      task of the forked definition fails with the structural error. */
  method DraftCannotLeave(unit: string, caps: Caps, opening: Oracles, now: int, actor: Actor,
                          answers: Oracles, later: int, mover: Actor)
      returns (r: Result<StoredCase>, err: Option<Error>)
    ensures Accepted(FORKED, FORK_BLOCKS) && r.Ok? && err == Some(OutsideBlock)
  {
    hide Accepted;
    hide ChartOf;
    hide Sound;
    hide Home;
    hide StoredOk;
    hide Rests;
    hide IsJoinNode;
    hide Routed;
    hide EndsBy;
    hide Has;
    hide Ranked;
    ForkAccepted();
    ForkedStart();
    ghost var c := ChartOf(FORKED, FORK_BLOCKS).(root := "f");
    ForkedChart(c);
    NoEmptyId(c);
    r := OpenCase(FORKED, unit, opening, caps, now, actor, c, Depths(FORKED, FORK_BLOCKS));
    err := None;
    if r.Ok? {
      ghost var g := r.value.Img();
      err := FirstMove(r.value, MoveInput(None, "x", "", false, None), T0, answers, later, mover, "d");
      EndsByItself(answers, FORKED, caps, T0);
      JoinStrays(c, r.value.depth, caps, answers, g, ROOT, T0, T0, err, r.value.Img());
    }
  }

  // --------------------------------------------- every start inside a block

  /** Routing that ends at a task, with functions that always answer, does not
      fail. */
  lemma TaskIsReached(c: Chart, depth: map<string, nat>, caps: Caps, o: Oracles, g: Image, t: Id, tr: Transition,
                      last: Transition, err: Option<Error>, g2: Image)
    requires Routed(c, depth, caps, o, g, t, tr, err, g2) && Obliging(o)
    requires EndsBy(o, c.d, caps, tr, last) && Rests(c.d, last.to)
    ensures err.None? && Rested(g.tokens, g2.tokens, t, last.to) && g2.scopes == g.scopes && g2.status == g.status
  {
    hide EndsBy;
    hide Endless;
    hide Capped;
    assert Landed(o, c.d, g, g2, t, last.to, err);
    if err.Some? { NobodyToBlame(o); }
  }

  lemma JoinStrays(c: Chart, depth: map<string, nat>, caps: Caps, o: Oracles, g: Image, t: Id, tr: Transition,
                   last: Transition, err: Option<Error>, g2: Image)
    requires Routed(c, depth, caps, o, g, t, tr, err, g2) && c.root != "" && IsJoinNode(c.d, last.to) && !Has(c.d, "")
    requires EndsBy(o, c.d, caps, tr, last)
    requires t in g.tokens && g.tokens[t].scope in g.scopes
    requires g.scopes[g.tokens[t].scope].parent.None? && g.scopes[g.tokens[t].scope].joinNode == ""
    ensures err == Some(OutsideBlock)
  {
    hide EndsBy;
    hide Endless;
    assert Astray(c, g, t, last);
  }

  /** A root token of a case that started inside a block. */
  ghost predicate Trapped(c: StoredCase, tok: Id)
    reads c
  {
    && c.Good() && c.row.status.CaseOpen? && c.chart.root != "" && !Has(c.d, "")
    && Acyclic(Gateways(c.d))
    && tok in c.tokens && tok in ActiveIds(c.Img())
    && c.tokens[tok].scope in c.scopes && c.scopes[c.tokens[tok].scope].parent.None? &&
      c.scopes[c.tokens[tok].scope].joinNode == ""
  }

  /** However often it moves on, through whatever decisions, a root token of a
      case that started inside a block cannot leave it: the move onto the join
      fails. */
  method WalkOut(c: StoredCase, tok: Id, legs: seq<seq<Transition>>, now: int, mover: Actor)
      returns (err: Option<Error>)
    requires Trapped(c, tok) && Exit(c.d, c.caps, c.tokens[tok].node, legs)
    modifies c
    decreases |legs|
    ensures err == Some(OutsideBlock)
  {
    hide StoredOk;
    hide Projects;
    hide Ranked;
    hide Routed;
    hide Explains;
    hide Returned;
    hide PassesOnce;
    hide PolicyJoins;
    hide Obliging;
    hide IsJoinNode;
    hide Rests;
    hide Has;
    hide Sound;
    hide Acyclic;
    hide Gateways;
    hide EndsBy;
    hide Leading;
    var way := legs[0];
    var o := Leading(way);
    ghost var g, k, last := c.Img(), c.tokens[tok], Last(way);
    var input := MoveInput(Some(tok), way[0].action, if way[0].comment.CommentRequired? then "-" else "", false, None);
    LeadingLets(c.d, c.caps, c.log, k, input, way);
    LeadingGuides(c.d, c.caps, k.node, way);
    LeadingAnswers(way);
    assert Refusal(c.row, g, Some(tok), None, CaseNotOpen) == None;
    hide Leg;
    hide Refusal;
    hide MoveRefusal;
    ghost var t, t2;
    err, t, t2 := c.Move(input, o, now, mover);
    assert Routed(c.chart, c.depth, c.caps, o, g, tok, way[0], err, c.Img());
    if |legs| == 1 {
      JoinStrays(c.chart, c.depth, c.caps, o, g, tok, way[0], last, err, c.Img());
    } else {
      ExitRests(c.d, c.caps, last.to, legs[1..]);
      TaskIsReached(c.chart, c.depth, c.caps, o, g, tok, way[0], last, err, c.Img());
      err := WalkOut(c, tok, legs[1..], now, mover);
    }
  }

  lemma ExitRests(d: Definition, caps: Caps, node: string, legs: seq<seq<Transition>>)
    requires Exit(d, caps, node, legs)
    ensures Rests(d, node)
  {
  }

  /** Every accepted definition whose start task lies inside a block and has a way
      to a join through tasks and decisions: there are guards that lead a case of
      it into the structural error. */
  method StartCannotLeave(d: Definition, unit: string, caps: Caps, legs: seq<seq<Transition>>, now: int, mover: Actor,
                          ghost blocks: seq<Block>, ghost home: BranchKey)
      returns (r: Result<StoredCase>, err: Option<Error>)
    requires Accepted(d, blocks) && StartOf(d.nodes).Some? && IsInnermost(blocks, StartOf(d.nodes).value.id, home)
    requires home.split != "" && Exit(d, caps, StartOf(d.nodes).value.id, legs)
    ensures r.Ok? && err == Some(OutsideBlock)
  {
    AcceptedAcyclic(d, blocks);
    hide Accepted;
    hide ChartOf;
    hide Sound;
    hide Home;
    hide StoredOk;
    hide Rests;
    hide Ranked;
    hide Obliging;
    hide Exit;
    hide IsInnermost;
    hide NodeOf;
    hide Blamed;
    hide Acyclic;
    hide Gateways;
    ghost var c := ChartOf(d, blocks).(root := home.split);
    AcceptedStarts(d, blocks);
    StartHome(d, blocks, StartOf(d.nodes).value.id, home);
    AcceptedRuns(d, blocks, home.split);
    NoEmptyId(c);
    LeadingAnswers([]);
    r := OpenCase(d, unit, Leading([]), caps, now, mover, c, Depths(d, blocks));
    AnswersOpen(Leading([]), r);
    err := None;
    if r.Ok? {
      JustOpened(d, unit, StartOf(d.nodes).value.id, r.value.row.deadlineAt, now);
      err := WalkOut(r.value, ROOT, legs, now, mover);
    }
  }

  lemma AcceptedAcyclic(d: Definition, blocks: seq<Block>)
    requires Accepted(d, blocks)
    ensures Acyclic(Gateways(d))
  {
  }

  lemma NoEmptyId(c: Chart)
    requires Sound(c)
    ensures !Has(c.d, "")
  {
  }

  lemma AnswersOpen(o: Oracles, r: Result<StoredCase>)
    requires Obliging(o) && (r.Err? ==> r.error.NoStart? || r.error.DeadlineFailed?) && (r.Err? ==> Blamed(o, r.error))
    requires r != Err(NoStart)
    ensures r.Ok?
  {
    if r.Err? { NobodyToBlame(o); }
  }

  lemma ChainStart(n: nat)
    ensures StartOf(ChainOf(n).nodes) == Some(NodeAt(n, 0)) && Rests(ChainOf(n), Name(0))
    ensures NodeOf(ChainOf(n), Name(0)) == NodeAt(n, 0)
    ensures Chosen(ChainOf(n), Name(0), "no") == Some(Default(0))
  {
    assert ChainOf(n).nodes[0] == NodeAt(n, 0);
    FoundAt(n, 0);
    RoutesAt(n, 0);
  }

  lemma ChainChart(n: nat, c: Chart)
    requires c == ChartOf(ChainOf(n), [])
    ensures c.d == ChainOf(n) && Sound(c) && Ranked(c, Depths(ChainOf(n), [])) && Home(c, Name(0)).split == ""
    ensures c.root == ""
  {
    hide Accepted;
    ChainAccepted(n);
    ChartIs(ChainOf(n), []);
    AcceptedRuns(ChainOf(n), [], "");
    FoundAt(n, 0);
    StartHome(ChainOf(n), [], Name(0), ROOT_KEY);
  }

  /** How routing into a chain ends when every function answers. */
  lemma ChainRouted(n: nat, c: Chart, depth: map<string, nat>, caps: Caps, o: Oracles, g: Image,
                    err: Option<Error>, g2: Image)
    requires c.d == ChainOf(n) && c.root == "" && Ranked(c, depth) && Obliging(o)
    requires Routed(c, depth, caps, o, g, ROOT, Default(0), err, g2)
    requires caps.hops.Some? ==> caps.hops.value > 0
    ensures err == if caps.hops.Some? && n >= caps.hops.value then Some(TooManyDecisions) else None
  {
    hide Ranked;
    hide ChainOf;
    if caps.hops.Some? && n >= caps.hops.value {
      ChainDecides(n, 1, caps.hops.value);
    } else if err.Some? {
      ChainIsSmall(n);
      SmallIsUncapped(c, depth, caps, err.value);
      NobodyToBlame(o);
    }
  }

  /** The only move out of the start task of a chain of `n` decisions, when every
      function answers, meets a cap on decisions exactly when `n` reaches it. */
  method ChainPasses(n: nat, unit: string, caps: Caps, opening: Oracles, now: int, actor: Actor,
                     answers: Oracles, later: int, mover: Actor)
      returns (r: Result<StoredCase>, err: Option<Error>)
    requires (caps.hops.Some? ==> caps.hops.value > 0) && Obliging(answers)
    ensures Accepted(ChainOf(n), []) && r.Ok?
    ensures err == if caps.hops.Some? && n >= caps.hops.value then Some(TooManyDecisions) else None
  {
    hide Accepted;
    hide ChartOf;
    hide ChainOf;
    hide Sound;
    hide Home;
    hide StoredOk;
    hide Rests;
    hide Ranked;
    hide Routed;
    hide Obliging;
    ChainAccepted(n);
    ChainStart(n);
    ghost var c, depth := ChartOf(ChainOf(n), []), Depths(ChainOf(n), []);
    ChainChart(n, c);
    r := OpenCase(ChainOf(n), unit, opening, caps, now, actor, c, depth);
    err := None;
    if r.Ok? {
      ghost var g := r.value.Img();
      err := FirstMove(r.value, MoveInput(None, "no", "", false, None), Default(0), answers, later, mover, Name(0));
      ChainRouted(n, c, depth, caps, answers, g, err, r.value.Img());
    }
  }
}
