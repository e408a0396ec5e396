/** Every run of a case: any calls, in any order, with whatever answers the
    configured functions give. */
module Runs {
  import opened Definitions
  import opened Soundness
  import opened Tokens
  import opened Replay
  import opened Invariant
  import opened Closings
  import opened History
  import opened WorkingCopy
  import opened Guards
  import opened Projection
  import opened Cases
  import opened Calls
  import opened Blocks
  import opened Validity
  import opened Validator
  import opened Budget
  import opened Engine
  import opened Caps

  /** A run: the rows before, between and after its calls, each call making the
      rows it leaves of the rows it finds. */
  ghost predicate Ran(on: Setup, states: seq<Db>, cmds: seq<Command>, errors: seq<Option<Error>>) {
    && |states| == |cmds| + 1 && |errors| == |cmds|
    && forall i :: 0 <= i < |cmds| ==> Did(on, states[i], cmds[i], errors[i], states[i + 1])
  }

  lemma RanMore(on: Setup, states: seq<Db>, cmds: seq<Command>, errors: seq<Option<Error>>, cmd: Command,
                err: Option<Error>, db: Db)
    requires Ran(on, states, cmds, errors) && Did(on, states[|cmds|], cmd, err, db)
    ensures Ran(on, states + [db], cmds + [cmd], errors + [err])
  {
    hide Did;
  }

  /** On a sound definition whose start task lies where its chart says, no
      sequence of calls, each with answers of its own, ever leaves the invariant,
      loses an event, breaks the agreement of rows and history, passes a gateway
      twice in one call, or ends in an error nothing explains. */
  method RunCase(d: Definition, unit: string, caps: Caps, opening: Oracles, openedAt: int, opener: Actor,
                 cmds: seq<Command>,
                 ghost chart: Chart, ghost depth: map<string, nat>)
      returns (r: Result<StoredCase>, errors: seq<Option<Error>>, ghost states: seq<Db>)
    requires chart.d == d && Sound(chart) && (caps.Off() ==> Ranked(chart, depth))
    requires StartOf(d.nodes).Some? ==>
      var start := StartOf(d.nodes).value;
      Rests(d, start.id) && NodeOf(d, start.id) == start && Home(chart, start.id).split == chart.root
    ensures r.Err? ==> (r.error.NoStart? || r.error.DeadlineFailed?) && Blamed(opening, r.error)
    ensures r == Err(NoStart) <==> StartOf(d.nodes).None?
    ensures r.Ok? ==> r.value.Good() && r.value.On() == Setup(d, unit, caps, chart, depth)
    ensures r.Ok? ==> Ran(r.value.On(), states, cmds, errors) && states[|cmds|] == r.value.Stored()
    ensures r.Ok? ==>
      |states[0].log| == 1 &&
        states[0].Img() == AfterOpen(d, unit, StartOf(d.nodes).value.id, states[0].row.deadlineAt, openedAt)
    ensures r.Ok? ==> Rebuild(d, unit, r.value.log) == r.value.Img() && Quiet(chart, r.value.Img())
    ensures r.Ok? ==> Numbered(r.value.log)
  {
    hide StoredOk;
    hide Projects;
    hide Sound;
    hide Ranked;
    hide LongChain;
    hide Blamed;
    hide Did;
    hide Ran;
    hide AfterOpen;
    r := OpenCase(d, unit, opening, caps, openedAt, opener, chart, depth);
    errors, states := [], [];
    if r.Ok? {
      var c := r.value;
      ghost var on := Setup(d, unit, caps, chart, depth);
      states := [c.Stored()];
      ghost var first := c.Stored();
      RanNone(on, states);
      while |errors| < |cmds|
        invariant fresh(c) && c.Good() && c.On() == on
        invariant |errors| <= |cmds| && |states| == |errors| + 1 && states[|errors|] == c.Stored()
        invariant Ran(on, states, cmds[..|errors|], errors) && states[0] == first
      {
        var cmd := cmds[|errors|];
        var err := Perform(c, cmd);
        RanMore(on, states, cmds[..|errors|], errors, cmd, err, c.Stored());
        assert cmds[..|errors|] + [cmd] == cmds[..|errors| + 1];
        errors, states := errors + [err], states + [c.Stored()];
      }
      assert cmds[..|errors|] == cmds;
      StoredMeans(chart, unit, c.Img(), c.log, c.nextId);
    }
  }

  lemma RanFacts(on: Setup, states: seq<Db>, cmds: seq<Command>, errors: seq<Option<Error>>)
    requires Ran(on, states, cmds, errors)
    ensures |errors| == |cmds| && |states| == |cmds| + 1
    ensures forall i :: 0 <= i < |cmds| && errors[i].Some? ==>
      Explains(on.chart, on.depth, on.caps, cmds[i].oracles, errors[i].value)
    ensures Ranked(on.chart, on.depth) ==> forall i :: 0 <= i < |cmds| ==>
      PassesOnce(states[i + 1].log, |states[i].log|)
  {
    hide Explains;
    hide Ranked;
    hide PassesOnce;
    hide GoodDb;
    hide Fulfils;
    forall i | 0 <= i < |cmds|
      ensures errors[i].Some? ==> Explains(on.chart, on.depth, on.caps, cmds[i].oracles, errors[i].value)
      ensures Ranked(on.chart, on.depth) ==> PassesOnce(states[i + 1].log, |states[i].log|)
    {
      assert Did(on, states[i], cmds[i], errors[i], states[i + 1]);
    }
  }

  lemma RanNone(on: Setup, states: seq<Db>)
    requires |states| == 1
    ensures Ran(on, states, [], [])
  {
  }

  lemma StoredMeans(c: Chart, unit: string, g: Image, log: seq<Event>, next: Id)
    requires StoredOk(c, unit, g, log, next)
    ensures Rebuild(c.d, unit, log) == g && Quiet(c, g) && Logged(c, log, g) && Numbered(log)
    ensures c.root != "" ==> !g.status.CaseClosed?
  {
  }

  ghost predicate Acceptable(d: Definition) { exists blocks :: Accepted(d, blocks) }

  /** Where an accepted definition starts its cases. */
  ghost predicate StartsIn(d: Definition, home: BranchKey) {
    exists blocks :: Accepted(d, blocks) && StartOf(d.nodes).Some? &&
      IsInnermost(blocks, StartOf(d.nodes).value.id, home)
  }

  /** Checks a definition and, if it is accepted, runs a case of it under any
      caps, or none: nothing else is assumed. A structural error can only be that
      of a token leaving the block its case started in, and a case that starts
      inside a block never closes. */
  method RunAccepted(d: Definition, unit: string, caps: Caps, opening: Oracles, openedAt: int, opener: Actor,
                     cmds: seq<Command>)
      returns (violations: seq<Violation>, home: BranchKey, r: Result<StoredCase>, errors: seq<Option<Error>>,
               ghost states: seq<Db>)
    ensures violations == [] <==> Acceptable(d)
    ensures violations == [] ==> StartsIn(d, home) && (r.Err? ==> r.error.DeadlineFailed? && Blamed(opening, r.error))
    ensures violations == [] && r.Ok? ==>
      && r.value.Good() && Rebuild(d, unit, r.value.log) == r.value.Img() && Quiet(r.value.chart, r.value.Img())
      && Ran(r.value.On(), states, cmds, errors) && states[|cmds|] == r.value.Stored()
    ensures violations == [] && r.Ok? ==>
      forall i :: 0 <= i < |cmds| ==> PassesOnce(states[i + 1].log, |states[i].log|)
    ensures violations == [] && r.Ok? ==>
      forall i :: 0 <= i < |errors| && errors[i].Some? && errors[i].value.Structural() ==>
        errors[i].value.OutsideBlock? && home.split != ""
    ensures violations == [] && r.Ok? && home.split != "" ==> !r.value.row.status.CaseClosed?
    ensures violations == [] && r.Ok? && Small(d, caps) ==>
      forall i :: 0 <= i < |errors| && errors[i].Some? ==>
        !errors[i].value.TooManyGateways? && !errors[i].value.TooManyDecisions?
    ensures violations == [] && r.Ok? && Small(d, caps) ==>
      forall i :: 0 <= i < |errors| && errors[i].Some? && Obliging(cmds[i].oracles) ==> !errors[i].value.Routing()
  {
    hide StoredOk;
    hide Projects;
    hide Sound;
    hide Accepted;
    hide AreBlocks;
    hide ChartOf;
    hide IsInnermost;
    hide Rests;
    hide NodeOf;
    hide Home;
    hide Rebuild;
    hide Quiet;
    hide Ranked;
    hide Small;
    hide Depths;
    hide Blamed;
    hide Obliging;
    hide Did;
    hide Ran;
    hide PassesOnce;
    hide Capped;
    var blocks;
    violations, blocks := Validate(d);
    BlocksOnly(d, blocks);
    home, r, errors, states := ROOT_KEY, Err(InvalidTransition), [], [];
    if violations == [] {
      AcceptedStarts(d, blocks);
      var start := StartOf(d.nodes).value;
      home := InnermostBranch(blocks, start.id);
      ghost var chart, depth := ChartOf(d, blocks).(root := home.split), Depths(d, blocks);
      StartHome(d, blocks, start.id, home);
      AcceptedRuns(d, blocks, home.split);
      r, errors, states := RunCase(d, unit, caps, opening, openedAt, opener, cmds, chart, depth);
      if r.Ok? {
        StoredMeans(chart, unit, r.value.Img(), r.value.log, r.value.nextId);
        ghost var on := r.value.On();
        RanFacts(on, states, cmds, errors);
        forall i | 0 <= i < |errors| && errors[i].Some? && Small(d, caps)
          ensures !errors[i].value.TooManyGateways? && !errors[i].value.TooManyDecisions?
          ensures Obliging(cmds[i].oracles) ==> !errors[i].value.Routing()
        {
          SmallIsUncapped(chart, depth, caps, errors[i].value);
          if Obliging(cmds[i].oracles) { NobodyToBlame(cmds[i].oracles); }
        }
      }
    }
  }

  /** A definition has one sequence of blocks. */
  lemma BlocksOnly(d: Definition, blocks: seq<Block>)
    requires AreBlocks(d, blocks)
    ensures Acceptable(d) <==> Accepted(d, blocks)
  {
    if other :| Accepted(d, other) {
      forall i | 0 <= i < |blocks|
        ensures blocks[i] == other[i]
      {
        SameBlock(d, Named(d, d.nodes)[i], blocks[i], other[i]);
      }
      assert other == blocks;
    }
  }

  lemma SameBlock(d: Definition, s: Node, a: Block, b: Block)
    requires IsBlock(d, s, a) && IsBlock(d, s, b)
    ensures a == b
  {
    forall i | 0 <= i < |a.branches| ensures a.branches[i] == b.branches[i] {
      assert IsBranch(Forward(d), s, Routes(d, s.id)[i], a.branches[i]);
      assert IsBranch(Forward(d), s, Routes(d, s.id)[i], b.branches[i]);
    }
  }

  lemma AcceptedRuns(d: Definition, blocks: seq<Block>, root: string)
    requires Accepted(d, blocks)
    ensures var c := ChartOf(d, blocks).(root := root); c.d == d && Sound(c) && Ranked(c, Depths(d, blocks))
  {
    hide Valid;
    hide Sound;
    hide ChartOf;
    AcceptedStarts(d, blocks);
    SoundAnywhere(ChartOf(d, blocks), root);
    AcceptedIsRanked(d, blocks);
    RankedAnywhere(ChartOf(d, blocks), Depths(d, blocks), root);
  }

  /** Every function the engine is configured with always answers. */
  ghost predicate Obliging(o: Oracles) {
    && (forall k, name, snap :: !o.guard(k, name, snap).Fails?)
    && (forall k, r :: o.joinCheck(k, r))
    && (forall k, rule, now, tok :: o.deadline(k, rule, now, tok).Some?)
    && (forall k, rule, tok, log :: o.assignee(k, rule, tok, log).Some?)
  }

  lemma NobodyToBlame(o: Oracles)
    requires Obliging(o)
    ensures forall e :: Blamed(o, e) && e.Routing() ==> e.TooManyDecisions? || e.TooManyGateways?
  {
  }

  lemma AcceptedStarts(d: Definition, blocks: seq<Block>)
    requires Accepted(d, blocks)
    ensures StartOf(d.nodes).Some? && Sound(ChartOf(d, blocks)) && ChartOf(d, blocks).d == d
    ensures var start := StartOf(d.nodes).value; Rests(d, start.id) && NodeOf(d, start.id) == start
  {
    hide Valid;
    hide Sound;
    hide ChartOf;
    ValidIsSound(d, blocks);
    ChartIs(d, blocks);
    var i := ValidHasStart(d, blocks);
    assert d.nodes[i] in d.nodes && StartOf(d.nodes).value in d.nodes;
    var k :| 0 <= k < |d.nodes| && d.nodes[k] == StartOf(d.nodes).value;
    ValidStarts(d, blocks, k);
  }

  lemma StartHome(d: Definition, blocks: seq<Block>, id: string, key: BranchKey)
    requires Has(d, id) && IsInnermost(blocks, id, key)
    ensures Home(ChartOf(d, blocks).(root := key.split), id) == key
  {
    HomeIs(d, blocks, id);
    InnermostOnce(blocks, id, key, InnermostOf(blocks, id));
  }
}
