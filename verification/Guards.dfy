/** The functions an engine is configured with, as arbitrary oracles that may
    fail, and the routes they select. Each consultation carries its own number,
    so two calls with equal arguments may answer differently. */
module Guards {
  import opened Definitions
  import opened Soundness
  import opened Tokens

  datatype Answer = Pass | Refuse | Fails

  /** The case a guard sees while a token is evaluated at `node`. */
  datatype Snapshot = Snapshot(node: string, token: Token, round: Option<Round>)

  datatype JoinRecord = JoinRecord(
    scope: Id, record: Scope, consumed: set<Id>, verdict: Outcome, results: seq<BranchResult>)

  datatype Oracles = Oracles(
    guard: (nat, string, Snapshot) -> Answer,
    joinCheck: (nat, JoinRecord) -> bool,
    deadline: (nat, string, int, Token) -> Option<int>,
    assignee: (nat, string, Token, seq<Event>) -> Option<string>)

  datatype Error =
    | UnknownDestination | OutsideBlock | TerminalInsideBlock | NoRoute
    | UnknownJoin | JoinArity | UnreadableVote
    | TooManyDecisions | TooManyGateways
    | GuardFailed | JoinRefused | DeadlineFailed | AssigneeFailed
    | CaseNotOpen | TokenNotFound | TokenRequired | InvalidTransition
    | CommentRefused | ReturnNotVisited | GuardRejected | LastBranch
    | NotOverdue | AlreadyExpired | NotAssigned | AlreadyAssigned
    | ReasonRequired | InvalidActor | Conflict | NoStart
  {
    /** The errors only an unsound definition can cause. */
    predicate Structural() {
      || UnknownDestination? || OutsideBlock? || TerminalInsideBlock? || NoRoute?
      || UnknownJoin? || JoinArity? || UnreadableVote?
    }

    /** The errors routing a token may end in. */
    predicate Routing() {
      TooManyDecisions? || TooManyGateways? || GuardFailed? || JoinRefused? || DeadlineFailed? || AssigneeFailed?
    }
  }

  datatype Result<T> = Ok(value: T) | Err(error: Error)

  /** An error that blames one of the engine's functions is that function's
      doing. */
  ghost predicate Blamed(o: Oracles, e: Error) {
    && (e.GuardFailed? ==> exists k, name, snap :: o.guard(k, name, snap).Fails?)
    && (e.JoinRefused? ==> exists k, r :: !o.joinCheck(k, r))
    && (e.DeadlineFailed? ==> exists k, rule, now, tok :: o.deadline(k, rule, now, tok).None?)
    && (e.AssigneeFailed? ==> exists k, rule, tok, log :: o.assignee(k, rule, tok, log).None?)
  }

  /** The deadline of a token entering `n` at `now`: the resolved rule, the fixed
      duration, or none. */
  function DueFor(o: Oracles, tick: nat, n: Node, now: int, tok: Token): (due: Result<Option<int>>)
    ensures due.Err? ==> due.error.DeadlineFailed? && Blamed(o, due.error)
  {
    if n.deadlineRule != "" then
      var at := o.deadline(tick, n.deadlineRule, now, tok);
      if at.Some? then Ok(at) else Err(DeadlineFailed)
    else Ok(if n.deadline > 0 then Some(now + n.deadline) else None)
  }

  /** `due` is the deadline of a token entering `n` at `at`: what its rule answered,
      its fixed duration later, or none. */
  ghost predicate DeadlineFits(o: Oracles, n: Node, at: int, due: Option<int>) {
    if n.deadlineRule != "" then due.Some? && exists k: nat, tok: Token :: o.deadline(k, n.deadlineRule, at, tok) == due
    else if n.deadline > 0 then due.Some? && due.value - at == n.deadline
    else due.None?
  }

  lemma DueFits(o: Oracles, tick: nat, n: Node, now: int, tok: Token)
    ensures DueFor(o, tick, n, now, tok).Ok? ==> DeadlineFits(o, n, now, DueFor(o, tick, n, now, tok).value)
  {
  }

  /** Whoever a token entering `n` goes to is who its rule named, or nobody. */
  ghost predicate AssigneeFits(o: Oracles, n: Node, who: string) {
    if n.assignRule == "" then who == ""
    else exists k: nat, tok: Token, log: seq<Event> :: o.assignee(k, n.assignRule, tok, log) == Some(who)
  }

  /** The answer the `i`-th route gets when consultations start at `tick`. */
  function AnswerAt(o: Oracles, tick: nat, snap: Snapshot, routes: seq<Transition>, i: nat): Answer
    requires i < |routes|
  {
    if routes[i].guard == "" then Pass else o.guard(tick + i, routes[i].guard, snap)
  }

  /** Route `i` answers `a`, and every route before it refused. */
  predicate FirstAnswer(o: Oracles, tick: nat, snap: Snapshot, routes: seq<Transition>, i: int, a: Answer) {
    && 0 <= i < |routes| && AnswerAt(o, tick, snap, routes, i) == a
    && forall j :: 0 <= j < i ==> AnswerAt(o, tick, snap, routes, j).Refuse?
  }

  /** `tr` is the first of the routes whose guard passes. */
  ghost predicate FirstPassing(o: Oracles, tick: nat, snap: Snapshot, routes: seq<Transition>, tr: Transition) {
    exists i :: FirstAnswer(o, tick, snap, routes, i, Pass) && tr == routes[i]
  }

  lemma FirstIsRoute(o: Oracles, tick: nat, snap: Snapshot, routes: seq<Transition>, tr: Transition)
    requires FirstPassing(o, tick, snap, routes, tr)
    ensures tr in routes
  {
  }

  /** A guard fails before one passes. */
  ghost predicate FirstFailing(o: Oracles, tick: nat, snap: Snapshot, routes: seq<Transition>) {
    exists i :: FirstAnswer(o, tick, snap, routes, i, Fails)
  }

  /** Takes the first route whose guard passes; every earlier guard refused. A
      decision with a default route never runs out of routes. */
  method ResolveRoute(o: Oracles, tick: nat, snap: Snapshot, routes: seq<Transition>) returns (r: Result<Transition>)
    ensures r.Ok? ==> FirstPassing(o, tick, snap, routes, r.value)
    ensures r == Err(GuardFailed) ==> FirstFailing(o, tick, snap, routes)
    ensures r.Err? ==> (r.error.GuardFailed? || r.error.NoRoute?) && Blamed(o, r.error)
    ensures r == Err(NoRoute) <==> forall i :: 0 <= i < |routes| ==> AnswerAt(o, tick, snap, routes, i).Refuse?
    ensures DefaultLast(routes) ==> r != Err(NoRoute)
  {
    assert DefaultLast(routes) ==> AnswerAt(o, tick, snap, routes, |routes| - 1).Pass?;
    var i := 0;
    while i < |routes|
      invariant 0 <= i <= |routes|
      invariant forall j :: 0 <= j < i ==> AnswerAt(o, tick, snap, routes, j).Refuse?
    {
      if routes[i].guard == "" {
        assert FirstAnswer(o, tick, snap, routes, i, Pass);
        return Ok(routes[i]);
      }
      var a := o.guard(tick + i, routes[i].guard, snap);
      assert a == AnswerAt(o, tick, snap, routes, i);
      assert !a.Refuse? ==> FirstAnswer(o, tick, snap, routes, i, a);
      match a
      case Fails => return Err(GuardFailed);
      case Pass => return Ok(routes[i]);
      case Refuse =>
      i := i + 1;
    }
    r := Err(NoRoute);
  }

  /** The guarded routes that pass, in declaration order. */
  function Passing(o: Oracles, tick: nat, snap: Snapshot, routes: seq<Transition>, n: nat): seq<Transition>
    requires n <= |routes|
  {
    if n == 0 then []
    else Passing(o, tick, snap, routes, n - 1) +
         (if routes[n - 1].guard != "" && AnswerAt(o, tick, snap, routes, n - 1).Pass? then [routes[n - 1]] else [])
  }

  function Unguarded(routes: seq<Transition>, n: nat): (p: seq<Transition>)
    requires n <= |routes|
  {
    if n == 0 then [] else Unguarded(routes, n - 1) + (if routes[n - 1].guard == "" then [routes[n - 1]] else [])
  }

  lemma TakenAreRoutes(o: Oracles, tick: nat, snap: Snapshot, routes: seq<Transition>, n: nat)
    requires n <= |routes|
    ensures forall tr :: tr in Passing(o, tick, snap, routes, n) ==> tr in routes && tr.guard != ""
    ensures forall tr :: tr in Unguarded(routes, n) ==> tr in routes && tr.guard == ""
    ensures |Passing(o, tick, snap, routes, n)| <= n && |Unguarded(routes, n)| <= n
  {
  }

  /** What an inclusive split takes: every passing route, or its default when
      none passes. */
  function Selected(o: Oracles, tick: nat, snap: Snapshot, routes: seq<Transition>): seq<Transition> {
    var passing := Passing(o, tick, snap, routes, |routes|);
    if passing != [] then passing else Unguarded(routes, |routes|)
  }

  /** Route `i` asks for a guard, and it passes. */
  predicate GuardPasses(o: Oracles, tick: nat, snap: Snapshot, routes: seq<Transition>, i: nat)
    requires i < |routes|
  {
    routes[i].guard != "" && o.guard(tick + i, routes[i].guard, snap).Pass?
  }

  /** `at` picks, in declaration order, exactly the routes whose guard passes or,
      if none passes, exactly those without a guard. */
  ghost predicate PicksOut(o: Oracles, tick: nat, snap: Snapshot, routes: seq<Transition>, at: seq<nat>) {
    && (forall i :: 0 <= i < |at| ==> at[i] < |routes|)
    && (forall i, j :: 0 <= i < j < |at| ==> at[i] < at[j])
    && forall r: nat :: r < |routes| ==>
         (r in at <==>
          if routes[r].guard != "" then GuardPasses(o, tick, snap, routes, r)
          else forall q: nat :: q < |routes| ==> !GuardPasses(o, tick, snap, routes, q))
  }

  /** `taken` are the routes an inclusive split takes. */
  ghost predicate Takes(o: Oracles, tick: nat, snap: Snapshot, routes: seq<Transition>, taken: seq<Transition>) {
    exists at: seq<nat> :: PicksOut(o, tick, snap, routes, at) && TakenAt(routes, at, taken)
  }

  predicate TakenAt(routes: seq<Transition>, at: seq<nat>, taken: seq<Transition>) {
    |at| == |taken| && forall i :: 0 <= i < |at| ==> at[i] < |routes| && taken[i] == routes[at[i]]
  }

  predicate Rising(at: seq<nat>) { forall i, j :: 0 <= i < j < |at| ==> at[i] < at[j] }

  /** Of the first `n` routes `at` are those whose guard passes, `rest` those
      without a guard. */
  ghost predicate Sieved(o: Oracles, tick: nat, snap: Snapshot, routes: seq<Transition>, n: nat, at: seq<nat>,
                         rest: seq<nat>)
    requires n <= |routes|
  {
    && Rising(at) && (forall r: nat :: r in at <==> r < n && GuardPasses(o, tick, snap, routes, r))
    && Rising(rest) && (forall r: nat :: r in rest <==> r < n && routes[r].guard == "")
  }

  lemma SieveNone(o: Oracles, tick: nat, snap: Snapshot, routes: seq<Transition>)
    ensures Sieved(o, tick, snap, routes, 0, [], []) && TakenAt(routes, [], [])
  {
  }

  lemma TakenMore(routes: seq<Transition>, at: seq<nat>, taken: seq<Transition>, i: nat)
    requires TakenAt(routes, at, taken) && i < |routes|
    ensures TakenAt(routes, at + [i], taken + [routes[i]])
  {
  }

  lemma TakenLength(routes: seq<Transition>, at: seq<nat>, taken: seq<Transition>)
    requires TakenAt(routes, at, taken)
    ensures |at| == |taken|
  {
  }

  lemma SieveRest(o: Oracles, tick: nat, snap: Snapshot, routes: seq<Transition>, n: nat, at: seq<nat>, rest: seq<nat>)
    requires n < |routes| && routes[n].guard == "" && Sieved(o, tick, snap, routes, n, at, rest)
    ensures Sieved(o, tick, snap, routes, n + 1, at, rest + [n])
  {
    var more := rest + [n];
    forall r: nat ensures r in more <==> r < n + 1 && routes[r].guard == "" {
      assert r in more <==> r in rest || r == n;
    }
    forall i, j | 0 <= i < j < |more| ensures more[i] < more[j] { if j == |rest| { assert rest[i] in rest; } }
  }

  lemma SieveGuarded(o: Oracles, tick: nat, snap: Snapshot, routes: seq<Transition>, n: nat, at: seq<nat>,
                     rest: seq<nat>)
    requires n < |routes| && routes[n].guard != "" && Sieved(o, tick, snap, routes, n, at, rest)
    ensures Sieved(o, tick, snap, routes, n + 1, if GuardPasses(o, tick, snap, routes, n) then at + [n] else at, rest)
  {
    var more := at + [n];
    forall r: nat ensures r in more <==> r in at || r == n {}
    forall i, j | 0 <= i < j < |more| ensures more[i] < more[j] { if j == |at| { assert at[i] in at; } }
  }

  lemma SieveDone(o: Oracles, tick: nat, snap: Snapshot, routes: seq<Transition>, at: seq<nat>, rest: seq<nat>)
    requires Sieved(o, tick, snap, routes, |routes|, at, rest)
    ensures PicksOut(o, tick, snap, routes, if at == [] then rest else at)
  {
    var chosen := if at == [] then rest else at;
    forall i | 0 <= i < |chosen| ensures chosen[i] < |routes| { assert chosen[i] in chosen; }
    if at == [] {
      forall q: nat | q < |routes| ensures !GuardPasses(o, tick, snap, routes, q) { assert q !in at; }
    } else {
      assert at[0] in at && GuardPasses(o, tick, snap, routes, at[0]);
    }
  }

  method SelectRoutes(o: Oracles, tick: nat, snap: Snapshot, routes: seq<Transition>)
      returns (r: Result<seq<Transition>>)
    ensures r.Ok? ==> r.value == Selected(o, tick, snap, routes) && Takes(o, tick, snap, routes, r.value)
    ensures r.Err? <==> exists i :: 0 <= i < |routes| && AnswerAt(o, tick, snap, routes, i).Fails?
    ensures r.Err? ==> r.error.GuardFailed? && Blamed(o, r.error)
    ensures r.Ok? && DefaultLast(routes) ==> r.value != []
  {
    hide Sieved;
    hide TakenAt;
    hide PicksOut;
    var taken, fallback, i := [], [], 0;
    ghost var at: seq<nat>, rest: seq<nat> := [], [];
    SieveNone(o, tick, snap, routes);
    while i < |routes|
      invariant 0 <= i <= |routes|
      invariant Sieved(o, tick, snap, routes, i, at, rest)
      invariant TakenAt(routes, at, taken) && TakenAt(routes, rest, fallback)
      invariant taken == Passing(o, tick, snap, routes, i) && fallback == Unguarded(routes, i)
      invariant forall j :: 0 <= j < i ==> !AnswerAt(o, tick, snap, routes, j).Fails?
    {
      if routes[i].guard == "" {
        SieveRest(o, tick, snap, routes, i, at, rest);
        TakenMore(routes, rest, fallback, i);
        fallback, rest := fallback + [routes[i]], rest + [i];
      } else {
        var a := o.guard(tick + i, routes[i].guard, snap);
        assert a == AnswerAt(o, tick, snap, routes, i);
        if a.Fails? { return Err(GuardFailed); }
        SieveGuarded(o, tick, snap, routes, i, at, rest);
        TakenMore(routes, at, taken, i);
        if a.Pass? { taken, at := taken + [routes[i]], at + [i]; }
      }
      i := i + 1;
    }
    SieveDone(o, tick, snap, routes, at, rest);
    TakenLength(routes, at, taken);
    return Ok(if taken == [] then fallback else taken);
  }
}
