# Vogel: workflow engine, uploads, introspection cache, audit redaction

A Dafny model of the parts of vogel that decide things: the workflow engine
(checking a definition, opening a case, moving its tokens through decisions,
splits and joins, recording every step as an event), the presigned-upload
protocol of the example API, the cache of token introspection results and the
redaction of audit entries, with the properties they are built to keep.

- **A definition** is nodes and transitions. `Validator.Validate` is the loop
  over every rule, and it is silent exactly on the definitions that satisfy the
  declarative `Validity.Accepted`: unique nodes, single-entry blocks that form a
  forest, joins paired with splits, votes that can be cast both ways, no cycle of
  gateways. `Validity.ValidIsSound` turns that into what the engine needs.
- **A case** is a row, tokens, scopes and a history. `Engine.CaseRun` is one
  call's working copy, updated in place as in `workflow/run.go`;
  `Cases.StoredCase` is the case in the repository, written through a
  compare-and-swap. `StoredCase.Good` is the invariant every call finds and
  leaves: token conservation, no stuck scope, a history that rebuilds every row,
  a case row that is the projection of the tokens.
- **A call** is a relation on rows, `Calls.Did`: good rows to good rows, each
  error exactly when its check fails and then nothing changed, otherwise what the
  call is for. Every event it appends carries its actor and time and was allowed
  by the engine's functions (`Consultations.AllAllowed`), as the history itself
  shows them what they judge: a join the check agreed to, a way out of a decision
  whose guard passed first, a branch along a route the split takes, a task
  entered with the deadline its rule gives, a task left before anything else.
  `Calls.Perform` makes the nine calls and meets it; `Obedience` and `Reasons`
  draw from it what a caller and a reader of the history may rely on.
- **A run** (`Runs.RunAccepted`) is any sequence of calls on a case of any
  accepted definition, each call with its own answers of the configured
  functions, under any caps on routing or none; every call of it meets `Did`.
  `Interleaving` lets any number of writers read, plan and commit at different
  moments, and shows the same relation call by call in the order of the commits.
- Functions an engine is configured with (guards, join check, deadline and assign
  rules) are arbitrary oracles: every consultation carries a number, every call
  its own oracles, and each may fail. Redaction hooks are consulted by place, and
  the walk passes a place once, so they too may answer differently every time.
  Clocks, actors and new identifiers are parameters or counters.

The case, its root scope and its root token share identifier `ROOT`, as the
source gives them the case's own identifier.

## Findings

Properties the code does not have on every input, each with the input and with
the condition under which it does:

- **A start task inside a block.** No rule of `Validate` keeps the start node out
  of a branch. Such a definition is accepted (`StartInside.StartInsideBlock`), its
  cases never close (`Runs.RunAccepted`), and a root token that reaches the join
  of that block fails with the structural error the rules are there to exclude
  (`Misplaced.DraftCannotLeave`; for every such definition with a way from the start
  task to a join through tasks and decisions, guards that lead a case along it
  into the error, `Misplaced.StartCannotLeave`). There is such a way whenever the
  branch of the start holds no nested block, no decision asks for one guard twice
  and the cap leaves room for every decision (`Exits.FlatBranchLeadsOut`). With the
  start node in the root scope no run of any accepted definition meets a
  structural error.
- **32 decisions in a row.** The comment at `workflow/engine.go:318-324` says a
  validated definition never comes close to the cap on decision hops. A chain of
  `n` decisions is accepted for every `n` (`LongChains.ChainMeetsCap`), and the
  only move out of its start task, its functions answering, fails exactly when `n`
  reaches the cap (`Misplaced.ChainPasses`). No cap is met in a definition with
  fewer decisions and no more gateways than the caps (`Caps.SmallIsUncapped`);
  with the caps switched off routing still ends, by rank.
- **An ambiguous commit.** When the transaction that accepts an upload lands but
  reports an error, and a new upload is confirmed before the job re-reads the row,
  the job deletes a file the row still serves: the comparison at
  `examples/api/jobs.go:289` looks at the current file only
  (`Uploads.AmbiguousCommitLosesFile`). It costs the file exactly when the row
  holds the copy as its previous file (`Uploads.BlindCheckCosts`); every run
  without such a check is safe, ambiguous commits included (`Uploads.RunIsSafe`).

## Model

| member | source | states |
|---|---|---|
| Definitions.FindNode | workflow/workflow.go:434-443 | a node with the id, or no node has it |
| Definitions.From | workflow/workflow.go:456-464 | exactly the transitions leaving a node |
| Definitions.FindTransition | workflow/move.go:414-421 | the transition an action names at a node, or none has that action |
| Blocks.BuildBranch | workflow/blocks.go:56-80 | the search finds exactly the nodes reachable from a route by non-return transitions avoiding split and join, and whether one leads back to the split |
| Blocks.BuildBlock | workflow/blocks.go:51-83 | one such branch per outgoing transition of the split, in order |
| Blocks.InnermostBranch | workflow/blocks.go:277-287 | the smallest branch holding a node, the first of equals, or the root scope when none does |
| Blocks.InnermostOnce | workflow/blocks.go:274-287 | a node has one innermost branch |
| Validator.CheckBranch | workflow/blocks.go:165-205 | silent iff the branch never re-enters its split, holds no terminal, leads every node to the join and is apart from its siblings |
| Validator.CheckBlock | workflow/blocks.go:163-225 | silent iff every branch is clean and the block is entered only through its split |
| Validator.CheckNesting | workflow/blocks.go:229-265 | silent iff any two blocks nest inside one branch or are apart |
| Validator.CheckJoins | workflow/blocks.go:115-131 | silent iff every join is named by exactly one split |
| Validator.CheckReturns | workflow/blocks.go:145-159 | silent iff every return stays in one branch of one block or in the root scope |
| Validator.ValidateBlocks | workflow/blocks.go:93-160 | silent iff splits and joins pair up, blocks are clean and form a forest, and returns stay home |
| Validator.CheckNodes | workflow/workflow.go:566-638 | silent iff every node obeys its kind, ids are distinct, one node starts and some node ends |
| Validator.CheckTransitions | workflow/workflow.go:640-699 | silent iff every transition obeys the rules of its ends and no action is ambiguous at a node |
| Validator.CheckRoutes | workflow/workflow.go:701-782 | silent iff every node has the routes, the default and the expiry transition its kind needs |
| Validator.CheckReachable | workflow/workflow.go:784-807 | silent iff every node is reachable from the start |
| Validator.CheckOutcomes | workflow/joinpolicy.go:437-463 | silent iff exactly the transitions into a policy join vote, from tasks, with a comment where a rejection needs one |
| Validator.CheckBranchOutcomes | workflow/joinpolicy.go:312-330 | silent iff every branch of a policy round can approve and can reject |
| Validator.Connects | workflow/joinpolicy.go:351-369 | true iff a path of transitions leads from one node to the other |
| Validator.CheckRejectedRoute | workflow/joinpolicy.go:336-348 | silent iff a guarded route behind the join can run the round again |
| Validator.CheckRounds | workflow/joinpolicy.go:382-396 | silent iff every policy round can be answered both ways and repeated |
| Cycles.CycleFinder.Visit | workflow/workflow.go:834-858 | the depth-first visit finds a cycle, or finishes everything reachable from the node |
| Cycles.DetectCycle | workflow/workflow.go:823-868 | nil iff the graph is acyclic; otherwise consecutive nodes are edges and the first and last coincide |
| Cycles.RankedIsAcyclic | workflow/workflow.go:818-822 | a graph whose edges lower a rank has no cycle |
| Validator.Validate | workflow/workflow.go:535-816 | silent iff the definition is `Accepted` with the blocks it built |
| Rules.RulesAreThese | workflow/workflow.go:566-782 | the validator's conditions on single nodes and transitions hold iff none of 42 rules, spelled out one by one, is broken anywhere |
| Rules.ValidBreaksNone | workflow/workflow.go:535-816 | a valid definition breaks none of them |
| Validity.ValidIsSound | workflow/blocks.go:93-287 | on a valid definition every transition keeps its token in the branch its scope stands for, and every gateway can be left |
| Placement.StaysInBranch | workflow/blocks.go:163-225 | a forward transition from inside a branch stays in it or enters its join |
| Placement.Wraps | workflow/blocks.go:229-265 | the branch around an inner block holds the whole block and is strictly larger |
| Budget.AcceptedIsRanked | workflow/workflow.go:755-772 | an accepted definition has acyclic gateways, branches that share no gateway ahead, and a depth for every split |
| Guards.ResolveRoute | workflow/move.go:391-411 | the first route whose guard passes, every earlier one having refused; no route left iff all refuse, never with a default; fails only if a guard fails |
| Guards.SelectRoutes | workflow/run.go:287-309 | an inclusive split takes, in order, exactly the guarded routes whose guard passes, and the unguarded ones iff none does; it fails iff a guard fails, and takes at least one if a default is last |
| Engine.CaseRun.constructor | workflow/run.go:54-80 | the working copy starts as the rows read, in a sane state |
| Engine.CaseRun.Emit | workflow/run.go:192-198 | the next event carries the next sequence number |
| Engine.CaseRun.HopTo | workflow/run.go:223-233 | the token moves along the transition, cleared of assignee and deadline, with a Moved event; the invariant survives |
| Engine.CaseRun.EnterTask | workflow/run.go:251-261 | the token rests on the task with its resolved eligibility and exactly the deadline its rule gives, which the event records |
| Engine.CaseRun.ApplyAssignRule | workflow/assignrule.go:80-108 | the token goes to whom the rule names, with its event, or stays |
| Engine.CaseRun.RestAt | workflow/run.go:251-263 | only that token changes; it rests on the task in its scope, in the hands of whom the task's rule names or of nobody |
| Engine.CaseRun.CloseCase | workflow/run.go:491-510 | the last token ends, the root scope and the case close on the terminal node; refused exactly outside the root scope |
| Engine.CaseRun.GatewayStep | workflow/run.go:268-274 | refuses exactly at the cap; on an accepted definition no gateway is passed twice in a call |
| Engine.CaseRun.OpenScope | workflow/run.go:315-337 | the token is consumed, a scope opens for as many branches as the split may take, identifiers are reserved, and the event names them |
| Engine.CaseRun.TakeRoutes | workflow/run.go:282-313 | a parallel split takes every route, an inclusive one exactly those whose guards pass when shown the token as it is and the round behind it, or its default; never none |
| Engine.CaseRun.Split | workflow/run.go:278-346 | one new token is sent along each route so taken, in order, and the invariant holds again once the last is |
| Engine.CaseRun.Arrive | workflow/run.go:350-369 | outside its block the token is refused; otherwise it parks with its transition's vote, invariant, history and budget hold, and at most one policy round closes |
| Rounds.CountRound | workflow/run.go:381-405 | who waits, how they voted, who is cancelled; an unreadable vote is reported |
| Engine.CaseRun.TryJoin | workflow/run.go:376-475 | afterwards no due join is left unfired; an early one cannot fire, since firing needs the ruling to be closed |
| Engine.CaseRun.BranchOf | workflow/joinpolicy.go:232-240 | the branch of a scope that another lies in |
| Engine.CaseRun.CloseBranches | workflow/joinpolicy.go:247-308 | everything pending inside the round is cancelled, oldest first; one result per expected branch, in event order, holding exactly the votes cast |
| Rounds.SortResults | workflow/joinpolicy.go:306 | results with distinct sequence numbers come out ascending, as a permutation |
| Engine.CaseRun.ApplyJoin | workflow/run.go:436-473 | waiting tokens are consumed, nested scopes cancelled, the scope joined; refused iff the check refuses the record of that very join, otherwise the next token is created in the parent and, under a policy, the round noted behind it |
| Engine.CaseRun.FireJoin | workflow/run.go:428-474 | the join fires with the verdict its ruling gives, and the new token may continue in the parent scope |
| Engine.CaseRun.Choose | workflow/run.go:165-175 | the guards of a decision are shown what the history rebuilds of the token, with the round this call closed behind it |
| Engine.CaseRun.Decide | workflow/run.go:236-244 | the first route of the decision whose guard passes when shown the token, the node and the round this call closed behind it; fails iff the first guard not to refuse fails |
| Engine.CaseRun.Route | workflow/run.go:216-265 | keeps the invariant; ends in success or an error its caps or functions explain; wherever guards lead the token through decisions, onto a task it rests there and nothing else changes, and onto the join of the block the case started in it fails; into more decisions than the cap it fails |
| Caps.ChainLength | workflow/engine.go:318-324 | decisions in a row number no more than the definition's decisions |
| Caps.SmallIsUncapped | workflow/run.go:15-19 | with fewer decisions and no more gateways than the caps, neither cap is met |
| Caps.ShippedIsUncapped | workflow/run.go:15-19 | no accepted definition with at most 31 decisions and 256 gateways meets the shipped caps |
| Ways.TheWay | workflow/run.go:216-244 | guards that answer alike lead a token from a transition to one end |
| Steps.SplitStep | workflow/run.go:315-337 | opening a scope keeps the invariant, the branches still to come counted as pending |
| Steps.SpawnStep | workflow/run.go:339-344 | a branch that appears counts instead of a pending one |
| Steps.ArriveStep | workflow/run.go:350-369 | a token that parks at its join keeps the invariant up to that scope's join |
| Steps.CancelStep | workflow/run.go:201-210 | a cancelled token counts as ended, not as gone |
| Closings.JoinStep | workflow/run.go:436-475 | joining a scope keeps conservation in the parent: one token for the whole block |
| Closings.PlainJoinIsQuiet | workflow/run.go:406-410 | a join without policy fires only when nothing of its scope is still running |
| Closings.CloseStep | workflow/run.go:491-510 | closing the case in its root scope keeps the invariant, so nothing stays open or live |
| Closings.OpenStep | workflow/open.go:64-102 | a new case meets the invariant iff its start task lies where its chart starts cases |
| Planning.PlanMove | workflow/run.go:223-233 | after a planned move the history still rebuilds exactly the planned rows |
| Planning.PlanJoin | workflow/run.go:436-461 | after a join the history still rebuilds exactly the planned rows and stays in order |
| Recording.WorkRecause | workflow/operations.go:211-223 | recording on a move that expiry caused it changes nothing replay sees |
| Returns.OccupiedStates | workflow/move.go:115-142 | exactly the nodes a scope's opening and moves mention |
| Returns.OccupiedIsVisited | workflow/move.go:103-142 | a task counts as occupied iff a token of that very scope rested there |
| Returns.ReturnStaysInBranch | workflow/blocks.go:145-159 | a return leads to a task of the same branch of the same block |
| Projection.Project | workflow/run.go:516-535 | state and assignee are those of the only active token, the deadline the soonest of the active ones; a closed case keeps its end |
| Projection.ProjectsOnce | workflow/run.go:516-535 | the projection is determined by the tokens |
| Operations.Pick | workflow/run.go:145-163 | the named active token or the only one; each error exactly when it applies |
| Operations.CheckMove | workflow/move.go:307-346 | the checks before a move, refusing with exactly the first that fails |
| Operations.PlanMoveToken | workflow/move.go:307-366 | a move is refused before anything changes, or routed |
| Operations.CountSiblings | workflow/cancel.go:147-152 | the live tokens beside one in its scope |
| Operations.CountOpenChildren | workflow/cancel.go:153-157 | the open blocks nested directly in a scope |
| Operations.PlanCancelToken | workflow/cancel.go:145-181 | refused iff the token is the last branch of its scope; otherwise cancelled, and its join fires if now due |
| Operations.CancelLive | workflow/cancel.go:62-77 | no token stays live; the events cancel tokens in the order they entered their nodes, and invariant and history hold after each |
| Operations.PlanCaseCancel | workflow/cancel.go:62-91 | no token stays live, no scope open |
| Operations.PlanExpire | workflow/operations.go:164-223 | refused exactly when not overdue, already recorded or barred; otherwise recorded and moved along the expiry transition with its cause |
| Cases.WriteRows | workflow/run.go:563-589 | created rows are inserted, changed rows updated, all others kept |
| Cases.StoredCase.Load | workflow/run.go:54-80 | a fresh working copy of the stored rows |
| Cases.StoredCase.Begin | workflow/move.go:284-306 | refuses with exactly the first reason: revision, status, token |
| Cases.StoredCase.Persist | workflow/run.go:541-589 | conflicts iff revision or sequence number moved; otherwise the stored case is the planned one and good again |
| Cases.StoredCase.Move | workflow/move.go:276-379 | good again; every error exactly as its checks, or one routing explains, with nothing touched; otherwise the legal transition was taken first, the token rests where its guards led it, no gateway twice, at most one policy round closed, a return went back to where its scope rested |
| Cases.StoredCase.CancelToken | workflow/cancel.go:118-191 | good again; last branch refused iff it is; otherwise exactly that cancellation is recorded first |
| Cases.StoredCase.Cancel | workflow/cancel.go:30-97 | the exact error, or nothing is left live or open, the tokens cancelled oldest first, and the state stays |
| Cases.StoredCase.Expire | workflow/operations.go:144-239 | only a system actor; exact refusals; the expiry is recorded and the expiry transition taken, or without one the token stays, marked |
| Cases.StoredCase.SetDeadline | workflow/operations.go:71-116 | exact errors; only that token's deadline and mark change, with their event |
| Cases.StoredCase.Claim | workflow/assign.go:65-105 | exact errors; nobody takes a held token; claiming one's own is no change |
| Cases.StoredCase.Release | workflow/assign.go:118-158 | exact errors; someone else's only with a reason |
| Cases.StoredCase.Reassign | workflow/assign.go:185-227 | exact errors; only that token's assignee changes |
| Cases.StoredCase.RecordFailure | workflow/failure.go:46-101 | one event more, the revision and every row unchanged |
| Cases.OpenCase | workflow/open.go:46-124 | one token at rest on the start task with the deadline its rule gives, one event; good iff the start lies where the chart says |
| Calls.Perform | workflow/workflow.go:1224-1294 | every call meets `Did`: good rows to good rows; the first failing check is the error and then nothing changed; otherwise exactly the rows and events the call is for, every event its actor's and allowed by the functions, no gateway passed twice, at most one policy round closed |
| Consultations.HeardMove | workflow/run.go:216-265 | a move along a transition picked for its reason, onto a task only with the deadline its rule gives, leaves a history the functions allowed |
| Consultations.HeardJoin | workflow/run.go:463-473 | so does a join the check agreed to, judged by the record the history rebuilds, and the round it closed is the one seen behind its token |
| Obedience.RefusedJoinsNever | workflow/run.go:463-468 | with a check that refuses everything no call fires a join |
| Obedience.JoinsWereAgreed | workflow/run.go:463-468 | every join a call fires was put before the check, with scope, tokens, verdict and results as the history tells them, and agreed to |
| Obedience.RoundSeen | workflow/run.go:165-175 | the round a guard sees behind a token is the one whose join created it in this call |
| Obedience.RejectedGoesBack | workflow/joinpolicy.go:150-157 | behind a round, a first route that asks for its rejection is taken iff the event of the join says rejected |
| Obedience.MoveObeys | workflow/move.go:307-346 | a named transition is refused over its comment iff the comment does not suit its rule, over its guard only if the guard refuses and, unless it is a return, whenever it does; a move that succeeds passed both |
| Obedience.UnknownActionFails | workflow/move.go:307-310 | an action no transition of the token's node has is refused as invalid |
| Obedience.LastBranchStays | workflow/cancel.go:145-160 | a branch is refused as the last iff nothing else of its scope goes on, as token or as open block |
| Obedience.ReleaseObeys | workflow/assign.go:118-158 | a token is released iff somebody holds it and that is the actor or a reason is given; nothing else changes |
| Obedience.ExpiresPastItsDeadline | workflow/operations.go:171-178 | an expiry is early iff the deadline is missing or not past, and repeated iff that deadline was recorded |
| Obedience.ExpiryObeys | workflow/operations.go:180-225 | an expired token leaves along the transition its node names, without a comment and with its cause, unless the guard of that transition refuses or fails |
| Obedience.ExpiresOnce | workflow/operations.go:176-178 | a token that stays on its task is not expired again for one deadline, however late |
| Reasons.OnlyTheNamedLeaves | workflow/run.go:212-265 | only a move or an expiry takes a token off a task, before anything else, and only the token it is about: along a legal transition with the caller's action and comment, or along the node's expiry transition |
| Reasons.CommentsAreTheCallers | workflow/run.go:216-235 | a comment in the history is the caller's, on the one move off a task and on no other move of the call |
| Reasons.RejectionsAreExplained | workflow/joinpolicy.go:374-376 | where no rule is broken, every vote against in a round with a verdict carries a comment, or an expiry cast it |
| Reasons.FirstReason | workflow/move.go:284-306 | the checks before a token is looked at: conflict iff the revision is stale, then closed iff the case is, then not found or ambiguous exactly by what is active |
| Reasons.RevisionMoves | workflow/engine.go:368-375 | a call made against another revision fails and changes nothing; one that changes the case, other than by recording a failure, makes the next revision |
| Runs.RunCase | workflow/run.go:212-475 | over every sequence of calls, each with its own answers: every call meets `Did` on the rows the one before left, from the opened case on; the case is good, rebuilt by its history and quiet |
| Runs.RunAccepted | workflow/workflow.go:535-816 | checked iff acceptable; over every run of an accepted definition under any caps or none every call meets `Did`; structural errors only from a start inside a block, whose cases never close; with a small definition no cap, and with answering functions no routing error |
| Reasons.RunsExplainRejections | workflow/joinpolicy.go:374-376 | over every run every vote against in the history is so explained |
| Reasons.OneChangeARevision | workflow/move.go:173-179 | of two calls of a run made against one revision at most one changes the case; a second move conflicts |
| Guarantees.TokenConservation | workflow/run.go:278-346 | in an open scope active, waiting and cancelled tokens and open child scopes add up to the expected number |
| Guarantees.ClosedIsQuiet | workflow/joinpolicy.go:247-308 | below a scope that is not open nothing is open and nothing live |
| Guarantees.DoneRoundCloses | workflow/joinpolicy.go:72-96 | a scope in which all arrived or were cancelled, not all cancelled, has a join that fires |
| Guarantees.NoStuckScope | workflow/run.go:371-416 | below every open scope some token rests on a task |
| Guarantees.NoStuckCase | workflow/cancel.go:152-181 | every open case has an active token at rest on a task |
| Guarantees.EndedCaseIsQuiet | workflow/cancel.go:62-91 | a case that is not open has nothing live and nothing open |
| Results.JoinResults | workflow/joinpolicy.go:163-207 | one result per event of a policy join, oldest first, with that event's verdict and every branch's vote, and with actor, comment and cause of the event the vote names; nothing iff a result names no event |
| Results.RoundsTell | workflow/joinpolicy.go:163-207 | the rounds told are exactly the policy joins of the history, in order, each with its own policy, verdict and votes |
| Results.RoundsComplete | workflow/joinpolicy.go:229-308 | in a case's history every round holds one result per expected branch, ascending, one per token, each naming its event and the vote of the transition taken; the verdict is what the join's policy draws from them |
| Verdicts.RoundCloses | workflow/joinpolicy.go:66-96 | fed answers one by one, a round with a vote closes: rejected iff some reject under all_approve, approved iff some approve under any_approve |
| Verdicts.AllCancelledStaysOpen | workflow/joinpolicy.go:72-96 | a round whose branches were all cancelled stays open |
| Verdicts.OrderDoesNotMatter | workflow/joinpolicy.go:66-96 | once someone voted, any permutation of the answers gives the same verdict |
| Interleaving.PlanCall | workflow/run.go:541-559 | what the engine plans on a good case meets `Did` when written; nothing is planned iff the call failed or was a claim of a token the claimant holds |
| Interleaving.PlanClaim | workflow/assign.go:65-105 | a claim is planned iff somebody with an id claims a token at rest in an open case that nobody holds; it gives that token to the claimant |
| Interleaving.PlannedOnCurrent | workflow/run.go:541-589 | a commit whose compare-and-swap succeeds overwrites exactly the rows its writer had read, though it read them piece by piece |
| Interleaving.RunKeeps | workflow/workflow.go:1227-1258 | every interleaving of engine calls and recorded failures keeps the case good |
| Interleaving.HistoryIsGapless | workflow/workflow.go:1249-1254 | after every interleaving the history is exactly 1 to the last sequence number and rebuilds the rows |
| Interleaving.Serializable | workflow/run.go:541-589 | the stored case is the one the committed calls leave one after the other; in that order each meets exactly the rows its writer had read and makes of them what the engine makes of them |
| Interleaving.OneWinner | workflow/run.go:563-589 | of two writers at most one commits |
| Interleaving.FailureWins | workflow/failure.go:41-101 | a failure recorded meanwhile makes the writer conflict |
| Interleaving.OneClaimWins | workflow/assign.go:65-105 | of two claims of one token one wins; the other changes nothing if planned before, and the engine plans no claim of it after |
| StartInside.ForkAccepted | workflow/workflow.go:535-816 | the definition with its start inside a branch satisfies every rule |
| StartInside.StartInsideBlock | workflow/workflow.go:784-810 | its start task's only transition leads to a join its scope does not have, and a new case breaks the invariant of root cases |
| Misplaced.DraftCannotLeave | workflow/run.go:350-354 | the only move out of that start task fails with the structural error, whatever the functions answer |
| Misplaced.StartCannotLeave | workflow/run.go:350-354 | for every accepted definition whose start lies inside a block with a way to a join through tasks and decisions, guards lead a case of it into that error |
| Exits.LeadingGuides | workflow/move.go:391-411 | for every way out of a task through decisions, fewer than the cap and by routes no earlier one shares its guard with, there are guards that always lead along it |
| Exits.FlatBranchLeadsOut | workflow/blocks.go:163-205 | a branch of tasks and decisions has such ways from each of its tasks to its join, if no decision asks for one guard twice and the cap leaves room |
| LongChains.ChainMeetsCap | workflow/engine.go:318-324 | a chain of decisions of any length is accepted, and its way out of the start meets m decisions iff it has m |
| Misplaced.ChainPasses | workflow/run.go:236-239 | for any positive cap or none and functions that do not fail, the move into a chain of n decisions fails with the cap iff n reaches it, and otherwise succeeds |
| HashChain.VerifyChain | workflow/events.go:103-136 | nil iff the chain is intact, otherwise the first broken event and why |
| HashChain.AppendKeeps | workflow/workflow.go:1249-1254 | appending by the repository's contract keeps the chain intact |
| HashChain.SameEndSameChain | workflow/events.go:95-102 | with an injective digest, two intact histories with the same last digest have the same chained events |
| HashChain.TamperingShows | workflow/events.go:95-102 | a history rewritten up to a digest kept elsewhere is reported |
| HashChain.ClearedShows | workflow/events.go:103-136 | clearing one digest of an intact chain goes unnoticed iff it is the only one |
| HashChain.EditShows | workflow/events.go:103-136 | with an injective digest, changed content or a changed back link is reported at that event and none before, with its reason |
| HashChain.Undetected | workflow/events.go:96-102 | dropping the end, clearing every digest and recomputing every later one go unnoticed, for every history |
| Uploads.NextKeeps | examples/api/jobs.go:167-406 | every step but a blind check keeps the served file vetted, present and out of every deletion |
| Uploads.RunIsSafe | examples/api/jobs.go:167-406 | over every run without a blind check, ambiguous commits included, the served file holds exactly the bytes inspected and nothing is about to delete it |
| Uploads.UnambiguousIsSighted | examples/api/jobs.go:240-246 | without an ambiguous acceptance no check is ever blind |
| Uploads.BlindCheckCosts | examples/api/jobs.go:282-295 | checking and dropping the copy after a failed finish loses the served file iff the row holds it as its previous one |
| Uploads.AmbiguousCommitLosesFile | examples/api/jobs.go:240-246 | one run from a fresh document that ends serving a file that is gone |
| Uploads.ServedStays | examples/api/handler.go:852-870 | in every run without a blind check the served file changes only by deleting the document or accepting the very upload the row waits on |
| Uploads.AcceptLands | examples/api/jobs.go:300-326 | an accepting commit that lands while the row waits on that upload makes the copied file the served one and queues the previous one for deletion; any other changes no row |
| Uploads.RejectLands | examples/api/jobs.go:328-406 | a rejecting commit that lands while the row waits brings back the previous file, or leaves the row refused without one; any other changes no row |
| Uploads.UploadIsServed | examples/api/jobs.go:203-250 | after every run an upload of allowed bytes, fetched, copied and committed, is the file served, with the type sniffed and exactly those bytes |
| Uploads.UploadIsRefused | examples/api/jobs.go:216-227 | after every run without a blind check an upload of other bytes leaves what was served and no upload waiting |
| Uploads.MissingIsRejected | examples/api/jobs.go:203-210 | an upload that is gone is rejected, and the row no longer waits on it |
| Uploads.CleanupDrops | examples/api/jobs.go:258-275 | cleaning up deletes the upload iff the row does not wait on it, and touches nothing else |
| Uploads.DeletionRuns | examples/api/jobs.go:419-438 | a queued deletion removes that object and nothing else |
| Uploads.ConfirmKeeps | examples/api/handler.go:732-804 | a confirm or takeover keeps the file served |
| Uploads.RejectKeeps | examples/api/jobs.go:328-341 | a rejection restores the previous file |
| Introspection.IntrospectionCache.constructor | auth/zitadel/introspection.go:244-251 | an empty cache |
| Introspection.IntrospectionCache.Get | auth/zitadel/introspection.go:258-274 | map and list refine the bounded recency list: a live entry is returned and moved to the front, a dead one removed |
| Introspection.IntrospectionCache.Set | auth/zitadel/introspection.go:278-305 | an active result is stored at the front until the earlier of ttl and exp, the least recent entry dropped when full |
| Introspection.IntrospectionCache.Remove | auth/zitadel/introspection.go:315-318 | one entry leaves list and map together |
| Introspection.RunBounded | auth/zitadel/introspection.go:302-304 | over every run the cache holds at most its maximum, no key twice |
| Introspection.HitIsLatest | auth/zitadel/introspection.go:214-240 | a hit is the latest active result stored for the key, set less than its ttl ago, before its exp (section 4 of RFC 7662) |
| Introspection.SetIsAnswered | auth/zitadel/introspection.go:276-305 | a live result is answered until it expires, as long as fewer other keys than the maximum come by |
| Introspection.AnsweredAgain | auth/zitadel/introspection.go:258-274 | so is a result that was answered once |
| Introspection.DeadIsNotStored | auth/zitadel/introspection.go:278-290 | an inactive result, one without time to live or past its exp changes nothing |
| Introspection.RunByRecency | auth/zitadel/introspection.go:233 | the list is ordered by last use |
| Introspection.EvictsLeastRecent | auth/zitadel/introspection.go:302-304 | what a full cache drops was used before everything it keeps |
| Redaction.Walk.Enter | audit/redact.go:324-338 | refuses exactly too deep a walk or a container already on the path |
| Redaction.Walk.Leave | audit/redact.go:339-344 | restores path and depth |
| Redaction.RedactValue | audit/redact.go:287-315 | computes the specified copy, which shows every value of the original that is not under a sensitive key and was not replaced by a hook, and restores the walk, on failure too |
| Redaction.RedactField | audit/redact.go:260-284 | a sensitive value is masked unseen; any other is shown as it is, or as the first hook that answers replaces it, redacted in turn |
| Redaction.RedactedIsClean | audit/redact.go:271-283 | whatever the hooks answer, consultation by consultation, and however containers change between two visits, no sensitive key of a returned copy holds anything but nil or the mask, at any depth |
| Redaction.RedactedShows | audit/redact.go:260-315 | and the copy shows the rest: the same keys and items, every value not under a sensitive key as it was encoded or as the first answering hook replaced it, at any depth |
| Redaction.ChangeIsShown | audit/redact.go:196-233 | a change with sides shows both sides so, any other change its value |
| Redaction.RefusedExactly | audit/redact.go:317-345 | a payload is refused iff some way down it is too deep, meets itself or ends at a value that cannot be encoded |
| Redaction.CyclesAreRefused | audit/redact.go:328-332 | a payload that contains itself is refused |
| Redaction.RedactChanges | audit/redact.go:196-221 | each change is redacted, side by side where it has sides; refused iff one of them is |
| Redaction.ChangeRefusedExactly | audit/redact.go:196-233 | a change is refused iff one of its sides cannot be gone through |
| Redaction.RedactEntry | audit/redact.go:171-190 | succeeds iff every payload and change can be gone through; then every copy is clean at every depth and shows everything else, side by side for changes; otherwise the entry is unchanged |

## Left out

- Effects and their dispatch (`workflow/engine.go:212-245`): one call after a commit, deciding nothing here.
- Validator.Validate: does not model the rules that a definition has a name and a version and that effect names are set and distinct, because no other behaviour depends on them.
- Validation messages: their text, order and repetition; only whether a rule is silent is modelled. A duplicate node id is looked up by its first node, not its last, which matters only to the messages of a definition already refused.
- Kinds, policies, outcomes and comment rules are closed datatypes, so "invalid kind" and the like cannot occur.
- `AvailableFor`, `Overdue`, the inbox and `LastActorOf`: reads that list what the calls here decide.
- `resolveActor`: actors come resolved; only that expiry needs a system actor and a claim an id is checked. Trimming of comments and reasons is taken as done.
- JSON details, request and trace ids, upcasting of old events and `fillEligibility` for rows stored before eligibility existed.
- The order of the token and scope lists: rows are maps by identifier, and `JoinDetail.Tokens` is a set.
- `Repository` implementations: only their contract is used. Reading the history is part of every writer's reads in `Interleaving`, also where a call does not need it.
- Misplaced.StartCannotLeave: does not lead a case through a nested block on its way to the join; for every start inside a block `Runs.RunAccepted` shows that the case never closes.
- Uploads: presigning, HMAC and sniffing are an oracle on the bytes; a row that cannot be read ends the attempt.
- HashChain.SameEndSameChain: assumes an injective digest, not SHA-256 itself.
- Introspection: the mutex, singleflight, network calls and SHA-256 of the token; the linked list is a sequence of entry references.
- Redaction: how keys are normalized before matching is a parameter; the containers are a value the walk only reads, so "leaves the caller's containers unchanged" is by construction.
