# Hesmos execution core

A model of the deterministic core of Hesmos and proofs about whole runs of it. A plan is
folded and compiled into waves; a session runs the nodes of the waves in their fixed order
through gates, executor, metering, routing and commit, and every step appends an event to a
hash-chained log. Proved for whole runs: what the log holds, that it reads back from disk
(`RunLogs.StoppedLogTells`, `RunLogs.SealedLogOfRun`), and that readers rebuild the run's
structure from it alone and its commit points from it and the checkpoint rows, wherever the
session stopped.

How the modules follow the program:

- `Core`, `Orders`, `Domain`: shared vocabulary, the order of identifiers, the data that
  crosses boundaries.
- `Prng`, `Waves`, `FlowDsl`, `Patterns`, `PlanFold`, `Engine`, `PlanFaults`: the generator,
  the wave decomposition with its cycle search, the flow notation, the pattern tests, the fold
  of a plan text, the engine with its commit cursor, and what a refused plan is told.
- `Router`, `Budget`, `TraceLog`, `Readers`: loop guard with contract validator, percent
  lines with thresholds and ledger, hash chain, and trace readers.
- `RunModel`: what a run computes, as functions of its inputs and of an arbitrary world. The
  executor, the gates, the cache sentinel and the interrupt flag answer as functions of the
  number of questions asked so far, so every behaviour of theirs is one world. An executor may
  also append tool.call events to the log while it works, as the one behind the Python
  bindings does (crates/hesmos-ffi/src/composition.rs:541-555). A crash of the program is an
  outcome (`Crash`).
- `Runner`: the runner object with its fields and nested loops. `RunSession` is proved to
  compute exactly `RunModel.Run`, so what the lemmas say of `Run` holds of the object.
- `CommitOrder`, `RunTrace`, `TracePasses`, `RunRouting`, `RunEffects`, `RunDurable`,
  `RunTaint`: one aspect of a run each, from a single step up to the attempts of a node.
- `RunInvariant`, `RunSteps`, `RunOutcomes`: the invariant between nodes, its preservation by
  one node, and how every run ends.
- `RunTheorems`, `RunContracts`: the theorems on whole runs.
- `RunGates`, `RunVerdicts`: which gates were asked and passed, and why a run ended.
- `RunActions`: every run as a list of small actions; `RunEvents`, `RunWork`, `RunWarnings`:
  what every action keeps of the log.
- `RunReports`, `RunConcerns`: executor calls and what is stored of them, and retried nodes.
- `RunUndisturbed`: runs in which nothing but the handoff cap stands in the way.
- `RunForks`: taint in forks, and exactly when a lost response row breaks it.
- `RunLogs`: the same run as a file, stopped after any event, or sealed.
- `RunWitnesses`, `RunLostWarnings`: runs under simple worlds, which show that bounds and
  causes are exact and that a warning can be lost.

A run is called normal when it does not crash. Histories that only proofs read (the executor
calls, the questions to gates, the accepted handoffs, and the trace places of passes, commits
and the first reported suspend line) are kept in the model's state and are ghost fields of
the object. The run theorems need at most `Compiled`: waves that level the plan graph, one
stage per node, and a frozen budget, which has a suspend line wherever it has a warn line
(`Budget.Paired`). `Engine.CompilePlan` and
`Engine.CompiledPlanRuns` establish it for every plan that compiles.

Where code and comments disagree the code is followed:

- `below` is not unbiased unless the bound divides 2^64 (`Prng.UniformExactlyForDivisors`).
- A latched router does not answer Halt to every later route: validation comes first
  (`Router.LatchedHaltsExactly`, `Router.LatchedStillReturns`).
- All agent roles share one warning flag, so only the first role to cross its line warns
  (`Budget.SecondRoleIsSilent`; exactly when a call warns: `Budget.WarnsExactly`).
- A warning is said to fire once per scope on the crossing
  (crates/hesmos-budget/src/thresholds.rs:11-13), but one call warns for one scope only, and
  the recheck at the commit marks the next scope as warned without recording it
  (`RunLostWarnings.SecondWarningIsLost`). The first call that reaches a scope's line warns
  whenever no wider scope's line and no suspend line is reached
  (`RunWarnings.FirstReachIsWarned`).
- Commits can equal the node count without Completed (`RunWitnesses.AllCommittedYetSuspended`).
  A run is completed exactly when every node committed and metering never reported a suspend
  line (`RunTheorems.RunTraceIsOrdered`).
- A run can halt with REPETITIVE_HANDOFF although the loop guard never does: exactly when its
  executor can report that reason (`RunWitnesses.HaltsExactlyAsReported`). The call to blame
  is the run's last one (`RunTheorems.NoRunRepeatsHandoffs`).
- Contamination can be laundered, although merging is said to prevent it
  (crates/hesmos-orchestrator/src/runner.rs:1232-1237): a missing response row is executed
  again on purpose (runner.rs:1391-1413), and the replayed rows behind it keep the marks they
  were stored with (`RunForks.LostRowLaundersTaint`). Taint stays exact whatever the executor
  answers if no replayed row has a lost ancestor (`RunForks.ReplayClosed`), and more
  precisely if and only if each replayed row that has one carries a mark that a replayed node
  reaching it declared (`RunForks.ForkTaintExactly`, with `RunForks.MarksHold`).
- The u8 attempt counter is wide enough exactly for retry bounds up to 127, and the router's
  up to 254, while a plan may set any u8 bound (crates/hesmos-core/src/policy.rs:21, 53, 66;
  `RunWitnesses.CountersFitExactly`).
- A chain does not protect its own end: a truncated log scans clean (`TraceLog.PrefixesScan`),
  and so does one whose last line is replaced by a fitting one. No other replaced line passes
  with more than its time stamp changed, short of a collision
  (`TraceLog.ReplacedLineAccepted`, `TraceLog.ReplacedLineNoticed`).

## Model

| member | source | states |
|---|---|---|
| `Prng.MixIsBijective` | crates/hesmos-orchestrator/src/prng.rs:25-31 | the output mix is undone by an explicit inverse in both directions, so it is a bijection on 64-bit words |
| `Prng.StateAtClosedForm` | crates/hesmos-orchestrator/src/prng.rs:25-26 | the state after k draws is seed + k * increment modulo 2^64 |
| `Prng.StateAtCompose` | crates/hesmos-orchestrator/src/prng.rs:25-26 | j draws followed by k draws are j + k draws |
| `Prng.StatesRepeatOnlyAfterFullPeriod` | crates/hesmos-orchestrator/src/prng.rs:25-26 | two states of one stream are equal if and only if their numbers differ by a multiple of 2^64 |
| `Prng.DrawsAreDistinct` | crates/hesmos-orchestrator/src/prng.rs:25-31 | two draws of one stream less than 2^64 apart differ |
| `Prng.DrawIsMixed` | crates/hesmos-orchestrator/src/prng.rs:25-31 | undoing the mix of the k-th draw gives seed + k * increment modulo 2^64: no draw skips the mix |
| `Prng.FirstDraw` | crates/hesmos-orchestrator/src/prng.rs:25-31 | the first draw of seed 0 is 0xE220A8397B1DCDAF, so mix and inverse cannot both be off |
| `Prng.OutcomeInterval` | crates/hesmos-orchestrator/src/prng.rs:33-38 | the words that `below` maps to outcome j are exactly one interval |
| `Prng.OutcomesWithinOneWord` | crates/hesmos-orchestrator/src/prng.rs:33-38 | every outcome of `below` has the floor of 2^64 / bound words or one more |
| `Prng.UniformExactlyForDivisors` | crates/hesmos-orchestrator/src/prng.rs:33-38 | all outcomes are equally likely if and only if the bound divides 2^64; the comment in the code says unbiased |
| `Prng.ShuffledIsPermutation` | crates/hesmos-orchestrator/src/prng.rs:40-47 | a shuffled list has exactly the elements of the list |
| `Prng.SplitMix64.constructor` | crates/hesmos-orchestrator/src/prng.rs:19-21 | the state starts at the seed |
| `Prng.SplitMix64.NextU64` | crates/hesmos-orchestrator/src/prng.rs:23-31 | one step of the stream: the state is the specified one and the draw undone is the state moved by one increment |
| `Prng.SplitMix64.Below` | crates/hesmos-orchestrator/src/prng.rs:33-38 | one draw scaled below the bound |
| `Prng.SplitMix64.ShuffleStep` | crates/hesmos-orchestrator/src/prng.rs:42-47 | one exchange leaves the rest of the shuffle the same |
| `Prng.SplitMix64.Shuffle` | crates/hesmos-orchestrator/src/prng.rs:40-47 | the array becomes the specified shuffle of its old contents, at one draw per item but one |
| `Waves.WaveOfSpec` | crates/hesmos-orchestrator/src/waves.rs:72-76 | inside a wave the draws are strictly ascending: the node-id tie-break never decides, and the wave lists its level exactly |
| `Waves.CompileDrawsDistinct` | crates/hesmos-orchestrator/src/waves.rs:72-76 | all draws of one compile are pairwise distinct, across waves too |
| `Waves.WavesFromIsLevelling` | crates/hesmos-orchestrator/src/waves.rs:59-88 | waves are non-empty, partition the nodes, follow all predecessors and directly follow one of them |
| `Waves.EdgesGoLater` | crates/hesmos-orchestrator/src/waves.rs:59-88 | every edge goes to a strictly later wave |
| `Waves.WaveIndexIsLongestPath` | crates/hesmos-orchestrator/src/waves.rs:59-88 | the wave index of a node is the length of the longest path that ends at it |
| `Waves.WavesExistIffAcyclic` | crates/hesmos-orchestrator/src/waves.rs:59-70 | Kahn places every node if and only if the graph has no cycle |
| `Waves.VisitSpec` | crates/hesmos-orchestrator/src/waves.rs:107-136 | a visit either finds a genuine cycle or keeps a consistent colouring whose finished nodes are numbered against every edge |
| `Waves.ExtractCycleSpec` | crates/hesmos-orchestrator/src/waves.rs:92-105 | the search answers a genuine cycle (distinct nodes, consecutive edges, last to first) exactly in cyclic graphs, so its fallback message is unreachable |
| `Waves.CycleSearch.constructor` | crates/hesmos-orchestrator/src/waves.rs:92-94 | the search starts with no colours and an empty path |
| `Waves.CycleSearch.Dfs` | crates/hesmos-orchestrator/src/waves.rs:107-136 | the recursive search in place computes the specified visit |
| `Waves.CycleSearch.SearchStart` | crates/hesmos-orchestrator/src/waves.rs:96-103 | one start: the specified visit, and an empty path when it finds nothing |
| `Waves.CycleSearch.Extract` | crates/hesmos-orchestrator/src/waves.rs:92-105 | searching from every node in order computes the specified cycle |
| `Waves.DrawLevel` | crates/hesmos-orchestrator/src/waves.rs:72-74 | one draw per node of a level |
| `Waves.Levels` | crates/hesmos-orchestrator/src/waves.rs:55-89 | Kahn's loop computes the specified waves and leaves the generator at one draw per node |
| `Waves.BuildWaves` | crates/hesmos-orchestrator/src/waves.rs:37-89 | waves exactly for acyclic graphs, with the generator at seed plus one step per node; otherwise a genuine cycle |
| `FlowDsl.ParseTargetList` | crates/hesmos-orchestrator/src/compile.rs:371-376 | the loop over targets computes the specified edges or the statement in error |
| `FlowDsl.ParseFlowText` | crates/hesmos-orchestrator/src/compile.rs:361-384 | the loop over statements computes the specified parse |
| `FlowDsl.EdgesAreIdents` | crates/hesmos-orchestrator/src/compile.rs:357-398 | every edge the parser ever returns has two valid identifiers |
| `FlowDsl.FlowRoundTrip` | crates/hesmos-orchestrator/src/compile.rs:357-384 | parsing inverts rendering in any layout: fan-out, blanks, empty statements, both separators |
| `FlowDsl.AcceptsExactlyTheGrammar` | crates/hesmos-orchestrator/src/compile.rs:357-398 | a text parses if and only if it renders well-formed statements of the documented grammar, and denotes their edges |
| `FlowDsl.RefusalNamesStatement` | crates/hesmos-orchestrator/src/compile.rs:361-398 | a refused text names its first piece that is no statement of the grammar, without the blanks around it |
| `Patterns.CountDegrees` | crates/hesmos-orchestrator/src/compile.rs:411-420 | the degree maps hold the in- and out-degrees, or an endpoint is no stage |
| `Patterns.CheckPattern` | crates/hesmos-orchestrator/src/compile.rs:402-453 | accepts exactly the edge shapes the pattern can express |
| `Patterns.InferPattern` | crates/hesmos-orchestrator/src/compile.rs:456-479 | answers the most specific pattern |
| `Patterns.LinearHasOneRoot` | crates/hesmos-orchestrator/src/compile.rs:421-430 | stages of degree at most one with one edge less than stages have exactly one root, by counting in-degrees |
| `Patterns.InferredFits` | crates/hesmos-orchestrator/src/compile.rs:456-479 | whatever is inferred passes the check: the two different tests agree |
| `Patterns.InferredIsMostSpecific` | crates/hesmos-orchestrator/src/compile.rs:456-479 | no pattern more specific than the inferred one fits the stages and edges |
| `Patterns.SequentialIsOnePath` | crates/hesmos-orchestrator/src/compile.rs:410-431 | a sequential plan with waves is one path: every wave is one stage, joined to the next by an edge |
| `Patterns.ParallelIsOneWave` | crates/hesmos-orchestrator/src/compile.rs:432-437 | a plan with waves is parallel if and only if all its stages are in one wave |
| `Patterns.SequentialTestAdmitsCycles` | crates/hesmos-orchestrator/src/compile.rs:410-431 | the degree test alone lets a stage beside a self-loop pass: only the waves rule it out |
| `PlanFold.CheckRefs` | crates/hesmos-orchestrator/src/compile.rs:310-355 | reports exactly the unknown names of the first offending referrer in name order |
| `PlanFold.AllKnown` | crates/hesmos-orchestrator/src/compile.rs:310-355 | no reference fault if and only if every referenced name is a stage |
| `Patterns.NoneRepeats` | crates/hesmos-orchestrator/src/compile.rs:153-161 | no duplicate is reported if and only if all stage ids differ |
| `PlanFold.NoRoleMissing` | crates/hesmos-orchestrator/src/compile.rs:163-177 | no missing profile is reported if and only if every stage has a non-blank role |
| `PlanFold.SortedEdgesElements` | crates/hesmos-orchestrator/src/compile.rs:209-229 | the edge list has exactly the edges of the union |
| `PlanFold.SortedEdgesAscend` | crates/hesmos-orchestrator/src/compile.rs:209-229 | the edge list is strictly ascending by source, then target |
| `PlanFold.FoldedPlanIsReady` | crates/hesmos-orchestrator/src/compile.rs:152-257 | a folded plan passes every check of engine compile but the cycle check; each stage is as written, in order; an edge is in it exactly if it is explicit, a dependency of its target on its source, or in the flow text; its goal text is the trimmed one and a declared pattern is the one of the plan |
| `PlanFold.FoldedStage` | crates/hesmos-orchestrator/src/compile.rs:260-303 | a gate is a pre-gate exactly if listed under pre, a post-gate exactly if listed under post or beside the profile; role, model, tools, network, floor, schema, criteria and flags are those of the raw stage |
| `PlanFaults.RefusalTells` | crates/hesmos-orchestrator/src/compile.rs:152-257 | a refused plan is told its first defect in the order of detection, with the id, stage, statement or names that make it up, and all earlier checks pass |
| `PlanFaults.RefFaultTells` | crates/hesmos-orchestrator/src/compile.rs:310-355 | a reference fault names the first referrer in name order that mentions an unknown node, and exactly its unknown names in order |
| `PlanFold.FoldPlan` | crates/hesmos-orchestrator/src/compile.rs:152-257 | the fold with its fixed order of detected errors; what it yields: PlanFold.FoldedPlanIsReady, PlanFaults.RefusalTells |
| `Engine.ReadyIffNoFault` | crates/hesmos-orchestrator/src/engine.rs:106-152 | compile finds a fault other than a cycle exactly in plans that are not ready |
| `PlanFaults.FaultTells` | crates/hesmos-orchestrator/src/engine.rs:106-152 | the fault of a plan refused before the cycle check is its first one: the first repeated id, or the unknown ends of the first edge that has any, source first |
| `Patterns.CollectIds` | crates/hesmos-orchestrator/src/engine.rs:113-121 | the node set, or the first repeated id |
| `Engine.BuildSuccessors` | crates/hesmos-orchestrator/src/engine.rs:123-148 | the adjacency of the edges, or the unknown endpoints of the first bad edge |
| `Engine.CompilePlan` | crates/hesmos-orchestrator/src/engine.rs:106-165 | faults first; then waves exactly for acyclic plans, the generator at one draw per stage, the hash of the plan, and a stage count equal to the length of the commit order; otherwise a genuine cycle |
| `Engine.CompileFolded` | crates/hesmos-orchestrator/src/compile.rs:152-257 | a plan that the fold accepts fails engine compile only with a genuine cycle |
| `Engine.CompiledPlanRuns` | crates/hesmos-orchestrator/src/runner.rs:566-650 | a ready plan, its waves and a frozen budget make a session that the run theorems cover |
| `Engine.CompiledGraph.constructor` | crates/hesmos-orchestrator/src/engine.rs:155-164 | nothing is committed and the cursor stands at the first wave |
| `Engine.CompiledGraph.NextWave` | crates/hesmos-orchestrator/src/engine.rs:167-169 | the active wave; none exactly when every node is committed |
| `Engine.CompiledGraph.Commit` | crates/hesmos-orchestrator/src/engine.rs:171-206 | commits exactly the next node of the wave order with dense numbers from one; for any other node the order assertion fires and nothing changed |
| `Router.ValidateDecides` | crates/hesmos-guard/src/contract_check.rs:28-112 | a contract passes exactly when all hard rows are met and confidence reaches the floor; retried exactly when only the floor is missed; absent artifacts outrank absent failed approaches |
| `Router.RejectionNamesRow` | crates/hesmos-guard/src/contract_check.rs:28-112 | a contract is rejected if and only if some hard row is not met, and is told the field of the first one; only missing criteria are final |
| `Router.EvaluateRefines` | crates/hesmos-orchestrator/src/router.rs:98-113 | the bounded window decides as the full history of accepted handoffs demands |
| `Router.RecordRefines` | crates/hesmos-orchestrator/src/router.rs:117-135 | after a record the window is the last `ping_pong_window` accepted handoffs and the count is the whole history |
| `Router.RouteRefines` | crates/hesmos-orchestrator/src/router.rs:169-236 | one routing step on full histories: only an accept extends it, a halt latches its reason |
| `Router.RoutingIsSafe` | crates/hesmos-orchestrator/src/router.rs:88-135 | over any sequence of contracts the accepted handoffs never exceed the cap and recurrences of a pair have at least a window of others between them |
| `Router.LatchIsForever` | crates/hesmos-orchestrator/src/router.rs:90-94 | once latched, nothing is accepted again and the latched reason never changes |
| `Router.LatchedHaltsExactly` | crates/hesmos-orchestrator/src/router.rs:169-236 | a latched router halts exactly the contracts that pass validation and name a destination; a comment in the code says every later route |
| `Router.LatchedStillReturns` | crates/hesmos-orchestrator/src/router.rs:169-186 | a latched router sends a contract without invariants back instead of halting |
| `Router.RouteDecides` | crates/hesmos-orchestrator/src/router.rs:169-236 | every decision with its reason and numbers: the k-th contract of a sender below the floor is granted bound - k + 1 retries, and past the bound it is returned |
| `Router.LoopGuardState.constructor` | crates/hesmos-orchestrator/src/router.rs:73-82 | a fresh guard |
| `Router.LoopGuardState.LatchHalt` | crates/hesmos-orchestrator/src/router.rs:90-94 | the first reason stays |
| `Router.LoopGuardState.EvaluateHandoff` | crates/hesmos-orchestrator/src/router.rs:98-113 | the scan of the window answers the specified verdict |
| `Router.LoopGuardState.RecordHandoff` | crates/hesmos-orchestrator/src/router.rs:117-135 | window, count and latch become the specified ones |
| `Router.LoopGuardRouter.constructor` | crates/hesmos-orchestrator/src/router.rs:150-160 | a fresh router |
| `Router.LoopGuardRouter.RouteContract` | crates/hesmos-orchestrator/src/router.rs:169-236 | validation, guard and record in place compute the specified decision and state |
| `Budget.PctOfTruncates` | crates/hesmos-budget/src/envelope.rs:78-80 | a line is the largest whole number of tokens within its percentage of the cap exactly as long as that number fits 64 bits; up to 100 percent it fits and stays at or below the cap, past that it wraps |
| `Budget.LinesStayBelowCaps` | crates/hesmos-budget/src/envelope.rs:78-80 | all lines stay at or below their caps if and only if the percentage is at most 100 |
| `Budget.FrozenIsPaired` | crates/hesmos-budget/src/envelope.rs:48-75 | a scope that can warn can also suspend |
| `Budget.FrozenLines` | crates/hesmos-budget/src/envelope.rs:48-75 | the two lines of every scope are the percentages of the cap of that very scope |
| `Budget.EvaluateAgreesWithSnapshot` | crates/hesmos-budget/src/thresholds.rs:100-171 | Exceeded exactly when the matching snapshot has a suspend line reached; a warning is the first of its scope and spent plus remaining make up the suspend line |
| `Budget.ExceededIsFirst` | crates/hesmos-budget/src/thresholds.rs:100-128 | Exceeded for a scope exactly when its own suspend line is the first one reached, session before team before agent; the snapshot shows each scope its own line |
| `Budget.TotalIsSum` | crates/hesmos-budget/src/ledger.rs:149-163 | the token total is the sum of both columns |
| `Budget.Ledger.constructor` | crates/hesmos-budget/src/ledger.rs:89-116 | an empty table |
| `Budget.Ledger.Record` | crates/hesmos-budget/src/ledger.rs:120-146 | one row is appended, numbered one past the highest number |
| `Budget.Ledger.SessionTotals` | crates/hesmos-budget/src/ledger.rs:149-163 | the sums over all rows |
| `Budget.Ledger.TotalsByAgent` | crates/hesmos-budget/src/ledger.rs:166-189 | exactly the roles that have rows, each with the sum of its rows |
| `Budget.ChargeKeepsCaches` | hesmos/src/composition.rs:187-197 | the in-memory spends stay equal to the ledger's total and group-by |
| `Budget.MeterCallSpec` | hesmos/src/composition.rs:163-215 | one metering call adds exactly its tokens in every scope, and answers Exceeded exactly when the new snapshot has a line reached |
| `Budget.EachScopeWarnsAtMostOnce` | crates/hesmos-budget/src/thresholds.rs:129-168 | over any sequence of calls no scope warns twice |
| `Budget.WarnsExactly` | crates/hesmos-budget/src/thresholds.rs:129-168 | exactly when a call warns for a scope, after any earlier calls: no suspend line reached, the warn line of the scope reached, no earlier warning of that scope by any role, and no scope before it due |
| `Budget.MeterCallWarns` | hesmos/src/composition.rs:163-215 | a metering call answers Exceeded exactly when a suspend line is reached; otherwise it warns exactly when a warning is due, for the first scope in order, with its spend in the new snapshot and what is left up to its suspend line |
| `Budget.SecondRoleIsSilent` | crates/hesmos-budget/src/thresholds.rs:129-168 | two roles with their own caps: the first to reach its line is warned about, the second is not |
| `Budget.ExceededPersists` | hesmos/src/composition.rs:163-215 | after a line is reached every later call of the role, between any other calls, is answered Exceeded |
| `Budget.BudgetEngine.constructor` | crates/hesmos-budget/src/thresholds.rs:62-67 | no warning has fired |
| `Budget.BudgetEngine.EvaluateSpend` | crates/hesmos-budget/src/thresholds.rs:100-171 | verdict and fired set become the specified ones |
| `Budget.BudgetMeter.constructor` | hesmos/src/composition.rs:130-146 | an empty ledger and zero spends |
| `Budget.BudgetMeter.TakeSnapshot` | hesmos/src/composition.rs:154-161 | the snapshot of ledger and caches |
| `Budget.BudgetMeter.ChargeOne` | hesmos/src/composition.rs:174-197 | ledger row and both caches |
| `Budget.BudgetMeter.Judge` | hesmos/src/composition.rs:199-204 | the threshold verdict on the current spends |
| `Budget.BudgetMeter.MeterOne` | hesmos/src/composition.rs:163-215 | charging then judging, as specified; which answer with which numbers that is: Budget.MeterCallWarns |
| `TraceLog.ScanFile` | crates/hesmos-trace/src/log.rs:301-342 | the strict scan: count and head, or the first fault |
| `TraceLog.LoadPath` | crates/hesmos-trace/src/log.rs:233-297 | the tolerant read: the parsed prefix with its first fault |
| `TraceLog.LoadAgreesWithScan` | crates/hesmos-trace/src/log.rs:233-342 | both readers accept the same files and report the same first fault; an accepted file is read in full |
| `TraceLog.TamperedTells` | crates/hesmos-trace/src/log.rs:252-289 | a faulty file is read up to the first fault: the events told are all that parse up to and including the faulty one |
| `TraceLog.AcceptedIffChained` | crates/hesmos-trace/src/log.rs:301-342 | a file is accepted if and only if every event is numbered, linked and hashed correctly |
| `TraceLog.FaultTells` | crates/hesmos-trace/src/log.rs:301-342 | a refused file is told its first line that is not chained, by its own number, link or hash as stored and as due |
| `TraceLog.PrefixesScan` | crates/hesmos-trace/src/log.rs:301-342 | every prefix of an accepted file is accepted with its own count and head: a truncated log scans clean |
| `TraceLog.HeadsCommit` | crates/hesmos-trace/src/replay.rs:19-25 | two accepted files with equal heads have equal length and agree on everything but time stamps, or a collision is exhibited |
| `TraceLog.EqualHeadsSuffice` | crates/hesmos-trace/src/replay.rs:31-36 | equal heads imply equal counts and contents, or a collision; equal contents imply equal heads |
| `TraceLog.TimeIsNotCovered` | crates/hesmos-trace/src/log.rs:14-18 | changing only time stamps is never noticed |
| `TraceLog.TamperFaultsAt` | crates/hesmos-trace/src/log.rs:301-342 | changing a chained field or the stored hash of event i faults exactly at i, or a collision is exhibited |
| `TraceLog.RehashFaultsNext` | crates/hesmos-trace/src/log.rs:301-342 | an event rewritten with its hash breaks the link at i + 1, if there is a next event |
| `TraceLog.ReplacedLineAccepted` | crates/hesmos-trace/src/log.rs:301-342 | any single replaced line: the result is accepted if and only if the line is number i, linked, correctly hashed and, unless it is the last, has the old hash |
| `TraceLog.ReplacedLineNoticed` | crates/hesmos-trace/src/log.rs:301-342 | a replaced line passes only if at most its time stamp changed, or it is the last line, or a collision is exhibited |
| `TraceLog.EventLog.constructor` | crates/hesmos-trace/src/log.rs:108-123 | a fresh chain from genesis |
| `TraceLog.EventLog.Open` | crates/hesmos-trace/src/log.rs:91-124 | opening refuses exactly the files that scan refuses; afterwards the state is what the scan computed |
| `TraceLog.EventLog.TryAppend` | crates/hesmos-trace/src/log.rs:129-152 | one chained event is appended and the state is again what a scan computes; a failed write leaves number and head as they were, and the next scan finds the file unchanged, refuses its torn line, or finds the whole event |
| `TraceLog.EventLog.Verify` | crates/hesmos-trace/src/log.rs:158-167 | the number of events, or the first fault of the file as it is now |
| `TraceLog.WrittenReadsBack` | crates/hesmos-trace/src/log.rs:132-152 | what was appended to a fresh log scans, and reads back as appended |
| `TraceLog.WrittenHead` | crates/hesmos-trace/src/log.rs:132-152 | the head of a written log is a function of its events alone |
| `TraceLog.SameEventsSameChain` | crates/hesmos-trace/src/replay.rs:19-36 | sessions that append the same events at different times write the same chain |
| `Readers.FindBoundaryFinalPasses` | hesmos/src/cmd/trace.rs:471-500 | the loop computes the specified final passes |
| `Readers.Project` | crates/hesmos-trace/src/query.rs:69-102 | the loops compute node path and gate path; what these tell: RunTrace.NodePathIsBlocks, Readers.GatePathTells |
| `Readers.GatePathTells` | crates/hesmos-trace/src/query.rs:82-97 | the gate path has one step per gate event, in order, with its node and gate: a pass exactly for a gate.pass, otherwise a fail with its reason and retries left |
| `Readers.SameGatePath` | crates/hesmos-trace/src/query.rs:82-97 | two traces have the same gate path if and only if their gate events agree in order on kind, node, gate, reason and retries left |
| `Readers.CompareStructure` | crates/hesmos-trace/src/query.rs:136-176 | matches exactly for equal structures and lists the first eight differences in order |
| `Readers.NoDifferencesIffEqual` | crates/hesmos-trace/src/query.rs:136-176 | there is no difference if and only if the structures are equal |
| `Readers.DifferencesAreMismatches` | crates/hesmos-trace/src/query.rs:136-176 | the differences are exactly the mismatches there are, expected before actual, each once, nodes before gates, counts before steps, steps by index |
| `RunTrace.NodePathIsBlocks` | crates/hesmos-trace/src/query.rs:69-81 | on any trace of the event language the projected node path is the list of node blocks |
| `TracePasses.FoundAreFinal` | hesmos/src/cmd/trace.rs:471-500 | on any trace of the event language each found pass is the last judgment before the stop of its node, in strictly increasing blocks |
| `TracePasses.OnePassPerBlock` | hesmos/src/cmd/trace.rs:453-500 | with one found pass per closed block the i-th pass is the i-th block's |
| `TracePasses.FoundWithinBlocks` | hesmos/src/cmd/trace.rs:471-500 | on any trace of the event language no more passes are found than node blocks are closed |
| `CommitOrder.CursorDue` | crates/hesmos-orchestrator/src/engine.rs:171-206 | the node the cursor expects is the next node of the flattened wave order |
| `CommitOrder.OrderListsNodes` | crates/hesmos-orchestrator/src/engine.rs:171-206 | the commit order lists every node exactly once |
| `CommitOrder.EdgesGoForward` | crates/hesmos-orchestrator/src/engine.rs:171-206 | every edge goes forward in the commit order |
| `RunModel.TurnsRunOut` | crates/hesmos-orchestrator/src/runner.rs:826-1042 | every repeated attempt uses up one unit of the shared attempt counter and the router's per-sender counter together, so the loop terminates |
| `RunModel.CommittedAdvances` | crates/hesmos-orchestrator/src/runner.rs:1130-1170 | a committed node is one more commit |
| `RunTrace.AttemptsTrace` | crates/hesmos-orchestrator/src/runner.rs:826-1042 | attempts keep the node open, or close its block as not done; they lose no found pass and no token |
| `RunRouting.RunnerContractJudgment` | crates/hesmos-orchestrator/src/runner.rs:1330-1376 | a contract the runner writes is refused without retry for lack of target criteria, retried below the floor, and otherwise let through |
| `RunRouting.RouteEdgesRoutes` | crates/hesmos-orchestrator/src/runner.rs:1062-1127 | routing all edges: a retry leaves nothing recorded, a halt is only for the handoff cap |
| `RunRouting.NextEdgesAreFresh` | crates/hesmos-orchestrator/src/router.rs:98-135 | on a plan in wave order the edges of the next node meet no earlier handoff of their pair |
| `RunRouting.AcceptedPairsDiffer` | crates/hesmos-orchestrator/src/router.rs:98-135 | no two accepted handoffs of a run are on the same unordered pair |
| `RunEffects.AttemptsCalls` | crates/hesmos-orchestrator/src/runner.rs:826-1042 | the attempts of a node call the executor at most once per retry left plus one, for this node, with the answers the world gives, and never under a replayed row |
| `RunEffects.AttemptsCounters` | crates/hesmos-orchestrator/src/runner.rs:1173-1180 | only the node's own counters move, by at most the retries left |
| `RunEffects.AttemptsRouterCounter` | crates/hesmos-orchestrator/src/router.rs:187-208 | the router's counter of the node stays within the bound, and one past it only at the end |
| `RunEffects.AttemptsProduct` | crates/hesmos-orchestrator/src/runner.rs:1398-1425 | a product is what the replayed row or the live report yields; only a row of another node crashes |
| `RunEffects.AttemptsLine` | crates/hesmos-orchestrator/src/runner.rs:888-907 | a suspend line once noted stays reached until the commit |
| `RunDurable.CommitKeepsDurable` | crates/hesmos-orchestrator/src/runner.rs:1130-1152 | checkpoint rows, response rows and outputs stay in step; each row's contract is determined by the rows before it |
| `RunDurable.CommitKeepsRouting` | crates/hesmos-orchestrator/src/runner.rs:1062-1127 | contracts routed in and handoffs accepted are those of the committed nodes, in order |
| `RunTaint.MergeTaintSpec` | crates/hesmos-core/src/envelope.rs:56-66 | a merge is tainted exactly when an input is, and carries one input's mark |
| `RunTaint.InputTaint` | crates/hesmos-orchestrator/src/runner.rs:1238-1280 | an input is tainted exactly when the output of a predecessor is |
| `RunTaint.OutputTaint` | crates/hesmos-core/src/envelope.rs:78-143 | an output keeps the input's mark, and otherwise takes the declared origin |
| `RunTaint.CommitKeepsTaint` | crates/hesmos-orchestrator/src/runner.rs:1238-1325 | a commit keeps every executed row at the mark derived from the outputs of its predecessors and its declared origin |
| `RunTaint.TaintSpreads` | crates/hesmos-orchestrator/src/runner.rs:1238-1325 | marks derived row by row are exact along the plan, from the replayed rows and the declared origins on |
| `RunSteps.NodeKeepsInv` | crates/hesmos-orchestrator/src/runner.rs:734-1171 | from the run invariant one node commits and restores it, ends the run with its exact account, or crashes for one of two causes |
| `RunTheorems.RunEndsNormally` | crates/hesmos-orchestrator/src/engine.rs:171-181 | the order assertion never fires: a run crashes only for a pre-gate that retries or a replayed row of another node |
| `RunTheorems.RunTraceIsOrdered` | crates/hesmos-orchestrator/src/runner.rs:675-731 | every normal trace is open, compiled, node blocks, close; blocks are a prefix of the commit order, all but the last done; commits follow; Completed exactly when all nodes committed and metering never reported a suspend line; the projected path is the blocks; a crashed run stands inside the block of the node after its last commit |
| `RunTheorems.RecordedWaveIsLongestPath` | crates/hesmos-orchestrator/src/runner.rs:734-750 | the wave recorded with a node is the length of the longest path that ends at it |
| `RunLogs.CommitMarkersAreExact` | hesmos/src/cmd/trace.rs:453-500 | from the event stream of a normal run alone commit k is paired with the pass that let node k commit, for every k; at most one surplus pass falls away |
| `RunLogs.MarkersInCrashWindows` | hesmos/src/cmd/trace.rs:449-500 | for every prefix of the events of any run and the checkpoint rows stored by then: one marker a row, in order, each at the committing pass of its node; an uncheckpointed pass makes none |
| `RunLogs.RowsStoredBy` | hesmos/src/cmd/trace.rs:449-500 | for every place of the log there is a number r such that exactly the first r rows were stored by then, so the crash-window theorem speaks about every place |
| `RunLogs.RowsStoredInBlocks` | crates/hesmos-orchestrator/src/runner.rs:1427-1463 | every checkpoint row is stored inside the block of its own node, after its committing pass and before its stop event |
| `RunLogs.StoppedLogTells` | hesmos/src/cmd/trace.rs:449-500 | the hash-chained file of a run stopped after any event loads without a fault as exactly those events, and its markers are exact |
| `RunLogs.SealReadsBack` | crates/hesmos-trace/src/seal.rs:54-81 | the log of a run and its seal load in full; the seal records the head that scanning the log and chaining the events give |
| `RunLogs.SealedLogOfRun` | crates/hesmos-trace/src/seal.rs:54-81 | the sealed log of a normal run parses as open, compiled, node blocks, close, seal; node path and commit markers read from it are those of the run |
| `RunTheorems.MeteringIsConserved` | crates/hesmos-orchestrator/src/runner.rs:860-907 | in every run, crashed or not, the ledger total equals the tokens of all llm.call events, and the in-memory spends agree with the ledger |
| `RunTheorems.SuspendLineStopsTheRun` | crates/hesmos-orchestrator/src/runner.rs:1154-1164 | once metering reports a suspend line no further node starts, and if that node commits the run ends suspended for the budget at that commit |
| `RunTheorems.NoRunRepeatsHandoffs` | crates/hesmos-orchestrator/src/router.rs:24-30 | in every run, crashed or not, the loop guard never sees a recurrence and each plan edge is accepted at most once and within the cap; a halt for any reason but the cap is what the last executor call of this run reported |
| `RunWitnesses.FailingExecutorHaltsTheRun` | crates/hesmos-orchestrator/src/runner.rs:846-857 | an executor that always fails halts the run with its own reason, whatever it is, after exactly the bound plus one calls |
| `RunUndisturbed.HandoffCapDecides` | crates/hesmos-orchestrator/src/router.rs:24-30 | with gates that pass, no interrupts, reports at or above the floor, criteria on every stage with a predecessor and no suspend line, a run completes with every node committed if the plan has at most as many edges as the cap, and otherwise halts for the cap; forks included |
| `RunUndisturbed.AllEdgesAccepted` | crates/hesmos-orchestrator/src/runner.rs:1062-1096 | one handoff an edge: the handoffs of all nodes in commit order are exactly the edges of the plan, each once |
| `RunWitnesses.HaltsExactlyAsReported` | crates/hesmos-orchestrator/src/runner.rs:846-857 | for every reason but the handoff cap: a session whose executor reports only reasons in R never halts for a reason outside R; and if the executor is called at all, at the first commit or behind replayed rows on a clear way, some such executor halts the run for each reason in R; so repetition halts a run exactly when the executor can report it |
| `RunTheorems.RetriesAreBounded` | crates/hesmos-orchestrator/src/runner.rs:826-1042 | in every run a node executes at most twice the retry bound plus once, its attempt number stays within twice the bound and its router counter within the bound plus one |
| `RunWitnesses.WaveringSpendsBothBudgets` | crates/hesmos-orchestrator/src/runner.rs:826-1042 | these bounds are attained: an executor that fails up to the bound and then reports below the floor drives the counters to exactly twice the bound and the bound plus one, in twice the bound plus one calls, and the run fails |
| `RunWitnesses.CountersFitExactly` | crates/hesmos-orchestrator/src/runner.rs:1173-1180 | eight bits hold the attempt number in every run if and only if the bound is at most 127, and the router counter if and only if it is at most 254 |
| `RunWitnesses.AllCommittedYetSuspended` | crates/hesmos-orchestrator/src/runner.rs:1154-1170 | under a cap of zero a session commits all its nodes and ends suspended, not completed |
| `RunTheorems.TaintIsReachability` | crates/hesmos-orchestrator/src/runner.rs:1238-1325 | in every run that replays nothing a checkpoint row is tainted if and only if its node or an ancestor committed a report with an external origin, and carries one of those origins |
| `RunForks.ForkTaintIsReachability` | crates/hesmos-orchestrator/src/runner.rs:1232-1325 | the same in forks, and forks of forks, with the origins of the origin session for the replayed rows and the own ones of the fork for the rest, as long as every replayed row has all its ancestors replayed or its mark declared by one of the replayed nodes that reach it |
| `RunForks.ForkTaintExactly` | crates/hesmos-orchestrator/src/runner.rs:1391-1425 | that condition is exact: when it holds taint is reachability in the fork whatever its executor, gates and interrupts answer, and when it fails, and nothing but the executor keeps the fork from completing, some executor breaks it |
| `RunForks.LostRowLaundersTaint` | crates/hesmos-orchestrator/src/runner.rs:1391-1413 | a fork that lost the first response row and replays the second completes with a tainted row and the clean row of its successor |
| `RunTheorems.ForkReplaysPrefix` | crates/hesmos-orchestrator/src/runner.rs:1398-1425 | a fork of a session, itself possibly a fork, that ended, crashed or was killed with r commits stored, never calls the executor up to the fork point, writes the rows of the origin there, and never fails the node check; with response rows lost in between it executes just those commits again |
| `RunContracts.RowsCarryTheirContracts` | crates/hesmos-orchestrator/src/runner.rs:1326-1376 | the contract stored with a commit of any run is none exactly for roots, and otherwise the handoff of the predecessor that committed last: task, criteria and permissions of the receiver, and from the row of the sender its payload under its schema and its confidence brought into the unit interval |
| `RunContracts.DueContractIsComplete` | crates/hesmos-orchestrator/src/runner.rs:752-767 | the gates of a due node are shown the handoff of the predecessor that committed last, or for a root its own declaration, and the profile of whoever wrote that contract |
| `RunContracts.DueInputIsComplete` | crates/hesmos-orchestrator/src/runner.rs:1238-1280 | the input of a due node is a task for it from its first predecessor, under its schema and its commit number, and holds the payload of every predecessor and nothing else |
| `RunGates.NodeIsTold` | crates/hesmos-orchestrator/src/runner.rs:769-1042 | one node: what it stores has passed every gate it owes, before and after, and an end without commit has its cause and its kind of stop on record |
| `RunVerdicts.CommitsAreJudged` | crates/hesmos-orchestrator/src/runner.rs:769-822 | in every run each stored envelope was judged in full: G0, permission, budget, schema and the pre-gates of the stage passed on its input before the node was executed, and later schema, done_criteria, rubric and its post-gates passed on that very envelope, each asked once in order of names |
| `RunVerdicts.RejectionsEndRuns` | crates/hesmos-orchestrator/src/runner.rs:974-1035 | a rejection by a gate is the last question of its run, which ends suspended exactly when the reason is the budget and failed otherwise |
| `RunVerdicts.RunsEndForCause` | crates/hesmos-orchestrator/src/runner.rs:826-1042 | however a run ends short of completion, its cause is on record: interrupt, budget line or rejection with the suspension signalled, exhausted retry with its escalation, objection of the sentinel, or a judgment of the router with its score; and the last stop event has the matching kind |
| `RunActions.RunActs` | crates/hesmos-orchestrator/src/runner.rs:675-731 | every run is a list of small actions, each allowed when it is taken: what every action keeps holds of every run |
| `RunEvents.EveryEventTells` | crates/hesmos-orchestrator/src/runner.rs:888-907 | every event of every run says what the plan and the events before it say; a warning stands right behind an llm.call and carries the spend of its scope and what was left up to its suspend line, a suspension the tokens of all llm.calls so far |
| `RunEvents.LedgerMatchesEvents` | crates/hesmos-orchestrator/src/runner.rs:888-907 | in every run the ledger holds, role by role and column by column, the tokens of the llm.call events |
| `RunEvents.GateEventsAreAnswers` | crates/hesmos-orchestrator/src/runner.rs:1211-1230 | the gate events of a run are the answers of its gates, field by field and in order, but for fails the runner records itself; each gate was shown the budget state that the events before add up to, and the minimum score is the lowest on record |
| `RunEvents.AcceptsOnRecord` | crates/hesmos-orchestrator/src/runner.rs:1073-1096 | the handoff.accept events of a run are its accepted handoffs, in order, and the last one to a node carries the hash of the contract routed into it |
| `RunEvents.CallsAreTold` | crates/hesmos-orchestrator/src/runner.rs:826-857 | every executor call was made right after the interrupt flag was found down, with the role and model of its stage |
| `RunWork.CallsAreLogged` | crates/hesmos-orchestrator/src/runner.rs:840-907 | every executor call stands in the log with its tool.call events in order and behind them the llm.call with the numbers of its report, or the objection of the sentinel exactly when it objects; no other tool.call or llm.call exists but those of replayed rows |
| `RunWarnings.FirstReachIsWarned` | crates/hesmos-orchestrator/src/runner.rs:888-907 | the llm.call that takes a scope to its warn line for the first time is followed at once by the warning of that scope, unless a suspend line or the warn line of a wider scope is reached |
| `RunWarnings.WarningsAtMostFired` | crates/hesmos-orchestrator/src/runner.rs:888-907 | no run has more warnings on record than scopes marked as warned, three at most |
| `RunLostWarnings.RecheckDropsWarning` | crates/hesmos-orchestrator/src/runner.rs:1154-1170 | a warning that the recheck of a commit finds due is marked as given and never recorded |
| `RunLostWarnings.SecondWarningIsLost` | crates/hesmos-orchestrator/src/runner.rs:1154-1170 | a call that takes session and team to their warn lines at once completes its run with both marked as warned and at most one warning on record |
| `RunReports.CallsAreInPlace` | crates/hesmos-orchestrator/src/runner.rs:826-857 | every executor call was made for the node of its commit after the pre-gates of that node had passed, with its wave, role and model, the payloads of all its predecessors, and the number of earlier calls as its attempt number |
| `RunReports.CommitsHoldReports` | crates/hesmos-orchestrator/src/runner.rs:1130-1152 | every commit that was not replayed stored the report of its last executor call, to whose prompt the sentinel did not object, in an envelope with its numbers, addressed to the sole successor or the node itself |
| `RunConcerns.ConcernsAreRetriedNodes` | crates/hesmos-orchestrator/src/runner.rs:1165-1170 | the concerns of a run are the nodes stopped as done after at least one retry |
| `Runner.SessionRunner.constructor` | crates/hesmos-orchestrator/src/runner.rs:566-650 | a session opens with its two opening events, the head of their chain, and nothing else |
| `Runner.SessionRunner.AppendToSink` | crates/hesmos-orchestrator/src/runner.rs:1211-1216 | an event of the runner or of its executor: it is appended and the head of the log is that of the extended log; nothing else changes |
| `Runner.SessionRunner.EmitEvent` | crates/hesmos-orchestrator/src/runner.rs:1211-1216 | one event of the runner is appended and the chain head the runner keeps is its hash; nothing else changes |
| `Runner.SessionRunner.RecordScoreValue` | crates/hesmos-orchestrator/src/runner.rs:1227-1230 | the minimum of the scores |
| `Runner.SessionRunner.Interrupted` | crates/hesmos-orchestrator/src/runner.rs:669-671 | one poll of the flag |
| `Runner.SessionRunner.RunGate` | crates/hesmos-orchestrator/src/runner.rs:1218-1225 | one gate run: its event and its score |
| `Runner.SessionRunner.StopNode` | crates/hesmos-orchestrator/src/runner.rs:1182-1198 | the stop event of the boundary |
| `Runner.SessionRunner.BumpAttempt` | crates/hesmos-orchestrator/src/runner.rs:1177-1180 | the attempt counter of the node grows by one |
| `Runner.SessionRunner.OrdinalOf` | crates/hesmos-orchestrator/src/runner.rs:1378-1389 | the count through the waves is the place in the commit order |
| `Runner.SessionRunner.GatherInputs` | crates/hesmos-orchestrator/src/runner.rs:1240-1256 | payloads and marks of exactly the predecessors that have an output |
| `Runner.SessionRunner.BuildInputEnvelope` | crates/hesmos-orchestrator/src/runner.rs:1238-1280 | the specified input envelope |
| `Runner.SessionRunner.PreGateLoop` | crates/hesmos-orchestrator/src/runner.rs:769-822 | pre-gates in order until one does not pass |
| `Runner.SessionRunner.PostGateLoop` | crates/hesmos-orchestrator/src/runner.rs:918-948 | post-gates in order; the first that does not pass |
| `Runner.SessionRunner.EmitToolEvents` | crates/hesmos-ffi/src/composition.rs:541-555 | the tool.call events an executor appends while it works, in order, chained into the same log behind the runner |
| `Runner.SessionRunner.CallExecutor` | crates/hesmos-orchestrator/src/runner.rs:1414-1425 | one executor call: its tool events, its answer and nothing else |
| `Runner.SessionRunner.Execute` | crates/hesmos-orchestrator/src/runner.rs:1398-1425 | the fork's row for the next commit, or one call of the executor |
| `Runner.SessionRunner.VerifyTurn` | crates/hesmos-orchestrator/src/runner.rs:860-866 | only live reports are verified |
| `Runner.SessionRunner.MeterOutput` | crates/hesmos-orchestrator/src/runner.rs:888-907 | llm.call, metering and on a first warning its event |
| `Runner.SessionRunner.RecordAccept` | crates/hesmos-orchestrator/src/runner.rs:1084-1096 | the event, the contract and the history of an accepted handoff |
| `Runner.SessionRunner.RouteEdge` | crates/hesmos-orchestrator/src/runner.rs:1073-1096 | one handoff and what an accept leaves |
| `Runner.SessionRunner.RouteLoop` | crates/hesmos-orchestrator/src/runner.rs:1062-1127 | handoffs in order until one is not accepted |
| `Runner.SessionRunner.FailRoute` | crates/hesmos-orchestrator/src/runner.rs:1104-1125 | the judgment of the router is recorded and the node stops |
| `Runner.SessionRunner.TakeReceipt` | crates/hesmos-orchestrator/src/runner.rs:1130-1138 | the engine's receipt, or the order assertion |
| `Runner.SessionRunner.StoreCommit` | crates/hesmos-orchestrator/src/runner.rs:1430-1463 | checkpoint row, response row and output under the commit number |
| `Runner.SessionRunner.PersistCommit` | crates/hesmos-orchestrator/src/runner.rs:1130-1152 | the specified commit, or nothing |
| `Runner.SessionRunner.SignalSuspend` | crates/hesmos-orchestrator/src/runner.rs:1154-1164 | the suspend signal: its budget event with the session spend, then the stop event |
| `Runner.SessionRunner.CloseCommit` | crates/hesmos-orchestrator/src/runner.rs:1154-1170 | the budget check at the commit boundary |
| `Runner.SessionRunner.CommitBoundary` | crates/hesmos-orchestrator/src/runner.rs:1130-1170 | the specified end of a routed product |
| `Runner.SessionRunner.RouteAndCommit` | crates/hesmos-orchestrator/src/runner.rs:1051-1171 | routing, then commit, retry or the end of the node |
| `Runner.SessionRunner.GateFailed` | crates/hesmos-orchestrator/src/runner.rs:974-1035 | what the first gate that did not pass calls for |
| `Runner.SessionRunner.JudgeOutput` | crates/hesmos-orchestrator/src/runner.rs:909-1042 | post-gates, then routing or the consequence; which gates a commit has passed: RunVerdicts.CommitsAreJudged |
| `Runner.SessionRunner.FailCache` | crates/hesmos-orchestrator/src/runner.rs:865-886 | a cache violation is recorded and never retried |
| `Runner.SessionRunner.FailExecution` | crates/hesmos-orchestrator/src/runner.rs:846-857 | a failed execution retries on the shared budget or halts |
| `Runner.SessionRunner.TakeAttempt` | crates/hesmos-orchestrator/src/runner.rs:826-1042 | one attempt is one turn of the specification |
| `Runner.SessionRunner.AttemptLoop` | crates/hesmos-orchestrator/src/runner.rs:826-1042 | the attempt loop terminates and ends as the specification says |
| `Runner.SessionRunner.PrepareBoundary` | crates/hesmos-orchestrator/src/runner.rs:752-767 | what is fixed for a node while its attempts run |
| `Runner.SessionRunner.FinishBoundary` | crates/hesmos-orchestrator/src/runner.rs:798-826 | the end that the pre-gates call for, or the attempts |
| `Runner.SessionRunner.RunOneNode` | crates/hesmos-orchestrator/src/runner.rs:734-1043 | one node boundary is one node of the specification |
| `Runner.SessionRunner.RunWave` | crates/hesmos-orchestrator/src/runner.rs:683-703 | the nodes of a wave in order, one poll each |
| `Runner.SessionRunner.RunSession` | crates/hesmos-orchestrator/src/runner.rs:675-731 | the nested loops compute exactly the specified run, so every run theorem holds of this object; the reported chain head is the head of the log |

## Left out

- SQLite, files, fsync and the wall clock: tables, the log and the responses directory are sequences and maps; an I/O error other than a failed append is not modelled, and a ledger that cannot be read (counted as zero spend) is not either.
- JSON, YAML and SHA-256 internals: data are datatypes, the chain hash is any function of its inputs, and no injectivity is assumed.
- Machine widths of counters: token sums, the ledger's 64-bit columns and the u8 attempt and retry counters are unbounded here. `RunWitnesses.CountersFitExactly` says for which retry bounds eight bits suffice; how the program goes on beyond them (a panic or a wrap, by build profile) is not modelled.
- Floating point: scores and confidences are real numbers, so NaN (on which the runner panics) does not occur.
- Event attributes other than those named in `Domain.Event`: each kind has its required attributes; the optional escalation text and the attempt attribute of gate events are not kept.
- The concrete gates, executors and the cache sentinel: arbitrary functions; one gate event per gate run is the adapter's own rule.
- Receipt hashes are an arbitrary function of commit number and output; their contents are not modelled.
- Wave indices are positions in the list of waves, without their 32-bit width.
- Resource limits, temperature, team names, knowledge and policy overrides of a plan, and its YAML syntax: a plan starts as its parsed form.
- `Envelope::mark_tainted` updates a field in place; here it yields the marked envelope, and who else holds the envelope is not modelled.
- The session row, its state transitions, the audit of the trace seal, the fork's session id and the choice of fork point by the command line.
- totals_by_team and all_rows of the ledger: the same sums with another key.
- Python bindings (but for the tool.call events of their executor), gateway, dashboard, rendering, exit codes and process handling.
- Engine.CompilePlan: assumes fewer than 2^64 stages, the period of the generator.
- RunEffects.AttemptsProduct: a replayed row of another node always crashes here, while the check is `debug_assert_eq!` (crates/hesmos-orchestrator/src/runner.rs:1418) and absent from release builds, which would go on with that row.
- Runner.SessionRunner.Execute: crashes on a replayed row of another node, as above.
- TraceLog.EventLog.TryAppend: a line torn inside a multi-byte character reads as InvalidLine here, as any torn line does, and as an I/O error in the source, since lines are text and not bytes; further appends after a torn write are not modelled, since the emitting adapter panics on the failure.
- PlanFold.FoldPlan: plan name, team, budget contents, knowledge and policy overrides of the folded plan are not kept.
- Router.LoopGuardRouter.RouteContract: decisions do not carry the contract hash; the runner's events do.
- Budget.Ledger.Record: the cost and time stamp columns of a row are not kept.
