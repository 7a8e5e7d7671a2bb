# Verification model of the agent platform

This project models the workflow kernel of `agent-system` (planner, executor, replanner,
state store, recovery) and the small stateful machines beside it (LRU cache, task queues,
lock, rate limiter, circuit breaker, call quota), and proves what their callers rely on.

- **Planner.** The recursive cycle search, the memoised depth computation and the width
  check are methods over mutable state, proved to decide exactly the mathematical
  properties of the dependency graph: acyclicity (with a topological order as evidence),
  the longest chain, and the size of each level.
- **Replanner.** The two rewriting strategies are methods that build the new plan step by
  step. A replan is shown to be an isomorphism of plans, so everything the planner
  established survives it; where it is none, the exact condition is proved.
- **Executor.** `Execute` is the imperative loop over the store; it is proved equal to a
  run of a round-based machine (`WorkflowKernel`) in which tools, cancellation and the
  session clock are one arbitrary `World`. An attempt can be cancelled, denied, refused by
  the schema check, or end in an exception once its step is marked running: before the tool
  is called, while its audit record is written, or while a snapshot is taken, of an answer,
  of a refusal or of the exhausted step. Theorems about runs hold in every such world unless
  they say which worlds they need.
- **Results.** `KernelResults` accounts for what a call returns: every step it ran, with the
  result it got, and why it ended. `StepFailures` tells a step's stored state and error from
  its attempts alone, and what the replanner makes of that error.
- **Sessions.** `SessionGuarantees.EveryCall` puts the results together for a call on any
  store: on a new session, on one the application has registered just before, or on one
  that earlier calls left behind, replanned or not.
- **Threads.** A batch is run serially in the machine. `BatchSchedule` models the worker
  threads one atomic store call at a time and proves that every interleaving ends in the
  serial outcome, and that every fair one ends; `KernelSchedule` carries that over to the
  machine's rounds.
- **Task queues.** One machine on values, refined by the in-memory queue (shared task
  objects on the heap) and simulated by the Redis queue (records by value in a flat key
  space). `RedisClients` lets any number of disciplined clients interleave their Redis
  commands and proves the operations linearizable; `RedisOverlap` does so for any clients,
  as long as no two operations on one task overlap.
- **Cache, lock, limiter, breaker, quota.** Each is a class proved against a step
  function, and each main theorem is about whole runs of that function. Their answers are
  tied to the calls that came before in both directions: what is granted or found, and that
  nothing is refused or missed without cause (`LruHistory`, `AnswersFollowTheLeases`,
  `RefusedIff`, `OpensAtTheThreshold`).

Clocks are parameters: a call takes its reading as an argument. Times and token levels are
exact reals. Exceptions the source raises are result values, not preconditions.

## Where a promise has a condition

- Local replacement keeps an accepted plan acceptable if and only if the made-up id is not
  already in the plan (`LocalReplaceValidIff`, `LocalReplaceCanCollide`). The planner's own
  ids (`step-1`, ...) never collide (`PlainIdIsSettled`).
- `_rollback_retry` leaves the steps before the failed one as they are. It keeps the plan's
  meaning if and only if none of them depends on a renamed step or has a made-up id
  (`RollbackIsIsomorphicIff`). Acceptance is a little wider, because an old id can come back
  as the new id of another step and a dependency on it is then silently rewired
  (`RollbackCanRewire`); `RollbackValidIff` is exact for every accepted plan. Plans listed
  in dependency order with plain ids, as the planning strategy makes them, are safe.
- The planner validates a plan but not the order it is listed in. An accepted plan with
  settled ids can end up as `dependency_blocked`, on some store and in some world, if and
  only if it is not listed in dependency order and the executor can replan
  (`KernelBlocked.BlocksIff`).
- A replan renames only the failed step, or the steps from it on; a sibling of the same
  batch whose success was not noted runs again under the new plan version
  (`SiblingSucceedsTwice`). `WinsTwiceIff` says which configurations allow that: those with
  a tool call, a replan and a batch of two. `CallIsAtMostOnce` is the guarantee for the rest.
- A success whose audit write raises never reaches the store and can happen again on the
  next call (`WinIsFinalIff`, `UnloggedSuccessIsRepeated`); at most once therefore asks for
  worlds that log every success (`Logs`).
- A success that is stored and then cannot be copied into its snapshot is reported as a
  failure (`StoreAgreesIff`) and may be replanned (`UnsavedSuccessIsReplanned`).
- After a successful run, submitting the plan again makes no tool call if and only if no
  step of it was given up before it was stored; where every success can be saved, that is if
  and only if nothing was replanned (`ResubmittingIsFreeIff`).
- Every run halts if and only if both concurrency limits are at least 1; below that a run
  that nothing interrupts spins for ever, and a session timeout ends it
  (`EveryRunHaltsIff`, `SpinsForever`, `InterruptionHalts`). `ExecutionControl.from_request`
  and `validate_plan` exclude such limits.
- `CircuitBreaker.reset` ignores a tool the instance has not loaded, so it is lost right
  after a restart. No later answer shows that if and only if the reset had nothing to do
  (`FirstResetIsTransparentIff`); otherwise `LostResetShows` gives calls that do.
- The two queues reply alike if and only if no `dequeue` finds at its head an id whose record
  was removed while it waited (`RepliesAgreeIff`, `AckedWhileWaitingTellsThemApart`).
- Clients of one Redis server see a sequential queue as long as no two operations on one
  task overlap (`LinearizableWithoutOverlap`), which clients that ack and nack only what they
  were handed themselves ensure (`DisciplineAvoidsOverlap`, `Linearizable`). Two overlapping
  acks can both be told the task was there (`TwoAcksCanBothSucceed`); but not every overlap
  shows: two nacks of a task with deliveries left do no harm (`NackRaceIsHarmless`).
- A cached value can be crowded out by fewer puts of other keys than the capacity, because
  hits on other keys count as uses too (`HitsCrowdOut`). It is there as long as fewer other
  keys than the capacity are asked for or put between two uses of it (`LastPutIsAnswered`);
  `LastPutIsAnsweredIff` is exact.
- Idempotency keys of one step tell requests and versions apart. Keys of two steps can
  coincide when a step id contains a colon, and only then (`IdempotencyKeyInjective`,
  `IdempotencyKeysCanCollide`).
- A refused `check` suggests a wait rounded to hundredths; waiting that long is enough if and
  only if it was not rounded down and the request fits into a full bucket
  (`SuggestedWaitSufficesIff`).
- The quota bounds every half-open second by the limit. A closed second can hold twice the
  limit, no more, and no more than the limit when no two calls lie exactly one second apart
  (`ClosedSecondIsBounded`, `ClosedSecondAttained`).
- `docs/tooling/degrade-strategy.md` lines 34-36 speak of a probe call in the half-open
  state; the code admits every request in it (`src/gateway/circuit_breaker.py` lines 91-92):
  `HalfOpenAdmitsAll`. So it is left to the callers: through calls that keep the circuit half
  open (`StaysHalfOpenIff` tells which), at most one probe is out at every moment if and only
  if a result is recorded between any two requests (`OneProbeOutIff`).

## Model

| member | source | states |
|---|---|---|
| SessionGuarantees.EveryCall | agent-system/src/agent/executor.py:95-285 | any call with an accepted plan that is listed in dependency order and has no replanned ids, and limits of at least 1, on any store and in any world, ends within the work bound and never as `dependency_blocked`; its last plan is one the planner would accept and is the submitted plan seen through the replan history; success means every step of the last plan is a success in the store; the submitted plan is then complete in the store iff no step of it was given up before it was stored, and in worlds that save every success iff nothing was replanned |
| SessionGuarantees.PlanIsAlwaysValid | agent-system/src/agent/executor.py:262-272 | every plan a run ever works on, after any number of replans and on any session, is one `validate_plan` would accept, although nobody calls it again |
| SessionGuarantees.ResubmittingIsFreeIff | agent-system/src/agent/executor.py:112-122 | after a successful call, submitting the same plan again makes no tool call, in any configuration and world, iff the call gave no step of it up before it was stored; where every success can be saved, iff it did not replan |
| SessionGuarantees.ReplannerKeepsPlansValid | agent-system/src/agent/replanner.py:68-139 | whatever the replanner answers to a failed step of an accepted plan listed in order, the plan stays acceptable |
| SessionGuarantees.NoStepIsWonTwiceInASession | agent-system/src/agent/executor.py:112-122 | over any sequence of calls on one session, from any store, in worlds that log every success, no step id gets two successful tool calls, provided each call cannot replan, runs an ordered plan one step at a time, or did not replan |
| PlanningStrategy.AnalysisPlanIsSubmittable | agent-system/src/agent/planner.py:119-143 | the strategy's own three-step plan, under the default limits, meets every hypothesis of the executor's guarantees |
| PlanningStrategy.SmallOrderedPlanIsSubmittable | agent-system/src/agent/planner.py:225-242 | well-formed steps with unique plain ids, listed in dependency order and no more than either limit, make a plan that `validate_plan` accepts and that is fit for the executor |
| RateLimiterTheory.SuccessiveWaitsGrow | src/gateway/rate_limiter.py:80-90 | in every run, from one refusal of a caller to the next with no grant and no reset of its bucket in between, the suggested wait, rounded as it is, does not shrink and never exceeds its rounded cap |
| RateLimiterTheory.WaitCountsRefusals | src/gateway/rate_limiter.py:72-90 | the wait a refusal suggests is the base wait, multiplied once for each refusal since the caller's last grant or reset, up to the cap: a grant starts the backoff over |
| RateLimiterTheory.SuggestedWaitSufficesIff | src/gateway/rate_limiter.py:51-65 | a caller that waits as long as a refused check suggests, with nobody else at its bucket, finds its tokens there iff the wait was not rounded down and the request fits into a full bucket |
| DependencyGraph.OrderForbidsCycles | agent-system/src/agent/planner.py:303-326 | a topological order rules out every cycle through its ids, so a search that produces one is right to accept |
| DependencyGraph.DepthRecurrence | agent-system/src/agent/planner.py:370-379 | on an acyclic graph the longest dependency chain is one longer than the longest among the dependencies, and 1 without any: the recursion of `depth_of` computes it |
| DependencyGraph.EqualDepthIsUnreachable | agent-system/src/agent/planner.py:342-358 | steps of equal depth cannot reach one another, so a level's size is a true width |
| Plans.DependencyOrderIsAcyclic | agent-system/src/agent/planner.py:119-143 | a plan listed in dependency order, as the planning strategy lists it, is closed and acyclic |
| Plans.AcceptedPlanIsSmall | agent-system/src/agent/planner.py:225-242 | an accepted plan has at most max_depth * max_parallel steps |
| Plans.SmallPlanIsValid | agent-system/src/agent/planner.py:225-242 | a closed acyclic plan of well-formed steps with no more steps than its limits is accepted |
| Planner.CycleSearch.Dfs | agent-system/src/agent/planner.py:314-323 | ends on every graph; reports a cycle only when there is one; otherwise `visited` grows and stays a topological order, and `visiting` is restored |
| Planner.ValidateAcyclic | agent-system/src/agent/planner.py:303-326 | returns normally iff the dependency relation has no cycle, on every plan, and then the order of visits is a topological order of all steps |
| Planner.DepthTable.Compute | agent-system/src/agent/planner.py:370-379 | the memoised recursion ends and returns the longest chain; every cached value is one |
| Planner.BuildDepthMap | agent-system/src/agent/planner.py:360-383 | maps every step, and for a closed plan with unique ids nothing else, to its longest chain |
| Planner.CountLevels | agent-system/src/agent/planner.py:350-352 | the counting loop gives the size of every depth level, and no entry for an empty one |
| Planner.EstimateParallelism | agent-system/src/agent/planner.py:349-353 | the estimate is the size of the widest level |
| Planner.ValidateStepFields | agent-system/src/agent/planner.py:258-286 | accepts iff ids are unique and all fields pass; otherwise names the first bad step |
| Planner.ValidateDependencies | agent-system/src/agent/planner.py:288-301 | accepts iff every dependency names a step; otherwise names the first dangling reference |
| Planner.ValidateDepth | agent-system/src/agent/planner.py:328-340 | accepts iff no dependency chain is longer than max_depth; an empty plan raises; a refusal carries the true depth |
| Planner.ValidateParallelism | agent-system/src/agent/planner.py:342-358 | accepts iff no depth level is wider than max_parallel; a refusal carries the true width |
| Planner.ValidatePlan | agent-system/src/agent/planner.py:225-242 | accepts exactly the valid plans; each kind of refusal tells what holds and what failed, in the order of the checks |
| StepNames.RenamedInjective | agent-system/src/agent/replanner.py:156 | the suffix `-replan-v{n}` can be read off: a renamed id determines the old id and the version |
| StepNames.PlainIdIsSettled | agent-system/src/agent/planner.py:105-143 | an id without the letter v can never be produced by a later replan |
| StepNames.RenamedIsSettled | agent-system/src/agent/replanner.py:214-216 | an id made up for one version is never made up again for a later one |
| Replanner.BuildDecision | agent-system/src/agent/replanner.py:108-139 | a human for exactly the listed codes no replan can mend, local replacement for exactly the listed transient codes, rollback for every other code and for none; it replans iff it does not call for a human |
| Replanner.DoLocalReplace | agent-system/src/agent/replanner.py:141-189 | the loop yields the plan in which the failed step has its new id and every reference to it follows, with the one mapping that says so |
| Replanner.FindStepIndex | agent-system/src/agent/replanner.py:263-274 | the index of the first step with that id; none iff there is no such step |
| Replanner.BuildStepIdMap | agent-system/src/agent/replanner.py:214-216 | the map renames exactly the ids of the suffix, each to its versioned name |
| Replanner.RemapSuffix | agent-system/src/agent/replanner.py:218-237 | each suffix step is renamed, its references into the suffix follow and all others stay; one mapping per step, in order |
| Replanner.DoRollbackRetry | agent-system/src/agent/replanner.py:191-248 | prefix untouched, suffix renamed, one mapping per renamed step; fails iff the failed id is not in the plan |
| Replanner.ReplanAfterFailure | agent-system/src/agent/replanner.py:68-89 | the outcome is the unchanged plan, a local replacement or a rollback, as the error category says |
| Replanner.ReplanForMissingDependency | agent-system/src/agent/replanner.py:91-106 | always a rollback from the blocked step; fails iff that id is not in the plan |
| ReplanTheory.UniquePreserved | agent-system/src/agent/replanner.py:141-248 | an isomorphic plan keeps its ids unique |
| ReplanTheory.ClosedPreserved | agent-system/src/agent/replanner.py:141-248 | an isomorphic plan keeps its dependencies closed |
| ReplanTheory.OrderPreserved | agent-system/src/agent/replanner.py:141-248 | an isomorphic plan stays listed in dependency order |
| ReplanTheory.WalkBackward | agent-system/src/agent/replanner.py:169-173 | every dependency chain of the new plan is the image of a chain of the old one, of the same length |
| ReplanTheory.AcyclicPreserved | agent-system/src/agent/replanner.py:141-248 | a rename that is injective on the plan's ids brings in no cycle |
| ReplanTheory.DepthPreserved | agent-system/src/agent/replanner.py:141-248 | each step has the depth its original had |
| ReplanTheory.LevelPreserved | agent-system/src/agent/replanner.py:141-248 | each depth level has the same size as before |
| ReplanTheory.IsomorphicPlanIsValid | agent-system/src/agent/replanner.py:141-248 | isomorphism and unchanged limits keep a plan acceptable to `validate_plan` |
| ReplanTheory.IsomorphicPlanWasValid | agent-system/src/agent/replanner.py:141-248 | and conversely: a plan of well-formed steps isomorphic to an acceptable one is acceptable |
| ReplanGuarantees.LocalReplaceUniqueIff | agent-system/src/agent/replanner.py:155-173 | local replacement keeps the ids unique iff the made-up id is not already in the plan |
| ReplanGuarantees.LocalReplaceValidIff | agent-system/src/agent/replanner.py:141-189 | an accepted plan stays acceptable under local replacement iff the made-up id is not already in it |
| ReplanGuarantees.LocalReplaceCanCollide | agent-system/src/agent/replanner.py:155-173 | a concrete plan the planner accepts, and does not accept after local replacement |
| ReplanGuarantees.RollbackOrphansPrefix | agent-system/src/agent/replanner.py:205-248 | a prefix step that depends on a renamed step whose old id nobody is given ends up with a dangling dependency |
| ReplanGuarantees.RollbackValidIff | agent-system/src/agent/replanner.py:205-248 | for every accepted plan: it stays acceptable under rollback iff no prefix step has a made-up id, none depends on a renamed step whose old id nobody is given, and the plan is acceptable with the prefix depending on what those ids then stand for; in particular iff the first two hold outright when no renamed step has a made-up id |
| ReplanGuarantees.RollbackIsIsomorphicIff | agent-system/src/agent/replanner.py:205-248 | rollback keeps the meaning of a plan iff no step before the failed one depends on a step at or after it, or has an id that the rollback makes up |
| ReplanGuarantees.RollbackCanCollide | agent-system/src/agent/replanner.py:205-248 | a concrete accepted plan with an independent prefix that is not acceptable after rollback, because an id is made twice |
| ReplanGuarantees.RollbackCanRewire | agent-system/src/agent/replanner.py:205-248 | a concrete accepted plan with a dependent prefix that stays acceptable after rollback and means something else |
| ReplanGuarantees.OrderedPrefixIsIndependent | agent-system/src/agent/planner.py:119-143 | a plan listed in dependency order meets that condition at every step |
| ReplanGuarantees.LocalReplaceReplans | agent-system/src/agent/replanner.py:155-189 | raises the version by exactly one and yields an isomorphic plan, with mappings that describe the isomorphism |
| ReplanGuarantees.RollbackReplans | agent-system/src/agent/replanner.py:205-248 | the same for rollback of a plan listed in dependency order |
| ReplanGuarantees.ReplanStaysWorkable | agent-system/src/agent/replanner.py:60-106 | unique ids, dependency order and settled ids survive every replan, so the argument repeats |
| ReplanGuarantees.ReplanMarks | agent-system/src/agent/replanner.py:141-248 | the steps a replan renames, the failed one alone or all from it on, get the strategy's mark in their goal and one mapping each in plan order; all other steps keep id and goal; a handoff returns the plan as it was |
| ReplanGuarantees.DescentExtends | agent-system/src/agent/executor.py:691-711 | composing the mappings of the history still maps the original steps and dependencies onto the current plan after one more replan |
| StateStore.IdempotencyKeyPinsVersion | agent-system/src/state/store.py:375-384 | keys of one step under two versions are equal only for equal versions |
| StateStore.IdempotencyKeyPinsRequest | agent-system/src/state/store.py:375-384 | keys of one step are equal only for equal requests and versions |
| StateStore.IdempotencyKeyInjective | agent-system/src/state/store.py:375-384 | among step ids without a colon a key determines request, step and version |
| StateStore.IdempotencyKeysCanCollide | agent-system/src/state/store.py:375-384 | with a colon in a step id two steps of two requests can share a key |
| StateStore.SuccessIsSkippedIff | agent-system/src/state/store.py:280-294 | a step that succeeded under one version is skipped by a run of another version iff the versions are equal |
| StateStore.InsertedSteps | agent-system/src/state/store.py:129-153 | upserting registers exactly the plan's ids besides the old ones, alters no existing step, only appends to the sequence and keeps it free of repeats |
| StateStore.InsertedStepsAreFresh | agent-system/src/state/store.py:145-151 | every id an upsert adds starts as the plan describes it, pending, without attempts |
| StateStore.InitialisedFields | agent-system/src/state/store.py:92-127 | a joined session takes over the request, and the trace if there is one, keeps its status and never goes down in version; a new one starts pending with exactly the plan's steps |
| StateStore.InMemoryStateStore.InitSession | agent-system/src/state/store.py:92-127 | joins the existing session or creates one, and touches no other session |
| StateStore.InMemoryStateStore.UpsertPlanSteps | agent-system/src/state/store.py:129-153 | the insertion loop adds the missing steps of that session in plan order; an unknown session is an error that changes nothing |
| StateStore.InMemoryStateStore.MarkStepRunning | agent-system/src/state/store.py:199-211 | one step goes to running with one attempt more, all else unchanged; unknown ids are an error |
| StateStore.InMemoryStateStore.MarkStepSuccess | agent-system/src/state/store.py:226-248 | one step becomes a success with result and key and without error, all else unchanged |
| StateStore.InMemoryStateStore.MarkStepFailed | agent-system/src/state/store.py:250-263 | one step becomes a failure with that error and keeps result, key and attempts |
| StateStore.InMemoryStateStore.CompletedStepIds | agent-system/src/state/store.py:345-358 | exactly the successful steps, in registration order |
| StateStore.CompletedInOrder | agent-system/src/state/store.py:345-358 | of two completed ids the one listed first was registered first |
| Recovery.FindRecoveryPoint | agent-system/src/state/recovery.py:39-79 | reads back exactly the store's successes, and resumes at the first step in sequence that is not one, or at the step asked for |
| StepRunner.RunStepOutcome | agent-system/src/agent/executor.py:342-487 | a reported success is stored under this key, and is new only if the tool succeeded; a skip calls no tool and changes nothing; the tool is called at most once per allowed attempt; attempts never go down |
| StepRunner.RunAttemptsOutcome | agent-system/src/agent/executor.py:380-487 | the attempt that decides the run tells what is stored, what is reported and whether the tool succeeded, including exceptions before and after the mark; each tool call is counted as an attempt |
| StepRunner.StoreAgreesIff | agent-system/src/agent/executor.py:443-459 | store and report agree on a step iff its success was not stored and then lost with its snapshot |
| StepRunner.WinIsFinalIff | agent-system/src/agent/executor.py:434-456 | a step that got a successful tool call can get another one under the same key iff the audit write of the first raised |
| StepFailures.ExhaustedStep | agent-system/src/agent/executor.py:465-487 | when every allowed attempt fails retryably, the step is stored as failed with `retry_exhausted` around the last answer's error and one attempt and tool call per allowed attempt, keeps its result and key, and reports just that error, or `executor_internal_error` if its own snapshot raises |
| StepFailures.DecidedState | agent-system/src/agent/executor.py:381-464 | the first attempt that does not fail retryably fixes the whole stored step: status, error with its code, attempts counter, result and key, for a cancellation, a refusal, an exception at any point, a success and a final failure |
| StepFailures.DecidedReport | agent-system/src/agent/executor.py:381-464 | that attempt also fixes what is reported, with its code, the number of tool calls and whether one succeeded; an answer whose snapshot raises is reported as `executor_internal_error` |
| StepFailures.SkippedStep | agent-system/src/agent/executor.py:365-378 | a step that already succeeded under this very key is answered from the store, or as an idempotent skip where it has no result, without a tool call or a change |
| StepFailures.ExhaustedIsReplacedIff | agent-system/src/agent/replanner.py:108-139 | the replanner replaces a step that used up its retries locally, iff the snapshot of the exhausted step was saved; otherwise it rolls back |
| StepFailures.DecidedFailureIsReplanned | agent-system/src/agent/replanner.py:108-139 | a step that one attempt ends and that fails goes to a human iff it was refused by policy or schema or its tool said one of the three final codes, and is replaced locally iff its tool said one of the four transient codes; an answer whose snapshot raises counts for nothing |
| BatchSchedule.ActKeepsForecast | agent-system/src/agent/executor.py:365-487 | no atomic store access of a worker changes how that worker will end |
| BatchSchedule.ActMakesProgress | agent-system/src/agent/executor.py:382-468 | every action of an unfinished worker brings it closer to its end |
| BatchSchedule.ScheduleIndependence | agent-system/src/agent/executor.py:305-340 | every interleaving of a batch's workers leaves the step states of the serial run in plan order, and gives each step the result of running it alone |
| BatchSchedule.FairScheduleFinishes | agent-system/src/agent/executor.py:305-340 | whatever the order, workers that all keep getting turns run the batch to its end |
| BatchSchedule.FinishingSchedule | agent-system/src/agent/executor.py:305-340 | every batch has a schedule that runs it to its end |
| BatchSchedule.CompletionOrderIsIrrelevant | agent-system/src/agent/executor.py:321-340 | the ordered result list is the same for every order in which the futures complete |
| KernelSchedule.AnyScheduleIsTheRound | agent-system/src/agent/executor.py:305-340 | at any round of a plan with unique ids, every interleaving of the batch's worker threads ends in the very store and the very ordered results of the batch the machine runs |
| KernelSchedule.FairRoundFinishes | agent-system/src/agent/executor.py:305-340 | at any round of a plan with unique ids, every fair schedule of the worker threads ends, with the step states of the batch the machine runs |
| KernelSchedule.BatchIsSerial | agent-system/src/agent/executor.py:305-340 | running the batch on the store step after step gives each step the state and result it has when run alone |
| WorkflowKernel.BatchIs | agent-system/src/agent/executor.py:184-222 | only a pending step with all its dependencies completed enters a batch |
| KernelResults.RunsIff | agent-system/src/agent/executor.py:162-222 | in a plan with unique ids a runnable step is in the batch iff fewer runnable steps than either concurrency limit are listed before it |
| KernelResults.RoundReports | agent-system/src/agent/executor.py:222-282 | a pass reports the steps of its batch in plan order, each with its id, tool, the plan version and the result its own run gave it on the store it started from, up to the first failure; it completes exactly the steps it reports as successes |
| KernelResults.ReportsOne | agent-system/src/agent/executor.py:231-242 | there is only one such report of a pass |
| KernelResults.StepsStartAtTheHead | agent-system/src/agent/executor.py:305-340 | where ids are unique each step of a batch starts from what the store held when the pass began |
| KernelResults.CallReports | agent-system/src/agent/executor.py:124-285 | the step results of any call are the reports of its passes, one after another; the steps completed in the call are exactly those with a successful record, besides the successes it found in the store; a call that fails on a step ends its results with that step and returns its error |
| KernelResults.EndingTells | agent-system/src/agent/executor.py:131-285 | a call succeeds iff at its last loop head it is neither cancelled nor timed out and every step is completed; otherwise it returns `session_cancelled`, `session_timeout`, `dependency_blocked` or its last record's error, in this order of precedence, with the matching session status |
| KernelResults.FailureEndsTheCallIff | agent-system/src/agent/executor.py:256-282 | a failed step ends the call iff there is no replanner, its budget is spent or the code is one for a human; any other failure is replanned, the code choosing local replacement or rollback, with one more replan in the count and the history |
| KernelResults.RunningUntilItEnds | agent-system/src/agent/executor.py:124-131 | at every loop head of a call its session is running |
| KernelTermination.RoundDecreases | agent-system/src/agent/executor.py:131-285 | every continuing pass spends a replan or shrinks the pending steps, lexicographically |
| KernelTermination.RunStopsSomewhere | agent-system/src/agent/executor.py:131-285 | every run passes finitely many loop heads and stops in the round after the last |
| KernelTermination.WorkBound | agent-system/src/agent/executor.py:381-487 | a run makes at most steps * (max_replan_attempts + 1) * (max_retry_attempts + 1) tool calls, whatever the tools return |
| KernelTermination.LimitAdmitsStepIff | agent-system/src/agent/executor.py:221-222 | the slice of a nonempty ready list is nonempty for every list iff the limit is at least 1 |
| KernelTermination.EveryRunHaltsIff | agent-system/src/agent/executor.py:131-285 | every run under given limits halts, with or without an interruption, iff both concurrency limits are at least 1 |
| KernelTermination.SpinsForever | agent-system/src/agent/executor.py:221-229 | under a limit below 1 an uninterrupted run with a step left never stops and never changes anything |
| KernelTermination.InterruptionHalts | agent-system/src/agent/executor.py:131-160 | a session timeout or a cancellation at any reading ends the run, whatever the limits |
| KernelSafety.SafeAlways | agent-system/src/agent/executor.py:131-285 | at every iteration of every run the completed set is part of the store's successes, and every success has its result on record |
| KernelSafety.StepsStartAfterDependencies | agent-system/src/agent/executor.py:184-229 | every step that starts, at any iteration, has all its dependencies in the completed set and that set is stored as successes |
| KernelSafety.SuccessIsStored | agent-system/src/agent/executor.py:167-182 | a run that returns success leaves its session successful and every step of its final plan a success in the store |
| KernelSafety.BatchSuccess | agent-system/src/agent/executor.py:443-456 | every success a batch reports is still a success in the store, under this version's key, when the batch is over |
| KernelProgress.PendingHasReady | agent-system/src/agent/executor.py:162-190 | in a closed acyclic plan, in whatever order it is listed, pending steps mean ready steps |
| KernelProgress.NeverBlocked | agent-system/src/agent/executor.py:184-209 | at every iteration of every run of a workable plan, after any number of replans, pending steps mean ready steps |
| KernelBlocked.BlocksIff | agent-system/src/agent/executor.py:184-219 | an accepted plan with settled ids ends as `dependency_blocked` on some store and in some world iff it is not listed in dependency order and the executor can replan |
| KernelBlocked.UnreplannedIsNotBlocked | agent-system/src/agent/executor.py:184-209 | a closed acyclic plan, in whatever order it is listed, never ends as `dependency_blocked` when the executor cannot replan |
| KernelBlocked.TooEarlyBlocks | agent-system/src/agent/executor.py:190-219 | when a step is listed before one it depends on, a store and a world are constructed in which the call spends every replan and ends blocked |
| KernelProgress.RunIsTraceable | agent-system/src/agent/executor.py:211-219 | no such run ends as `dependency_blocked`; its final plan is the original one seen through the composed mappings, ids unique, version up by one per replan |
| KernelProgress.ReplansAddOnlyNewSteps | agent-system/src/agent/executor.py:262-272 | on a session nothing was replanned on before, the target ids of each replan are new to the whole session, and adopting it alters no step already registered |
| KernelProgress.EveryReplanIsProper | agent-system/src/agent/executor.py:262-272 | every pass of a run, on any session, leaves the plan alone or makes one replan that is an isomorphism described by its mappings |
| KernelProgress.TracedAlways | agent-system/src/agent/executor.py:131-285 | at every loop head, on any session, the current plan is the original seen through the history, has unique ids in dependency order and is registered step by step |
| KernelResume.CallWinsOnce | agent-system/src/agent/executor.py:112-122 | where every success is logged, one call without a replan wins no step twice, wins none that was already a success, and alters no earlier success |
| KernelResume.NoStepIsWonTwice | agent-system/src/state/recovery.py:51-79 | calls that keep that contract, chained through a store that keeps successes, never win a step twice |
| KernelResume.NextCallKeepsSteps | agent-system/src/state/store.py:110-117 | a later call on a session starts from exactly the successes the last one left, every old step unaltered |
| KernelResume.FinishedPlanIsFree | agent-system/src/agent/executor.py:162-182 | a plan whose steps are all successes runs without a tool call and without touching a step or its attempts counter |
| KernelAtMostOnce.CallIsAtMostOnce | agent-system/src/agent/executor.py:231-272 | where every success is logged, a call that cannot replan, or that runs an ordered plan one step at a time whatever it replans, wins no step twice and none that was already a success |
| KernelExamples.WinsTwiceIff | agent-system/src/agent/executor.py:231-272 | some ordered plan, store and logging world lets a configuration win a step twice in one call iff it can call a tool, can replan and can run two steps in a batch |
| KernelExamples.SiblingSucceedsTwice | agent-system/src/agent/executor.py:231-272 | a concrete plan, world and store, under every configuration that can replan and batch two, in which a step that succeeded succeeds again |
| KernelExamples.UnloggedSuccessIsRepeated | agent-system/src/agent/executor.py:434-451 | a success that is not logged is not stored: two calls on one session, without a replan, each win the same step |
| KernelResubmit.ResubmitIsFreeIff | agent-system/src/agent/executor.py:256-272 | in every world, after a successful run every step of the submitted plan is a success in the store iff none was taken out of the plan before it was one |
| KernelResubmit.ResubmitIsFreeIffNotReplanned | agent-system/src/agent/executor.py:256-272 | in worlds that save every success: iff the run did not replan |
| KernelResubmit.GoneStays | agent-system/src/agent/executor.py:262-272 | a step a replan took out of the plan never comes back, and its record is never touched again |
| KernelExamples.UnsavedSuccessIsReplanned | agent-system/src/agent/executor.py:453-459 | a success that is stored and not saved is replanned, and the submitted plan is complete in the store after one replan |
| Executor.FromRequest | agent-system/src/agent/execution_context.py:57-84 | no limit is below 1, whatever the request says; absent options mean 2 workers, 8 and 60 seconds; admissible values are kept |
| Executor.Executor.ExecuteSingleStep | agent-system/src/agent/executor.py:342-487 | the retry loop over the store ends every step as `RunStep` says, and touches no other step or session |
| Executor.Executor.ExecuteReadySteps | agent-system/src/agent/executor.py:287-340 | runs the batch step by step on the store; the results come in plan order |
| Executor.Executor.NoteOutcomes | agent-system/src/agent/executor.py:232-254 | notes the outcomes up to and including the first failure; only the successes before it count as completed |
| Executor.Executor.WorkRound | agent-system/src/agent/executor.py:221-282 | a working pass leaves the store, the loop's variables and the result as the machine's round does |
| Executor.Executor.BlockedRound | agent-system/src/agent/executor.py:190-219 | a blocked pass replans within the budget or fails the session |
| Executor.Executor.RoundOnce | agent-system/src/agent/executor.py:131-285 | one pass of the loop, tests in the source's order, does what the machine's round does |
| Executor.Executor.Begin | agent-system/src/agent/executor.py:111-129 | the completed set the loop starts with is exactly the store's successes, and the session is running |
| Executor.Executor.Execute | agent-system/src/agent/executor.py:95-285 | the loop ends, returns what the machine's run returns, leaves that run's session in the store and every other session alone |
| LruCache.LRUCache.Get | src/rag/cache.py:74-98 | a live entry is returned and becomes the most recent, an expired one is dropped; exactly one of the three counters goes up |
| LruCache.LRUCache.Put | src/rag/cache.py:100-115 | the new entry is the most recent, the oldest others go until it fits, evictions are counted; a capacity below 1 empties the cache and raises |
| LruCache.LRUCache.Evict | src/rag/cache.py:105-108 | the loop keeps the newest entries, fewer than the capacity, and counts what it drops |
| LruCache.LRUCache.Invalidate | src/rag/cache.py:117-122 | removes that key and nothing else; true iff it was there |
| LruCache.LRUCache.InvalidateByPrefix | src/rag/cache.py:124-129 | removes exactly the keys with the prefix, keeps the order of the rest, returns how many went |
| LruCache.LRUCache.Clear | src/rag/cache.py:131-133 | leaves no entry and keeps the statistics |
| LruHistory.LastPutIsAnswered | src/rag/cache.py:74-115 | as long as fewer other keys than the capacity are used between two uses of a key and only gets within its time touch it, a get answers the value last put as a hit iff it comes within the ttl given, or the default where none or zero was, and answers expired after that |
| LruHistory.LastPutIsAnsweredIff | src/rag/cache.py:74-133 | through calls that do not remove a key, put it again or find it expired, a get of it is a miss iff at some moment as many other keys as the capacity had been put or hit since its own last use and not been removed since; otherwise it answers the value last put, or expired once the ttl is over |
| LruHistory.AbsentIsMissed | src/rag/cache.py:83-133 | a key never put, or removed since by its name, by a prefix, by a clear or by a get that found it expired, is a miss |
| LruHistory.CrowdedOutIsMissed | src/rag/cache.py:100-115 | once as many other keys as the capacity have been put since the key's last use, none of them removed again, a get is a miss |
| LruHistory.HitsCrowdOut | src/rag/cache.py:94-115 | uses count and not puts: with room for two, a hit on the older key and one put of a third crowd the newer key out |
| LruHistory.HitsAreCounted | src/rag/cache.py:94-98 | the hit count of an entry is the number of gets since it was put |
| LruInclusion.CallKeepsIncluded | src/rag/cache.py:74-133 | one and the same call on a small and a large cache keeps the small one part of the large one, and the large one not too far ahead |
| LruInclusion.Inclusion | src/rag/cache.py:59-133 | after any calls at the same clock readings, every entry of a cache of capacity n is an entry of one of capacity m >= n >= 1, and every hit in the small one is the same hit in the large one |
| QueueConservation.NothingIsLost | src/scheduler/in_memory_queue.py:23-68 | in every disciplined run each task is in exactly one of pending, processing, acked and dead; it waits once and in its own queue only; it is delivered at most max(1, max_retries) times; the dead are exactly those delivered that often and neither in hand nor acked |
| QueueConservation.NackBuriesExactlyWhenExhausted | src/scheduler/in_memory_queue.py:51-64 | a nack of a task in hand kills it iff it was delivered at least max_retries times; otherwise it goes to the back of its own queue |
| QueueConservation.DequeueIsSound | src/scheduler/in_memory_queue.py:31-41 | under the invariant a dequeue never raises, serves the head of the queue, and never hands out a task somebody holds |
| QueueConservation.StepConserves | src/scheduler/in_memory_queue.py:23-78 | every disciplined call keeps the conservation invariant |
| QueueConservation.ServedInOrder | src/scheduler/in_memory_queue.py:31-64 | a queue serves exactly what joined it, new or requeued, in the order it joined |
| QueueConservation.LengthCountsTheWaiting | src/scheduler/in_memory_queue.py:70-72 | at any moment of a disciplined run `queue_length` is the number of ids that joined the queue less those it served |
| QueueConservation.PeekListsTheGivenUp | src/scheduler/in_memory_queue.py:51-68 | at any moment of a disciplined run `peek_dead_letter` lists exactly the tasks given up, in the order in which they were, as they were enqueued but for status and deliveries |
| QueueConservation.TasksTellTheirPast | src/scheduler/in_memory_queue.py:31-68 | in every disciplined run a task handed out or dead-lettered carries the error it was last sent back with and the worker it was last handed to |
| InMemoryQueue.InMemoryTaskQueue.Enqueue | src/scheduler/in_memory_queue.py:23-29 | the very object is filed, pending, and its id joins the back of its queue; nothing else changes |
| InMemoryQueue.InMemoryTaskQueue.Dequeue | src/scheduler/in_memory_queue.py:31-41 | pops the head, hands out the shared object as processing with one attempt more, leaves every other object alone; raises for an id without a record, which is popped all the same |
| InMemoryQueue.InMemoryTaskQueue.Ack | src/scheduler/in_memory_queue.py:43-49 | forgets the task and marks its holder's object completed; false iff there was none |
| InMemoryQueue.InMemoryTaskQueue.Nack | src/scheduler/in_memory_queue.py:51-64 | buries the object or requeues its id, with the error noted; false iff there was none |
| InMemoryQueue.InMemoryTaskQueue.PeekDeadLetter | src/scheduler/in_memory_queue.py:66-68 | the dead letters of that queue, in the order they died |
| InMemoryQueue.InMemoryTaskQueue.QueueLength | src/scheduler/in_memory_queue.py:70-72 | the number of ids waiting under that name |
| InMemoryQueue.InMemoryTaskQueue.Close | src/scheduler/in_memory_queue.py:74-78 | leaves the queue empty |
| RedisQueue.ItemKey | src/scheduler/redis_queue.py:40-42 | an item key gives its id back and is never a queue key or a dead-letter key |
| RedisQueue.RedisTaskQueue.Enqueue | src/scheduler/redis_queue.py:52-59 | the record is written and the id pushed, on a well-typed key space |
| RedisQueue.RedisTaskQueue.Dequeue | src/scheduler/redis_queue.py:61-77 | pops an id, and writes back and returns its record as processing; none when there is no id or no record |
| RedisQueue.RedisTaskQueue.Ack | src/scheduler/redis_queue.py:79-85 | deletes the record; false iff there was none |
| RedisQueue.RedisTaskQueue.Nack | src/scheduler/redis_queue.py:87-107 | moves the record to the dead letters or writes it back and pushes its id; false iff there was none |
| RedisQueue.RedisTaskQueue.Close | src/scheduler/redis_queue.py:122-123 | leaves a key space that represents the empty queue |
| QueueRefinement.StepSimulates | src/scheduler/redis_queue.py:52-123 | one call on both sides keeps the key space representing the queue machine's state, with the same reply except that Redis swallows the `KeyError` |
| QueueRefinement.RepliesAgreeIff | src/scheduler/redis_queue.py:61-77 | on any call sequence the two implementations reply alike iff no dequeue finds at its head an id whose record is gone |
| QueueRefinement.DisciplinedRepliesAgree | src/scheduler/redis_queue.py:52-123 | on every disciplined call sequence the two implementations reply alike |
| QueueRefinement.AckedWhileWaitingTellsThemApart | src/scheduler/in_memory_queue.py:31-49 | enqueue, ack, dequeue: one raises, the other answers that there is no task |
| RedisClients.Linearizable | src/scheduler/redis_queue.py:52-107 | for any number of clients that ack and nack only what they were handed themselves, every interleaving of their Redis commands is explained by one sequential run of the queue machine, disciplined, in which each client finds its own calls in its own order with the replies it was given |
| RedisClients.RealTimeOrder | src/scheduler/redis_queue.py:52-107 | that order respects real time: what was answered by any moment lies before a cut, and what begins later lies after it |
| RedisClients.NeverInTwoHands | src/scheduler/redis_queue.py:61-77 | under any such interleaving no task is ever in the hands of two clients |
| RedisClients.RestIsTheQueue | src/scheduler/redis_queue.py:52-107 | whenever no operation is under way the key space is the queue that the sequential order leaves |
| RedisClients.ActKeepsCoupled | src/scheduler/redis_queue.py:52-107 | any command of any client keeps the key space and the sequential order coupled: lists alike, and records alike but for those in the middle of an operation |
| RedisClients.UndisturbedIsTheStep | src/scheduler/redis_queue.py:52-107 | the commands of an operation, sent one after another, do what the operation does |
| RedisClients.TwoAcksCanBothSucceed | src/scheduler/redis_queue.py:79-85 | two clients that ack one task at the same time are both told it was there, which no sequential order does |
| RedisOverlap.LinearizableWithoutOverlap | src/scheduler/redis_queue.py:52-123 | every interleaving in which no two operations on one task overlap, whatever its clients enqueue, ack, nack or close, is explained by one sequential run of whole operations in which each client finds its own calls in its own order with the replies it was given; the replies are the queue machine's, its `KeyError` answered as no task |
| RedisOverlap.StoryKeepsTime | src/scheduler/redis_queue.py:52-123 | that order respects real time |
| RedisOverlap.RestIsTheStory | src/scheduler/redis_queue.py:52-123 | whenever no operation is under way the key space has the lists and records that order leaves |
| RedisOverlap.DisciplineAvoidsOverlap | src/scheduler/redis_queue.py:52-107 | clients that enqueue fresh ids and ack or nack only what they were handed themselves never overlap on a task |
| RedisOverlap.NackRaceIsHarmless | src/scheduler/redis_queue.py:87-107 | an overlap need not show: two interleaved nacks of a task with deliveries left reply, and leave the key space, as one after the other |
| DistributedLock.InMemoryDistributedLock.TryAcquire | src/scheduler/in_memory_queue.py:95-101 | one poll drops the expired entries and grants iff the name is then free, from the second clock reading on |
| DistributedLock.InMemoryDistributedLock.Acquire | src/scheduler/in_memory_queue.py:88-104 | ends; a grant holds from its clock reading for the ttl; a refusal comes at or after the deadline, with the old lease still in place |
| DistributedLock.InMemoryDistributedLock.Release | src/scheduler/in_memory_queue.py:106-114 | removes the entry iff the holder matches or none is named, and nothing else |
| DistributedLock.InMemoryDistributedLock.IsLocked | src/scheduler/in_memory_queue.py:116-119 | true iff a live lease is on the name; the expired ones are dropped |
| DistributedLock.LeasesAreExclusive | src/scheduler/in_memory_queue.py:88-125 | over every run with a monotone clock no moment lies in two leases of one name |
| DistributedLock.AnswersFollowTheLeases | src/scheduler/in_memory_queue.py:88-125 | over every run with a monotone clock a poll is granted iff its clean-up reading lies in no lease of the name, and a name is answered as locked iff the reading lies in one |
| DistributedLock.GrantBeginsLease | src/scheduler/in_memory_queue.py:95-101 | a granted poll begins a lease at its second reading, for its ttl; a refused one and a query begin none |
| DistributedLock.ReleaseEndsLease | src/scheduler/in_memory_queue.py:106-114 | while a lease lasts a release succeeds iff it names the holder or nobody, and then ends that lease there and then and no other |
| DistributedLock.LateReleaseEndsNothing | src/scheduler/in_memory_queue.py:106-114 | a release with no lease at its reading ends none, whatever it answers |
| DistributedLock.StrangerCannotRelease | src/scheduler/in_memory_queue.py:106-114 | a release that names another holder changes nothing |
| RateLimiter.RateLimiter.Check | src/gateway/rate_limiter.py:51-65 | answers from the refilled level and consumes nothing; a refusal at rate zero raises |
| RateLimiter.RateLimiter.Acquire | src/gateway/rate_limiter.py:67-90 | consumes exactly the tokens granted, or counts a rejection and backs off |
| RateLimiterTheory.GrantsAreBounded | src/gateway/rate_limiter.py:67-112 | the tokens granted to a caller in any interval are at most max_tokens, once more max_tokens for each reset of its bucket in the interval, and rate * length, whatever the other callers ask for |
| RateLimiterTheory.GrantsAreAttained | src/gateway/rate_limiter.py:92-112 | the bound is attained: for any number of resets there is a run that grants so many full buckets and one in a single moment |
| RateLimiterTheory.RefusalsAreForced | src/gateway/rate_limiter.py:67-112 | in every run a refused acquire could not have been granted without exceeding a full bucket and the refill over an interval that ends with it |
| RateLimiterTheory.RefusedIff | src/gateway/rate_limiter.py:67-112 | an acquire of a caller whose bucket was never reset is refused iff granting it would exceed that bound over some interval |
| RateLimiterTheory.AnswerShowsTheLevel | src/gateway/rate_limiter.py:67-90 | an acquire answers with the whole tokens that a check at that moment would find, grants iff the level allows it, and takes just the tokens granted |
| RateLimiterTheory.ChecksChangeNothing | src/gateway/rate_limiter.py:51-65 | any number of checks, anywhere in a run, changes no answer of any acquire |
| CircuitBreaker.CircuitBreaker.DoGetState | src/gateway/circuit_breaker.py:73-76 | loads the circuit and wakes it after the recovery timeout, writing the transition through |
| CircuitBreaker.CircuitBreaker.DoAllowRequest | src/gateway/circuit_breaker.py:83-97 | refuses iff the circuit is still open, counting and persisting the rejection |
| CircuitBreaker.CircuitBreaker.DoRecordSuccess | src/gateway/circuit_breaker.py:99-113 | counts the success, closes after enough probe successes, and writes through |
| CircuitBreaker.CircuitBreaker.DoRecordFailure | src/gateway/circuit_breaker.py:115-130 | counts the failure, opens at the threshold or from half open, and writes through |
| CircuitBreaker.CircuitBreaker.DoReset | src/gateway/circuit_breaker.py:132-136 | closes a loaded circuit and writes through; does nothing for a tool not loaded |
| CircuitBreakerTheory.RunKeepsSynced | src/gateway/circuit_breaker.py:138-174 | after any calls every loaded circuit equals the backend's record, or is pristine where there is none |
| CircuitBreakerTheory.RestartIsTransparent | src/gateway/circuit_breaker.py:138-157 | a fresh breaker on the same backend answers every later call the same, as long as each reset of a tool only one of the two has loaded finds its circuit closed with nothing on the count |
| CircuitBreakerTheory.FirstResetIsTransparentIff | src/gateway/circuit_breaker.py:132-136 | no later answer shows that a reset right after a restart is lost iff the tool was not loaded or its circuit was closed with clean counts |
| CircuitBreakerTheory.LostResetShows | src/gateway/circuit_breaker.py:132-136 | when such a reset had something to do, there are later calls, none of them a reset, that are answered differently |
| CircuitBreakerTheory.HalfOpenAdmitsAll | src/gateway/circuit_breaker.py:91-92 | while no result comes in a half-open circuit stays half open and admits every request |
| CircuitBreakerTheory.OneProbeOutIff | src/gateway/circuit_breaker.py:83-113 | from a half-open circuit on, through calls without a reset, without a failure and with too few successes to close it, at most one admitted request is without a result at every moment iff a result is recorded between any two requests |
| CircuitBreakerTheory.StaysHalfOpenIff | src/gateway/circuit_breaker.py:99-130 | short of a reset, calls leave a half-open circuit half open all along iff they record no failure and, with those counted before, fewer successes than the success threshold |
| CircuitBreakerTheory.HalfOpenProbesIff | src/gateway/circuit_breaker.py:83-97 | whatever keeps the circuit half open, at most one admitted request is without a result at every moment iff a result is recorded between any two requests |
| CircuitBreakerTheory.CountersAgree | src/gateway/circuit_breaker.py:99-130 | in every run, under any configuration, a closed circuit is below its failure threshold or has no failure on the count, a half-open one is below its success threshold or has no success on it, and total_calls = success_count + total_failures |
| CircuitBreakerTheory.OpeningStartsWait | src/gateway/circuit_breaker.py:123-128 | only a recorded failure opens a circuit, and the wait starts at its clock reading |
| CircuitBreakerTheory.OpenCircuitStaysShut | src/gateway/circuit_breaker.py:83-130 | nothing is admitted within the recovery timeout of opening unless reset; late results neither extend nor shorten it |
| CircuitBreakerTheory.OpensAtTheThreshold | src/gateway/circuit_breaker.py:99-130 | short of a reset a closed circuit opens at the first failure that makes failure_threshold of them since the last success, since that failure's reading, and not before; until then every query is answered as closed |
| CircuitBreakerTheory.ProbesDecide | src/gateway/circuit_breaker.py:99-130 | after results that do not end the half-open state, a failure opens the circuit since its own reading, and a success that makes success_threshold of them closes it with nothing on the count |
| CircuitBreakerTheory.OpenWakes | src/gateway/circuit_breaker.py:73-97 | the first query after the recovery timeout makes an open circuit half open, with no probe success on the count, and admits |
| CircuitBreakerTheory.OpenIgnoresResults | src/gateway/circuit_breaker.py:99-130 | results that come in on an open circuit leave it open since the same moment |
| CircuitBreakerTheory.ResetCloses | src/gateway/circuit_breaker.py:132-136 | a reset closes a loaded circuit with nothing on the count, whatever its state, and does nothing for another |
| CircuitBreakerTheory.TotalsAreCounts | src/gateway/circuit_breaker.py:94-130 | over any run the totals grow by the successes, the failures and the refusals there were |
| QuotaTracker.QuotaTracker.DoCheckQps | src/gateway/validator.py:65-71 | prunes what is a second old and admits iff fewer than the limit remain |
| QuotaTracker.QuotaTracker.CheckConcurrency | src/gateway/validator.py:73-74 | admits iff fewer calls are running than the limit |
| QuotaTracker.QuotaTracker.DoRecordCallStart | src/gateway/validator.py:80-85 | adds one timestamp and one running call to that tool only |
| QuotaTracker.QuotaTracker.DoRecordCallEnd | src/gateway/validator.py:87-89 | takes one running call off that tool, never below zero |
| QuotaTracker.PruningIsInvisible | src/gateway/validator.py:65-71 | with a monotone clock the pruned list answers every later check as the full history would |
| QuotaTracker.WindowIsBounded | src/gateway/validator.py:65-85 | when each call is recorded only after a passing check, no half-open second contains more than the limit |
| QuotaTracker.RefusalsAreForced | src/gateway/validator.py:65-71 | a refused check finds a half-open second, not over yet, that already holds the limit's calls |
| QuotaTracker.ClosedSecondIsBounded | src/gateway/validator.py:65-85 | a closed second of a guarded run holds at most twice the limit, and at most the limit when no two recorded calls are exactly one second apart |
| QuotaTracker.ClosedSecondAttained | src/gateway/validator.py:70 | for every limit there is a guarded run with a closed second that holds twice the limit |
| QuotaTracker.ConcurrencyIsInFlight | src/gateway/validator.py:80-89 | when ends never outrun starts the counter is the number of calls in flight |
| QuotaTracker.ConcurrencyIsLargestSurplus | src/gateway/validator.py:80-98 | in every run, paired or not, the counter is the largest surplus of starts over ends that any stretch of calls up to now shows, none of them before the tool's last reset |

## Left out

- Executor.Executor.Execute: requires both concurrency limits to be at least 1, because with a limit below 1 the loop of the source need not end (`EveryRunHaltsIff`); an exception outside the attempts of a step, such as a log or store that fails on the snapshot of the whole run, is not modelled, and neither are timestamps and context summaries.
- Executor.Executor.ExecuteReadySteps: runs the batch serially in plan order; `AnyScheduleIsTheRound` covers the interleavings, for plans with unique ids and attempts whose outcomes do not depend on the schedule.
- Executor.Executor.ExecuteSingleStep: one attempt is one oracle outcome, exceptions after its running mark included; how the policy check, the schema check and the timed tool call arrive at it is not modelled inside.
- Executor.FromRequest: takes the options already parsed; a value that is not a number is not modelled.
- SessionGuarantees.EveryCall: asks for a plan listed in dependency order, which `validate_plan` does not check; `BlocksIff` says what happens without.
- SessionGuarantees.NoStepIsWonTwiceInASession: asks that every success is logged and each call cannot replan, runs one step at a time or did not replan; without these it fails (`UnloggedSuccessIsRepeated`, `SiblingSucceedsTwice`).
- StateStore.InMemoryStateStore.MarkStepSuccess: sessions and steps are values held by the store, so a caller's reference to a session object, which the source shares, is not modelled.
- Recovery.FindRecoveryPoint: the snapshot id of a recovery point is not modelled.
- Planner.ValidatePlan: the texts of the errors, and which id of a cycle is named, are not stated; Python's recursion limit is not modelled.
- Planner.BuildDepthMap: requires an acyclic graph, which `validate_plan` has established before it calls it; on a cycle the source recurses without end.
- PlanningStrategy.AnalysisPlanIsSubmittable: only the three-step plan of the keyword strategy is modelled; the text matching that picks it, the request checks, version floor and timeout override of `create_plan`, and the risk flags are not.
- InMemoryQueue.InMemoryTaskQueue.Enqueue: requires an object that is not already a dead letter; enqueueing a dead letter again would change the dead-letter list through the shared object.
- RedisQueue.RedisTaskQueue.Dequeue: requires that other users of the key space keep records under item keys and lists under list keys; JSON text is taken as the record it encodes.
- RedisClients.Linearizable: a client that crashes or loses its connection in the middle of an operation stays there; `close`, which flushes the whole server, is not among the interleaved operations (`LinearizableWithoutOverlap` has it, when no other operation is under way).
- QueueConservation.NothingIsLost: `processing_timeout` and `priority` are never read by either queue, so there is nothing to state about redelivery after a crash or about priorities.
- DistributedLock.InMemoryDistributedLock.Acquire: other threads do not interfere between two polls; `LeasesAreExclusive` is about single polls in any order.
- RateLimiter.RateLimiter.Check: levels and waits are exact reals, and `round` is exact on them, where the source has floats.
- RateLimiter.RateLimiter.Acquire: the same.
- CircuitBreakerTheory.RestartIsTransparent: one call takes one clock reading, where the source reads the clock again in `_transition`.
- QuotaTracker.QuotaTracker.DoRecordCallStart: the counter per calendar day is not modelled.
- BatchSchedule.ScheduleIndependence: timestamps and the order of snapshots and log records do depend on the schedule.
- Cancellation requested through the store (`mark_cancel_requested`) reaches the model only as the oracle's `cancelled`.
- Redis lock: its release reads and then deletes, which is not atomic, so no exclusivity is claimed for it.
- Task fields `priority`, `created_at` and `processing_timeout`: stored and copied, never read.
- Daily quotas, `DegradeManager`, `RAGCache`, SQLite and Redis breaker backends, config center, message buses, retrieval and evaluation: plumbing, or members that one branch settles.
