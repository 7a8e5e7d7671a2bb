/** `Executor`: the imperative loop over the store, proved to compute the run of `WorkflowKernel`. */
module Executor {
  import opened Wrappers
  import opened Plans
  import opened StateStore
  import opened StepRunner
  import opened Replanner
  import opened WorkflowKernel
  import opened KernelTermination
  import opened KernelSafety
  import opened KernelResume
  import opened Recovery

  datatype ExecutionControl = ExecutionControl(
    maxConcurrency: int,
    defaultStepTimeoutSeconds: int,
    sessionTimeoutSeconds: int
  )

  function OrDefault(option: Option<int>, default: int): int {
    if option.Some? then option.value else default
  }

  /** `ExecutionControl.from_request`: absent options get defaults, and no limit is below one. */
  function FromRequest(maxConcurrency: Option<int>, stepTimeout: Option<int>, sessionTimeout: Option<int>): (c: ExecutionControl)
    ensures c.maxConcurrency >= 1 && c.defaultStepTimeoutSeconds >= 1 && c.sessionTimeoutSeconds >= 1
    ensures maxConcurrency.None? ==> c.maxConcurrency == 2
    ensures stepTimeout.None? ==> c.defaultStepTimeoutSeconds == 8
    ensures sessionTimeout.None? ==> c.sessionTimeoutSeconds == 60
    ensures maxConcurrency.Some? && maxConcurrency.value >= 1 ==> c.maxConcurrency == maxConcurrency.value
    ensures stepTimeout.Some? && stepTimeout.value >= 1 ==> c.defaultStepTimeoutSeconds == stepTimeout.value
    ensures sessionTimeout.Some? && sessionTimeout.value >= 1 ==> c.sessionTimeoutSeconds == sessionTimeout.value
  {
    ExecutionControl(
      Max(OrDefault(maxConcurrency, 2), 1), Max(OrDefault(stepTimeout, 8), 1), Max(OrDefault(sessionTimeout, 60), 1))
  }

  datatype ExecutionResult = ExecutionResult(
    success: bool,
    stepResults: seq<StepRecord>,
    error: Option<ErrorInfo>,
    planVersion: int,
    replanHistory: seq<ReplanOutcome>
  )

  function CodeError(code: string): Option<ErrorInfo> {
    Some(ErrorInfo(Some(code), None))
  }

  /** The result `execute` returns for a finished run. */
  function ResultOf(ending: Ending, last: ExecState): ExecutionResult {
    var error := match ending
      case SessionCancelled => CodeError("session_cancelled")
      case SessionTimeout => CodeError("session_timeout")
      case Succeeded => None
      case DependencyBlocked => CodeError("dependency_blocked")
      case StepFailure(e) => e;
    ExecutionResult(ending == Succeeded, last.results, error, last.plan.planVersion, last.history)
  }

  /** The store's sessions are well formed, whatever calls have been made on them. */
  ghost predicate StoreOk(sessions: map<string, SessionState>) {
    forall id :: id in sessions ==> SequenceOk(sessions[id]) && ResultsOk(sessions[id].steps)
  }

  lemma StartIsSafe(sessions: map<string, SessionState>, plan: ExecutionPlan)
    requires StoreOk(sessions)
    ensures Safe(StartState(plan, Initialised(sessions, plan)))
  {
    if plan.sessionId in sessions {
      NextCallKeepsSteps(sessions, plan);
      StartRegistered(sessions[plan.sessionId].(requestId := plan.requestId,
        traceId := if plan.traceId != "" then plan.traceId else sessions[plan.sessionId].traceId), plan);
    } else {
      var start := NewSession(plan).(planVersion := Max(plan.planVersion, plan.planVersion));
      InsertedSteps(start, plan.steps);
      var session := Initialised(sessions, plan);
      assert session == InsertSteps(start, plan.steps);
      hide InsertSteps;
      forall id | id in session.steps ensures ResultOk(session.steps[id]) {
        InsertedStepsAreFresh(start, plan.steps, id);
      }
    }
  }

  lemma StartRegistered(session: SessionState, plan: ExecutionPlan)
    ensures Registered(plan.steps, Upserted(session, plan.steps, plan.planVersion).steps)
  {
    UpsertRegisters(session, plan.steps, plan.planVersion);
  }

  lemma ReplanKeepsSession(plan: ExecutionPlan, failed: PlanStep, code: Option<string>, blocked: string)
    ensures AfterFailure(plan, failed, code).Some? ==> AfterFailure(plan, failed, code).value.plan.sessionId == plan.sessionId
    ensures ForMissingDependency(plan, blocked).Some? ==> ForMissingDependency(plan, blocked).value.plan.sessionId == plan.sessionId
  {
  }

  class Executor {
    const store: InMemoryStateStore
    const hasReplanner: bool
    const maxRetryAttempts: int
    const maxReplanAttempts: int

    constructor (store: InMemoryStateStore, hasReplanner: bool, maxRetryAttempts: int, maxReplanAttempts: int)
      ensures this.store == store && this.hasReplanner == hasReplanner
      ensures this.maxRetryAttempts == maxRetryAttempts && this.maxReplanAttempts == maxReplanAttempts
    {
      this.store := store;
      this.hasReplanner := hasReplanner;
      this.maxRetryAttempts := maxRetryAttempts;
      this.maxReplanAttempts := maxReplanAttempts;
    }

    function Config(control: ExecutionControl): ExecConfig {
      ExecConfig(maxRetryAttempts, maxReplanAttempts, hasReplanner, control.maxConcurrency)
    }

    /** `_execute_single_step`, with the exception guard that `_execute_ready_steps` puts around it. */
    method ExecuteSingleStep(plan: ExecutionPlan, step: PlanStep, w: World, round: nat) returns (result: ToolResult)
      requires store.HasStep(plan.sessionId, step.stepId)
      modifies store
      ensures
        var run := RunStep(
          old(store.sessions[plan.sessionId].steps[step.stepId]),
          IdempotencyKey(plan.requestId, step.stepId, plan.planVersion),
          AttemptsOf(w, round, step.stepId), maxRetryAttempts + 1);
        result == run.result && store.sessions == WithStep(old(store.sessions), plan.sessionId, step.stepId, run.state)
    {
      hide IdempotencyKey, MarkedRunning, MarkedWaitingTool, MarkedSuccess, MarkedFailed, MarkedCanceled, RetryExhausted, ErrorOf;
      var sessionId, id := plan.sessionId, step.stepId;
      var key := IdempotencyKey(plan.requestId, id, plan.planVersion);
      var attempts := AttemptsOf(w, round, id);
      ghost var start := store.sessions[sessionId].steps[id];
      if ShouldSkip(store.sessions[sessionId].steps[id], key) {
        WithStepLaws(store.sessions, sessionId, id, start, start);
        return SkipResult(store.sessions[sessionId].steps[id]);
      }
      var last: Option<ToolResult> := None;
      var maxAttempts := maxRetryAttempts + 1;
      var attempt := 1;
      ghost var st, initial := start, store.sessions;
      WithStepLaws(initial, sessionId, id, start, start);
      hide WithStep;
      while attempt <= maxAttempts
        invariant 1 <= attempt
        invariant store.HasStep(sessionId, id)
        invariant store.sessions == WithStep(initial, sessionId, id, st)
        invariant
          var rest := RunAttempts(st, key, attempts, attempt, maxAttempts, last);
          var run := RunAttempts(start, key, attempts, 1, maxAttempts, None);
          rest.state == run.state && rest.result == run.result
      {
        var outcome := attempts(attempt);
        ghost var running := MarkedRunning(st);
        ghost var waiting := MarkedWaitingTool(running);
        WithStepLaws(initial, sessionId, id, st, MarkedCanceled(st, ErrorOf(STEP_CANCELLED)));
        WithStepLaws(initial, sessionId, id, st, running);
        WithStepLaws(initial, sessionId, id, running, waiting);
        if outcome.Cancelled? {
          var _ := store.MarkStepCanceled(sessionId, id, ErrorOf(STEP_CANCELLED));
          return STEP_CANCELLED;
        }
        var _ := store.MarkStepRunning(sessionId, id);
        match outcome {
          case Denied(saved) =>
            WithStepLaws(initial, sessionId, id, running, MarkedFailed(running, ErrorOf(PERMISSION_DENIED)));
            var _ := store.MarkStepFailed(sessionId, id, ErrorOf(PERMISSION_DENIED));
            return Reported(PERMISSION_DENIED, saved);
          case SchemaInvalid(saved) =>
            WithStepLaws(initial, sessionId, id, running, MarkedFailed(running, ErrorOf(SCHEMA_VALIDATION_ERROR)));
            var _ := store.MarkStepFailed(sessionId, id, ErrorOf(SCHEMA_VALIDATION_ERROR));
            return Reported(SCHEMA_VALIDATION_ERROR, saved);
          case Crashed =>
            return EXECUTOR_INTERNAL_ERROR;
          case Unstarted =>
            var _ := store.MarkStepWaitingTool(sessionId, id);
            return EXECUTOR_INTERNAL_ERROR;
          case Unlogged(_) =>
            var _ := store.MarkStepWaitingTool(sessionId, id);
            return EXECUTOR_INTERNAL_ERROR;
          case Invoked(toolResult, saved) =>
            var _ := store.MarkStepWaitingTool(sessionId, id);
            if toolResult.success {
              WithStepLaws(initial, sessionId, id, waiting, MarkedSuccess(waiting, toolResult, key));
              var _ := store.MarkStepSuccess(sessionId, id, toolResult, key);
              return Reported(toolResult, saved);
            }
            WithStepLaws(initial, sessionId, id, waiting, MarkedFailed(waiting, ErrorOf(toolResult)));
            var _ := store.MarkStepFailed(sessionId, id, ErrorOf(toolResult));
            if !saved {
              return EXECUTOR_INTERNAL_ERROR;
            }
            if !toolResult.retryable {
              return toolResult;
            }
            st := MarkedFailed(waiting, ErrorOf(toolResult));
            last := Some(toolResult);
        }
        attempt := attempt + 1;
      }
      var exhausted := RetryExhausted(last);
      WithStepLaws(initial, sessionId, id, st, MarkedFailed(st, ErrorOf(exhausted)));
      var _ := store.MarkStepFailed(sessionId, id, ErrorOf(exhausted));
      return Reported(exhausted, !attempts(attempt).Crashed?);
    }

    /** `_execute_ready_steps`, one step after another in plan order. */
    method ExecuteReadySteps(plan: ExecutionPlan, batch: seq<PlanStep>, w: World, round: nat, ghost cfg: ExecConfig)
      returns (results: seq<ToolResult>)
      requires plan.sessionId in store.sessions && Registered(batch, store.sessions[plan.sessionId].steps)
      requires cfg.maxRetryAttempts == maxRetryAttempts
      modifies store
      ensures
        var run := RunBatch(cfg, w, round, plan, batch, old(store.sessions[plan.sessionId].steps));
        results == run.results && store.sessions ==
          old(store.sessions)[plan.sessionId := old(store.sessions[plan.sessionId]).(steps := run.steps)]
    {
      hide RunStep, IdempotencyKey, RunBatch;
      ghost var before := store.sessions[plan.sessionId];
      results := [];
      BatchUnfolds(cfg, w, round, plan, batch, 0, before.steps);
      for i := 0 to |batch|
        invariant
          var run := RunBatch(cfg, w, round, plan, batch[..i], before.steps);
          results == run.results && store.sessions == old(store.sessions)[plan.sessionId := before.(steps := run.steps)]
      {
        BatchUnfolds(cfg, w, round, plan, batch, i + 1, before.steps);
        var result := ExecuteSingleStep(plan, batch[i], w, round);
        results := results + [result];
      }
      assert batch[..|batch|] == batch;
    }

    /** `_replan_after_failure`. */
    method ReplanOnFailure(plan: ExecutionPlan, failed: PlanStep, result: ToolResult, replanCount: nat, ghost cfg: ExecConfig, ghost s: ExecState)
      returns (outcome: Option<ReplanOutcome>)
      requires cfg.hasReplanner == hasReplanner && cfg.maxReplanAttempts == maxReplanAttempts
      requires s.plan == plan && s.replanCount == replanCount
      ensures outcome == ReplanFor(cfg, s, failed, result)
    {
      if !hasReplanner || replanCount >= maxReplanAttempts {
        return None;
      }
      outcome := ReplanAfterFailure(plan, failed, ErrorOf(result).code);
      if outcome.Some? && (outcome.value.decision.requiresHumanHandoff || !outcome.value.decision.shouldReplan) {
        outcome := None;
      }
    }

    /** The loop over the batch's outcomes, up to the first failure. */
    method NoteOutcomes(plan: ExecutionPlan, batch: seq<PlanStep>, results: seq<ToolResult>,
                        completed: set<string>, stepResults: seq<StepRecord>)
      returns (completed': set<string>, stepResults': seq<StepRecord>, failure: nat)
      requires |batch| == |results|
      ensures failure == FirstFailure(results)
      ensures completed' == completed + StepIds(batch[..failure])
      ensures failure == |batch| ==> stepResults' == stepResults + Records(plan, batch, results)
      ensures failure < |batch| ==>
        stepResults' == stepResults + Records(plan, batch[..failure + 1], results[..failure + 1])
    {
      completed', stepResults' := completed, stepResults;
      for i := 0 to |batch|
        invariant completed' == completed + StepIds(batch[..i])
        invariant stepResults' == stepResults + Records(plan, batch[..i], results[..i])
        invariant forall k :: 0 <= k < i ==> results[k].success
      {
        stepResults' := stepResults' + [StepRecord(batch[i].stepId, batch[i].toolId, plan.planVersion, results[i])];
        assert Records(plan, batch[..i + 1], results[..i + 1])
            == Records(plan, batch[..i], results[..i]) + [StepRecord(batch[i].stepId, batch[i].toolId, plan.planVersion, results[i])];
        if !results[i].success {
          FirstFailureIs(results, i);
          return completed', stepResults', i;
        }
        completed' := completed' + {batch[i].stepId};
        assert StepIds(batch[..i + 1]) == StepIds(batch[..i]) + {batch[i].stepId} by {
          assert batch[..i + 1] == batch[..i] + [batch[i]];
        }
      }
      assert batch[..|batch|] == batch && results[..|batch|] == results;
      FirstFailureIs(results, |batch|);
      return completed', stepResults', |batch|;
    }

    /** Runs the batch, notes its outcomes, and adopts a replan or fails the session on a failure. */
    method WorkRound(vars: LoopVars, ready: seq<PlanStep>, control: ExecutionControl, w: World, ghost s: ExecState)
      returns (stopped: Option<ExecutionResult>, next: LoopVars)
      requires Registered(s.plan.steps, s.session.steps) && vars == VarsOf(s)
      requires ready == Ready(Pending(s.plan.steps, s.completed), s.completed)
      requires s.plan.sessionId in store.sessions && store.sessions[s.plan.sessionId] == s.session
      modifies store
      ensures Follows(Settle(Config(control), s, BatchOf(Config(control), s), BatchRunOf(Config(control), w, s)),
                      old(store.sessions), s.plan.sessionId, store.sessions, stopped, next)
    {
      hide RunBatch, Pending, Ready, ReplanFor, Records, Settle, Upserted;
      ghost var cfg := Config(control);
      var sessionId := vars.plan.sessionId;
      var batch := Take(ready, Min(control.maxConcurrency, vars.plan.graphLimits.maxParallel));
      BatchIsTake(cfg, s);
      BatchRunIs(cfg, w, s);
      SettleIs(cfg, w, s);
      hide BatchOf, BatchRunOf;
      ghost var run := BatchRunOf(cfg, w, s);
      var results := ExecuteReadySteps(vars.plan, batch, w, vars.round, cfg);
      var completed, stepResults, first := NoteOutcomes(vars.plan, batch, results, vars.completed, vars.stepResults);
      next := vars.(completed := completed, stepResults := stepResults, round := vars.round + 1);
      ghost var ran := s.session.(steps := run.steps);
      if first == |batch| {
        return None, next;
      }
      var replanned := ReplanOnFailure(vars.plan, batch[first], results[first], vars.replanCount, cfg, s);
      ReplanAfterKeepsSession(cfg, s, batch, run);
      if replanned.None? {
        var _ := store.SetSessionStatus(sessionId, FAILED);
        return Some(ExecutionResult(false, stepResults, results[first].error, vars.plan.planVersion, vars.history)), vars;
      }
      next := Replanned(next, replanned.value);
      var _ := store.UpsertPlanSteps(sessionId, next.plan.steps, next.plan.planVersion);
      return None, next;
    }

    /** No step is ready: replan the dependency graph, or give the session up as blocked. */
    method BlockedRound(vars: LoopVars, blocked: string, ghost cfg: ExecConfig, ghost s: ExecState)
      returns (stopped: Option<ExecutionResult>, next: LoopVars)
      requires vars == VarsOf(s) && cfg.hasReplanner == hasReplanner && cfg.maxReplanAttempts == maxReplanAttempts
      requires s.plan.sessionId in store.sessions && store.sessions[s.plan.sessionId] == s.session
      modifies store
      ensures Follows(Unblock(cfg, s, blocked), old(store.sessions), s.plan.sessionId, store.sessions, stopped, next)
    {
      hide Upserted, ForMissingDependency;
      var replanned: Option<ReplanOutcome> := None;
      if hasReplanner && vars.replanCount < maxReplanAttempts {
        replanned := ReplanForMissingDependency(vars.plan, blocked);
      }
      if replanned.None? {
        var _ := store.SetSessionStatus(vars.plan.sessionId, FAILED);
        return Some(ExecutionResult(false, vars.stepResults, CodeError("dependency_blocked"), vars.plan.planVersion, vars.history)), vars;
      }
      AdoptIs(s, replanned.value);
      MissingDependencyKeepsSession(vars.plan, blocked);
      next := Replanned(vars.(round := vars.round + 1), replanned.value);
      var _ := store.UpsertPlanSteps(vars.plan.sessionId, next.plan.steps, next.plan.planVersion);
      return None, next;
    }

    /** One pass of the main loop. */
    method RoundOnce(vars: LoopVars, control: ExecutionControl, w: World, ghost s: ExecState)
      returns (stopped: Option<ExecutionResult>, next: LoopVars)
      requires Registered(s.plan.steps, s.session.steps) && vars == VarsOf(s)
      requires s.plan.sessionId in store.sessions && store.sessions[s.plan.sessionId] == s.session
      modifies store
      ensures Follows(Round(Config(control), w, s), old(store.sessions), s.plan.sessionId, store.sessions, stopped, next)
    {
      hide Round, Settle, BatchOf, BatchRunOf, Pending, Ready, Adopt, Unblock;
      RoundBranches(Config(control), w, s);
      var sessionId := vars.plan.sessionId;
      next := vars;
      if w.cancelled(vars.round) {
        var _ := store.SetSessionStatus(sessionId, CANCELED);
        return Some(ExecutionResult(false, vars.stepResults, CodeError("session_cancelled"), vars.plan.planVersion, vars.history)), vars;
      }
      if w.timedOut(vars.round) {
        var _ := store.SetSessionStatus(sessionId, FAILED);
        return Some(ExecutionResult(false, vars.stepResults, CodeError("session_timeout"), vars.plan.planVersion, vars.history)), vars;
      }
      var pending := Pending(vars.plan.steps, vars.completed);
      if pending == [] {
        var _ := store.SetSessionStatus(sessionId, SUCCESS);
        return Some(ExecutionResult(true, vars.stepResults, None, vars.plan.planVersion, vars.history)), vars;
      }
      var ready := Ready(pending, vars.completed);
      if ready == [] {
        stopped, next := BlockedRound(vars, pending[0].stepId, Config(control), s);
      } else {
        stopped, next := WorkRound(vars, ready, control, w, s);
      }
    }

    /**
     `execute`: ends on every input with limits of at least one, returns what the run of the
     machine returns, and leaves its session in the store and every other session alone.
     */
    method Execute(plan: ExecutionPlan, w: World, control: ExecutionControl) returns (result: ExecutionResult)
      requires control.maxConcurrency >= 1 && plan.graphLimits.maxParallel >= 1
      requires StoreOk(store.sessions)
      modifies store
      ensures
        var run := ExecuteRun(Config(control), w, old(store.sessions), plan);
        && result == ResultOf(run.ending, run.last)
        && store.sessions == old(store.sessions)[plan.sessionId := run.last.session]
      ensures StoreOk(store.sessions)
    {
      hide Round, Run, Safe, Initialised, SuccessIds, ResultOf;
      ghost var cfg, before := Config(control), store.sessions;
      StartIsSafe(before, plan);
      ghost var s := StartState(plan, Initialised(before, plan));
      SafeSession(s);
      ghost var goal := Run(cfg, w, s);
      var vars := Begin(plan);
      while true
        invariant store.sessions == before[plan.sessionId := s.session]
        invariant vars == VarsOf(s) && s.plan.sessionId == plan.sessionId
        invariant Safe(s) && Registered(s.plan.steps, s.session.steps) && Capped(cfg, s) && Run(cfg, w, s) == goal
        decreases ReplansLeft(cfg, s), Todo(s)
      {
        hide Todo, StoreOk;
        RoundDecreases(cfg, w, s);
        RunUnfolds(cfg, w, s);
        RoundKeepsSafe(cfg, w, s);
        RoundKeepsSession(cfg, w, s);
        if Round(cfg, w, s).Continue? { SafeSession(Round(cfg, w, s).next); }
        var stopped, next := RoundOnce(vars, control, w, s);
        if stopped.Some? {
          EndIsOk(before, plan.sessionId, goal.last);
          return stopped.value;
        }
        vars := next;
        s := Round(cfg, w, s).next;
      }
    }

    /** What `execute` does before its loop: join the session, read the recovery point, start running. */
    method Begin(plan: ExecutionPlan) returns (vars: LoopVars)
      requires StoreOk(store.sessions)
      modifies store
      ensures
        var s := StartState(plan, Initialised(old(store.sessions), plan));
        && store.sessions == old(store.sessions)[plan.sessionId := s.session]
        && vars == VarsOf(s)
    {
      hide Initialised;
      StartIsSafe(store.sessions, plan);
      SafeSession(StartState(plan, Initialised(store.sessions, plan)));
      store.InitSession(plan);
      var point := FindRecoveryPoint(store.sessions[plan.sessionId], None);
      var completed := set id | id in point.completedStepIds;
      assert completed == SuccessIds(store.sessions[plan.sessionId].steps);
      var _ := store.SetSessionStatus(plan.sessionId, RUNNING);
      vars := LoopVars(plan, completed, [], 0, [], 0);
    }
  }

  /** The loop's local variables. */
  datatype LoopVars = LoopVars(
    plan: ExecutionPlan,
    completed: set<string>,
    stepResults: seq<StepRecord>,
    replanCount: nat,
    history: seq<ReplanOutcome>,
    round: nat
  )

  function VarsOf(s: ExecState): LoopVars {
    LoopVars(s.plan, s.completed, s.results, s.replanCount, s.history, s.round)
  }

  function Replanned(vars: LoopVars, outcome: ReplanOutcome): LoopVars {
    vars.(plan := outcome.plan, replanCount := vars.replanCount + 1, history := vars.history + [outcome])
  }

  /** The store, the result and the variables after a round are those of the machine's round. */
  ghost predicate Follows(r: RoundOutcome, before: map<string, SessionState>, sessionId: string,
                          later: map<string, SessionState>, stopped: Option<ExecutionResult>, next: LoopVars) {
    match r
    case Stop(ending, last) => stopped == Some(ResultOf(ending, last)) && later == before[sessionId := last.session]
    case Continue(t) => stopped == None && next == VarsOf(t) && later == before[sessionId := t.session]
  }

  function Unblock(cfg: ExecConfig, s: ExecState, blocked: string): RoundOutcome {
    var unblock := if MayReplan(cfg, s) then ForMissingDependency(s.plan, blocked) else None;
    if unblock.None? then StopWith(DependencyBlocked, FAILED, s) else Continue(Adopt(s, unblock.value))
  }

  lemma MissingDependencyKeepsSession(plan: ExecutionPlan, blocked: string)
    ensures ForMissingDependency(plan, blocked).Some? ==> ForMissingDependency(plan, blocked).value.plan.sessionId == plan.sessionId
  {
  }

  lemma RoundKeepsSession(cfg: ExecConfig, w: World, s: ExecState)
    requires Registered(s.plan.steps, s.session.steps)
    ensures Round(cfg, w, s).Continue? ==> Round(cfg, w, s).next.plan.sessionId == s.plan.sessionId
  {
    hide Round, Settle, BatchOf, BatchRunOf, Pending, Ready, ForMissingDependency, ReplanAfter, Upserted;
    RoundCases(cfg, w, s);
    SettleIs(cfg, w, s);
    ReplanAfterKeepsSession(cfg, s, BatchOf(cfg, s), BatchRunOf(cfg, w, s));
    if Unblocks(cfg, w, s) {
      MissingDependencyKeepsSession(s.plan, Pending(s.plan.steps, s.completed)[0].stepId);
    }
  }

  /** The run a call of `execute` makes on a store. */
  ghost function ExecuteRun(cfg: ExecConfig, w: World, sessions: map<string, SessionState>, plan: ExecutionPlan): RunOutcome
    requires StoreOk(sessions) && cfg.maxConcurrency >= 1 && plan.graphLimits.maxParallel >= 1
  {
    StartIsSafe(sessions, plan);
    Run(cfg, w, StartState(plan, Initialised(sessions, plan)))
  }

  lemma FirstFailureIs(results: seq<ToolResult>, i: nat)
    requires i <= |results| && (forall k :: 0 <= k < i ==> results[k].success)
    requires i < |results| ==> !results[i].success
    ensures FirstFailure(results) == i
  {
  }

  lemma SafeSession(s: ExecState)
    requires Safe(s)
    ensures SequenceOk(s.session) && ResultsOk(s.session.steps) && Registered(s.plan.steps, s.session.steps)
  {
  }

  lemma EndIsOk(before: map<string, SessionState>, sessionId: string, last: ExecState)
    requires StoreOk(before) && Safe(last)
    ensures StoreOk(before[sessionId := last.session])
  {
  }

  lemma BatchIsTake(cfg: ExecConfig, s: ExecState)
    ensures BatchOf(cfg, s)
      == Take(Ready(Pending(s.plan.steps, s.completed), s.completed), Min(cfg.maxConcurrency, s.plan.graphLimits.maxParallel))
  {
  }

  lemma BatchRunIs(cfg: ExecConfig, w: World, s: ExecState)
    requires Registered(s.plan.steps, s.session.steps)
    ensures Registered(BatchOf(cfg, s), s.session.steps)
    ensures BatchRunOf(cfg, w, s) == RunBatch(cfg, w, s.round, s.plan, BatchOf(cfg, s), s.session.steps)
  {
    BatchIsRegistered(cfg, s);
  }

  function CompletedAfter(s: ExecState, batch: seq<PlanStep>, run: BatchRun): set<string>
    requires |batch| == |run.results|
  {
    s.completed + StepIds(batch[..FirstFailure(run.results)])
  }

  function ResultsAfter(s: ExecState, batch: seq<PlanStep>, run: BatchRun): seq<StepRecord>
    requires |batch| == |run.results|
  {
    var k := FirstFailure(run.results);
    s.results + if k == |batch| then Records(s.plan, batch, run.results) else Records(s.plan, batch[..k + 1], run.results[..k + 1])
  }

  function FailureOf(run: BatchRun): Option<ToolResult> {
    var k := FirstFailure(run.results);
    if k < |run.results| then Some(run.results[k]) else None
  }

  function ReplanAfter(cfg: ExecConfig, s: ExecState, batch: seq<PlanStep>, run: BatchRun): Option<ReplanOutcome>
    requires |batch| == |run.results|
  {
    var k := FirstFailure(run.results);
    if k < |batch| then ReplanFor(cfg, s, batch[k], run.results[k]) else None
  }

  lemma ReplanAfterKeepsSession(cfg: ExecConfig, s: ExecState, batch: seq<PlanStep>, run: BatchRun)
    requires |batch| == |run.results|
    ensures ReplanAfter(cfg, s, batch, run).Some? ==> ReplanAfter(cfg, s, batch, run).value.plan.sessionId == s.plan.sessionId
  {
    hide AfterFailure;
    var k := FirstFailure(run.results);
    if k < |batch| {
      ReplanKeepsSession(s.plan, batch[k], ErrorOf(run.results[k]).code, "");
    }
  }

  lemma AdoptIs(s: ExecState, o: ReplanOutcome)
    ensures Adopt(s, o) == ExecState(
      Upserted(s.session, o.plan.steps, o.plan.planVersion), o.plan, s.completed, s.replanCount + 1,
      s.results, s.history + [o], s.round + 1, s.calls, s.wins)
  {
    hide Upserted;
  }

  /** A round that runs a batch, spelled out in the loop's variables. */
  lemma SettleIs(cfg: ExecConfig, w: World, s: ExecState)
    requires Registered(s.plan.steps, s.session.steps)
    ensures
      var batch, run := BatchOf(cfg, s), BatchRunOf(cfg, w, s);
      var session, done, notes := s.session.(steps := run.steps), CompletedAfter(s, batch, run), ResultsAfter(s, batch, run);
      var calls, wins, o, failure := s.calls + run.calls, s.wins + run.wins, ReplanAfter(cfg, s, batch, run), FailureOf(run);
      Settle(cfg, s, batch, run) ==
        if failure.None? then
          Continue(ExecState(session, s.plan, done, s.replanCount, notes, s.history, s.round + 1, calls, wins))
        else if o.Some? then
          Continue(ExecState(Upserted(session, o.value.plan.steps, o.value.plan.planVersion), o.value.plan, done,
                             s.replanCount + 1, notes, s.history + [o.value], s.round + 1, calls, wins))
        else
          Stop(StepFailure(failure.value.error),
               ExecState(session.(status := FAILED), s.plan, done, s.replanCount, notes, s.history, s.round, calls, wins))
    ensures FailureOf(BatchRunOf(cfg, w, s)).None? ==> ReplanAfter(cfg, s, BatchOf(cfg, s), BatchRunOf(cfg, w, s)).None?
  {
    hide BatchOf, BatchRunOf, ReplanFor, Upserted, Records;
    SettleCases(cfg, s, BatchOf(cfg, s), BatchRunOf(cfg, w, s));
  }

  /** The branches of a round, in the order the loop tests them. */
  lemma RoundBranches(cfg: ExecConfig, w: World, s: ExecState)
    requires Registered(s.plan.steps, s.session.steps)
    ensures
      var pending := Pending(s.plan.steps, s.completed);
      var ready := Ready(pending, s.completed);
      Round(cfg, w, s) ==
        if w.cancelled(s.round) then StopWith(SessionCancelled, CANCELED, s)
        else if w.timedOut(s.round) then StopWith(SessionTimeout, FAILED, s)
        else if pending == [] then StopWith(Succeeded, SUCCESS, s)
        else if ready == [] then Unblock(cfg, s, pending[0].stepId)
        else Settle(cfg, s, BatchOf(cfg, s), BatchRunOf(cfg, w, s))
  {
  }

  lemma RunUnfolds(cfg: ExecConfig, w: World, s: ExecState)
    requires Registered(s.plan.steps, s.session.steps) && Capped(cfg, s)
    ensures Round(cfg, w, s).Stop? ==> Run(cfg, w, s) == RunOutcome(Round(cfg, w, s).ending, Round(cfg, w, s).last)
    ensures Round(cfg, w, s).Continue? ==> Capped(cfg, Round(cfg, w, s).next)
    ensures Round(cfg, w, s).Continue? ==> Run(cfg, w, s) == Run(cfg, w, Round(cfg, w, s).next)
  {
    hide Round;
    RoundDecreases(cfg, w, s);
  }
}
