/** What a step stores and reports, told from its attempts alone, and what the replanner makes of it. */
module StepFailures {
  import opened Wrappers
  import opened Plans
  import opened StateStore
  import opened StepRunner
  import opened Replanner

  /** Each attempt before number `k` ends in a stored, retryable failure. */
  ghost predicate RetriesBefore(attempts: nat -> Attempt, k: int) {
    forall j: nat :: 1 <= j < k ==>
      attempts(j).Invoked? && !attempts(j).result.success && attempts(j).saved && attempts(j).result.retryable
  }

  /** Attempt `k` is made, and the loop does not go on after it. */
  ghost predicate EndsAt(attempts: nat -> Attempt, k: nat, maxAttempts: int) {
    && 1 <= k <= maxAttempts
    && RetriesBefore(attempts, k)
    && !(attempts(k).Invoked? && !attempts(k).result.success && attempts(k).saved && attempts(k).result.retryable)
  }

  /** A step that already succeeded under this very key. */
  predicate AlreadyWon(st: StepState, key: string) {
    st.status == SUCCESS && st.idempotencyKey == key != ""
  }

  /** The step when attempt `k` begins. */
  function Before(st: StepState, attempts: nat -> Attempt, k: nat): StepState
    requires k >= 1 && RetriesBefore(attempts, k)
  {
    if k == 1 then st
    else
      var error := attempts(k - 1).result.error;
      st.(status := FAILED, attempts := st.attempts + k - 1,
          error := Some(if error.Some? then error.value else ErrorInfo(None, None)))
  }

  function LastAnswer(attempts: nat -> Attempt, k: nat): Option<ToolResult>
    requires k >= 1 && RetriesBefore(attempts, k)
  {
    if k == 1 then None else Some(attempts(k - 1).result)
  }

  /** Retryable failures lead from the first attempt to attempt `k`, one tool call each. */
  lemma {:induction false} Retried(st: StepState, key: string, attempts: nat -> Attempt, k: nat, maxAttempts: int)
    requires 1 <= k <= Clip(maxAttempts) + 1 && RetriesBefore(attempts, k)
    ensures
      var rest := RunAttempts(Before(st, attempts, k), key, attempts, k, maxAttempts, LastAnswer(attempts, k));
      RunAttempts(st, key, attempts, 1, maxAttempts, None) == rest.(calls := rest.calls + k - 1)
  {
    if k > 1 {
      assert attempts(k - 1).Invoked?;
      Retried(st, key, attempts, k - 1, maxAttempts);
    }
  }

  /**
   When every allowed attempt fails retryably, the step has used them all, is stored as
   failed with `retry_exhausted` around the last answer's error, and reports just that,
   unless its own snapshot raises.
   */
  lemma ExhaustedStep(st: StepState, key: string, attempts: nat -> Attempt, maxAttempts: int)
    requires !AlreadyWon(st, key) && RetriesBefore(attempts, maxAttempts + 1)
    ensures
      var run, n := RunStep(st, key, attempts, maxAttempts), Clip(maxAttempts);
      var error := ErrorInfo(Some("retry_exhausted"), if n == 0 then None else attempts(n).result.error);
      && run.state == st.(status := FAILED, attempts := st.attempts + n, error := Some(error))
      && run.result == ToolResult(
           false, "", Some(if attempts(n + 1).Crashed? then ErrorInfo(Some("executor_internal_error"), None) else error), false)
      && run.calls == n && !run.won
  {
    Retried(st, key, attempts, Clip(maxAttempts) + 1, maxAttempts);
  }

  /** What is stored when attempt `k` decides: `error` and `status` are those of that attempt alone. */
  lemma DecidedState(st: StepState, key: string, attempts: nat -> Attempt, k: nat, maxAttempts: int)
    requires !AlreadyWon(st, key) && EndsAt(attempts, k, maxAttempts)
    ensures
      RunStep(st, key, attempts, maxAttempts).state ==
        match attempts(k)
        case Cancelled =>
          st.(status := CANCELED, attempts := st.attempts + k - 1, error := Some(ErrorInfo(Some("step_cancelled"), None)))
        case Denied(_) =>
          st.(status := FAILED, attempts := st.attempts + k, error := Some(ErrorInfo(Some("permission_denied"), None)))
        case SchemaInvalid(_) =>
          st.(status := FAILED, attempts := st.attempts + k, error := Some(ErrorInfo(Some("schema_validation_error"), None)))
        case Crashed => Before(st, attempts, k).(status := RUNNING, attempts := st.attempts + k)
        case Unstarted => Before(st, attempts, k).(status := WAITING_TOOL, attempts := st.attempts + k)
        case Unlogged(_) => Before(st, attempts, k).(status := WAITING_TOOL, attempts := st.attempts + k)
        case Invoked(result, _) =>
          if result.success then
            st.(status := SUCCESS, attempts := st.attempts + k, result := Some(result), error := None, idempotencyKey := key)
          else
            st.(status := FAILED, attempts := st.attempts + k,
                error := Some(if result.error.Some? then result.error.value else ErrorInfo(None, None)))
  {
    Retried(st, key, attempts, k, maxAttempts);
  }

  /** What is reported, and the tool calls made, when attempt `k` decides. */
  lemma DecidedReport(st: StepState, key: string, attempts: nat -> Attempt, k: nat, maxAttempts: int)
    requires !AlreadyWon(st, key) && EndsAt(attempts, k, maxAttempts)
    ensures
      var run, a := RunStep(st, key, attempts, maxAttempts), attempts(k);
      var internal := ToolResult(false, "", Some(ErrorInfo(Some("executor_internal_error"), None)), false);
      && run.result == (
           match a
           case Cancelled => ToolResult(false, "", Some(ErrorInfo(Some("step_cancelled"), None)), false)
           case Denied(saved) =>
             if saved then ToolResult(false, "", Some(ErrorInfo(Some("permission_denied"), None)), false) else internal
           case SchemaInvalid(saved) =>
             if saved then ToolResult(false, "", Some(ErrorInfo(Some("schema_validation_error"), None)), false) else internal
           case Invoked(result, saved) => if saved then result else internal
           case _ => internal)
      && run.calls == k - 1 + (if a.Invoked? || a.Unlogged? then 1 else 0)
      && (run.won <==> (a.Invoked? || a.Unlogged?) && a.result.success)
  {
    Retried(st, key, attempts, k, maxAttempts);
  }

  /** A step that already succeeded under the key is answered from the store, at no cost. */
  lemma SkippedStep(st: StepState, key: string, attempts: nat -> Attempt, maxAttempts: int)
    requires AlreadyWon(st, key)
    ensures
      var run := RunStep(st, key, attempts, maxAttempts);
      && run.state == st && run.calls == 0 && !run.won
      && run.result == if st.result.Some? then st.result.value else ToolResult(true, "idempotent_skip", None, false)
  {
  }

  /** The attempts either use up all that are allowed, or one of them ends the loop. */
  lemma {:induction false} ExhaustedOrDecided(attempts: nat -> Attempt, maxAttempts: int) returns (k: nat)
    ensures RetriesBefore(attempts, maxAttempts + 1) || EndsAt(attempts, k, maxAttempts)
  {
    k := 1;
    while k <= maxAttempts
      invariant k >= 1 && RetriesBefore(attempts, k) && k <= Clip(maxAttempts) + 1
    {
      if !TriesAgain(attempts(k)) {
        return;
      }
      k := k + 1;
    }
  }

  /** What the replanner decides about a step's result. */
  function StrategyFor(result: ToolResult): Strategy {
    BuildDecision(ErrorOf(result).code, StepFailed).strategy
  }

  /** The replanner acts on the strategy that the code of the error selects. */
  lemma AfterFailureFollows(plan: ExecutionPlan, failed: PlanStep, result: ToolResult)
    requires failed.stepId in StepIds(plan.steps)
    ensures
      var outcome := AfterFailure(plan, failed, ErrorOf(result).code);
      outcome.Some? && outcome.value.decision.strategy == StrategyFor(result)
  {
  }

  /** The codes the executor makes up itself, and what the replanner does about them. */
  lemma OwnCodes()
    ensures BuildDecision(Some("retry_exhausted"), StepFailed).strategy == LocalReplace
    ensures BuildDecision(Some("permission_denied"), StepFailed).strategy == HumanHandoff
    ensures BuildDecision(Some("schema_validation_error"), StepFailed).strategy == HumanHandoff
    ensures BuildDecision(Some("step_cancelled"), StepFailed).strategy == RollbackRetry
    ensures BuildDecision(Some("executor_internal_error"), StepFailed).strategy == RollbackRetry
    ensures BuildDecision(None, StepFailed).strategy == RollbackRetry
  {
    ListedCodes();
    UnlistedCode("step_cancelled");
    UnlistedCode("executor_internal_error");
    hide *;
  }

  lemma ListedCodes()
    ensures "retry_exhausted" in TRANSIENT_CODES
    ensures "permission_denied" in HANDOFF_CODES && "schema_validation_error" in HANDOFF_CODES
  {
  }

  lemma UnlistedCode(code: string)
    requires |code| == 14 || (|code| == 23 && code[0] == 'e')
    ensures code !in HANDOFF_CODES && code !in TRANSIENT_CODES
  {
    HandoffLengths();
    TransientLengths();
    hide *;
  }

  /** A step whose every allowed attempt fails retryably is replaced locally, unless its last snapshot raises. */
  lemma ExhaustedIsReplacedIff(st: StepState, key: string, attempts: nat -> Attempt, maxAttempts: int,
                               plan: ExecutionPlan, failed: PlanStep)
    requires !AlreadyWon(st, key) && RetriesBefore(attempts, maxAttempts + 1) && failed.stepId in StepIds(plan.steps)
    ensures
      var outcome := AfterFailure(plan, failed, ErrorOf(RunStep(st, key, attempts, maxAttempts).result).code);
      && outcome.Some?
      && outcome.value.decision.strategy == if attempts(Clip(maxAttempts) + 1).Crashed? then RollbackRetry else LocalReplace
  {
    ExhaustedStep(st, key, attempts, maxAttempts);
    OwnCodes();
    hide RunStep, AfterFailure, BuildDecision;
    AfterFailureFollows(plan, failed, RunStep(st, key, attempts, maxAttempts).result);
  }

  /**
   A step that one attempt ends and that fails goes to a human after a refusal, or after a
   tool's own final error of that kind; to a local replacement after a tool's own passing
   error only; and to a rollback in every other case. An answer whose snapshot raises
   counts for nothing.
   */
  lemma DecidedFailureIsReplanned(st: StepState, key: string, attempts: nat -> Attempt, k: nat, maxAttempts: int,
                                  plan: ExecutionPlan, failed: PlanStep)
    requires !AlreadyWon(st, key) && EndsAt(attempts, k, maxAttempts) && failed.stepId in StepIds(plan.steps)
    requires !RunStep(st, key, attempts, maxAttempts).result.success
    ensures
      var outcome := AfterFailure(plan, failed, ErrorOf(RunStep(st, key, attempts, maxAttempts).result).code);
      var a := attempts(k);
      var code := if a.Invoked? && a.saved && a.result.error.Some? then a.result.error.value.code else None;
      && outcome.Some?
      && (outcome.value.decision.strategy == HumanHandoff <==>
            || ((a.Denied? || a.SchemaInvalid?) && a.saved)
            || (code.Some? && code.value in {"permission_denied", "schema_validation_error", "invalid_business_input"}))
      && (outcome.value.decision.strategy == LocalReplace <==>
            code.Some? && code.value in {"tool_timeout", "transient_network_error", "retry_exhausted", "service_unavailable"})
  {
    DecidedReport(st, key, attempts, k, maxAttempts);
    OwnCodes();
    hide RunStep, AfterFailure;
    AfterFailureFollows(plan, failed, RunStep(st, key, attempts, maxAttempts).result);
  }
}
