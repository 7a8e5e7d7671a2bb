/** One step of a batch: the retry loop of `_execute_single_step` over arbitrary attempt outcomes. */
module StepRunner {
  import opened Wrappers
  import opened StateStore

  /**
   What one attempt meets outside the executor, exceptions included:
   - `Cancelled`: a cancellation signal at the loop head;
   - `Denied`, `SchemaInvalid`: a refusal by the policy or by the schema check; unless
     `saved`, the snapshot of the refusal raises;
   - `Crashed`: an exception once the step is running, before it waits for its tool;
   - `Unstarted`: an exception once it waits, before the tool is called;
   - `Unlogged`: the tool answers and the audit write raises, before anything is stored;
   - `Invoked`: the tool answers and the answer is stored; unless `saved`, the snapshot
     that follows, which copies the answer, raises.
   Past the last allowed attempt only one thing is left to go wrong: `Crashed` there says
   that the snapshot of the exhausted step raises.
   */
  datatype Attempt =
    | Cancelled
    | Denied(saved: bool)
    | SchemaInvalid(saved: bool)
    | Crashed
    | Unstarted
    | Unlogged(result: ToolResult)
    | Invoked(result: ToolResult, saved: bool)

  function Refusal(code: string): ToolResult {
    ToolResult(false, "", Some(ErrorInfo(Some(code), None)), false)
  }

  const STEP_CANCELLED := Refusal("step_cancelled")
  const PERMISSION_DENIED := Refusal("permission_denied")
  const SCHEMA_VALIDATION_ERROR := Refusal("schema_validation_error")
  const EXECUTOR_INTERNAL_ERROR := Refusal("executor_internal_error")
  const IDEMPOTENT_SKIP := ToolResult(true, "idempotent_skip", None, false)

  function RetryExhausted(last: Option<ToolResult>): ToolResult {
    ToolResult(false, "", Some(ErrorInfo(Some("retry_exhausted"), if last.Some? then last.value.error else None)), false)
  }

  /** What a stored result is reported as: unless its snapshot is saved, the caller's guard turns it into a failure. */
  function Reported(result: ToolResult, saved: bool): ToolResult {
    if saved then result else EXECUTOR_INTERNAL_ERROR
  }

  /** `result.get("error") or {}`. */
  function ErrorOf(result: ToolResult): ErrorInfo {
    if result.error.Some? then result.error.value else NO_ERROR_INFO
  }

  /** A finished step: its stored state, its result, its tool calls, and whether one of them succeeded. */
  datatype StepRun = StepRun(state: StepState, result: ToolResult, calls: nat, won: bool)

  /** The attempts from number `attempt` on. */
  function RunAttempts(st: StepState, key: string, attempts: nat -> Attempt, attempt: nat, maxAttempts: int,
                       last: Option<ToolResult>): (run: StepRun)
    decreases maxAttempts - attempt
  {
    if attempt > maxAttempts then
      StepRun(MarkedFailed(st, ErrorOf(RetryExhausted(last))),
              Reported(RetryExhausted(last), !attempts(attempt).Crashed?), 0, false)
    else
      match attempts(attempt)
      case Cancelled => StepRun(MarkedCanceled(st, ErrorOf(STEP_CANCELLED)), STEP_CANCELLED, 0, false)
      case Denied(saved) =>
        StepRun(MarkedFailed(MarkedRunning(st), ErrorOf(PERMISSION_DENIED)), Reported(PERMISSION_DENIED, saved), 0, false)
      case SchemaInvalid(saved) =>
        StepRun(MarkedFailed(MarkedRunning(st), ErrorOf(SCHEMA_VALIDATION_ERROR)), Reported(SCHEMA_VALIDATION_ERROR, saved), 0, false)
      case Crashed => StepRun(MarkedRunning(st), EXECUTOR_INTERNAL_ERROR, 0, false)
      case Unstarted => StepRun(MarkedWaitingTool(MarkedRunning(st)), EXECUTOR_INTERNAL_ERROR, 0, false)
      case Unlogged(result) => StepRun(MarkedWaitingTool(MarkedRunning(st)), EXECUTOR_INTERNAL_ERROR, 1, result.success)
      case Invoked(result, saved) =>
        var waiting := MarkedWaitingTool(MarkedRunning(st));
        if result.success then
          StepRun(MarkedSuccess(waiting, result, key), Reported(result, saved), 1, true)
        else if !saved then
          StepRun(MarkedFailed(waiting, ErrorOf(result)), EXECUTOR_INTERNAL_ERROR, 1, false)
        else if !result.retryable then
          StepRun(MarkedFailed(waiting, ErrorOf(result)), result, 1, false)
        else
          var rest := RunAttempts(MarkedFailed(waiting, ErrorOf(result)), key, attempts, attempt + 1, maxAttempts, Some(result));
          rest.(calls := rest.calls + 1)
  }

  /** `cached_result or {...}`. */
  function SkipResult(st: StepState): ToolResult {
    if st.result.Some? then st.result.value else IDEMPOTENT_SKIP
  }

  /** The whole of `_execute_single_step`, with the exception guard of its caller. */
  function RunStep(st: StepState, key: string, attempts: nat -> Attempt, maxAttempts: int): StepRun {
    if ShouldSkip(st, key) then StepRun(st, SkipResult(st), 0, false)
    else RunAttempts(st, key, attempts, 1, maxAttempts, None)
  }

  /** A successful step has a successful result on record. */
  predicate ResultOk(st: StepState) {
    st.status == SUCCESS ==> st.result.Some? && st.result.value.success
  }

  function Clip(n: int): nat {
    if n < 0 then 0 else n
  }

  /** A stored, retryable failure: the one answer after which the loop goes on. */
  predicate TriesAgain(a: Attempt) {
    a.Invoked? && !a.result.success && a.saved && a.result.retryable
  }

  /** The attempt that ends the loop; none when every allowed attempt fails retryably. */
  function Deciding(attempts: nat -> Attempt, attempt: nat, maxAttempts: int): Option<Attempt>
    decreases maxAttempts - attempt
  {
    if attempt > maxAttempts then None
    else if TriesAgain(attempts(attempt)) then Deciding(attempts, attempt + 1, maxAttempts)
    else Some(attempts(attempt))
  }

  /** The tool succeeded and the success is in the store. */
  predicate Stores(a: Option<Attempt>) {
    a.Some? && a.value.Invoked? && a.value.result.success
  }

  /** The tool succeeded, stored or not. */
  predicate Succeeds(a: Option<Attempt>) {
    a.Some? && (a.value.Invoked? || a.value.Unlogged?) && a.value.result.success
  }

  /** The deciding attempt tells everything: what is stored, what is reported, and whether the tool succeeded. */
  lemma {:induction false} RunAttemptsOutcome(st: StepState, key: string, attempts: nat -> Attempt, attempt: nat,
                                              maxAttempts: int, last: Option<ToolResult>)
    ensures
      var run, d := RunAttempts(st, key, attempts, attempt, maxAttempts, last), Deciding(attempts, attempt, maxAttempts);
      && (run.state.status == SUCCESS <==> Stores(d))
      && (run.result.success <==> Stores(d) && d.value.saved)
      && (run.won <==> Succeeds(d))
      && ResultOk(run.state)
      && (Stores(d) ==> run.state.idempotencyKey == key)
      && (run.won ==> run.calls >= 1)
      && run.calls <= Clip(maxAttempts - attempt + 1)
      && st.attempts + run.calls <= run.state.attempts
    decreases maxAttempts - attempt
  {
    if attempt <= maxAttempts && TriesAgain(attempts(attempt)) {
      var result := attempts(attempt).result;
      var waiting := MarkedWaitingTool(MarkedRunning(st));
      RunAttemptsOutcome(MarkedFailed(waiting, ErrorOf(result)), key, attempts, attempt + 1, maxAttempts, Some(result));
    }
  }

  lemma StepCalls(st: StepState, key: string, attempts: nat -> Attempt, maxAttempts: int)
    ensures RunStep(st, key, attempts, maxAttempts).calls <= Clip(maxAttempts)
  {
    RunAttemptsOutcome(st, key, attempts, 1, maxAttempts, None);
  }

  /**
   Whatever the attempts meet, a reported success is stored and its tool call succeeded; a
   stored success is new only if the tool succeeded; a skip costs nothing and changes
   nothing; and the tool is called at most once per allowed attempt.
   */
  lemma RunStepOutcome(st: StepState, key: string, attempts: nat -> Attempt, maxAttempts: int)
    requires ResultOk(st)
    ensures
      var run := RunStep(st, key, attempts, maxAttempts);
      && (run.result.success ==> run.state.status == SUCCESS && run.state.idempotencyKey == key)
      && (run.result.success && !ShouldSkip(st, key) ==> run.won)
      && (run.state.status == SUCCESS ==> run.won || ShouldSkip(st, key))
      && ResultOk(run.state)
      && run.calls <= Clip(maxAttempts)
      && (ShouldSkip(st, key) ==> run.state == st && run.result.success && run.calls == 0 && !run.won)
      && st.attempts <= run.state.attempts
  {
    RunAttemptsOutcome(st, key, attempts, 1, maxAttempts, None);
  }

  /** Store and report agree on a step that is not skipped, unless its success was stored and then not saved. */
  lemma StoreAgreesIff(st: StepState, key: string, attempts: nat -> Attempt, maxAttempts: int)
    requires !ShouldSkip(st, key)
    ensures
      var run, d := RunStep(st, key, attempts, maxAttempts), Deciding(attempts, 1, maxAttempts);
      (run.state.status == SUCCESS <==> run.result.success) <==> !(Stores(d) && !d.value.saved)
  {
    RunAttemptsOutcome(st, key, attempts, 1, maxAttempts, None);
  }

  /** Whether a step, run again under the same key, can get another successful tool call. */
  ghost predicate CanWinAgain(st: StepState, key: string) {
    exists attempts: nat -> Attempt, maxAttempts: int :: RunStep(st, key, attempts, maxAttempts).won
  }

  const DONE := ToolResult(true, "done", None, false)

  /** A win is final exactly when it was stored: only a failed audit write lets the tool succeed again. */
  lemma WinIsFinalIff(st: StepState, key: string, attempts: nat -> Attempt, maxAttempts: int)
    requires key != "" && RunStep(st, key, attempts, maxAttempts).won
    ensures
      var run, d := RunStep(st, key, attempts, maxAttempts), Deciding(attempts, 1, maxAttempts);
      CanWinAgain(run.state, key) <==> d.Some? && d.value.Unlogged?
  {
    RunAttemptsOutcome(st, key, attempts, 1, maxAttempts, None);
    var run := RunStep(st, key, attempts, maxAttempts);
    if run.state.status != SUCCESS {
      var again: nat -> Attempt := (k: nat) => Invoked(DONE, true);
      RunAttemptsOutcome(run.state, key, again, 1, 1, None);
      assert RunStep(run.state, key, again, 1).won;
    }
  }
}
