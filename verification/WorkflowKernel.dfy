/**
 `Executor.execute` as a machine: one round is one pass of its main loop, and a run
 repeats rounds until one stops. Everything outside the executor (tools, cancellation,
 the session clock) is an arbitrary `World`, so a theorem about runs holds for every run.
 */
module WorkflowKernel {
  import opened Wrappers
  import opened Plans
  import opened StateStore
  import opened StepRunner
  import opened Replanner

  datatype ExecConfig = ExecConfig(
    maxRetryAttempts: int,
    maxReplanAttempts: int,
    hasReplanner: bool,
    maxConcurrency: int
  )

  /** What the loop reads in round `n`, and what attempt `k` of step `id` in round `n` meets. */
  datatype World = World(cancelled: nat -> bool, timedOut: nat -> bool, attempt: (nat, string, nat) -> Attempt)

  /** Every successful answer gets past the audit log, so it is stored. */
  ghost predicate Logs(w: World) {
    forall round: nat, id: string, k: nat ::
      w.attempt(round, id, k).Unlogged? ==> !w.attempt(round, id, k).result.success
  }

  /** Every successful answer can be copied into a snapshot, so it is reported as a success. */
  ghost predicate Saves(w: World) {
    forall round: nat, id: string, k: nat ::
      w.attempt(round, id, k).Invoked? && w.attempt(round, id, k).result.success ==> w.attempt(round, id, k).saved
  }

  datatype StepRecord = StepRecord(stepId: string, toolId: string, planVersion: int, result: ToolResult)

  /** The loop's variables; `calls` and `wins` only log tool calls and the steps that won one. */
  datatype ExecState = ExecState(
    session: SessionState,
    plan: ExecutionPlan,
    completed: set<string>,
    replanCount: nat,
    results: seq<StepRecord>,
    history: seq<ReplanOutcome>,
    round: nat,
    calls: nat,
    wins: seq<string>
  )

  datatype Ending = SessionCancelled | SessionTimeout | Succeeded | DependencyBlocked | StepFailure(error: Option<ErrorInfo>)

  datatype RoundOutcome = Continue(next: ExecState) | Stop(ending: Ending, last: ExecState)

  /** Steps still to do, in plan order. */
  function Pending(steps: seq<PlanStep>, completed: set<string>): seq<PlanStep> {
    if steps == [] then []
    else
      var n := |steps| - 1;
      Pending(steps[..n], completed) + if steps[n].stepId in completed then [] else [steps[n]]
  }

  lemma {:induction false} PendingIs(steps: seq<PlanStep>, completed: set<string>, s: PlanStep)
    ensures s in Pending(steps, completed) <==> s in steps && s.stepId !in completed
  {
    if steps != [] {
      var n := |steps| - 1;
      PendingIs(steps[..n], completed, s);
      assert s in steps <==> s in steps[..n] || s == steps[n];
    }
  }

  predicate AllIn(ids: seq<string>, completed: set<string>) {
    forall d :: d in ids ==> d in completed
  }

  /** Pending steps whose dependencies are all completed. */
  function Ready(pending: seq<PlanStep>, completed: set<string>): seq<PlanStep> {
    if pending == [] then []
    else
      var n := |pending| - 1;
      Ready(pending[..n], completed) + if AllIn(pending[n].dependsOn, completed) then [pending[n]] else []
  }

  lemma {:induction false} ReadyIs(pending: seq<PlanStep>, completed: set<string>, s: PlanStep)
    ensures s in Ready(pending, completed) <==> s in pending && AllIn(s.dependsOn, completed)
  {
    if pending != [] {
      var n := |pending| - 1;
      ReadyIs(pending[..n], completed, s);
      assert s in pending <==> s in pending[..n] || s == pending[n];
    }
  }

  lemma {:induction false} FlatPending(steps: seq<PlanStep>, completed: set<string>)
    requires forall i :: 0 <= i < |steps| ==> steps[i].stepId !in completed
    ensures Pending(steps, completed) == steps
  {
    if steps != [] {
      FlatPending(steps[..|steps| - 1], completed);
    }
  }

  lemma {:induction false} FlatReady(steps: seq<PlanStep>, completed: set<string>)
    requires forall i :: 0 <= i < |steps| ==> steps[i].dependsOn == []
    ensures Ready(steps, completed) == steps
  {
    if steps != [] {
      FlatReady(steps[..|steps| - 1], completed);
    }
  }

  function Min(a: int, b: int): int {
    if a <= b then a else b
  }

  /** Python's `s[:k]`, which counts from the end when `k` is negative. */
  function Take<T>(s: seq<T>, k: int): (r: seq<T>)
    ensures r <= s
    ensures k >= 0 ==> |r| == Min(k, |s|)
    ensures k < 0 ==> |s| - |r| == Min(-k, |s|)
  {
    if k >= |s| then s else if k >= 0 then s[..k] else if |s| + k >= 0 then s[..|s| + k] else []
  }

  datatype BatchRun = BatchRun(steps: map<string, StepState>, results: seq<ToolResult>, calls: nat, wins: seq<string>)

  ghost predicate Registered(steps: seq<PlanStep>, m: map<string, StepState>) {
    forall i :: 0 <= i < |steps| ==> steps[i].stepId in m
  }

  function AttemptsOf(w: World, round: nat, id: string): nat -> Attempt {
    (k: nat) => w.attempt(round, id, k)
  }

  /** The run of one step of the batch from the store as it stands. */
  function RunOf(cfg: ExecConfig, w: World, round: nat, plan: ExecutionPlan, step: PlanStep, m: map<string, StepState>): StepRun
    requires step.stepId in m
  {
    RunStep(
      m[step.stepId],
      IdempotencyKey(plan.requestId, step.stepId, plan.planVersion),
      AttemptsOf(w, round, step.stepId),
      cfg.maxRetryAttempts + 1)
  }

  /** `_execute_ready_steps`, serially in plan order. */
  function RunBatch(cfg: ExecConfig, w: World, round: nat, plan: ExecutionPlan, batch: seq<PlanStep>,
                    m: map<string, StepState>): (r: BatchRun)
    requires Registered(batch, m)
    ensures r.steps.Keys == m.Keys && |r.results| == |batch|
  {
    if batch == [] then BatchRun(m, [], 0, [])
    else
      var n := |batch| - 1;
      var before := RunBatch(cfg, w, round, plan, batch[..n], m);
      var run := RunOf(cfg, w, round, plan, batch[n], before.steps);
      BatchRun(
        before.steps[batch[n].stepId := run.state],
        before.results + [run.result],
        before.calls + run.calls,
        before.wins + if run.won then [batch[n].stepId] else [])
  }

  /** The first `i` steps of a batch, one at a time. */
  lemma BatchUnfolds(cfg: ExecConfig, w: World, round: nat, plan: ExecutionPlan, batch: seq<PlanStep>, i: nat,
                     m: map<string, StepState>)
    requires Registered(batch, m) && i <= |batch|
    ensures
      var run := RunBatch(cfg, w, round, plan, batch[..i], m);
      if i == 0 then run.steps == m && run.results == []
      else
        var before := RunBatch(cfg, w, round, plan, batch[..i - 1], m);
        var last := RunOf(cfg, w, round, plan, batch[i - 1], before.steps);
        run.steps == before.steps[batch[i - 1].stepId := last.state] && run.results == before.results + [last.result]
  {
    hide RunOf;
    if i > 0 {
      assert batch[..i][..i - 1] == batch[..i - 1];
    }
  }

  function FirstFailure(results: seq<ToolResult>): (k: nat)
    ensures k <= |results|
    ensures forall i :: 0 <= i < k ==> results[i].success
    ensures k < |results| ==> !results[k].success
  {
    if results == [] || !results[0].success then 0 else 1 + FirstFailure(results[1..])
  }

  function Records(plan: ExecutionPlan, batch: seq<PlanStep>, results: seq<ToolResult>): (r: seq<StepRecord>)
    requires |batch| == |results|
    ensures |r| == |batch|
  {
    seq(|batch|, i requires 0 <= i < |batch| =>
      StepRecord(batch[i].stepId, batch[i].toolId, plan.planVersion, results[i]))
  }

  lemma UpsertRegisters(session: SessionState, steps: seq<PlanStep>, version: int)
    ensures Registered(steps, Upserted(session, steps, version).steps)
  {
    InsertedSteps(session.(planVersion := Max(session.planVersion, version)), steps);
  }

  /** Adopts a replanned plan and registers its steps. */
  function Adopt(s: ExecState, outcome: ReplanOutcome): (r: ExecState)
    ensures Registered(r.plan.steps, r.session.steps)
  {
    UpsertRegisters(s.session, outcome.plan.steps, outcome.plan.planVersion);
    s.(
      plan := outcome.plan,
      replanCount := s.replanCount + 1,
      history := s.history + [outcome],
      session := Upserted(s.session, outcome.plan.steps, outcome.plan.planVersion),
      round := s.round + 1)
  }

  function MayReplan(cfg: ExecConfig, s: ExecState): bool {
    cfg.hasReplanner && s.replanCount < cfg.maxReplanAttempts
  }

  /** `_replan_after_failure`. */
  function ReplanFor(cfg: ExecConfig, s: ExecState, failed: PlanStep, result: ToolResult): Option<ReplanOutcome> {
    if !MayReplan(cfg, s) then None
    else
      match AfterFailure(s.plan, failed, ErrorOf(result).code)
      case None => None
      case Some(outcome) =>
        if outcome.decision.requiresHumanHandoff || !outcome.decision.shouldReplan then None else Some(outcome)
  }

  /** The batch to run: the ready steps, capped by both concurrency limits. */
  function BatchOf(cfg: ExecConfig, s: ExecState): seq<PlanStep> {
    var ready := Ready(Pending(s.plan.steps, s.completed), s.completed);
    Take(ready, Min(cfg.maxConcurrency, s.plan.graphLimits.maxParallel))
  }

  /** A step enters a batch only when it is pending and all its dependencies are completed. */
  lemma BatchIs(cfg: ExecConfig, s: ExecState, i: nat)
    requires i < |BatchOf(cfg, s)|
    ensures
      var step := BatchOf(cfg, s)[i];
      step in s.plan.steps && step.stepId !in s.completed && AllIn(step.dependsOn, s.completed)
  {
    var pending := Pending(s.plan.steps, s.completed);
    var step := BatchOf(cfg, s)[i];
    assert step in Ready(pending, s.completed);
    ReadyIs(pending, s.completed, step);
    PendingIs(s.plan.steps, s.completed, step);
  }

  lemma BatchIsRegistered(cfg: ExecConfig, s: ExecState)
    requires Registered(s.plan.steps, s.session.steps)
    ensures Registered(BatchOf(cfg, s), s.session.steps)
  {
    var batch := BatchOf(cfg, s);
    forall i | 0 <= i < |batch| ensures batch[i].stepId in s.session.steps {
      BatchIs(cfg, s, i);
    }
  }

  /** The state once the batch has run and its leading successes are noted. */
  function Ran(s: ExecState, batch: seq<PlanStep>, run: BatchRun): ExecState
    requires |batch| == |run.results|
  {
    s.(
      session := s.session.(steps := run.steps),
      calls := s.calls + run.calls,
      wins := s.wins + run.wins,
      completed := s.completed + StepIds(batch[..FirstFailure(run.results)]))
  }

  /** The loop over the batch's outcomes, after the batch has run. */
  function Settle(cfg: ExecConfig, s: ExecState, batch: seq<PlanStep>, run: BatchRun): (r: RoundOutcome)
    requires |batch| == |run.results| && run.steps.Keys == s.session.steps.Keys
    requires Registered(s.plan.steps, s.session.steps)
    ensures r.Continue? ==> Registered(r.next.plan.steps, r.next.session.steps)
  {
    var k := FirstFailure(run.results);
    var ran := Ran(s, batch, run);
    if k == |batch| then
      Continue(ran.(results := s.results + Records(s.plan, batch, run.results), round := s.round + 1))
    else
      match ReplanFor(cfg, s, batch[k], run.results[k])
      case Some(outcome) => Continue(Adopt(Noted(s, batch, run), outcome))
      case None => Stop(StepFailure(run.results[k].error), Fail(Noted(s, batch, run)))
  }

  /** The state once a failure has been noted as well. */
  function Noted(s: ExecState, batch: seq<PlanStep>, run: BatchRun): ExecState
    requires |batch| == |run.results| && FirstFailure(run.results) < |batch|
  {
    var k := FirstFailure(run.results);
    Ran(s, batch, run).(results := s.results + Records(s.plan, batch[..k + 1], run.results[..k + 1]))
  }

  function Fail(s: ExecState): ExecState {
    s.(session := s.session.(status := FAILED))
  }

  /** A batch ends in success, in a replan, or in the failure of its first failed step. */
  lemma SettleCases(cfg: ExecConfig, s: ExecState, batch: seq<PlanStep>, run: BatchRun)
    requires |batch| == |run.results| && run.steps.Keys == s.session.steps.Keys
    requires Registered(s.plan.steps, s.session.steps)
    ensures
      var k, r := FirstFailure(run.results), Settle(cfg, s, batch, run);
      if k == |batch| then
        r == Continue(Ran(s, batch, run).(results := s.results + Records(s.plan, batch, run.results), round := s.round + 1))
      else
        match ReplanFor(cfg, s, batch[k], run.results[k])
        case Some(outcome) => r == Continue(Adopt(Noted(s, batch, run), outcome))
        case None => r == Stop(StepFailure(run.results[k].error), Fail(Noted(s, batch, run)))
  {
    hide Adopt, Noted, Ran, ReplanFor, Fail;
  }

  function StopWith(ending: Ending, status: ExecutionStatus, s: ExecState): RoundOutcome {
    Stop(ending, s.(session := s.session.(status := status)))
  }

  /** The batch of this round, run. */
  function BatchRunOf(cfg: ExecConfig, w: World, s: ExecState): (r: BatchRun)
    requires Registered(s.plan.steps, s.session.steps)
    ensures r.steps.Keys == s.session.steps.Keys && |r.results| == |BatchOf(cfg, s)|
  {
    BatchIsRegistered(cfg, s);
    RunBatch(cfg, w, s.round, s.plan, BatchOf(cfg, s), s.session.steps)
  }

  /** One pass of the main loop. */
  function Round(cfg: ExecConfig, w: World, s: ExecState): (r: RoundOutcome)
    requires Registered(s.plan.steps, s.session.steps)
    ensures r.Continue? ==> Registered(r.next.plan.steps, r.next.session.steps)
  {
    var pending := Pending(s.plan.steps, s.completed);
    var ready := Ready(pending, s.completed);
    if w.cancelled(s.round) then StopWith(SessionCancelled, CANCELED, s)
    else if w.timedOut(s.round) then StopWith(SessionTimeout, FAILED, s)
    else if pending == [] then StopWith(Succeeded, SUCCESS, s)
    else if ready == [] then
      match if MayReplan(cfg, s) then ForMissingDependency(s.plan, pending[0].stepId) else None
      case None => StopWith(DependencyBlocked, FAILED, s)
      case Some(outcome) => Continue(Adopt(s, outcome))
    else
      Settle(cfg, s, BatchOf(cfg, s), BatchRunOf(cfg, w, s))
  }

  /** A round takes one of three courses: it stops at once, it unblocks the plan, or it runs a batch. */
  lemma RoundCases(cfg: ExecConfig, w: World, s: ExecState)
    requires Registered(s.plan.steps, s.session.steps)
    ensures
      var pending, r := Pending(s.plan.steps, s.completed), Round(cfg, w, s);
      || (Idle(cfg, w, s) && StopsAtOnce(s, r))
      || (Unblocks(cfg, w, s) && r == Continue(Adopt(s, ForMissingDependency(s.plan, pending[0].stepId).value)))
      || (Works(cfg, w, s) && r == Settle(cfg, s, BatchOf(cfg, s), BatchRunOf(cfg, w, s)))
  {
    hide Settle, Adopt, ForMissingDependency, BatchOf, BatchRunOf;
  }

  predicate Interrupted(w: World, s: ExecState) {
    w.cancelled(s.round) || w.timedOut(s.round)
  }

  predicate Unblocks(cfg: ExecConfig, w: World, s: ExecState) {
    var pending := Pending(s.plan.steps, s.completed);
    && !Interrupted(w, s) && pending != [] && Ready(pending, s.completed) == []
    && MayReplan(cfg, s) && ForMissingDependency(s.plan, pending[0].stepId).Some?
  }

  predicate Works(cfg: ExecConfig, w: World, s: ExecState) {
    !Interrupted(w, s) && Ready(Pending(s.plan.steps, s.completed), s.completed) != []
  }

  ghost predicate StopsAtOnce(s: ExecState, r: RoundOutcome) {
    var pending := Pending(s.plan.steps, s.completed);
    && r.Stop? && !r.ending.StepFailure?
    && r.last == s.(session := s.session.(status := r.last.session.status))
    && (r.ending == Succeeded ==> pending == [] && r.last.session.status == SUCCESS)
    && (r.ending == DependencyBlocked ==> pending != [] && Ready(pending, s.completed) == [])
  }

  predicate Idle(cfg: ExecConfig, w: World, s: ExecState) {
    !Unblocks(cfg, w, s) && !Works(cfg, w, s)
  }
}
