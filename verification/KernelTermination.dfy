/** Every run of the executor ends, within a bounded number of tool calls. */
module KernelTermination {
  import opened Wrappers
  import opened Plans
  import opened StateStore
  import opened StepRunner
  import opened Replanner
  import opened WorkflowKernel

  /** Both concurrency limits admit at least one step. */
  ghost predicate Capped(cfg: ExecConfig, s: ExecState) {
    cfg.maxConcurrency >= 1 && s.plan.graphLimits.maxParallel >= 1
  }

  function CountIn(steps: seq<PlanStep>, ids: set<string>): nat {
    if steps == [] then 0
    else CountIn(steps[..|steps| - 1], ids) + if steps[|steps| - 1].stepId in ids then 1 else 0
  }

  lemma CountSnoc(steps: seq<PlanStep>, step: PlanStep, ids: set<string>)
    ensures CountIn(steps + [step], ids) == CountIn(steps, ids) + if step.stepId in ids then 1 else 0
  {
    assert (steps + [step])[..|steps|] == steps;
  }

  lemma {:induction false} PendingDrops(steps: seq<PlanStep>, completed: set<string>, ids: set<string>)
    ensures |Pending(steps, completed + ids)| + CountIn(Pending(steps, completed), ids) == |Pending(steps, completed)|
  {
    if steps != [] {
      var n := |steps| - 1;
      PendingDrops(steps[..n], completed, ids);
      var head, tail := Pending(steps[..n], completed), Pending(steps[..n], completed + ids);
      if steps[n].stepId in completed {
        assert Pending(steps, completed) == head;
        assert Pending(steps, completed + ids) == tail;
      } else {
        assert Pending(steps, completed) == head + [steps[n]];
        assert Pending(steps, completed + ids) == tail + if steps[n].stepId in ids then [] else [steps[n]];
        CountSnoc(head, steps[n], ids);
      }
    }
  }

  lemma {:induction false} ReadyCount(pending: seq<PlanStep>, completed: set<string>, ids: set<string>)
    ensures CountIn(Ready(pending, completed), ids) <= CountIn(pending, ids)
  {
    if pending != [] {
      var n := |pending| - 1;
      ReadyCount(pending[..n], completed, ids);
      var head := Ready(pending[..n], completed);
      assert pending == pending[..n] + [pending[n]];
      CountSnoc(pending[..n], pending[n], ids);
      if AllIn(pending[n].dependsOn, completed) {
        assert Ready(pending, completed) == head + [pending[n]];
        CountSnoc(head, pending[n], ids);
      } else {
        assert Ready(pending, completed) == head;
      }
    }
  }

  lemma {:induction false} PrefixCount(steps: seq<PlanStep>, k: nat, ids: set<string>)
    requires k <= |steps|
    ensures CountIn(steps[..k], ids) <= CountIn(steps, ids)
  {
    if k < |steps| {
      var n := |steps| - 1;
      PrefixCount(steps[..n], k, ids);
      assert steps[..n][..k] == steps[..k];
    } else {
      assert steps[..k] == steps;
    }
  }

  lemma {:induction false} FullCount(steps: seq<PlanStep>, ids: set<string>)
    requires forall i :: 0 <= i < |steps| ==> steps[i].stepId in ids
    ensures CountIn(steps, ids) == |steps|
  {
    if steps != [] {
      FullCount(steps[..|steps| - 1], ids);
    }
  }

  lemma BatchIsPrefix(cfg: ExecConfig, s: ExecState)
    ensures BatchOf(cfg, s) <= Ready(Pending(s.plan.steps, s.completed), s.completed)
  {
    hide Pending, Ready;
  }

  /** Completing a batch takes at least its length off the pending steps. */
  lemma BatchShrinksPending(cfg: ExecConfig, s: ExecState)
    ensures
      var batch := BatchOf(cfg, s);
      |Pending(s.plan.steps, s.completed + StepIds(batch))| + |batch| <= |Pending(s.plan.steps, s.completed)|
  {
    var batch := BatchOf(cfg, s);
    var pending, ids := Pending(s.plan.steps, s.completed), StepIds(batch);
    var ready := Ready(pending, s.completed);
    hide BatchOf, Pending, Ready, CountIn;
    PendingDrops(s.plan.steps, s.completed, ids);
    ReadyCount(pending, s.completed, ids);
    BatchIsPrefix(cfg, s);
    assert ready[..|batch|] == batch;
    PrefixCount(ready, |batch|, ids);
    FullCount(batch, ids);
  }

  /** The slice of the ready steps is nonempty for every ready list exactly when the limit is at least 1. */
  lemma LimitAdmitsStepIff(limit: int)
    ensures (forall ready: seq<PlanStep> {:trigger Take(ready, limit)} :: ready != [] ==> Take(ready, limit) != []) <==> limit >= 1
  {
    if limit < 1 {
      var step := PlanStep("a", "", "", NotADictionary(""), [], "", 0, false);
      assert [step] != [] && Take([step], limit) == [];
    }
  }

  predicate SameShape(before: ExecutionPlan, later: ExecutionPlan) {
    |later.steps| == |before.steps| && later.graphLimits == before.graphLimits
  }

  /** What replanning leaves of a plan's shape. */
  lemma ReplanKeepsShape(plan: ExecutionPlan, failed: PlanStep, code: Option<string>, blocked: string)
    ensures AfterFailure(plan, failed, code).Some? ==> SameShape(plan, AfterFailure(plan, failed, code).value.plan)
    ensures ForMissingDependency(plan, blocked).Some? ==> SameShape(plan, ForMissingDependency(plan, blocked).value.plan)
  {
  }

  /** Tool calls of one round. */
  ghost function CallsOf(cfg: ExecConfig, w: World, s: ExecState): nat
    requires Registered(s.plan.steps, s.session.steps)
  {
    if Works(cfg, w, s) then BatchRunOf(cfg, w, s).calls else 0
  }

  /** A continuing round either spends a replan or completes its batch. */
  ghost predicate Advances(cfg: ExecConfig, w: World, s: ExecState, t: ExecState)
    requires Registered(s.plan.steps, s.session.steps)
  {
    && SameShape(s.plan, t.plan) && t.calls == s.calls + CallsOf(cfg, w, s)
    && ((MayReplan(cfg, s) && t.replanCount == s.replanCount + 1)
        || (Works(cfg, w, s) && t.replanCount == s.replanCount && t.plan == s.plan
            && t.completed == s.completed + StepIds(BatchOf(cfg, s))))
  }

  lemma SettleAdvances(cfg: ExecConfig, w: World, s: ExecState)
    requires Registered(s.plan.steps, s.session.steps) && Works(cfg, w, s)
    ensures
      match Settle(cfg, s, BatchOf(cfg, s), BatchRunOf(cfg, w, s))
      case Continue(t) => Advances(cfg, w, s, t)
      case Stop(_, t) => t.plan == s.plan && t.replanCount == s.replanCount && t.calls == s.calls + CallsOf(cfg, w, s)
  {
    hide BatchOf, BatchRunOf, AfterFailure, Records;
    var batch, run := BatchOf(cfg, s), BatchRunOf(cfg, w, s);
    var k := FirstFailure(run.results);
    if k == |batch| {
      assert batch[..k] == batch;
    } else {
      ReplanKeepsShape(s.plan, batch[k], ErrorOf(run.results[k]).code, "");
    }
  }

  lemma RoundAdvances(cfg: ExecConfig, w: World, s: ExecState)
    requires Registered(s.plan.steps, s.session.steps)
    ensures
      match Round(cfg, w, s)
      case Continue(t) => Advances(cfg, w, s, t)
      case Stop(_, t) => t.plan == s.plan && t.replanCount == s.replanCount && t.calls == s.calls + CallsOf(cfg, w, s)
  {
    hide Round, Settle, BatchOf, BatchRunOf, ForMissingDependency;
    RoundCases(cfg, w, s);
    if Works(cfg, w, s) {
      SettleAdvances(cfg, w, s);
    } else if Unblocks(cfg, w, s) {
      var pending := Pending(s.plan.steps, s.completed);
      ReplanKeepsShape(s.plan, pending[0], None, pending[0].stepId);
    }
  }

  function ReplansLeft(cfg: ExecConfig, s: ExecState): nat {
    Clip(cfg.maxReplanAttempts - s.replanCount)
  }

  function Todo(s: ExecState): nat {
    |Pending(s.plan.steps, s.completed)|
  }

  ghost predicate Shrinks(cfg: ExecConfig, s: ExecState, t: ExecState) {
    ReplansLeft(cfg, t) < ReplansLeft(cfg, s) || (ReplansLeft(cfg, t) == ReplansLeft(cfg, s) && Todo(t) < Todo(s))
  }

  lemma BatchNonempty(cfg: ExecConfig, w: World, s: ExecState)
    requires Capped(cfg, s) && Works(cfg, w, s)
    ensures |BatchOf(cfg, s)| > 0
  {
  }

  /** Each continuing round spends a replan or finishes a pending step. */
  lemma RoundDecreases(cfg: ExecConfig, w: World, s: ExecState)
    requires Registered(s.plan.steps, s.session.steps) && Capped(cfg, s)
    ensures Round(cfg, w, s).Continue? ==> Capped(cfg, Round(cfg, w, s).next) && Shrinks(cfg, s, Round(cfg, w, s).next)
  {
    hide Round, BatchOf, Pending, Ready;
    RoundAdvances(cfg, w, s);
    BatchShrinksPending(cfg, s);
    if Works(cfg, w, s) {
      BatchNonempty(cfg, w, s);
    }
  }

  datatype RunOutcome = RunOutcome(ending: Ending, last: ExecState)

  /** A whole run; that this is a function is the termination theorem. */
  ghost function Run(cfg: ExecConfig, w: World, s: ExecState): RunOutcome
    requires Registered(s.plan.steps, s.session.steps) && Capped(cfg, s)
    decreases ReplansLeft(cfg, s), Todo(s)
  {
    RoundDecreases(cfg, w, s);
    match Round(cfg, w, s)
    case Stop(ending, last) => RunOutcome(ending, last)
    case Continue(next) => Run(cfg, w, next)
  }

  /** The state at the head of the loop after `n` rounds, if the run gets that far. */
  ghost function StateAt(cfg: ExecConfig, w: World, s: ExecState, n: nat): (r: Option<ExecState>)
    requires Registered(s.plan.steps, s.session.steps)
    ensures r.Some? ==> Registered(r.value.plan.steps, r.value.session.steps)
  {
    if n == 0 then Some(s)
    else
      match StateAt(cfg, w, s, n - 1)
      case None => None
      case Some(x) => match Round(cfg, w, x) case Stop(_, _) => None case Continue(next) => Some(next)
  }

  lemma {:induction false} StateAtShifts(cfg: ExecConfig, w: World, s: ExecState, n: nat)
    requires Registered(s.plan.steps, s.session.steps) && Round(cfg, w, s).Continue?
    ensures StateAt(cfg, w, s, n + 1) == StateAt(cfg, w, Round(cfg, w, s).next, n)
  {
    hide Round;
    if n > 0 {
      StateAtShifts(cfg, w, s, n - 1);
    } else {
      assert StateAt(cfg, w, s, 0) == Some(s);
    }
  }

  /** A run passes some number of loop heads, and stops in the round that starts at the last. */
  ghost predicate StopsAt(cfg: ExecConfig, w: World, s: ExecState, n: nat, outcome: RunOutcome)
    requires Registered(s.plan.steps, s.session.steps)
  {
    && StateAt(cfg, w, s, n).Some?
    && Round(cfg, w, StateAt(cfg, w, s, n).value) == Stop(outcome.ending, outcome.last)
  }

  lemma {:induction false} RunStopsSomewhere(cfg: ExecConfig, w: World, s: ExecState) returns (n: nat)
    requires Registered(s.plan.steps, s.session.steps) && Capped(cfg, s)
    ensures StopsAt(cfg, w, s, n, Run(cfg, w, s))
    decreases ReplansLeft(cfg, s), Todo(s)
  {
    hide Round, Pending, Registered;
    RoundDecreases(cfg, w, s);
    match Round(cfg, w, s)
    case Stop(_, _) => n := 0;
    case Continue(next) =>
      var m := RunStopsSomewhere(cfg, w, next);
      StateAtShifts(cfg, w, s, m);
      n := m + 1;
  }

  function CallsPerStep(cfg: ExecConfig): nat {
    Clip(cfg.maxRetryAttempts + 1)
  }

  lemma {:induction false} BatchCalls(cfg: ExecConfig, w: World, round: nat, plan: ExecutionPlan, batch: seq<PlanStep>,
                                      m: map<string, StepState>)
    requires Registered(batch, m)
    ensures RunBatch(cfg, w, round, plan, batch, m).calls <= |batch| * CallsPerStep(cfg)
  {
    hide RunStep, IdempotencyKey;
    if batch != [] {
      var n := |batch| - 1;
      BatchCalls(cfg, w, round, plan, batch[..n], m);
      var before := RunBatch(cfg, w, round, plan, batch[..n], m);
      StepCalls(before.steps[batch[n].stepId], IdempotencyKey(plan.requestId, batch[n].stepId, plan.planVersion),
                AttemptsOf(w, round, batch[n].stepId), cfg.maxRetryAttempts + 1);
      assert |batch| * CallsPerStep(cfg) == n * CallsPerStep(cfg) + CallsPerStep(cfg);
    }
  }

  /** Step executions a run can have started: a plan's worth per replan, and the steps no longer pending. */
  function Budget(s: ExecState): int {
    s.replanCount * |s.plan.steps| + |s.plan.steps| - Todo(s)
  }

  ghost predicate WithinBudget(cfg: ExecConfig, s: ExecState) {
    s.calls <= Budget(s) * CallsPerStep(cfg)
  }

  lemma BudgetArithmetic(calls: nat, batchCalls: nat, batch: nat, u: nat, budget: int, later: int)
    requires calls <= budget * u && batchCalls <= batch * u && budget + batch <= later
    ensures calls + batchCalls <= later * u
  {
    assert (budget + batch) * u == budget * u + batch * u;
    assert later * u == (budget + batch) * u + (later - budget - batch) * u;
  }

  lemma {:induction false} PendingIsShort(steps: seq<PlanStep>, completed: set<string>)
    ensures |Pending(steps, completed)| <= |steps|
  {
    if steps != [] {
      PendingIsShort(steps[..|steps| - 1], completed);
    }
  }

  ghost predicate PaidFor(cfg: ExecConfig, w: World, s: ExecState, r: RoundOutcome)
    requires Registered(s.plan.steps, s.session.steps)
  {
    match r
    case Continue(t) => Advances(cfg, w, s, t) && WithinBudget(cfg, t)
    case Stop(_, t) => t.calls <= (s.replanCount + 1) * |s.plan.steps| * CallsPerStep(cfg)
  }

  /** The potential argument: a round's tool calls are paid for by what it takes off the pending steps. */
  lemma RoundWithinBudget(cfg: ExecConfig, w: World, s: ExecState)
    requires Registered(s.plan.steps, s.session.steps) && WithinBudget(cfg, s)
    ensures PaidFor(cfg, w, s, Round(cfg, w, s))
  {
    hide Round, BatchOf, RunBatch, Pending, Ready;
    var batch, u, n := BatchOf(cfg, s), CallsPerStep(cfg), |s.plan.steps|;
    RoundAdvances(cfg, w, s);
    BatchIsRegistered(cfg, s);
    BatchCalls(cfg, w, s.round, s.plan, batch, s.session.steps);
    BatchShrinksPending(cfg, s);
    var r := Round(cfg, w, s);
    if r.Continue? { PendingIsShort(r.next.plan.steps, r.next.completed); }
    var b := if Works(cfg, w, s) then |batch| else 0;
    assert (s.replanCount + 1) * n == s.replanCount * n + n;
    BudgetArithmetic(s.calls, CallsOf(cfg, w, s), b, u, Budget(s), (s.replanCount + 1) * n);
    if r.Continue? {
      BudgetArithmetic(s.calls, CallsOf(cfg, w, s), b, u, Budget(s), Budget(r.next));
    }
  }

  lemma {:induction false} RunWithinBudget(cfg: ExecConfig, w: World, s: ExecState)
    requires Registered(s.plan.steps, s.session.steps) && Capped(cfg, s) && WithinBudget(cfg, s)
    requires s.replanCount <= Clip(cfg.maxReplanAttempts)
    ensures Run(cfg, w, s).last.calls <= (Clip(cfg.maxReplanAttempts) + 1) * |s.plan.steps| * CallsPerStep(cfg)
    decreases ReplansLeft(cfg, s), Todo(s)
  {
    hide Round, BatchOf, Pending, Ready, Works, CallsOf, WithinBudget, CallsPerStep;
    RoundWithinBudget(cfg, w, s);
    RoundDecreases(cfg, w, s);
    match Round(cfg, w, s)
    case Stop(_, t) =>
      var n, u, limit := |s.plan.steps|, CallsPerStep(cfg), Clip(cfg.maxReplanAttempts);
      assert (limit + 1) * n == (s.replanCount + 1) * n + (limit - s.replanCount) * n;
      BudgetArithmetic(t.calls, 0, 0, u, (s.replanCount + 1) * n, (limit + 1) * n);
    case Continue(next) =>
      RunWithinBudget(cfg, w, next);
  }

  /**
   The work bound: from a fresh start, whatever the tools return, a run ends after at most
   `|steps| * (max_replan_attempts + 1) * (max_retry_attempts + 1)` tool calls.
   */
  lemma WorkBound(cfg: ExecConfig, w: World, s: ExecState)
    requires Registered(s.plan.steps, s.session.steps) && Capped(cfg, s)
    requires s.replanCount == 0 && s.calls == 0
    ensures Run(cfg, w, s).last.calls <= (Clip(cfg.maxReplanAttempts) + 1) * |s.plan.steps| * CallsPerStep(cfg)
  {
    hide Round, Run, Pending;
    PendingIsShort(s.plan.steps, s.completed);
    BudgetArithmetic(0, 0, 0, CallsPerStep(cfg), 0, Budget(s));
    RunWithinBudget(cfg, w, s);
  }

  /** With nothing in the batch, a pass changes nothing but the round number. */
  lemma EmptyBatchStutters(cfg: ExecConfig, w: World, s: ExecState)
    requires Registered(s.plan.steps, s.session.steps) && Works(cfg, w, s) && BatchOf(cfg, s) == []
    ensures Round(cfg, w, s) == Continue(s.(round := s.round + 1))
  {
    hide Round, BatchOf;
    RoundCases(cfg, w, s);
    assert StepIds([]) == {} && s.completed + {} == s.completed;
  }

  ghost predicate Halts(cfg: ExecConfig, w: World, s: ExecState)
    requires Registered(s.plan.steps, s.session.steps)
  {
    exists n: nat :: StateAt(cfg, w, s, n).None?
  }

  /** A state whose plan is a single pending step. */
  ghost predicate OneStepLeft(s: ExecState) {
    && |s.plan.steps| == 1 && s.plan.steps[0].dependsOn == []
    && s.plan.steps[0].stepId in s.session.steps && s.plan.steps[0].stepId !in s.completed
  }

  /** Under a limit below 1 an uninterrupted run on a single step passes every loop head there could be. */
  lemma {:induction false} SpinsForever(cfg: ExecConfig, w: World, s: ExecState, n: nat)
    requires OneStepLeft(s) && Min(cfg.maxConcurrency, s.plan.graphLimits.maxParallel) < 1
    requires forall k: nat :: !w.cancelled(k) && !w.timedOut(k)
    ensures StateAt(cfg, w, s, n) == Some(s.(round := s.round + n))
  {
    hide Round, Pending, Ready;
    if n > 0 {
      SpinsForever(cfg, w, s, n - 1);
      Spins(cfg, w, s.(round := s.round + n - 1));
    }
  }

  lemma Spins(cfg: ExecConfig, w: World, s: ExecState)
    requires OneStepLeft(s) && Min(cfg.maxConcurrency, s.plan.graphLimits.maxParallel) < 1
    requires !Interrupted(w, s)
    ensures Round(cfg, w, s) == Continue(s.(round := s.round + 1))
  {
    NothingFits(cfg, w, s);
    hide Round, Works, OneStepLeft, BatchOf, Registered;
    EmptyBatchStutters(cfg, w, s);
  }

  lemma NothingFits(cfg: ExecConfig, w: World, s: ExecState)
    requires OneStepLeft(s) && Min(cfg.maxConcurrency, s.plan.graphLimits.maxParallel) < 1 && !Interrupted(w, s)
    ensures Registered(s.plan.steps, s.session.steps) && Works(cfg, w, s) && BatchOf(cfg, s) == []
  {
    FlatPending(s.plan.steps, s.completed);
    FlatReady(s.plan.steps, s.completed);
    hide Pending, Ready;
  }

  lemma {:induction false} RoundsCount(cfg: ExecConfig, w: World, s: ExecState, n: nat)
    requires Registered(s.plan.steps, s.session.steps) && StateAt(cfg, w, s, n).Some?
    ensures StateAt(cfg, w, s, n).value.round == s.round + n
  {
    hide Round, Registered;
    if n > 0 {
      RoundsCount(cfg, w, s, n - 1);
      RoundIsCounted(cfg, w, StateAt(cfg, w, s, n - 1).value);
    }
  }

  lemma RoundIsCounted(cfg: ExecConfig, w: World, s: ExecState)
    requires Registered(s.plan.steps, s.session.steps)
    ensures Round(cfg, w, s).Continue? ==> Round(cfg, w, s).next.round == s.round + 1
  {
    hide Round, BatchOf, BatchRunOf, Pending, Ready, ReplanFor, ForMissingDependency, Records;
    RoundCases(cfg, w, s);
    SettleCases(cfg, s, BatchOf(cfg, s), BatchRunOf(cfg, w, s));
  }

  lemma InterruptedStops(cfg: ExecConfig, w: World, s: ExecState)
    requires Registered(s.plan.steps, s.session.steps) && Interrupted(w, s)
    ensures Round(cfg, w, s).Stop?
  {
  }

  /** A session timeout, or a cancellation, that comes at some reading ends every run, whatever the limits. */
  lemma InterruptionHalts(cfg: ExecConfig, w: World, s: ExecState, n: nat)
    requires Registered(s.plan.steps, s.session.steps) && (w.timedOut(s.round + n) || w.cancelled(s.round + n))
    ensures Halts(cfg, w, s)
  {
    hide Round, Registered;
    if StateAt(cfg, w, s, n).Some? {
      RoundsCount(cfg, w, s, n);
      InterruptedStops(cfg, w, StateAt(cfg, w, s, n).value);
      assert StateAt(cfg, w, s, n + 1).None?;
    }
  }

  /** Every run under these limits halts, with or without an interruption, if and only if both are at least 1. */
  lemma EveryRunHaltsIff(cfg: ExecConfig, maxParallel: int)
    ensures
      (forall w: World, s: ExecState {:trigger Halts(cfg, w, s)} ::
         Registered(s.plan.steps, s.session.steps) && s.plan.graphLimits.maxParallel == maxParallel ==> Halts(cfg, w, s))
      <==> Min(cfg.maxConcurrency, maxParallel) >= 1
  {
    if Min(cfg.maxConcurrency, maxParallel) >= 1 {
      forall w: World, s: ExecState | Registered(s.plan.steps, s.session.steps) && s.plan.graphLimits.maxParallel == maxParallel
        ensures Halts(cfg, w, s)
      {
        hide Run, Round;
        var n := RunStopsSomewhere(cfg, w, s);
        assert StateAt(cfg, w, s, n + 1).None?;
      }
    } else {
      var w := World((n: nat) => false, (n: nat) => false, (n: nat, id: string, k: nat) => Crashed);
      var step := PlanStep("a", "", "", Dictionary(map[]), [], "", 1, false);
      var plan := ExecutionPlan("", "", "", 1, [step], [], GraphLimits(1, maxParallel));
      var s := ExecState(SessionState("", "", "", 1, RUNNING, false, map["a" := NewStep(step)], ["a"]), plan, {}, 0, [], [], 0, 0, []);
      assert Registered(s.plan.steps, s.session.steps);
      if Halts(cfg, w, s) {
        var n: nat :| StateAt(cfg, w, s, n).None?;
        SpinsForever(cfg, w, s, n);
        assert false;
      }
    }
  }
}
