/**
 At most one successful tool call per step id: before a call is made, its configuration
 and plan tell whether that is guaranteed, with or without replans on the way.
 */
module KernelAtMostOnce {
  import opened Plans
  import opened StepNames
  import opened StateStore
  import opened StepRunner
  import opened Replanner
  import opened ReplanGuarantees
  import opened WorkflowKernel
  import opened KernelTermination
  import opened KernelSafety
  import opened KernelProgress
  import opened KernelResume
  import opened KernelResubmit

  predicate NeverReplans(cfg: ExecConfig) {
    !cfg.hasReplanner || cfg.maxReplanAttempts <= 0
  }

  predicate OneAtATime(cfg: ExecConfig, plan: ExecutionPlan) {
    Min(cfg.maxConcurrency, plan.graphLimits.maxParallel) == 1
  }

  /** Without a replanner, or without a budget for it, no run replans. */
  lemma {:induction false} NoReplan(cfg: ExecConfig, w: World, s: ExecState, n: nat)
    requires NeverReplans(cfg) && Registered(s.plan.steps, s.session.steps) && StateAt(cfg, w, s, n).Some?
    ensures StateAt(cfg, w, s, n).value.replanCount == s.replanCount
  {
    hide Round, Registered;
    if n > 0 {
      StateBefore(cfg, w, s, n - 1);
      NoReplan(cfg, w, s, n - 1);
      RoundAdvances(cfg, w, StateAt(cfg, w, s, n - 1).value);
    }
  }

  lemma NoReplanInRun(cfg: ExecConfig, w: World, s: ExecState)
    requires NeverReplans(cfg) && Registered(s.plan.steps, s.session.steps) && Capped(cfg, s)
    ensures Run(cfg, w, s).last.replanCount == s.replanCount
  {
    hide Round, Run;
    var n := RunStopsSomewhere(cfg, w, s);
    NoReplan(cfg, w, s, n);
    RoundAdvances(cfg, w, StateAt(cfg, w, s, n).value);
  }

  /** A success is noted as completed, or its step is out of the plan and cannot come back. */
  ghost predicate Accounted(s: ExecState, id: string) {
    id in s.completed || (id !in StepIds(s.plan.steps) && Settled(id, s.plan.planVersion))
  }

  /** The loop invariant of a call that runs its steps one at a time. */
  ghost predicate Sequential(before: map<string, StepState>, s: ExecState) {
    && Safe(s)
    && Workable(s.plan)
    && CallContract(before, s.session.steps, s.wins)
    && forall id :: id in SuccessIds(s.session.steps) ==> Accounted(s, id)
  }

  lemma SequentialBatch(cfg: ExecConfig, w: World, before: map<string, StepState>, s: ExecState)
    requires Logs(w) && Sequential(before, s)
    ensures BatchAdds(s.session.steps, BatchOf(cfg, s), BatchRunOf(cfg, w, s))
    ensures CallContract(before, BatchRunOf(cfg, w, s).steps, s.wins + BatchRunOf(cfg, w, s).wins)
  {
    var batch := BatchOf(cfg, s);
    hide BatchOf, BatchRunOf, Logs, CallContract, Settled;
    forall i | 0 <= i < |batch| ensures batch[i].stepId !in SuccessIds(s.session.steps) {
      BatchIs(cfg, s, i);
      assert batch[i].stepId in StepIds(s.plan.steps);
      assert !Accounted(s, batch[i].stepId);
    }
    BatchWinsOnce(cfg, w, s);
    ContractExtends(before, s.session.steps, s.wins, batch, BatchRunOf(cfg, w, s));
  }

  lemma AdoptKeepsContract(before: map<string, StepState>, s: ExecState, outcome: ReplanOutcome)
    requires Safe(s) && CallContract(before, s.session.steps, s.wins)
    ensures CallContract(before, Adopt(s, outcome).session.steps, Adopt(s, outcome).wins)
    ensures SuccessIds(Adopt(s, outcome).session.steps) == SuccessIds(s.session.steps)
  {
    var start := s.session.(planVersion := Max(s.session.planVersion, outcome.plan.planVersion));
    InsertedKeeps(start, outcome.plan.steps);
    InsertedSteps(start, outcome.plan.steps);
  }

  /** After a replan every success is still accounted for: completed, or out of the plan for good. */
  lemma AdoptKeepsAccounted(s: ExecState, outcome: ReplanOutcome, id: string)
    requires Workable(s.plan) && Replans(s.plan, outcome)
    requires Accounted(s, id) || (id in StepIds(s.plan.steps) && id in Sources(outcome.mappings))
    ensures Accounted(Adopt(s, outcome), id)
  {
    var t := Adopt(s, outcome);
    if id !in s.completed {
      if id in StepIds(s.plan.steps) {
        var i :| 0 <= i < |s.plan.steps| && s.plan.steps[i].stepId == id;
      }
      RenamedIdIsGone(s.plan, outcome, id);
      SettledLater(id, s.plan.planVersion, t.plan.planVersion);
    }
  }

  lemma BatchIsOne(cfg: ExecConfig, s: ExecState)
    requires OneAtATime(cfg, s.plan)
    ensures |BatchOf(cfg, s)| <= 1
  {
    hide Pending, Ready;
  }

  lemma SequentialReplan(cfg: ExecConfig, w: World, before: map<string, StepState>, s: ExecState, noted: ExecState)
    requires Logs(w) && Sequential(before, s) && OneAtATime(cfg, s.plan)
    requires
      var batch, run := BatchOf(cfg, s), BatchRunOf(cfg, w, s);
      && FirstFailure(run.results) < |batch|
      && noted == Ran(s, batch, run).(results := noted.results)
      && ReplanFor(cfg, s, batch[FirstFailure(run.results)], run.results[FirstFailure(run.results)]).Some?
    ensures
      var batch, run := BatchOf(cfg, s), BatchRunOf(cfg, w, s);
      var outcome := ReplanFor(cfg, s, batch[FirstFailure(run.results)], run.results[FirstFailure(run.results)]).value;
      && Workable(outcome.plan)
      && CallContract(before, Adopt(noted, outcome).session.steps, Adopt(noted, outcome).wins)
      && forall id :: id in SuccessIds(Adopt(noted, outcome).session.steps) ==> Accounted(Adopt(noted, outcome), id)
  {
    hide BatchOf, BatchRunOf, ReplanFor, Adopt, Logs;
    var batch, run := BatchOf(cfg, s), BatchRunOf(cfg, w, s);
    var k := FirstFailure(run.results);
    var failed, outcome := batch[k], ReplanFor(cfg, s, batch[k], run.results[k]).value;
    BatchIsOne(cfg, s);
    BatchIs(cfg, s, k);
    SequentialBatch(cfg, w, before, s);
    RanIsSafe(cfg, w, s);
    assert Safe(noted);
    assert StepIds(batch) == {failed.stepId};
    ReplanForReplans(cfg, s, failed, run.results[k]);
    Renames(cfg, s, failed, run.results[k]);
    ReplanStaysWorkable(s.plan, outcome);
    AdoptKeepsContract(before, noted, outcome);
    hide Safe, CallContract, Workable, Replans, Settled;
    forall id | id in SuccessIds(run.steps) ensures Accounted(Adopt(noted, outcome), id) {
      assert id in SuccessIds(s.session.steps) ==> Accounted(s, id);
      AdoptKeepsAccounted(noted, outcome, id);
    }
  }

  lemma Renames(cfg: ExecConfig, s: ExecState, failed: PlanStep, result: ToolResult)
    requires Workable(s.plan) && failed in s.plan.steps && ReplanFor(cfg, s, failed, result).Some?
    ensures failed.stepId in Sources(ReplanFor(cfg, s, failed, result).value.mappings)
    ensures failed.stepId in StepIds(s.plan.steps)
  {
    FailedStepIsRenamed(s.plan, failed, ErrorOf(result).code);
    var i :| 0 <= i < |s.plan.steps| && s.plan.steps[i] == failed;
  }

  lemma SequentialParts(before: map<string, StepState>, s: ExecState)
    requires Sequential(before, s)
    ensures Workable(s.plan) && Registered(s.plan.steps, s.session.steps) && CallContract(before, s.session.steps, s.wins)
  {
  }

  lemma SequentialSettle(cfg: ExecConfig, w: World, before: map<string, StepState>, s: ExecState)
    requires Logs(w) && Sequential(before, s) && OneAtATime(cfg, s.plan)
    ensures
      match Settle(cfg, s, BatchOf(cfg, s), BatchRunOf(cfg, w, s))
      case Continue(t) => Sequential(before, t)
      case Stop(_, t) => CallContract(before, t.session.steps, t.wins)
  {
    hide Settle, BatchOf, BatchRunOf, Logs, CallContract, Workable, Safe, Records, Adopt, ReplanFor;
    SequentialParts(before, s);
    var batch, run := BatchOf(cfg, s), BatchRunOf(cfg, w, s);
    var k := FirstFailure(run.results);
    SettleCases(cfg, s, batch, run);
    SettleKeepsSafe(cfg, w, s);
    SequentialBatch(cfg, w, before, s);
    if k == |batch| {
      assert batch[..k] == batch;
      var t := Settle(cfg, s, batch, run).next;
      forall id | id in SuccessIds(t.session.steps) ensures Accounted(t, id) {
        assert id in SuccessIds(s.session.steps) ==> Accounted(s, id);
      }
    } else if ReplanFor(cfg, s, batch[k], run.results[k]).Some? {
      hide Accounted;
      SequentialReplan(cfg, w, before, s, Noted(s, batch, run));
      AdoptHistory(Noted(s, batch, run), ReplanFor(cfg, s, batch[k], run.results[k]).value);
    }
  }

  /** One pass of the loop, one step at a time, keeps the contract of the call through any replan. */
  lemma RoundKeepsSequential(cfg: ExecConfig, w: World, before: map<string, StepState>, s: ExecState)
    requires Logs(w) && Sequential(before, s) && OneAtATime(cfg, s.plan)
    ensures
      match Round(cfg, w, s)
      case Continue(t) => Sequential(before, t)
      case Stop(_, t) => CallContract(before, t.session.steps, t.wins)
  {
    hide Round, Settle, BatchOf, BatchRunOf, Pending, Ready, Sequential, Logs, CallContract, OneAtATime;
    SequentialParts(before, s);
    RoundCases(cfg, w, s);
    if Pending(s.plan.steps, s.completed) != [] {
      WorkableHasReady(s.plan, s.completed);
    }
    if Works(cfg, w, s) {
      SequentialSettle(cfg, w, before, s);
    }
  }

  lemma {:induction false} SequentialAlways(cfg: ExecConfig, w: World, before: map<string, StepState>, s: ExecState, n: nat)
    requires Logs(w) && Sequential(before, s) && OneAtATime(cfg, s.plan) && StateAt(cfg, w, s, n).Some?
    ensures Sequential(before, StateAt(cfg, w, s, n).value) && OneAtATime(cfg, StateAt(cfg, w, s, n).value.plan)
  {
    hide Round, Sequential, Logs;
    SequentialParts(before, s);
    if n > 0 {
      StateBefore(cfg, w, s, n - 1);
      SequentialAlways(cfg, w, before, s, n - 1);
      RoundKeepsSequential(cfg, w, before, StateAt(cfg, w, s, n - 1).value);
      RoundAdvances(cfg, w, StateAt(cfg, w, s, n - 1).value);
    }
  }

  /**
   One call of `execute` that never replans, or that runs a dependency-ordered plan one step
   at a time, wins each step at most once and none that was won before, and keeps every
   earlier success; this can be told before the call.
   */
  lemma CallIsAtMostOnce(cfg: ExecConfig, w: World, plan: ExecutionPlan, session: SessionState)
    requires Logs(w) && Safe(StartState(plan, session)) && Capped(cfg, StartState(plan, session))
    requires (NeverReplans(cfg) && UniqueIds(plan.steps)) || (OneAtATime(cfg, plan) && Workable(plan))
    ensures
      var last := Run(cfg, w, StartState(plan, session)).last;
      CallContract(session.steps, last.session.steps, last.wins)
  {
    var s := StartState(plan, session);
    if NeverReplans(cfg) && UniqueIds(plan.steps) {
      hide Run, Logs, CallContract;
      NoReplanInRun(cfg, w, s);
      CallWinsOnce(cfg, w, plan, session);
    } else {
      hide Round, Run, Logs, Workable, Safe;
      EmptyContract(session.steps);
      assert Sequential(session.steps, s);
      SafeSteps(s);
      var n := RunStopsSomewhere(cfg, w, s);
      SequentialAlways(cfg, w, session.steps, s, n);
      RoundKeepsSequential(cfg, w, session.steps, StateAt(cfg, w, s, n).value);
    }
  }

  lemma SafeSteps(s: ExecState)
    requires Safe(s)
    ensures Registered(s.plan.steps, s.session.steps)
  {
  }
}
