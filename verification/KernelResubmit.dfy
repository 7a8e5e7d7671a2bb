/**
 When resubmitting a successful session costs nothing: exactly when its run gave no step of
 the submitted plan up before that step was stored as a success.
 */
module KernelResubmit {
  import opened Wrappers
  import opened Plans
  import opened StepNames
  import opened StateStore
  import opened StepRunner
  import opened Replanner
  import opened ReplanGuarantees
  import opened WorkflowKernel
  import opened KernelTermination
  import opened KernelSafety
  import opened KernelProgress
  import KernelResume

  /** The id of an original step. */
  function IdOf(original: ExecutionPlan, i: nat): string
    requires i < |original.steps|
  {
    original.steps[i].stepId
  }

  /** Step `i` leaves the plan in round `n`, and is no success in the store when it does. */
  ghost predicate GivesUp(cfg: ExecConfig, w: World, s: ExecState, n: nat, i: nat)
    requires Registered(s.plan.steps, s.session.steps)
  {
    && Leaves(cfg, w, s, n, i)
    && IdOf(s.plan, i) !in SuccessIds(StateAt(cfg, w, s, n + 1).value.session.steps)
  }

  ghost predicate Leaves(cfg: ExecConfig, w: World, s: ExecState, n: nat, i: nat)
    requires Registered(s.plan.steps, s.session.steps)
  {
    && i < |s.plan.steps| && StateAt(cfg, w, s, n).Some? && StateAt(cfg, w, s, n + 1).Some?
    && IdOf(s.plan, i) in StepIds(StateAt(cfg, w, s, n).value.plan.steps)
    && IdOf(s.plan, i) !in StepIds(StateAt(cfg, w, s, n + 1).value.plan.steps)
  }

  ghost predicate EverGivesUp(cfg: ExecConfig, w: World, s: ExecState)
    requires Registered(s.plan.steps, s.session.steps)
  {
    exists n: nat, i: nat :: GivesUp(cfg, w, s, n, i)
  }

  /** An original step that is no longer in the plan. */
  ghost predicate Gone(original: ExecutionPlan, s: ExecState, i: nat) {
    i < |original.steps| && IdOf(original, i) in s.session.steps && IdOf(original, i) !in StepIds(s.plan.steps)
  }

  /** A replan takes the ids it renames out of the plan for good. */
  lemma RenamedIdIsGone(plan: ExecutionPlan, outcome: ReplanOutcome, id: string)
    requires Replans(plan, outcome) && Settled(id, plan.planVersion)
    requires id in Sources(outcome.mappings) || id !in StepIds(plan.steps)
    ensures id !in StepIds(outcome.plan.steps)
  {
    var later := outcome.plan.steps;
    forall k | 0 <= k < |later| ensures later[k].stepId != id {
      assert later[k].stepId == Target(Sources(outcome.mappings), plan.planVersion + 1, plan.steps[k].stepId);
      assert plan.steps[k].stepId in StepIds(plan.steps);
    }
  }

  /** The failed step is among those its replan renames. */
  lemma FailedStepIsRenamed(plan: ExecutionPlan, failed: PlanStep, code: Option<string>)
    requires Workable(plan) && failed in plan.steps
    requires AfterFailure(plan, failed, code).Some? && AfterFailure(plan, failed, code).value.decision.shouldReplan
    ensures failed.stepId in Sources(AfterFailure(plan, failed, code).value.mappings)
  {
    var i :| 0 <= i < |plan.steps| && plan.steps[i] == failed;
    FirstIndexIs(plan.steps, failed.stepId, i);
    SuffixSources(plan.steps, i, plan.planVersion + 1);
    assert plan.steps[i..][0] == failed;
    var o := AfterFailure(plan, failed, code).value;
    if o.decision.strategy == LocalReplace {
      assert o.mappings[0] in o.mappings;
    }
  }

  lemma AdoptKeepsSteps(s: ExecState, outcome: ReplanOutcome, id: string)
    requires id in s.session.steps
    ensures id in Adopt(s, outcome).session.steps && Adopt(s, outcome).session.steps[id] == s.session.steps[id]
    ensures Adopt(s, outcome).plan == outcome.plan && Adopt(s, outcome).replanCount == s.replanCount + 1
  {
    InsertedSteps(s.session.(planVersion := Max(s.session.planVersion, outcome.plan.planVersion)), outcome.plan.steps);
  }

  lemma BatchLeavesAlone(cfg: ExecConfig, w: World, s: ExecState, id: string)
    requires Registered(s.plan.steps, s.session.steps) && id in s.session.steps && id !in StepIds(s.plan.steps)
    ensures BatchRunOf(cfg, w, s).steps[id] == s.session.steps[id]
  {
    var batch := BatchOf(cfg, s);
    BatchIsRegistered(cfg, s);
    hide BatchOf, RunBatch;
    if id in StepIds(batch) {
      var k :| 0 <= k < |batch| && batch[k].stepId == id;
      BatchIs(cfg, s, k);
      assert false;
    }
    BatchElsewhere(cfg, w, s.round, s.plan, batch, s.session.steps, id);
  }

  lemma OriginalIsSettled(original: ExecutionPlan, s: ExecState, i: nat)
    requires Workable(original) && Traced(original, s) && i < |original.steps|
    ensures Settled(IdOf(original, i), s.plan.planVersion)
  {
    DescendsVersion(original, s.plan, s.history);
    SettledLater(IdOf(original, i), original.planVersion, s.plan.planVersion);
  }

  lemma SettleKeepsGone(cfg: ExecConfig, w: World, original: ExecutionPlan, s: ExecState, i: nat)
    requires Workable(original) && Traced(original, s) && Gone(original, s, i)
    ensures
      var id, r := IdOf(original, i), Settle(cfg, s, BatchOf(cfg, s), BatchRunOf(cfg, w, s));
      r.Continue? ==> Gone(original, r.next, i) && r.next.session.steps[id] == s.session.steps[id]
  {
    var batch, run, id := BatchOf(cfg, s), BatchRunOf(cfg, w, s), IdOf(original, i);
    SettleCases(cfg, s, batch, run);
    BatchLeavesAlone(cfg, w, s, id);
    OriginalIsSettled(original, s, i);
    hide Settle, BatchOf, BatchRunOf, Adopt, ReplanFor, Records, Settled, Workable, Descends, StepIds;
    var k := FirstFailure(run.results);
    if k < |batch| {
      var noted, o := Noted(s, batch, run), ReplanFor(cfg, s, batch[k], run.results[k]);
      BatchIs(cfg, s, k);
      if o.Some? {
        ReplanForReplans(cfg, s, batch[k], run.results[k]);
        RenamedIdIsGone(s.plan, o.value, id);
        AdoptKeepsSteps(noted, o.value, id);
      }
    }
  }

  /** Once out of the plan, a step stays out, and its record in the store is never touched again. */
  lemma GoneStays(cfg: ExecConfig, w: World, original: ExecutionPlan, s: ExecState, i: nat)
    requires Workable(original) && Traced(original, s) && Gone(original, s, i) && Round(cfg, w, s).Continue?
    ensures
      var id, t := IdOf(original, i), Round(cfg, w, s).next;
      Gone(original, t, i) && t.session.steps[id] == s.session.steps[id]
  {
    hide Round, Settle, BatchOf, BatchRunOf, Pending, Ready, Gone, Traced;
    WorkablePlan(original, s);
    RoundCases(cfg, w, s);
    if Pending(s.plan.steps, s.completed) != [] {
      WorkableHasReady(s.plan, s.completed);
    }
    SettleKeepsGone(cfg, w, original, s, i);
  }

  lemma WorkablePlan(original: ExecutionPlan, s: ExecState)
    requires Traced(original, s)
    ensures Workable(s.plan) && Registered(s.plan.steps, s.session.steps)
  {
  }

  lemma StateBefore(cfg: ExecConfig, w: World, s: ExecState, n: nat)
    requires Registered(s.plan.steps, s.session.steps) && StateAt(cfg, w, s, n + 1).Some?
    ensures StateAt(cfg, w, s, n).Some?
    ensures Round(cfg, w, StateAt(cfg, w, s, n).value) == Continue(StateAt(cfg, w, s, n + 1).value)
  {
    hide Round;
  }

  lemma {:induction false} StateEarlier(cfg: ExecConfig, w: World, s: ExecState, m: nat, n: nat)
    requires Registered(s.plan.steps, s.session.steps) && StateAt(cfg, w, s, n).Some? && m <= n
    ensures StateAt(cfg, w, s, m).Some?
  {
    hide Round, Registered;
    if m < n {
      StateBefore(cfg, w, s, n - 1);
      StateEarlier(cfg, w, s, m, n - 1);
    }
  }

  /** A step that is out of the plan at one loop head is out, with the same record, at every later one. */
  lemma {:induction false} GoneAlways(cfg: ExecConfig, w: World, s: ExecState, m: nat, n: nat, i: nat)
    requires Traced(s.plan, s) && StateAt(cfg, w, s, n).Some? && m <= n
    requires StateAt(cfg, w, s, m).Some? && Gone(s.plan, StateAt(cfg, w, s, m).value, i)
    ensures
      var x, y := StateAt(cfg, w, s, m).value, StateAt(cfg, w, s, n).value;
      Gone(s.plan, y, i) && y.session.steps[IdOf(s.plan, i)] == x.session.steps[IdOf(s.plan, i)]
  {
    hide Round, Descends, Workable, StepIds;
    if m < n {
      StateBefore(cfg, w, s, n - 1);
      GoneAlways(cfg, w, s, m, n - 1, i);
      TracedAlways(cfg, w, s, n - 1);
      GoneStays(cfg, w, s.plan, StateAt(cfg, w, s, n - 1).value, i);
    }
  }

  /** Registered steps stay registered. */
  lemma {:induction false} StaysRegistered(cfg: ExecConfig, w: World, s: ExecState, n: nat, id: string)
    requires Registered(s.plan.steps, s.session.steps) && StateAt(cfg, w, s, n).Some? && id in s.session.steps
    ensures id in StateAt(cfg, w, s, n).value.session.steps
  {
    hide Round;
    if n > 0 {
      StateBefore(cfg, w, s, n - 1);
      StaysRegistered(cfg, w, s, n - 1, id);
      RoundKeepsIds(cfg, w, StateAt(cfg, w, s, n - 1).value, id);
    }
  }

  lemma RoundKeepsIds(cfg: ExecConfig, w: World, s: ExecState, id: string)
    requires Registered(s.plan.steps, s.session.steps) && id in s.session.steps
    ensures Round(cfg, w, s).Continue? ==> id in Round(cfg, w, s).next.session.steps
  {
    var batch, run := BatchOf(cfg, s), BatchRunOf(cfg, w, s);
    RoundCases(cfg, w, s);
    SettleCases(cfg, s, batch, run);
    hide Round, Settle, BatchOf, BatchRunOf, Adopt, ReplanFor, Records, Pending, Ready, ForMissingDependency;
    if Works(cfg, w, s) {
      var k := FirstFailure(run.results);
      if k < |batch| && ReplanFor(cfg, s, batch[k], run.results[k]).Some? {
        AdoptKeepsSteps(Noted(s, batch, run), ReplanFor(cfg, s, batch[k], run.results[k]).value, id);
      }
    } else if Unblocks(cfg, w, s) {
      AdoptKeepsSteps(s, ForMissingDependency(s.plan, Pending(s.plan.steps, s.completed)[0].stepId).value, id);
    }
  }

  /** A step that is out of the plan left it in some round, with the record it still has. */
  lemma {:induction false} LeftOnce(cfg: ExecConfig, w: World, s: ExecState, n: nat, i: nat) returns (m: nat)
    requires Traced(s.plan, s) && StateAt(cfg, w, s, n).Some? && i < |s.plan.steps|
    requires IdOf(s.plan, i) !in StepIds(StateAt(cfg, w, s, n).value.plan.steps)
    ensures m < n && Leaves(cfg, w, s, m, i) && Gone(s.plan, StateAt(cfg, w, s, m + 1).value, i)
  {
    hide Round, Descends, Workable;
    assert IdOf(s.plan, i) in StepIds(s.plan.steps);
    StateBefore(cfg, w, s, n - 1);
    m := n - 1;
    if IdOf(s.plan, i) !in StepIds(StateAt(cfg, w, s, n - 1).value.plan.steps) {
      m := LeftOnce(cfg, w, s, n - 1, i);
    } else {
      StaysRegistered(cfg, w, s, n, IdOf(s.plan, i));
    }
  }

  /** The last loop head of a successful run, which the final round only gives its status. */
  lemma SuccessfulEnd(cfg: ExecConfig, w: World, s: ExecState) returns (n: nat)
    requires Safe(s) && Traced(s.plan, s) && Capped(cfg, s) && Run(cfg, w, s).ending == Succeeded
    ensures StateAt(cfg, w, s, n).Some?
    ensures
      var x, last := StateAt(cfg, w, s, n).value, Run(cfg, w, s).last;
      && last.plan == x.plan && last.session.steps == x.session.steps && last.replanCount == x.replanCount
      && PlanDone(last) && Round(cfg, w, x).Stop?
  {
    hide Round, Run, PlanDone, Descends, Workable;
    n := RunStopsSomewhere(cfg, w, s);
    SuccessIsStored(cfg, w, s);
    var x := StateAt(cfg, w, s, n).value;
    RoundCases(cfg, w, x);
    if Works(cfg, w, x) {
      SettleCases(cfg, x, BatchOf(cfg, x), BatchRunOf(cfg, w, x));
    }
  }

  /**
   After a successful run, every step of the plan it was given is a success in the store,
   so that resubmitting it does no work, if and only if no such step was given up in a
   replan before the store had it as a success.
   */
  lemma ResubmitIsFreeIff(cfg: ExecConfig, w: World, s: ExecState)
    requires Safe(s) && Traced(s.plan, s) && Capped(cfg, s) && Run(cfg, w, s).ending == Succeeded
    ensures StepIds(s.plan.steps) <= SuccessIds(Run(cfg, w, s).last.session.steps) <==> !EverGivesUp(cfg, w, s)
  {
    var n := SuccessfulEnd(cfg, w, s);
    var last := Run(cfg, w, s).last;
    hide Round, Run, Descends, Workable, Safe, Traced, StateAt, GivesUp;
    WorkablePlan(s.plan, s);
    if EverGivesUp(cfg, w, s) {
      var m: nat, i: nat :| GivesUp(cfg, w, s, m, i);
      GivenUpIsLost(cfg, w, s, m, n, i);
      assert s.plan.steps[i].stepId in StepIds(s.plan.steps);
    } else {
      forall i: nat | i < |s.plan.steps| ensures s.plan.steps[i].stepId in SuccessIds(last.session.steps) {
        KeptIsDone(cfg, w, s, n, i);
      }
    }
  }

  lemma KeptIsDone(cfg: ExecConfig, w: World, s: ExecState, n: nat, i: nat)
    requires Traced(s.plan, s) && StateAt(cfg, w, s, n).Some? && i < |s.plan.steps| && !EverGivesUp(cfg, w, s)
    requires
      var x := StateAt(cfg, w, s, n).value;
      forall k :: 0 <= k < |x.plan.steps| ==> x.plan.steps[k].stepId in SuccessIds(x.session.steps)
    ensures IdOf(s.plan, i) in SuccessIds(StateAt(cfg, w, s, n).value.session.steps)
  {
    hide Round, Descends, Workable;
    var x, id := StateAt(cfg, w, s, n).value, IdOf(s.plan, i);
    if id in StepIds(x.plan.steps) {
      var k :| 0 <= k < |x.plan.steps| && x.plan.steps[k].stepId == id;
    } else {
      var m := LeftOnce(cfg, w, s, n, i);
      GoneAlways(cfg, w, s, m + 1, n, i);
      assert !GivesUp(cfg, w, s, m, i);
    }
  }

  lemma GivenUpIsLost(cfg: ExecConfig, w: World, s: ExecState, m: nat, n: nat, i: nat)
    requires Traced(s.plan, s) && StateAt(cfg, w, s, n).Some? && Round(cfg, w, StateAt(cfg, w, s, n).value).Stop?
    requires GivesUp(cfg, w, s, m, i)
    ensures IdOf(s.plan, i) !in SuccessIds(StateAt(cfg, w, s, n).value.session.steps)
  {
    hide Round, Descends, Workable;
    if n <= m {
      StateEarlier(cfg, w, s, n + 1, m + 1);
      StateBefore(cfg, w, s, n);
      assert false;
    }
    StaysRegistered(cfg, w, s, m + 1, IdOf(s.plan, i));
    GoneAlways(cfg, w, s, m + 1, n, i);
  }

  /** In a world that saves, a step its batch reports as failed is no success in the store. */
  lemma {:induction false} BatchUnreported(cfg: ExecConfig, w: World, round: nat, plan: ExecutionPlan, batch: seq<PlanStep>,
                                           m: map<string, StepState>, i: nat)
    requires Saves(w) && Registered(batch, m) && ResultsOk(m) && UniqueIds(batch) && i < |batch|
    requires !RunBatch(cfg, w, round, plan, batch, m).results[i].success
    ensures batch[i].stepId !in SuccessIds(RunBatch(cfg, w, round, plan, batch, m).steps)
  {
    hide RunBatch, RunOf, IdempotencyKey, ResultsOk, Saves;
    var n := |batch| - 1;
    BatchUnfolds(cfg, w, round, plan, batch, |batch|, m);
    assert batch[..|batch|] == batch;
    var before := RunBatch(cfg, w, round, plan, batch[..n], m);
    BatchResultsOk(cfg, w, round, plan, batch[..n], m);
    RunOfOutcome(cfg, w, round, plan, batch[n], before.steps);
    if i < n {
      BatchUnreported(cfg, w, round, plan, batch[..n], m, i);
    }
  }

  lemma RoundCounts(cfg: ExecConfig, w: World, s: ExecState)
    requires Registered(s.plan.steps, s.session.steps) && Round(cfg, w, s).Continue?
    ensures
      var t := Round(cfg, w, s).next;
      t.replanCount == s.replanCount + 1 || (t.replanCount == s.replanCount && t.plan == s.plan)
  {
    hide Round;
    RoundAdvances(cfg, w, s);
  }

  /** Until the first replan the plan is the submitted one. */
  lemma {:induction false} PlanUntilReplan(cfg: ExecConfig, w: World, s: ExecState, n: nat)
    requires Registered(s.plan.steps, s.session.steps) && StateAt(cfg, w, s, n).Some?
    ensures StateAt(cfg, w, s, n).value.replanCount >= s.replanCount
    ensures StateAt(cfg, w, s, n).value.replanCount == s.replanCount ==> StateAt(cfg, w, s, n).value.plan == s.plan
  {
    hide Round, Registered;
    if n > 0 {
      StateBefore(cfg, w, s, n - 1);
      PlanUntilReplan(cfg, w, s, n - 1);
      RoundCounts(cfg, w, StateAt(cfg, w, s, n - 1).value);
    }
  }

  lemma {:induction false} CountsGrow(cfg: ExecConfig, w: World, s: ExecState, m: nat, n: nat)
    requires Registered(s.plan.steps, s.session.steps) && StateAt(cfg, w, s, n).Some? && m <= n
    ensures StateAt(cfg, w, s, m).Some?
    ensures StateAt(cfg, w, s, m).value.replanCount <= StateAt(cfg, w, s, n).value.replanCount
  {
    hide Round, Registered;
    if m < n {
      StateBefore(cfg, w, s, n - 1);
      CountsGrow(cfg, w, s, m, n - 1);
      RoundCounts(cfg, w, StateAt(cfg, w, s, n - 1).value);
    }
  }

  /** The round of the first replan. */
  lemma {:induction false} FirstReplan(cfg: ExecConfig, w: World, s: ExecState, n: nat) returns (m: nat)
    requires Registered(s.plan.steps, s.session.steps) && StateAt(cfg, w, s, n).Some?
    requires StateAt(cfg, w, s, n).value.replanCount > s.replanCount
    ensures m < n && StateAt(cfg, w, s, m).Some? && StateAt(cfg, w, s, m).value.plan == s.plan
    ensures StateAt(cfg, w, s, m + 1).Some?
    ensures StateAt(cfg, w, s, m + 1).value.replanCount > StateAt(cfg, w, s, m).value.replanCount
  {
    hide Round, Registered;
    StateBefore(cfg, w, s, n - 1);
    m := n - 1;
    if StateAt(cfg, w, s, m).value.replanCount > s.replanCount {
      m := FirstReplan(cfg, w, s, m);
    } else {
      PlanUntilReplan(cfg, w, s, m);
    }
  }

  /** A round that replans takes its first failed step out of the plan. */
  lemma ReplanTakesOut(cfg: ExecConfig, w: World, original: ExecutionPlan, s: ExecState) returns (i: nat)
    requires Saves(w) && Safe(s) && Traced(original, s) && s.plan == original
    requires Round(cfg, w, s).Continue? && Round(cfg, w, s).next.replanCount > s.replanCount
    ensures
      var t := Round(cfg, w, s).next;
      i < |original.steps| && IdOf(original, i) !in StepIds(t.plan.steps) && IdOf(original, i) !in SuccessIds(t.session.steps)
  {
    hide Round, Settle, BatchOf, RunBatch, Pending, Ready, Adopt, ReplanFor, Records, Descends, Saves, Registered, UniqueIds;
    var batch, run := BatchOf(cfg, s), BatchRunOf(cfg, w, s);
    KernelResume.BatchUnique(cfg, s);
    BatchIsRegistered(cfg, s);
    var k := FirstFailure(run.results);
    RoundCases(cfg, w, s);
    if Pending(s.plan.steps, s.completed) != [] {
      WorkableHasReady(s.plan, s.completed);
    }
    SettleCases(cfg, s, batch, run);
    BatchIs(cfg, s, k);
    BatchUnreported(cfg, w, s.round, s.plan, batch, s.session.steps, k);
    var o, noted := ReplanFor(cfg, s, batch[k], run.results[k]).value, Noted(s, batch, run);
    ReplanForReplans(cfg, s, batch[k], run.results[k]);
    TakenOut(cfg, s, batch[k], run.results[k]);
    AdoptKeepsSteps(noted, o, batch[k].stepId);
    i :| 0 <= i < |original.steps| && original.steps[i] == batch[k];
  }

  lemma TakenOut(cfg: ExecConfig, s: ExecState, failed: PlanStep, result: ToolResult)
    requires Workable(s.plan) && failed in s.plan.steps && ReplanFor(cfg, s, failed, result).Some?
    ensures failed.stepId !in StepIds(ReplanFor(cfg, s, failed, result).value.plan.steps)
  {
    var i :| 0 <= i < |s.plan.steps| && s.plan.steps[i] == failed;
    FailedStepIsRenamed(s.plan, failed, ErrorOf(result).code);
    ReplanForReplans(cfg, s, failed, result);
    RenamedIdIsGone(s.plan, ReplanFor(cfg, s, failed, result).value, failed.stepId);
  }

  lemma ReplannedGivesUp(cfg: ExecConfig, w: World, s: ExecState, n: nat)
    requires Saves(w) && Safe(s) && Traced(s.plan, s) && StateAt(cfg, w, s, n).Some?
    requires StateAt(cfg, w, s, n).value.replanCount > s.replanCount
    ensures EverGivesUp(cfg, w, s)
  {
    hide Round, Descends, Workable, Saves, Safe;
    var m := FirstReplan(cfg, w, s, n);
    StateBefore(cfg, w, s, m);
    TracedAlways(cfg, w, s, m);
    SafeAlways(cfg, w, s, m);
    var i := ReplanTakesOut(cfg, w, s.plan, StateAt(cfg, w, s, m).value);
    assert IdOf(s.plan, i) in StepIds(s.plan.steps);
    assert GivesUp(cfg, w, s, m, i);
  }

  lemma GivingUpReplans(cfg: ExecConfig, w: World, s: ExecState, n: nat)
    requires Traced(s.plan, s) && StateAt(cfg, w, s, n).Some? && Round(cfg, w, StateAt(cfg, w, s, n).value).Stop?
    requires EverGivesUp(cfg, w, s)
    ensures StateAt(cfg, w, s, n).value.replanCount > s.replanCount
  {
    hide Round, Descends, Workable;
    var m: nat, i: nat :| GivesUp(cfg, w, s, m, i);
    if n <= m {
      StateEarlier(cfg, w, s, n + 1, m + 1);
      StateBefore(cfg, w, s, n);
      assert false;
    }
    assert IdOf(s.plan, i) in StepIds(s.plan.steps);
    PlanUntilReplan(cfg, w, s, m + 1);
    CountsGrow(cfg, w, s, m + 1, n);
  }

  /** Where every success can be saved, that is: if and only if the run did not replan. */
  lemma ResubmitIsFreeIffNotReplanned(cfg: ExecConfig, w: World, s: ExecState)
    requires Saves(w) && Safe(s) && Traced(s.plan, s) && Capped(cfg, s) && Run(cfg, w, s).ending == Succeeded
    ensures StepIds(s.plan.steps) <= SuccessIds(Run(cfg, w, s).last.session.steps)
      <==> Run(cfg, w, s).last.replanCount == s.replanCount
  {
    var n := SuccessfulEnd(cfg, w, s);
    hide Round, Run, Descends, Workable, Safe, Traced, Saves, EverGivesUp;
    ResubmitIsFreeIff(cfg, w, s);
    if StateAt(cfg, w, s, n).value.replanCount > s.replanCount {
      ReplannedGivesUp(cfg, w, s, n);
    } else {
      WorkablePlan(s.plan, s);
      PlanUntilReplan(cfg, w, s, n);
      if EverGivesUp(cfg, w, s) {
        GivingUpReplans(cfg, w, s, n);
      }
    }
  }
}
