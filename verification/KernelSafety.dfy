/** What the executor's `completed_steps` set and the store agree on, in every reachable state. */
module KernelSafety {
  import opened Wrappers
  import opened Plans
  import opened StateStore
  import opened StepRunner
  import opened Replanner
  import opened WorkflowKernel
  import opened KernelTermination

  ghost predicate ResultsOk(m: map<string, StepState>) {
    forall id :: id in m ==> ResultOk(m[id])
  }

  /** The loop invariant: every completed id is a success in the store, with its result. */
  ghost predicate Safe(s: ExecState) {
    && Registered(s.plan.steps, s.session.steps)
    && SequenceOk(s.session)
    && ResultsOk(s.session.steps)
    && s.completed <= SuccessIds(s.session.steps)
  }

  lemma {:induction false} BatchElsewhere(cfg: ExecConfig, w: World, round: nat, plan: ExecutionPlan, batch: seq<PlanStep>,
                                          m: map<string, StepState>, id: string)
    requires Registered(batch, m) && id in m && id !in StepIds(batch)
    ensures RunBatch(cfg, w, round, plan, batch, m).steps[id] == m[id]
  {
    hide RunStep, IdempotencyKey;
    if batch != [] {
      var n := |batch| - 1;
      assert batch[n].stepId in StepIds(batch);
      PrefixIds(batch, n);
      BatchElsewhere(cfg, w, round, plan, batch[..n], m, id);
    }
  }

  lemma PrefixIds(steps: seq<PlanStep>, k: nat)
    requires k <= |steps|
    ensures StepIds(steps[..k]) <= StepIds(steps)
  {
    forall id | id in StepIds(steps[..k]) ensures id in StepIds(steps) {
      var i :| 0 <= i < k && steps[..k][i].stepId == id;
      assert steps[i].stepId == id;
    }
  }

  ghost predicate WonWith(plan: ExecutionPlan, m: map<string, StepState>, id: string) {
    && id in m && m[id].status == SUCCESS
    && m[id].idempotencyKey == IdempotencyKey(plan.requestId, id, plan.planVersion)
  }

  lemma KeyIsNonempty(requestId: string, id: string, version: int)
    ensures IdempotencyKey(requestId, id, version) != ""
  {
  }

  lemma {:induction false} DecidingIsAttempt(attempts: nat -> Attempt, attempt: nat, maxAttempts: int) returns (k: nat)
    requires Deciding(attempts, attempt, maxAttempts).Some?
    ensures Deciding(attempts, attempt, maxAttempts) == Some(attempts(k))
    decreases maxAttempts - attempt
  {
    k := attempt;
    if TriesAgain(attempts(attempt)) {
      k := DecidingIsAttempt(attempts, attempt + 1, maxAttempts);
    }
  }

  /** In a world that logs, what succeeds is stored; in one that saves, what is stored is reported. */
  lemma WorldDecides(w: World, round: nat, id: string, maxAttempts: int)
    ensures
      var d := Deciding(AttemptsOf(w, round, id), 1, maxAttempts);
      (Logs(w) && Succeeds(d) ==> Stores(d)) && (Saves(w) && Stores(d) ==> d.value.saved)
  {
    if Deciding(AttemptsOf(w, round, id), 1, maxAttempts).Some? {
      var k := DecidingIsAttempt(AttemptsOf(w, round, id), 1, maxAttempts);
      assert AttemptsOf(w, round, id)(k) == w.attempt(round, id, k);
    }
  }

  /** One step of a batch: what is reported is stored, what is stored is new only if won. */
  lemma RunOfOutcome(cfg: ExecConfig, w: World, round: nat, plan: ExecutionPlan, step: PlanStep, m: map<string, StepState>)
    requires step.stepId in m && ResultsOk(m)
    ensures
      var run, id := RunOf(cfg, w, round, plan, step, m), step.stepId;
      && ResultOk(run.state)
      && (run.result.success ==>
           run.state.status == SUCCESS && run.state.idempotencyKey == IdempotencyKey(plan.requestId, id, plan.planVersion))
      && (WonWith(plan, m, id) ==> run.state == m[id])
      && (run.state.status == SUCCESS ==> run.won || m[id].status == SUCCESS)
      && (Logs(w) && run.won ==> run.state.status == SUCCESS)
      && (Saves(w) && run.state.status == SUCCESS ==> run.result.success)
  {
    var key := IdempotencyKey(plan.requestId, step.stepId, plan.planVersion);
    KeyIsNonempty(plan.requestId, step.stepId, plan.planVersion);
    WorldDecides(w, round, step.stepId, cfg.maxRetryAttempts + 1);
    RunStepOutcome(m[step.stepId], key, AttemptsOf(w, round, step.stepId), cfg.maxRetryAttempts + 1);
    RunAttemptsOutcome(m[step.stepId], key, AttemptsOf(w, round, step.stepId), 1, cfg.maxRetryAttempts + 1, None);
  }

  lemma {:induction false} BatchResultsOk(cfg: ExecConfig, w: World, round: nat, plan: ExecutionPlan, batch: seq<PlanStep>,
                                          m: map<string, StepState>)
    requires Registered(batch, m) && ResultsOk(m)
    ensures ResultsOk(RunBatch(cfg, w, round, plan, batch, m).steps)
  {
    hide RunStep, RunOf, IdempotencyKey, ResultOk;
    if batch != [] {
      var n := |batch| - 1;
      BatchResultsOk(cfg, w, round, plan, batch[..n], m);
      RunOfOutcome(cfg, w, round, plan, batch[n], RunBatch(cfg, w, round, plan, batch[..n], m).steps);
    }
  }

  /** Every success a batch reports is a success in the store when the batch is over. */
  lemma {:induction false} BatchSuccess(cfg: ExecConfig, w: World, round: nat, plan: ExecutionPlan, batch: seq<PlanStep>,
                                        m: map<string, StepState>, i: nat)
    requires Registered(batch, m) && ResultsOk(m) && i < |batch|
    requires RunBatch(cfg, w, round, plan, batch, m).results[i].success
    ensures WonWith(plan, RunBatch(cfg, w, round, plan, batch, m).steps, batch[i].stepId)
  {
    hide RunStep, RunOf, IdempotencyKey, ResultOk;
    var n := |batch| - 1;
    var before := RunBatch(cfg, w, round, plan, batch[..n], m);
    BatchResultsOk(cfg, w, round, plan, batch[..n], m);
    RunOfOutcome(cfg, w, round, plan, batch[n], before.steps);
    if i < n {
      BatchSuccess(cfg, w, round, plan, batch[..n], m, i);
    }
  }

  /** A step completed before the batch is not in it, so the batch leaves it as it was. */
  lemma CompletedStays(cfg: ExecConfig, w: World, s: ExecState, id: string)
    requires Safe(s) && id in s.completed
    ensures id in SuccessIds(BatchRunOf(cfg, w, s).steps)
  {
    hide RunBatch, SequenceOk, ResultsOk;
    var batch := BatchOf(cfg, s);
    BatchIsRegistered(cfg, s);
    hide BatchOf;
    if id in StepIds(batch) {
      var i :| 0 <= i < |batch| && batch[i].stepId == id;
      BatchIs(cfg, s, i);
      assert false;
    }
    BatchElsewhere(cfg, w, s.round, s.plan, batch, s.session.steps, id);
  }

  /** A batch completes no step that did not succeed. */
  lemma BatchKeepsSafe(cfg: ExecConfig, w: World, s: ExecState, k: nat)
    requires Safe(s) && k <= FirstFailure(BatchRunOf(cfg, w, s).results)
    ensures
      var m := BatchRunOf(cfg, w, s).steps;
      ResultsOk(m) && s.completed + StepIds(BatchOf(cfg, s)[..k]) <= SuccessIds(m)
  {
    hide BatchOf, RunBatch, Registered, SequenceOk, ResultsOk;
    var batch, run := BatchOf(cfg, s), BatchRunOf(cfg, w, s);
    BatchIsRegistered(cfg, s);
    BatchResultsOk(cfg, w, s.round, s.plan, batch, s.session.steps);
    forall id | id in s.completed ensures id in SuccessIds(run.steps) {
      CompletedStays(cfg, w, s, id);
    }
    forall id | id in StepIds(batch[..k]) ensures id in SuccessIds(run.steps) {
      var i :| 0 <= i < k && batch[..k][i].stepId == id;
      BatchSuccess(cfg, w, s.round, s.plan, batch, s.session.steps, i);
    }
  }

  lemma AdoptKeepsSafe(s: ExecState, outcome: ReplanOutcome)
    requires Safe(s)
    ensures Safe(Adopt(s, outcome))
  {
    var version := outcome.plan.planVersion;
    var start := s.session.(planVersion := Max(s.session.planVersion, version));
    InsertedSteps(start, outcome.plan.steps);
    var t := Adopt(s, outcome);
    assert t.session == InsertSteps(start, outcome.plan.steps);
    hide InsertSteps;
    forall id | id in t.session.steps ensures ResultOk(t.session.steps[id]) {
      if id !in s.session.steps {
        InsertedStepsAreFresh(start, outcome.plan.steps, id);
      }
    }
  }

  lemma RanIsSafe(cfg: ExecConfig, w: World, s: ExecState)
    requires Safe(s)
    ensures Safe(Ran(s, BatchOf(cfg, s), BatchRunOf(cfg, w, s)))
  {
    BatchKeepsSafe(cfg, w, s, FirstFailure(BatchRunOf(cfg, w, s).results));
    hide BatchOf, BatchRunOf, ResultsOk, StepIds;
  }

  lemma SettleKeepsSafe(cfg: ExecConfig, w: World, s: ExecState)
    requires Safe(s)
    ensures
      match Settle(cfg, s, BatchOf(cfg, s), BatchRunOf(cfg, w, s))
      case Continue(t) => Safe(t)
      case Stop(ending, t) => ending.StepFailure? && Safe(t)
  {
    var batch, run := BatchOf(cfg, s), BatchRunOf(cfg, w, s);
    var k := FirstFailure(run.results);
    RanIsSafe(cfg, w, s);
    SettleCases(cfg, s, batch, run);
    hide Settle, BatchOf, BatchRunOf, Adopt, ReplanFor, Records;
    var ran := Ran(s, batch, run);
    hide Ran;
    if k == |batch| {
      SafeIsAbout(ran, Settle(cfg, s, batch, run).next);
    } else {
      var noted := Noted(s, batch, run);
      SafeIsAbout(ran, noted);
      SafeIsAbout(noted, Fail(noted));
      hide Safe, Noted, Fail;
      var o := ReplanFor(cfg, s, batch[k], run.results[k]);
      if o.Some? {
        AdoptKeepsSafe(noted, o.value);
      }
    }
  }

  lemma SafeIsAbout(s: ExecState, t: ExecState)
    requires Safe(s) && t.plan == s.plan && t.completed == s.completed
    requires t.session == s.session.(status := t.session.status)
    ensures Safe(t)
  {
  }

  /** One pass of the loop keeps the invariant; a success means the plan is done in the store. */
  lemma RoundKeepsSafe(cfg: ExecConfig, w: World, s: ExecState)
    requires Safe(s)
    ensures
      match Round(cfg, w, s)
      case Continue(t) => Safe(t)
      case Stop(ending, t) => Safe(t) && (ending == Succeeded ==> t.plan == s.plan && PlanDone(t))
  {
    RoundCases(cfg, w, s);
    hide Round, Settle, BatchOf, BatchRunOf, Adopt, ForMissingDependency;
    if Works(cfg, w, s) {
      SettleKeepsSafe(cfg, w, s);
    } else if Unblocks(cfg, w, s) {
      AdoptKeepsSafe(s, ForMissingDependency(s.plan, Pending(s.plan.steps, s.completed)[0].stepId).value);
    } else {
      var r := Round(cfg, w, s);
      if r.ending == Succeeded {
        forall i | 0 <= i < |s.plan.steps| ensures s.plan.steps[i].stepId in s.completed {
          PendingIs(s.plan.steps, s.completed, s.plan.steps[i]);
        }
      }
    }
  }

  /** Every step of the plan is a success in the store, under a status of success. */
  ghost predicate PlanDone(s: ExecState) {
    && s.session.status == SUCCESS
    && forall i :: 0 <= i < |s.plan.steps| ==> s.plan.steps[i].stepId in SuccessIds(s.session.steps)
  }

  lemma {:induction false} SafeAlways(cfg: ExecConfig, w: World, s: ExecState, n: nat)
    requires Safe(s)
    ensures StateAt(cfg, w, s, n).Some? ==> Safe(StateAt(cfg, w, s, n).value)
  {
    hide Round;
    if n > 0 {
      SafeAlways(cfg, w, s, n - 1);
      if StateAt(cfg, w, s, n - 1).Some? {
        RoundKeepsSafe(cfg, w, StateAt(cfg, w, s, n - 1).value);
      }
    }
  }

  /**
   At every iteration of every run, the steps that start have all their dependencies in
   `completed_steps`, and each of those is a success in the store.
   */
  lemma StepsStartAfterDependencies(cfg: ExecConfig, w: World, s: ExecState, n: nat, i: nat, d: string)
    requires Safe(s) && StateAt(cfg, w, s, n).Some?
    requires
      var x := StateAt(cfg, w, s, n).value;
      i < |BatchOf(cfg, x)| && d in BatchOf(cfg, x)[i].dependsOn
    ensures
      var x := StateAt(cfg, w, s, n).value;
      d in x.completed && x.completed <= SuccessIds(x.session.steps)
  {
    var x := StateAt(cfg, w, s, n).value;
    SafeAlways(cfg, w, s, n);
    BatchIs(cfg, x, i);
  }

  /** A run that returns success leaves every step of its final plan a success in the store. */
  lemma SuccessIsStored(cfg: ExecConfig, w: World, s: ExecState)
    requires Safe(s) && Capped(cfg, s)
    ensures Safe(Run(cfg, w, s).last)
    ensures Run(cfg, w, s).ending == Succeeded ==> PlanDone(Run(cfg, w, s).last)
  {
    hide Round, Run, PlanDone;
    var n := RunStopsSomewhere(cfg, w, s);
    SafeAlways(cfg, w, s, n);
    RoundKeepsSafe(cfg, w, StateAt(cfg, w, s, n).value);
  }
}
