/**
 The runs in which a condition of the guarantees fails, for every configuration that lets
 it fail: a sibling that succeeds twice across a replan, a success that is stored and then
 reported as a failure, and a success that never reaches the store.
 */
module KernelExamples {
  import opened Wrappers
  import opened DependencyGraph
  import opened Plans
  import opened StateStore
  import opened StepRunner
  import opened Replanner
  import opened ReplanGuarantees
  import opened WorkflowKernel
  import opened KernelTermination
  import opened KernelSafety
  import opened KernelResume
  import opened KernelResubmit
  import opened KernelAtMostOnce
  import opened Executor
  import opened SessionGuarantees
  import opened PlanningStrategy

  const ONE_STEP := StubPlan([Stub("step-1", [])])
  const TWO_STEPS := StubPlan([Stub("step-1", []), Stub("step-2", [])])

  lemma ExamplesAreSubmittable()
    ensures Submittable(ONE_STEP, TOOLS) && Submittable(TWO_STEPS, TOOLS)
  {
    assert "step-1"[5] != "step-2"[5];
    SmallOrderedPlanIsSubmittable(ONE_STEP, TOOLS);
    SmallOrderedPlanIsSubmittable(TWO_STEPS, TOOLS);
  }

  // What the tools answer, the same in every round and attempt.

  function AlwaysWorld(answer: string -> Attempt): World {
    World((n: nat) => false, (n: nat) => false, (n: nat, id: string, k: nat) => answer(id))
  }

  const UNAVAILABLE := Refusal("service_unavailable")

  /** The first step's tool is out of service; every other tool answers. */
  function FirstFails(id: string): Attempt {
    Invoked(if id == "step-1" then UNAVAILABLE else DONE, true)
  }

  /** The first step's answer cannot be copied into a snapshot. */
  function FirstUnsaved(id: string): Attempt {
    Invoked(DONE, id != "step-1")
  }

  function NeverLogged(id: string): Attempt {
    Unlogged(DONE)
  }

  /** Independent steps, none completed and none too many, all run in one batch. */
  lemma FlatRound(cfg: ExecConfig, answer: string -> Attempt, s: ExecState)
    requires Registered(s.plan.steps, s.session.steps)
    requires 0 < |s.plan.steps| <= Min(cfg.maxConcurrency, s.plan.graphLimits.maxParallel)
    requires forall i :: 0 <= i < |s.plan.steps| ==> s.plan.steps[i].dependsOn == [] && s.plan.steps[i].stepId !in s.completed
    ensures BatchOf(cfg, s) == s.plan.steps && Works(cfg, AlwaysWorld(answer), s)
    ensures
      var w := AlwaysWorld(answer);
      BatchRunOf(cfg, w, s) == RunBatch(cfg, w, s.round, s.plan, s.plan.steps, s.session.steps)
    ensures Round(cfg, AlwaysWorld(answer), s) == Settle(cfg, s, BatchOf(cfg, s), BatchRunOf(cfg, AlwaysWorld(answer), s))
  {
    FlatPending(s.plan.steps, s.completed);
    FlatReady(s.plan.steps, s.completed);
    hide Round, Settle, RunBatch, Pending, Ready, Registered;
    NoInterruption(answer, s);
    BatchIsTake(cfg, s);
    BatchRunIs(cfg, AlwaysWorld(answer), s);
    hide BatchOf, BatchRunOf, AlwaysWorld;
    RoundBranches(cfg, AlwaysWorld(answer), s);
  }

  lemma NoInterruption(answer: string -> Attempt, s: ExecState)
    ensures !AlwaysWorld(answer).cancelled(s.round) && !AlwaysWorld(answer).timedOut(s.round)
  {
  }

  /** The first attempt of a step that is not skipped, when it decides. */
  lemma FirstAttempt(cfg: ExecConfig, answer: string -> Attempt, round: nat, plan: ExecutionPlan, step: PlanStep, m: map<string, StepState>)
    requires step.stepId in m && cfg.maxRetryAttempts >= 0
    requires !ShouldSkip(m[step.stepId], IdempotencyKey(plan.requestId, step.stepId, plan.planVersion))
    requires !TriesAgain(answer(step.stepId))
    ensures
      var run := RunOf(cfg, AlwaysWorld(answer), round, plan, step, m);
      var d := Some(answer(step.stepId));
      && (run.state.status == SUCCESS <==> Stores(d))
      && (run.won <==> Succeeds(d))
      && (Stores(d) ==> run.state.idempotencyKey == IdempotencyKey(plan.requestId, step.stepId, plan.planVersion))
      && (answer(step.stepId).Invoked? && answer(step.stepId).saved ==> run.result == answer(step.stepId).result)
      && (answer(step.stepId).Unlogged? || (answer(step.stepId).Invoked? && !answer(step.stepId).saved) ==>
            run.result == EXECUTOR_INTERNAL_ERROR)
  {
    var key, attempts := IdempotencyKey(plan.requestId, step.stepId, plan.planVersion), AttemptsOf(AlwaysWorld(answer), round, step.stepId);
    assert attempts(1) == answer(step.stepId);
    RunAttemptsOutcome(m[step.stepId], key, attempts, 1, cfg.maxRetryAttempts + 1, None);
  }

  /** A batch of one and a batch of two, spelled out. */
  lemma SmallBatches(cfg: ExecConfig, w: World, round: nat, plan: ExecutionPlan, a: PlanStep, b: PlanStep, m: map<string, StepState>)
    requires a.stepId in m && b.stepId in m && a.stepId != b.stepId
    ensures Registered([a], m) && Registered([a, b], m)
    ensures
      var first, one, two := RunOf(cfg, w, round, plan, a, m), RunBatch(cfg, w, round, plan, [a], m), RunBatch(cfg, w, round, plan, [a, b], m);
      var steps := m[a.stepId := first.state];
      var second := RunOf(cfg, w, round, plan, b, steps);
      && one.steps == steps && one.results == [first.result] && one.wins == (if first.won then [a.stepId] else [])
      && two.steps == steps[b.stepId := second.state] && two.results == [first.result, second.result]
      && two.wins == one.wins + if second.won then [b.stepId] else []
  {
    hide RunOf;
    assert [a][..0] == [] && [a, b][..1] == [a];
    assert RunBatch(cfg, w, round, plan, [], m) == BatchRun(m, [], 0, []);
  }

  /** Wins are never taken back. */
  lemma RoundKeepsWins(cfg: ExecConfig, w: World, s: ExecState)
    requires Registered(s.plan.steps, s.session.steps)
    ensures
      var wins := s.wins + if Works(cfg, w, s) then BatchRunOf(cfg, w, s).wins else [];
      match Round(cfg, w, s) case Continue(t) => t.wins == wins case Stop(_, t) => t.wins == wins
  {
    var batch, run := BatchOf(cfg, s), BatchRunOf(cfg, w, s);
    RoundCases(cfg, w, s);
    SettleCases(cfg, s, batch, run);
    hide Round, Settle, BatchOf, BatchRunOf, Records, ReplanFor, Pending, Ready, ForMissingDependency;
  }

  lemma {:induction false} WinsStay(cfg: ExecConfig, w: World, s: ExecState)
    requires Registered(s.plan.steps, s.session.steps) && Capped(cfg, s)
    ensures s.wins <= Run(cfg, w, s).last.wins
    ensures Works(cfg, w, s) ==> s.wins + BatchRunOf(cfg, w, s).wins <= Run(cfg, w, s).last.wins
    decreases ReplansLeft(cfg, s), Todo(s)
  {
    hide Round, Pending, Works, BatchRunOf;
    RoundDecreases(cfg, w, s);
    RoundKeepsWins(cfg, w, s);
    if Round(cfg, w, s).Continue? {
      WinsStay(cfg, w, Round(cfg, w, s).next);
    }
  }

  /** A session that a plan's own call opens: every step pending. */
  lemma FreshSession(plan: ExecutionPlan)
    requires UniqueIds(plan.steps)
    ensures Initialised(map[], plan).steps.Keys == StepIds(plan.steps)
    ensures forall id :: id in StepIds(plan.steps) ==> Initialised(map[], plan).steps[id].status == PENDING
    ensures StoreOk(map[])
  {
    var start := NewSession(plan).(planVersion := Max(plan.planVersion, plan.planVersion));
    InsertedSteps(start, plan.steps);
    assert Initialised(map[], plan) == InsertSteps(start, plan.steps);
    hide InsertSteps;
    forall id | id in StepIds(plan.steps) ensures Initialised(map[], plan).steps[id].status == PENDING {
      InsertedStepsAreFresh(start, plan.steps, id);
    }
  }

  ghost predicate Twice(ids: seq<string>, id: string) {
    exists i, j :: 0 <= i < j < |ids| && ids[i] == ids[j] == id
  }

  const REPLACED := LocalReplaced(TWO_STEPS, TWO_STEPS.steps[0], BuildDecision(Some("service_unavailable"), StepFailed))

  lemma StepsDiffer()
    ensures TWO_STEPS.steps[0].stepId == "step-1" && TWO_STEPS.steps[1].stepId == "step-2" && "step-1" != "step-2"
    ensures |REPLACED.plan.steps| == 2 && REPLACED.plan.planVersion == 2 && REPLACED.plan.requestId == "request"
    ensures REPLACED.plan.steps[1].stepId == "step-2" != REPLACED.plan.steps[0].stepId
    ensures REPLACED.plan.steps[0].dependsOn == [] == REPLACED.plan.steps[1].dependsOn
    ensures REPLACED.plan.graphLimits == GraphLimits(6, 4)
  {
    assert "step-1"[5] != "step-2"[5];
    assert |REPLACED.plan.steps[0].stepId| > 6;
  }

  /** The first batch: the first step fails, its sibling is stored as a success of version 1. */
  lemma FirstBatch(cfg: ExecConfig, s: ExecState)
    requires cfg.maxConcurrency >= 2 && cfg.maxRetryAttempts >= 0
    requires s == StartState(TWO_STEPS, Initialised(map[], TWO_STEPS)) && Registered(s.plan.steps, s.session.steps)
    ensures BatchOf(cfg, s) == TWO_STEPS.steps && s.completed == {}
    ensures
      var run := BatchRunOf(cfg, AlwaysWorld(FirstFails), s);
      && Round(cfg, AlwaysWorld(FirstFails), s) == Settle(cfg, s, BatchOf(cfg, s), run)
      && run.results == [UNAVAILABLE, DONE] && run.wins == ["step-2"]
      && "step-2" in run.steps && run.steps["step-2"].status == SUCCESS
      && run.steps["step-2"].idempotencyKey == IdempotencyKey("request", "step-2", 1)
  {
    var w, a, b, m := AlwaysWorld(FirstFails), TWO_STEPS.steps[0], TWO_STEPS.steps[1], s.session.steps;
    StepsDiffer();
    FreshSession(TWO_STEPS);
    assert a.stepId in StepIds(TWO_STEPS.steps) && b.stepId in StepIds(TWO_STEPS.steps);
    assert s.completed == {};
    hide Initialised, RunOf, RunBatch, Round, Settle, IdempotencyKey;
    FlatRound(cfg, FirstFails, s);
    assert s.plan.steps == [a, b];
    SmallBatches(cfg, w, 0, s.plan, a, b, m);
    FirstAttempt(cfg, FirstFails, 0, s.plan, a, m);
    FirstAttempt(cfg, FirstFails, 0, s.plan, b, m[a.stepId := RunOf(cfg, w, 0, s.plan, a, m).state]);
    hide BatchOf, BatchRunOf;
  }

  /** The first round: the failed step is replaced, and the rest of the batch is forgotten. */
  lemma SiblingWinsOnce(cfg: ExecConfig, s: ExecState) returns (t: ExecState)
    requires cfg.hasReplanner && cfg.maxReplanAttempts >= 1 && cfg.maxConcurrency >= 2 && cfg.maxRetryAttempts >= 0
    requires s == StartState(TWO_STEPS, Initialised(map[], TWO_STEPS)) && Registered(s.plan.steps, s.session.steps)
    ensures Round(cfg, AlwaysWorld(FirstFails), s) == Continue(t)
    ensures t.plan == REPLACED.plan && t.completed == {} && t.wins == ["step-2"]
    ensures "step-2" in t.session.steps && t.session.steps["step-2"].status == SUCCESS
    ensures t.session.steps["step-2"].idempotencyKey == IdempotencyKey("request", "step-2", 1)
  {
    FirstBatch(cfg, s);
    var batch, run := BatchOf(cfg, s), BatchRunOf(cfg, AlwaysWorld(FirstFails), s);
    assert ReplanFor(cfg, s, TWO_STEPS.steps[0], UNAVAILABLE) == Some(REPLACED);
    hide Initialised, Round, Settle, BatchOf, BatchRunOf, IdempotencyKey, Adopt, ReplanFor, LocalReplaced;
    FirstFailureIs(run.results, 0);
    SettleCases(cfg, s, batch, run);
    var noted := Noted(s, batch, run);
    t := Adopt(noted, REPLACED);
    AdoptIs(noted, REPLACED);
    AdoptKeepsSteps(noted, REPLACED, "step-2");
    assert StepIds(batch[..0]) == {};
  }

  /** The second round: the sibling is still pending, its key is of an older version, and its tool succeeds again. */
  lemma SiblingWinsAgain(cfg: ExecConfig, t: ExecState)
    requires cfg.maxConcurrency >= 2 && cfg.maxRetryAttempts >= 0 && Registered(t.plan.steps, t.session.steps)
    requires t.plan == REPLACED.plan && t.completed == {}
    requires "step-2" in t.session.steps && t.session.steps["step-2"].status == SUCCESS
    requires t.session.steps["step-2"].idempotencyKey == IdempotencyKey("request", "step-2", 1)
    ensures Works(cfg, AlwaysWorld(FirstFails), t) && "step-2" in BatchRunOf(cfg, AlwaysWorld(FirstFails), t).wins
  {
    var w, a, b, m := AlwaysWorld(FirstFails), t.plan.steps[0], t.plan.steps[1], t.session.steps;
    StepsDiffer();
    hide RunOf, RunBatch, Round, Settle, IdempotencyKey, LocalReplaced;
    FlatRound(cfg, FirstFails, t);
    assert t.plan.steps == [a, b];
    SmallBatches(cfg, w, t.round, t.plan, a, b, m);
    SuccessIsSkippedIff(m[b.stepId], "request", b.stepId, 1, 2);
    FirstAttempt(cfg, FirstFails, t.round, t.plan, b, m[a.stepId := RunOf(cfg, w, t.round, t.plan, a, m).state]);
  }

  lemma FirstFailsIsHonest()
    ensures Logs(AlwaysWorld(FirstFails)) && Saves(AlwaysWorld(FirstFails))
  {
    var w := AlwaysWorld(FirstFails);
    forall round: nat, id: string, k: nat ensures w.attempt(round, id, k).Invoked? && w.attempt(round, id, k).saved {
      assert w.attempt(round, id, k) == FirstFails(id);
    }
  }

  /**
   Two independent steps, the first replaced after a failure: the sibling, which had already
   succeeded in the dropped batch, succeeds a second time. So it goes for every
   configuration that can replan and run two steps in one batch.
   */
  lemma SiblingSucceedsTwice(cfg: ExecConfig)
    requires cfg.hasReplanner && cfg.maxReplanAttempts >= 1 && cfg.maxConcurrency >= 2 && cfg.maxRetryAttempts >= 0
    ensures Submittable(TWO_STEPS, TOOLS) && Logs(AlwaysWorld(FirstFails)) && Saves(AlwaysWorld(FirstFails)) && StoreOk(map[])
    ensures Twice(ExecuteRun(cfg, AlwaysWorld(FirstFails), map[], TWO_STEPS).last.wins, "step-2")
  {
    ExamplesAreSubmittable();
    FirstFailsIsHonest();
    var w, s := AlwaysWorld(FirstFails), StartState(TWO_STEPS, Initialised(map[], TWO_STEPS));
    StepsDiffer();
    FreshSession(TWO_STEPS);
    StartIsSafe(map[], TWO_STEPS);
    SafeSteps(s);
    hide Initialised, Round, Run, Safe, Works, BatchRunOf, Submittable, Logs, Saves, Registered;
    var t := SiblingWinsOnce(cfg, s);
    RunUnfolds(cfg, w, s);
    WinsRepeat(cfg, w, t);
  }

  lemma WinsRepeat(cfg: ExecConfig, w: World, t: ExecState)
    requires Registered(t.plan.steps, t.session.steps) && Capped(cfg, t) && w == AlwaysWorld(FirstFails)
    requires cfg.maxConcurrency >= 2 && cfg.maxRetryAttempts >= 0
    requires t.plan == REPLACED.plan && t.completed == {} && t.wins == ["step-2"]
    requires "step-2" in t.session.steps && t.session.steps["step-2"].status == SUCCESS
    requires t.session.steps["step-2"].idempotencyKey == IdempotencyKey("request", "step-2", 1)
    ensures Twice(Run(cfg, w, t).last.wins, "step-2")
  {
    SiblingWinsAgain(cfg, t);
    hide Round, Run, Works, BatchRunOf, Registered, IdempotencyKey, Capped;
    WinsStay(cfg, w, t);
    var wins, again := Run(cfg, w, t).last.wins, BatchRunOf(cfg, w, t).wins;
    var j :| 0 <= j < |again| && again[j] == "step-2";
    assert (t.wins + again)[0] == "step-2" && (t.wins + again)[1 + j] == "step-2";
    assert 0 < 1 + j < |wins| && wins[0] == wins[1 + j] == "step-2";
  }

  /** A call in which a step gets two successful tool calls although every success is logged. */
  ghost predicate WinsTwice(cfg: ExecConfig, w: World, sessions: map<string, SessionState>, plan: ExecutionPlan) {
    && Logs(w) && Workable(plan) && StoreOk(sessions) && cfg.maxConcurrency >= 1 && plan.graphLimits.maxParallel >= 1
    && !Distinct(ExecuteRun(cfg, w, sessions, plan).last.wins)
  }

  lemma {:induction false} NoAttemptNoWin(cfg: ExecConfig, w: World, round: nat, plan: ExecutionPlan, batch: seq<PlanStep>,
                                          m: map<string, StepState>)
    requires Registered(batch, m) && cfg.maxRetryAttempts < 0
    ensures RunBatch(cfg, w, round, plan, batch, m).wins == []
  {
    if batch != [] {
      NoAttemptNoWin(cfg, w, round, plan, batch[..|batch| - 1], m);
    }
  }

  lemma {:induction false} NoAttemptNoWins(cfg: ExecConfig, w: World, s: ExecState)
    requires Registered(s.plan.steps, s.session.steps) && Capped(cfg, s) && cfg.maxRetryAttempts < 0
    ensures Run(cfg, w, s).last.wins == s.wins
    decreases ReplansLeft(cfg, s), Todo(s)
  {
    BatchIsRegistered(cfg, s);
    hide Round, Pending, RunBatch, Works, BatchOf;
    NoAttemptNoWin(cfg, w, s.round, s.plan, BatchOf(cfg, s), s.session.steps);
    RoundDecreases(cfg, w, s);
    RoundKeepsWins(cfg, w, s);
    if Round(cfg, w, s).Continue? {
      NoAttemptNoWins(cfg, w, Round(cfg, w, s).next);
    }
  }

  lemma CarefulCallIsDistinct(cfg: ExecConfig, w: World, sessions: map<string, SessionState>, plan: ExecutionPlan)
    requires Logs(w) && Workable(plan) && StoreOk(sessions) && cfg.maxConcurrency >= 1 && plan.graphLimits.maxParallel >= 1
    requires NeverReplans(cfg) || cfg.maxConcurrency == 1 || cfg.maxRetryAttempts < 0
    ensures Distinct(ExecuteRun(cfg, w, sessions, plan).last.wins)
  {
    StartIsSafe(sessions, plan);
    var s := StartState(plan, Initialised(sessions, plan));
    SafeSteps(s);
    hide Initialised, Run, Safe, Logs, Registered;
    if cfg.maxRetryAttempts < 0 {
      NoAttemptNoWins(cfg, w, s);
    } else {
      CallIsAtMostOnce(cfg, w, plan, Initialised(sessions, plan));
    }
  }

  /**
   Which configurations let a step of an ordered plan win twice in one call: exactly those
   that can call a tool, can replan, and can run two steps in one batch.
   */
  lemma WinsTwiceIff(cfg: ExecConfig)
    requires cfg.maxConcurrency >= 1
    ensures
      (exists w: World, sessions: map<string, SessionState>, plan: ExecutionPlan :: WinsTwice(cfg, w, sessions, plan)) <==>
      (cfg.maxRetryAttempts >= 0 && cfg.hasReplanner && cfg.maxReplanAttempts >= 1 && cfg.maxConcurrency >= 2)
  {
    hide ExecuteRun, Logs, Workable, StoreOk;
    if cfg.maxRetryAttempts >= 0 && cfg.hasReplanner && cfg.maxReplanAttempts >= 1 && cfg.maxConcurrency >= 2 {
      SiblingSucceedsTwice(cfg);
      SubmittableIsWorkable(TWO_STEPS);
      assert WinsTwice(cfg, AlwaysWorld(FirstFails), map[], TWO_STEPS);
    } else {
      forall w: World, sessions: map<string, SessionState>, plan: ExecutionPlan ensures !WinsTwice(cfg, w, sessions, plan) {
        if WinsTwice(cfg, w, sessions, plan) {
          CarefulCallIsDistinct(cfg, w, sessions, plan);
          assert false;
        }
      }
    }
  }

  lemma SubmittableIsWorkable(plan: ExecutionPlan)
    requires Submittable(plan, TOOLS)
    ensures Workable(plan)
  {
  }

  /** The only step is stored as a success and reported as a failure. */
  lemma UnsavedBatch(cfg: ExecConfig, s: ExecState)
    requires cfg.maxConcurrency >= 1 && cfg.maxRetryAttempts >= 0
    requires s == StartState(ONE_STEP, Initialised(map[], ONE_STEP)) && Registered(s.plan.steps, s.session.steps)
    ensures BatchOf(cfg, s) == ONE_STEP.steps && s.completed == {}
    ensures
      var run := BatchRunOf(cfg, AlwaysWorld(FirstUnsaved), s);
      && Round(cfg, AlwaysWorld(FirstUnsaved), s) == Settle(cfg, s, BatchOf(cfg, s), run)
      && run.results == [EXECUTOR_INTERNAL_ERROR] && "step-1" in SuccessIds(run.steps)
  {
    var w, a, m := AlwaysWorld(FirstUnsaved), ONE_STEP.steps[0], s.session.steps;
    FreshSession(ONE_STEP);
    assert a.stepId in StepIds(ONE_STEP.steps);
    assert s.completed == {};
    hide Initialised, RunOf, RunBatch, Round, Settle, IdempotencyKey;
    FlatRound(cfg, FirstUnsaved, s);
    assert s.plan.steps == [a];
    SingleBatch(cfg, w, 0, s.plan, a, m);
    FirstAttempt(cfg, FirstUnsaved, 0, s.plan, a, m);
    hide BatchOf, BatchRunOf;
  }

  /** So it is replanned, and its replacement does the work again. */
  lemma UnsavedRound(cfg: ExecConfig, s: ExecState) returns (t: ExecState)
    requires cfg.hasReplanner && cfg.maxReplanAttempts >= 1 && cfg.maxConcurrency >= 1 && cfg.maxRetryAttempts >= 0
    requires s == StartState(ONE_STEP, Initialised(map[], ONE_STEP)) && Registered(s.plan.steps, s.session.steps)
    ensures Round(cfg, AlwaysWorld(FirstUnsaved), s) == Continue(t)
    ensures t.plan.steps == RolledBackSteps(ONE_STEP.steps, 0, 2) && t.plan.graphLimits == GraphLimits(6, 4)
    ensures t.completed == {} && t.replanCount == 1
    ensures "step-1" in SuccessIds(t.session.steps) && Safe(s)
  {
    FreshSession(ONE_STEP);
    StartIsSafe(map[], ONE_STEP);
    UnsavedBatch(cfg, s);
    var o := RolledBackOne(cfg, s);
    var batch, run := BatchOf(cfg, s), BatchRunOf(cfg, AlwaysWorld(FirstUnsaved), s);
    hide Initialised, Round, Settle, BatchOf, BatchRunOf, Adopt, ReplanFor, Safe, RolledBackSteps;
    FirstFailureIs(run.results, 0);
    SettleCases(cfg, s, batch, run);
    var noted := Noted(s, batch, run);
    t := Adopt(noted, o);
    AdoptIs(noted, o);
    AdoptKeepsSteps(noted, o, "step-1");
    assert StepIds(batch[..0]) == {};
  }

  lemma RolledBackOne(cfg: ExecConfig, s: ExecState) returns (o: ReplanOutcome)
    requires cfg.hasReplanner && cfg.maxReplanAttempts >= 1 && s.plan == ONE_STEP && s.replanCount == 0
    ensures ReplanFor(cfg, s, ONE_STEP.steps[0], EXECUTOR_INTERNAL_ERROR) == Some(o)
    ensures o.plan.steps == RolledBackSteps(ONE_STEP.steps, 0, 2) && o.plan.graphLimits == GraphLimits(6, 4)
  {
    var decision := BuildDecision(Some("executor_internal_error"), StepFailed);
    RolledBackIs(ONE_STEP, 0, decision);
    InternalErrorIsNoCode();
    hide RolledBackSteps, SuffixMappings, RolledBack, BuildDecision;
    o := RolledBack(ONE_STEP, ONE_STEP.steps[0], decision).value;
  }

  lemma InternalErrorIsNoCode()
    ensures "executor_internal_error" !in HANDOFF_CODES && "executor_internal_error" !in TRANSIENT_CODES
  {
    assert "executor_internal_error"[0] == 'e';
    HandoffLengths();
    TransientLengths();
  }

  lemma SingleBatch(cfg: ExecConfig, w: World, round: nat, plan: ExecutionPlan, a: PlanStep, m: map<string, StepState>)
    requires a.stepId in m
    ensures Registered([a], m)
    ensures
      var first, one := RunOf(cfg, w, round, plan, a, m), RunBatch(cfg, w, round, plan, [a], m);
      && one.steps == m[a.stepId := first.state] && one.results == [first.result]
      && one.wins == (if first.won then [a.stepId] else [])
  {
    hide RunOf;
    assert [a][..0] == [];
    assert RunBatch(cfg, w, round, plan, [], m) == BatchRun(m, [], 0, []);
  }

  /** The round after: the replacement runs and is stored and reported. */
  lemma ReplacementRound(cfg: ExecConfig, t: ExecState) returns (u: ExecState)
    requires cfg.maxConcurrency >= 1 && cfg.maxRetryAttempts >= 0 && Registered(t.plan.steps, t.session.steps)
    requires t.plan.steps == RolledBackSteps(ONE_STEP.steps, 0, 2) && t.plan.graphLimits == GraphLimits(6, 4)
    requires t.completed == {} && t.replanCount == 1 && "step-1" in SuccessIds(t.session.steps)
    requires ResultsOk(t.session.steps)
    ensures Round(cfg, AlwaysWorld(FirstUnsaved), t) == Continue(u)
    ensures u.plan == t.plan && u.completed == StepIds(t.plan.steps) && u.replanCount == 1
    ensures "step-1" in SuccessIds(u.session.steps)
  {
    var a := ReplacementShape(t.plan.steps);
    hide RunOf, RunBatch, Round, Settle, IdempotencyKey, ResultsOk, RolledBackSteps, BatchOf, BatchRunOf, ONE_STEP, SuccessIds;
    var w, m := AlwaysWorld(FirstUnsaved), t.session.steps;
    FlatRound(cfg, FirstUnsaved, t);
    SingleBatch(cfg, w, t.round, t.plan, a, m);
    ReplacementSucceeds(cfg, t, a);
    var batch, run := BatchOf(cfg, t), BatchRunOf(cfg, w, t);
    SettleCases(cfg, t, batch, run);
    assert batch[..1] == batch;
    u := Settle(cfg, t, batch, run).next;
    OthersSucceed(m, a.stepId, run.steps[a.stepId], "step-1");
  }

  lemma ReplacementShape(steps: seq<PlanStep>) returns (a: PlanStep)
    requires steps == RolledBackSteps(ONE_STEP.steps, 0, 2)
    ensures steps == [a] && a.dependsOn == [] && a.stepId != "step-1"
  {
    a := steps[0];
    assert |a.stepId| > |"step-1"|;
    assert ONE_STEP.steps[0].dependsOn == [];
  }

  lemma OthersSucceed(m: map<string, StepState>, id: string, state: StepState, other: string)
    requires other in SuccessIds(m) && other != id
    ensures other in SuccessIds(m[id := state])
  {
  }

  lemma ReplacementSucceeds(cfg: ExecConfig, t: ExecState, a: PlanStep)
    requires cfg.maxRetryAttempts >= 0 && a.stepId in t.session.steps && a.stepId != "step-1" && ResultsOk(t.session.steps)
    ensures RunOf(cfg, AlwaysWorld(FirstUnsaved), t.round, t.plan, a, t.session.steps).result.success
  {
    var m, key := t.session.steps, IdempotencyKey(t.plan.requestId, a.stepId, t.plan.planVersion);
    if ShouldSkip(m[a.stepId], key) {
      assert ResultOk(m[a.stepId]);
    } else {
      FirstAttempt(cfg, FirstUnsaved, t.round, t.plan, a, m);
    }
  }

  /**
   A success that is stored and then cannot be copied into its snapshot is reported as a
   failure and replanned: the run succeeds after one replan, and yet the submitted plan is
   complete in the store. So `Saves` is needed for "complete iff not replanned".
   */
  lemma UnsavedSuccessIsReplanned(cfg: ExecConfig)
    requires cfg.hasReplanner && cfg.maxReplanAttempts >= 1 && cfg.maxConcurrency >= 1 && cfg.maxRetryAttempts >= 0
    ensures Submittable(ONE_STEP, TOOLS) && StoreOk(map[])
    ensures
      var run := ExecuteRun(cfg, AlwaysWorld(FirstUnsaved), map[], ONE_STEP);
      run.ending == Succeeded && run.last.replanCount == 1 && Complete(ONE_STEP, run.last)
  {
    hide Initialised, Round, Run, Safe, Submittable, Registered, RolledBackSteps;
    ExamplesAreSubmittable();
    FreshSession(ONE_STEP);
    var w, s := AlwaysWorld(FirstUnsaved), StartState(ONE_STEP, Initialised(map[], ONE_STEP));
    StartIsSafe(map[], ONE_STEP);
    SafeSteps(s);
    var t := UnsavedRound(cfg, s);
    RunUnfolds(cfg, w, s);
    RoundKeepsSafe(cfg, w, s);
    SafeSession(t);
    var u := ReplacementRound(cfg, t);
    RunUnfolds(cfg, w, t);
    LastRound(cfg, w, u);
    RunUnfolds(cfg, w, u);
    assert ONE_STEP.steps[0].stepId == "step-1";
  }

  lemma LastRound(cfg: ExecConfig, w: World, u: ExecState)
    requires Registered(u.plan.steps, u.session.steps) && u.completed == StepIds(u.plan.steps) && !Interrupted(w, u)
    ensures Round(cfg, w, u) == StopWith(Succeeded, SUCCESS, u)
  {
    var pending := Pending(u.plan.steps, u.completed);
    if pending != [] {
      PendingIs(u.plan.steps, u.completed, pending[0]);
      assert false;
    }
  }

  lemma UnloggedRound(cfg: ExecConfig, s: ExecState)
    requires NeverReplans(cfg) && cfg.maxConcurrency >= 1 && cfg.maxRetryAttempts >= 0
    requires Registered(s.plan.steps, s.session.steps) && s.plan == ONE_STEP && s.wins == [] && s.replanCount == 0
    requires "step-1" !in s.completed && s.completed == SuccessIds(s.session.steps)
    ensures
      var r := Round(cfg, AlwaysWorld(NeverLogged), s);
      r.Stop? && r.last.wins == ["step-1"] && "step-1" !in SuccessIds(r.last.session.steps)
  {
    hide RunBatch, Round, Settle, IdempotencyKey, BatchOf, BatchRunOf, Records, Adopt, AfterFailure;
    var w := AlwaysWorld(NeverLogged);
    UnloggedBatch(cfg, s);
    FlatRound(cfg, NeverLogged, s);
    SettleCases(cfg, s, BatchOf(cfg, s), BatchRunOf(cfg, w, s));
  }

  /** The step is won, reported as a failure and not stored as a success. */
  lemma UnloggedBatch(cfg: ExecConfig, s: ExecState)
    requires cfg.maxRetryAttempts >= 0 && s.plan == ONE_STEP
    requires Registered(s.plan.steps, s.session.steps) && "step-1" !in SuccessIds(s.session.steps)
    ensures
      var run := RunBatch(cfg, AlwaysWorld(NeverLogged), s.round, s.plan, s.plan.steps, s.session.steps);
      && run.wins == ["step-1"] && "step-1" !in SuccessIds(run.steps) && FirstFailure(run.results) == 0 < |run.results|
  {
    hide RunOf, RunBatch, IdempotencyKey;
    var a := ONE_STEP.steps[0];
    assert a.stepId == "step-1" && s.plan.steps == [a];
    SingleBatch(cfg, AlwaysWorld(NeverLogged), s.round, s.plan, a, s.session.steps);
    FirstAttempt(cfg, NeverLogged, s.round, s.plan, a, s.session.steps);
  }

  /** One call whose tool succeeds and whose audit write raises: the step is won and not stored. */
  lemma UnloggedCall(cfg: ExecConfig, sessions: map<string, SessionState>)
    requires StoreOk(sessions) && NeverReplans(cfg) && cfg.maxConcurrency >= 1 && cfg.maxRetryAttempts >= 0
    requires "session" in sessions ==> "step-1" !in SuccessIds(sessions["session"].steps)
    ensures
      var last := ExecuteRun(cfg, AlwaysWorld(NeverLogged), sessions, ONE_STEP).last;
      last.wins == ["step-1"] && "step-1" !in SuccessIds(last.session.steps)
  {
    var s := StartState(ONE_STEP, Initialised(sessions, ONE_STEP));
    StartIsSafe(sessions, ONE_STEP);
    SafeSteps(s);
    hide Initialised, Round, Run, Safe, Registered;
    if "session" in sessions {
      NextCallKeepsSteps(sessions, ONE_STEP);
    } else {
      NewIsPending(sessions, ONE_STEP);
    }
    UnloggedRound(cfg, s);
    RunUnfolds(cfg, AlwaysWorld(NeverLogged), s);
  }

  lemma NewIsPending(sessions: map<string, SessionState>, plan: ExecutionPlan)
    requires plan.sessionId !in sessions && UniqueIds(plan.steps)
    ensures SuccessIds(Initialised(sessions, plan).steps) == {}
  {
    FreshSession(plan);
    assert Initialised(sessions, plan) == Initialised(map[], plan);
  }

  /**
   A success whose audit write raises never reaches the store: without any replan, each of
   two calls on one session wins the same step. So `Logs` is needed for at most once.
   */
  lemma UnloggedSuccessIsRepeated(cfg: ExecConfig)
    requires NeverReplans(cfg) && cfg.maxConcurrency >= 1 && cfg.maxRetryAttempts >= 0
    ensures
      var sub := Submission(cfg, AlwaysWorld(NeverLogged), ONE_STEP);
      StoreOk(map[]) && AllAccepted([sub, sub]) && AllWins(CallsOn(map[], [sub, sub])) == ["step-1", "step-1"]
  {
    var sub := Submission(cfg, AlwaysWorld(NeverLogged), ONE_STEP);
    FreshSession(ONE_STEP);
    assert Accepted(sub) && ONE_STEP.sessionId == "session";
    UnloggedCall(cfg, map[]);
    TwiceUnlogged(cfg, sub);
  }

  lemma TwiceUnlogged(cfg: ExecConfig, sub: Submission)
    requires NeverReplans(cfg) && cfg.maxConcurrency >= 1 && cfg.maxRetryAttempts >= 0
    requires sub == Submission(cfg, AlwaysWorld(NeverLogged), ONE_STEP) && Accepted(sub) && StoreOk(map[])
    requires
      var last := ExecuteRun(cfg, sub.world, map[], ONE_STEP).last;
      last.wins == ["step-1"] && "step-1" !in SuccessIds(last.session.steps)
    ensures AllAccepted([sub, sub]) && AllWins(CallsOn(map[], [sub, sub])) == ["step-1", "step-1"]
  {
    hide ExecuteRun, Initialised, SuccessIds, StoreOk, Accepted, AlwaysWorld, AllWins, CallsOn, NeverReplans;
    var session := ExecuteRun(cfg, sub.world, map[], sub.plan).last.session;
    RunKeepsStoreOk(map[], sub);
    assert map[][sub.plan.sessionId := session] == map["session" := session];
    UnloggedCall(cfg, map["session" := session]);
    assert forall i :: 0 <= i < 2 ==> [sub, sub][i] == sub;
    TwoCalls(map[], sub, sub);
  }

  /** The wins of two calls, the second on the store the first leaves. */
  lemma TwoCalls(sessions: map<string, SessionState>, a: Submission, b: Submission)
    requires StoreOk(sessions) && AllAccepted([a, b])
    ensures Accepted(a) && Accepted(b)
    ensures
      var first := ExecuteRun(a.cfg, a.world, sessions, a.plan).last;
      var later := sessions[a.plan.sessionId := first.session];
      StoreOk(later) && AllWins(CallsOn(sessions, [a, b])) == first.wins + ExecuteRun(b.cfg, b.world, later, b.plan).last.wins
  {
    assert Accepted([a, b][0]) && Accepted([a, b][1]);
    RunKeepsStoreOk(sessions, a);
    hide ExecuteRun, Initialised, StoreOk, Accepted;
    assert [a, b][..0] == [] && [a, b][..1] == [a] && [a][..0] == [];
    assert StoreAfter(sessions, []) == sessions;
    var calls := CallsOn(sessions, [a, b]);
    assert calls[..1] == [calls[0]] && calls[..1][..0] == [];
    assert AllWins([]) == [] && AllWins([calls[0]]) == calls[0].wins;
  }
}
