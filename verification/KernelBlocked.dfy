/**
 Why plans are listed in dependency order. A rollback renames the failed step and all that
 are listed after it, but not what is listed before. A step listed before one it depends on
 then waits for an id that is gone, and no further replan can help it.
 */
module KernelBlocked {
  import opened Wrappers
  import opened DependencyGraph
  import opened Plans
  import opened StepNames
  import opened StateStore
  import opened StepRunner
  import opened Replanner
  import opened ReplanTheory
  import opened ReplanGuarantees
  import opened WorkflowKernel
  import opened KernelTermination
  import opened KernelSafety
  import opened KernelProgress
  import opened KernelResume
  import opened KernelResubmit
  import opened KernelAtMostOnce
  import opened Executor
  import opened SessionGuarantees
  import KernelExamples

  /** A call that ends with pending steps of which none can ever be ready. */
  ghost predicate Blocks(cfg: ExecConfig, w: World, sessions: map<string, SessionState>, plan: ExecutionPlan)
    requires cfg.maxConcurrency >= 1 && plan.graphLimits.maxParallel >= 1
  {
    StoreOk(sessions) && ExecuteRun(cfg, w, sessions, plan).ending == DependencyBlocked
  }

  // The steps after `m` replans: the first from position `j` on, the others from position `i` on.

  function Later(steps: seq<PlanStep>, version: int, i: nat, j: nat, m: nat): (r: seq<PlanStep>)
    requires i < j < |steps|
    ensures |r| == |steps|
  {
    if m == 0 then steps
    else RolledBackSteps(Later(steps, version, i, j, m - 1), if m == 1 then j else i, version + m)
  }

  /** The id of position `k` by then. */
  function IdAt(steps: seq<PlanStep>, version: int, i: nat, j: nat, m: nat, k: nat): string
    requires i < j < |steps| && k < |steps|
  {
    if m == 0 then steps[k].stepId
    else
      var id := IdAt(steps, version, i, j, m - 1, k);
      if k >= (if m == 1 then j else i) then Renamed(id, version + m) else id
  }

  lemma {:induction false} LaterIds(steps: seq<PlanStep>, version: int, i: nat, j: nat, m: nat)
    requires i < j < |steps|
    ensures forall k :: 0 <= k < |steps| ==> Later(steps, version, i, j, m)[k].stepId == IdAt(steps, version, i, j, m, k)
  {
    hide Renamed;
    if m > 0 {
      LaterIds(steps, version, i, j, m - 1);
    }
  }

  lemma {:induction false} IdIsSettled(steps: seq<PlanStep>, version: int, i: nat, j: nat, m: nat, k: nat)
    requires i < j < |steps| && k < |steps| && SettledSteps(steps, version)
    ensures Settled(IdAt(steps, version, i, j, m, k), version + m)
  {
    hide Renamed, Settled;
    if m > 0 {
      var id := IdAt(steps, version, i, j, m - 1, k);
      IdIsSettled(steps, version, i, j, m - 1, k);
      SettledLater(id, version + m - 1, version + m);
      RenamedIsSettled(id, version + m);
    }
  }

  /** Two positions never share an id, whatever the moments. */
  lemma {:induction false} IdsApart(steps: seq<PlanStep>, version: int, i: nat, j: nat, m: nat, k: nat, n: nat, l: nat)
    requires i < j < |steps| && k < |steps| && l < |steps| && UniqueIds(steps) && SettledSteps(steps, version)
    requires IdAt(steps, version, i, j, m, k) == IdAt(steps, version, i, j, n, l)
    ensures k == l
    decreases m + n
  {
    hide Renamed, SettledSteps;
    if m > 0 && k < (if m == 1 then j else i) {
      IdsApart(steps, version, i, j, m - 1, k, n, l);
    } else if n > 0 && l < (if n == 1 then j else i) {
      IdsApart(steps, version, i, j, m, k, n - 1, l);
    } else if m > 0 && n > 0 {
      RenamedInjective(IdAt(steps, version, i, j, m - 1, k), version + m, IdAt(steps, version, i, j, n - 1, l), version + n);
      IdsApart(steps, version, i, j, m - 1, k, n - 1, l);
    } else if m > 0 {
      IdIsSettled(steps, version, i, j, 0, l);
      assert false;
    } else if n > 0 {
      IdIsSettled(steps, version, i, j, 0, k);
      assert false;
    }
  }

  /** From the first replan on, nobody has the id that the waiting step waits for. */
  lemma {:induction false} NobodyHasIt(steps: seq<PlanStep>, version: int, i: nat, j: nat, m: nat, k: nat)
    requires i < j < |steps| && k < |steps| && UniqueIds(steps) && SettledSteps(steps, version) && m >= 1
    ensures IdAt(steps, version, i, j, m, k) != steps[j].stepId
  {
    if IdAt(steps, version, i, j, m, k) == steps[j].stepId {
      IdsApart(steps, version, i, j, m, k, 0, j);
      IdIsSettled(steps, version, i, j, 0, j);
    }
  }

  lemma {:induction false} KeepsWaiting(steps: seq<PlanStep>, version: int, i: nat, j: nat, m: nat)
    requires i < j < |steps| && UniqueIds(steps) && SettledSteps(steps, version)
    requires steps[j].stepId in steps[i].dependsOn
    ensures steps[j].stepId in Later(steps, version, i, j, m)[i].dependsOn
  {
    hide UniqueIds, SettledSteps, Renamed;
    if m > 0 {
      KeepsWaiting(steps, version, i, j, m - 1);
      if m > 1 {
        var before, d := Later(steps, version, i, j, m - 1), steps[j].stepId;
        LaterIds(steps, version, i, j, m - 1);
        forall k | i <= k < |steps| ensures before[k].stepId != d {
          NobodyHasIt(steps, version, i, j, m - 1, k);
        }
        assert d !in StepIds(before[i..]);
        var at :| 0 <= at < |before[i].dependsOn| && before[i].dependsOn[at] == d;
        assert Targets(StepIds(before[i..]), version + m, before[i].dependsOn)[at] == d;
      }
    }
  }

  lemma LaterIsUnique(steps: seq<PlanStep>, version: int, i: nat, j: nat, m: nat)
    requires i < j < |steps| && UniqueIds(steps) && SettledSteps(steps, version)
    ensures UniqueIds(Later(steps, version, i, j, m))
  {
    hide Later, IdAt, SettledSteps;
    LaterIds(steps, version, i, j, m);
    forall k: nat, l: nat | k < l < |steps| ensures IdAt(steps, version, i, j, m, k) != IdAt(steps, version, i, j, m, l) {
      if IdAt(steps, version, i, j, m, k) == IdAt(steps, version, i, j, m, l) {
        IdsApart(steps, version, i, j, m, k, m, l);
      }
    }
  }

  /** All ids there ever are within so many replans, but those of position `i` and the one it waits for. */
  ghost function Done(steps: seq<PlanStep>, version: int, i: nat, j: nat, replans: nat): set<string>
    requires i < j < |steps|
  {
    (set k: nat, m: nat | k < |steps| && m <= replans && k != i :: IdAt(steps, version, i, j, m, k)) - {steps[j].stepId}
  }

  lemma DoneIs(steps: seq<PlanStep>, version: int, i: nat, j: nat, replans: nat, m: nat, k: nat)
    requires i < j < |steps| && k < |steps| && m <= replans && UniqueIds(steps) && SettledSteps(steps, version)
    ensures IdAt(steps, version, i, j, m, k) in Done(steps, version, i, j, replans) <==> k != i && (m == 0 ==> k != j)
    ensures steps[j].stepId !in Done(steps, version, i, j, replans)
  {
    hide UniqueIds, SettledSteps, IdAt;
    var id := IdAt(steps, version, i, j, m, k);
    if k == i {
      if id in Done(steps, version, i, j, replans) {
        var l: nat, n: nat :| l < |steps| && n <= replans && l != i && IdAt(steps, version, i, j, n, l) == id;
        IdsApart(steps, version, i, j, m, k, n, l);
      }
    } else if m >= 1 {
      NobodyHasIt(steps, version, i, j, m, k);
    } else {
      IdAtStart(steps, version, i, j, k);
      IdAtStart(steps, version, i, j, j);
      if id == steps[j].stepId && k != j {
        IdsApart(steps, version, i, j, 0, k, 0, j);
      }
    }
  }

  lemma IdAtStart(steps: seq<PlanStep>, version: int, i: nat, j: nat, k: nat)
    requires i < j < |steps| && k < |steps|
    ensures IdAt(steps, version, i, j, 0, k) == steps[k].stepId
  {
  }

  lemma {:induction false} NonePending(steps: seq<PlanStep>, completed: set<string>)
    requires forall k :: 0 <= k < |steps| ==> steps[k].stepId in completed
    ensures Pending(steps, completed) == []
  {
    if steps != [] {
      NonePending(steps[..|steps| - 1], completed);
    }
  }

  lemma {:induction false} OnePending(steps: seq<PlanStep>, completed: set<string>, i: nat)
    requires i < |steps| && forall k :: 0 <= k < |steps| ==> (steps[k].stepId in completed <==> k != i)
    ensures Pending(steps, completed) == [steps[i]]
  {
    if i < |steps| - 1 {
      OnePending(steps[..|steps| - 1], completed, i);
    } else {
      NonePending(steps[..i], completed);
    }
  }

  lemma {:induction false} TwoPending(steps: seq<PlanStep>, completed: set<string>, i: nat, j: nat)
    requires i < j < |steps| && forall k :: 0 <= k < |steps| ==> (steps[k].stepId in completed <==> k != i && k != j)
    ensures Pending(steps, completed) == [steps[i], steps[j]]
  {
    if j < |steps| - 1 {
      TwoPending(steps[..|steps| - 1], completed, i, j);
    } else {
      OnePending(steps[..j], completed, i);
    }
  }

  lemma NoneReady(step: PlanStep, completed: set<string>)
    ensures !AllIn(step.dependsOn, completed) ==> Ready([step], completed) == []
  {
    ReadyIs([step], completed, step);
    assert [step][..0] == [];
  }

  /** A run of `original` in which only position `i` is left, and waits for an id that is gone. */
  ghost predicate Stuck(original: ExecutionPlan, i: nat, j: nat, replans: nat, s: ExecState)
    requires i < j < |original.steps|
  {
    && 1 <= s.replanCount <= replans
    && s.plan == original.(
         planVersion := original.planVersion + s.replanCount,
         steps := Later(original.steps, original.planVersion, i, j, s.replanCount))
    && s.completed == Done(original.steps, original.planVersion, i, j, replans)
    && Registered(s.plan.steps, s.session.steps)
  }

  /** What the waiting step needs: it is listed before the one it depends on. */
  ghost predicate ListedTooEarly(plan: ExecutionPlan, i: nat, j: nat) {
    && i < j < |plan.steps| && plan.steps[j].stepId in plan.steps[i].dependsOn
    && UniqueIds(plan.steps) && SettledSteps(plan.steps, plan.planVersion)
  }

  lemma StuckHasNoneReady(original: ExecutionPlan, i: nat, j: nat, replans: nat, s: ExecState)
    requires ListedTooEarly(original, i, j) && Stuck(original, i, j, replans, s)
    ensures Pending(s.plan.steps, s.completed) == [s.plan.steps[i]]
    ensures Ready(Pending(s.plan.steps, s.completed), s.completed) == []
  {
    hide Later, IdAt, UniqueIds, SettledSteps, Done, Pending;
    var steps, version, m := original.steps, original.planVersion, s.replanCount;
    LaterIds(steps, version, i, j, m);
    forall k | 0 <= k < |steps| ensures s.plan.steps[k].stepId in s.completed <==> k != i {
      DoneIs(steps, version, i, j, replans, m, k);
    }
    OnePending(s.plan.steps, s.completed, i);
    KeepsWaiting(steps, version, i, j, m);
    DoneIs(steps, version, i, j, replans, m, i);
    NoneReady(s.plan.steps[i], s.completed);
  }

  lemma StuckRound(cfg: ExecConfig, w: World, original: ExecutionPlan, i: nat, j: nat, s: ExecState)
    requires ListedTooEarly(original, i, j) && cfg.hasReplanner && cfg.maxReplanAttempts >= 1
    requires Stuck(original, i, j, cfg.maxReplanAttempts, s) && !Interrupted(w, s)
    ensures
      match Round(cfg, w, s)
      case Continue(t) => Stuck(original, i, j, cfg.maxReplanAttempts, t) && t.replanCount == s.replanCount + 1
      case Stop(ending, _) => ending == DependencyBlocked
  {
    hide Stuck, ListedTooEarly, Pending, Ready, RolledBackSteps, UniqueIds, Round, Adopt, ForMissingDependency, Registered;
    StuckParts(original, i, j, cfg.maxReplanAttempts, s);
    StuckHasNoneReady(original, i, j, cfg.maxReplanAttempts, s);
    NoneReadyRound(cfg, w, s);
    MissingIs(s.plan, i);
    if MayReplan(cfg, s) {
      var outcome := ForMissingDependency(s.plan, s.plan.steps[i].stepId).value;
      AdoptIsAbout(s, outcome);
      StuckAgain(original, i, j, cfg.maxReplanAttempts, s, Adopt(s, outcome));
    }
  }

  lemma StuckParts(original: ExecutionPlan, i: nat, j: nat, replans: nat, s: ExecState)
    requires ListedTooEarly(original, i, j) && Stuck(original, i, j, replans, s)
    ensures i < j < |original.steps| == |s.plan.steps|
    ensures UniqueIds(s.plan.steps) && Registered(s.plan.steps, s.session.steps)
    ensures 1 <= s.replanCount <= replans
  {
    hide Later, UniqueIds, Registered, SettledSteps, Done;
    LaterIsUnique(original.steps, original.planVersion, i, j, s.replanCount);
  }

  lemma StuckAgain(original: ExecutionPlan, i: nat, j: nat, replans: nat, s: ExecState, t: ExecState)
    requires i < j < |original.steps| && Stuck(original, i, j, replans, s)
    requires t.replanCount == s.replanCount + 1 <= replans && t.completed == s.completed
    requires
      var version := s.plan.planVersion + 1;
      t.plan == s.plan.(planVersion := version, steps := RolledBackSteps(s.plan.steps, i, version))
    requires Registered(t.plan.steps, t.session.steps)
    ensures Stuck(original, i, j, replans, t)
  {
    hide RolledBackSteps, Registered, Done;
  }

  lemma NoneReadyRound(cfg: ExecConfig, w: World, s: ExecState)
    requires Registered(s.plan.steps, s.session.steps) && !Interrupted(w, s)
    requires Pending(s.plan.steps, s.completed) != [] && Ready(Pending(s.plan.steps, s.completed), s.completed) == []
    ensures
      var missing := ForMissingDependency(s.plan, Pending(s.plan.steps, s.completed)[0].stepId);
      if MayReplan(cfg, s) && missing.Some? then Round(cfg, w, s) == Continue(Adopt(s, missing.value))
      else Round(cfg, w, s).Stop? && Round(cfg, w, s).ending == DependencyBlocked
  {
    hide Pending, Ready, ForMissingDependency, Adopt, MayReplan;
  }

  lemma MissingIs(plan: ExecutionPlan, i: nat)
    requires i < |plan.steps| && UniqueIds(plan.steps)
    ensures ForMissingDependency(plan, plan.steps[i].stepId).Some?
    ensures
      var version := plan.planVersion + 1;
      ForMissingDependency(plan, plan.steps[i].stepId).value.plan
        == plan.(planVersion := version, steps := RolledBackSteps(plan.steps, i, version))
  {
    hide RolledBackSteps, SuffixMappings;
    FirstIndexIs(plan.steps, plan.steps[i].stepId, i);
  }

  lemma AdoptIsAbout(s: ExecState, outcome: ReplanOutcome)
    ensures
      var t := Adopt(s, outcome);
      && t.plan == outcome.plan && t.replanCount == s.replanCount + 1 && t.completed == s.completed
      && Registered(t.plan.steps, t.session.steps)
  {
    hide Upserted;
  }

  lemma {:induction false} StuckBlocks(cfg: ExecConfig, w: World, original: ExecutionPlan, i: nat, j: nat, s: ExecState)
    requires ListedTooEarly(original, i, j) && cfg.hasReplanner && cfg.maxReplanAttempts >= 1 && Capped(cfg, s)
    requires Stuck(original, i, j, cfg.maxReplanAttempts, s)
    requires forall n: nat :: !w.cancelled(n) && !w.timedOut(n)
    ensures Run(cfg, w, s).ending == DependencyBlocked
    decreases cfg.maxReplanAttempts - s.replanCount
  {
    hide Round, Run, Later, Done, ListedTooEarly;
    StuckRound(cfg, w, original, i, j, s);
    RunUnfolds(cfg, w, s);
    if Round(cfg, w, s).Continue? {
      StuckBlocks(cfg, w, original, i, j, Round(cfg, w, s).next);
    }
  }

  // The call that gets there: all but two steps are done, and every attempt crashes.

  ghost function Listed(ids: set<string>): (r: seq<string>)
    ensures forall id :: id in ids <==> id in r
    ensures forall k, l :: 0 <= k < l < |r| ==> r[k] != r[l]
  {
    if ids == {} then [] else (var id :| id in ids; Listed(ids - {id}) + [id])
  }

  function Finished(id: string): StepState {
    StepState(id, "", "", [], SUCCESS, 1, "", Some(DONE), None)
  }

  /** A store whose one session has exactly these successes, and nothing else. */
  ghost function StoreOf(plan: ExecutionPlan, done: set<string>): map<string, SessionState> {
    map[plan.sessionId := SessionState(plan.sessionId, plan.requestId, plan.traceId, plan.planVersion, RUNNING, false,
                                       map id | id in done :: Finished(id), Listed(done))]
  }

  lemma StoreOfIs(plan: ExecutionPlan, done: set<string>)
    ensures StoreOk(StoreOf(plan, done))
    ensures SuccessIds(Initialised(StoreOf(plan, done), plan).steps) == done
    ensures Registered(plan.steps, Initialised(StoreOf(plan, done), plan).steps)
  {
    var session := StoreOf(plan, done)[plan.sessionId];
    assert SuccessIds(session.steps) == done;
    hide Initialised, SuccessIds;
    NextCallKeepsSteps(StoreOf(plan, done), plan);
    SafeSession(StartState(plan, Initialised(StoreOf(plan, done), plan)));
  }

  const CRASHING := World((n: nat) => false, (n: nat) => false, (n: nat, id: string, k: nat) => Crashed)

  /** A step that is no success yet fails in that world, however often it may be tried. */
  lemma CrashedRun(cfg: ExecConfig, round: nat, plan: ExecutionPlan, step: PlanStep, m: map<string, StepState>)
    requires step.stepId in m && step.stepId !in SuccessIds(m)
    ensures RunOf(cfg, CRASHING, round, plan, step, m).result == EXECUTOR_INTERNAL_ERROR
  {
    hide IdempotencyKey;
    assert AttemptsOf(CRASHING, round, step.stepId)(1).Crashed?;
  }

  lemma NoMutualDependency(steps: seq<PlanStep>, i: nat, j: nat)
    requires UniqueIds(steps) && Acyclic(GraphOf(steps)) && i < |steps| && j < |steps|
    requires steps[j].stepId in steps[i].dependsOn
    ensures steps[i].stepId !in steps[j].dependsOn
  {
    var g, a, b := GraphOf(steps), steps[i].stepId, steps[j].stepId;
    GraphOfUnique(steps, i);
    GraphOfUnique(steps, j);
    if a in steps[j].dependsOn {
      assert Cycle(g, [a, b, a]);
    }
  }

  lemma LastIsReady(a: PlanStep, b: PlanStep, completed: set<string>)
    requires !AllIn(a.dependsOn, completed) && AllIn(b.dependsOn, completed)
    ensures Ready([a, b], completed) == [b]
  {
    NoneReady(a, completed);
    assert [a, b][..1] == [a];
    hide AllIn;
  }

  /** With all but two steps done, the batch is the one that the other waits for. */
  lemma FirstBatch(cfg: ExecConfig, plan: ExecutionPlan, i: nat, j: nat, replans: nat, s: ExecState)
    requires ListedTooEarly(plan, i, j) && Closed(plan.steps) && Acyclic(GraphOf(plan.steps))
    requires cfg.maxConcurrency >= 1 && plan.graphLimits.maxParallel >= 1
    requires s.plan == plan && s.completed == Done(plan.steps, plan.planVersion, i, j, replans)
    ensures BatchOf(cfg, s) == [plan.steps[j]] && Ready(Pending(plan.steps, s.completed), s.completed) == [plan.steps[j]]
    ensures plan.steps[j].stepId !in s.completed
  {
    hide Acyclic, GraphOf, SettledSteps, Done, Pending, Ready;
    var steps, version := plan.steps, plan.planVersion;
    forall k | 0 <= k < |steps| ensures steps[k].stepId in s.completed <==> k != i && k != j {
      DoneIs(steps, version, i, j, replans, 0, k);
    }
    TwoPending(steps, s.completed, i, j);
    NoSelfDependency(steps, j);
    NoMutualDependency(steps, i, j);
    forall e | e in steps[j].dependsOn ensures e in s.completed {
      assert e in StepIds(steps);
      var k :| 0 <= k < |steps| && steps[k].stepId == e;
    }
    LastIsReady(steps[i], steps[j], s.completed);
  }

  lemma CrashIsRolledBack(cfg: ExecConfig, s: ExecState, j: nat)
    requires cfg.hasReplanner && s.replanCount < cfg.maxReplanAttempts && j < |s.plan.steps| && UniqueIds(s.plan.steps)
    ensures
      var outcome, version := ReplanFor(cfg, s, s.plan.steps[j], EXECUTOR_INTERNAL_ERROR), s.plan.planVersion + 1;
      && outcome.Some?
      && outcome.value.plan == s.plan.(planVersion := version, steps := RolledBackSteps(s.plan.steps, j, version))
  {
    var decision := BuildDecision(Some("executor_internal_error"), StepFailed);
    RolledBackIs(s.plan, j, decision);
    KernelExamples.InternalErrorIsNoCode();
    hide RolledBackSteps, SuffixMappings, RolledBack, BuildDecision, UniqueIds;
  }

  lemma FirstRound(cfg: ExecConfig, plan: ExecutionPlan, i: nat, j: nat, s: ExecState)
    requires ListedTooEarly(plan, i, j) && Closed(plan.steps) && Acyclic(GraphOf(plan.steps))
    requires cfg.maxConcurrency >= 1 && plan.graphLimits.maxParallel >= 1 && cfg.hasReplanner && cfg.maxReplanAttempts >= 1
    requires s.plan == plan && s.completed == Done(plan.steps, plan.planVersion, i, j, cfg.maxReplanAttempts)
    requires s.completed == SuccessIds(s.session.steps) && s.replanCount == 0 && Registered(plan.steps, s.session.steps)
    ensures Round(cfg, CRASHING, s).Continue? && Stuck(plan, i, j, cfg.maxReplanAttempts, Round(cfg, CRASHING, s).next)
  {
    hide Round, Settle, BatchOf, RunBatch, RunOf, Pending, Ready, Adopt, ReplanFor, Done, Records, RolledBackSteps,
      UniqueIds, SettledSteps, Closed, Acyclic, SuccessIds;
    FirstBatch(cfg, plan, i, j, cfg.maxReplanAttempts, s);
    RoundCases(cfg, CRASHING, s);
    var step, batch, run := plan.steps[j], BatchOf(cfg, s), BatchRunOf(cfg, CRASHING, s);
    KernelExamples.SingleBatch(cfg, CRASHING, s.round, plan, step, s.session.steps);
    CrashedRun(cfg, s.round, plan, step, s.session.steps);
    FirstFailureIs(run.results, 0);
    SettleCases(cfg, s, batch, run);
    CrashIsRolledBack(cfg, s, j);
    var noted, outcome := Noted(s, batch, run), ReplanFor(cfg, s, step, EXECUTOR_INTERNAL_ERROR).value;
    AdoptIsAbout(noted, outcome);
    assert StepIds(batch[..0]) == {};
    FirstIsStuck(plan, i, j, cfg.maxReplanAttempts, Adopt(noted, outcome));
  }

  lemma FirstIsStuck(plan: ExecutionPlan, i: nat, j: nat, replans: nat, t: ExecState)
    requires i < j < |plan.steps| && t.replanCount == 1 <= replans
    requires t.completed == Done(plan.steps, plan.planVersion, i, j, replans) && Registered(t.plan.steps, t.session.steps)
    requires
      var version := plan.planVersion + 1;
      t.plan == plan.(planVersion := version, steps := RolledBackSteps(plan.steps, j, version))
    ensures Stuck(plan, i, j, replans, t)
  {
    hide RolledBackSteps, Registered, Done;
    assert Later(plan.steps, plan.planVersion, i, j, 0) == plan.steps;
  }

  lemma TooEarlyBlocks(cfg: ExecConfig, plan: ExecutionPlan, i: nat, j: nat)
    requires ListedTooEarly(plan, i, j) && Closed(plan.steps) && Acyclic(GraphOf(plan.steps))
    requires cfg.maxConcurrency >= 1 && plan.graphLimits.maxParallel >= 1 && cfg.hasReplanner && cfg.maxReplanAttempts >= 1
    ensures Blocks(cfg, CRASHING, StoreOf(plan, Done(plan.steps, plan.planVersion, i, j, cfg.maxReplanAttempts)), plan)
  {
    var done := Done(plan.steps, plan.planVersion, i, j, cfg.maxReplanAttempts);
    StoreOfIs(plan, done);
    var s := StartState(plan, Initialised(StoreOf(plan, done), plan));
    hide Done, StoreOf, Initialised, Round, Run, Stuck, ListedTooEarly, Closed, Acyclic, StoreOk, SuccessIds, Registered;
    assert s.completed == SuccessIds(s.session.steps);
    FirstRound(cfg, plan, i, j, s);
    RunUnfolds(cfg, CRASHING, s);
    var t := Round(cfg, CRASHING, s).next;
    StuckParts(plan, i, j, cfg.maxReplanAttempts, t);
    StuckBlocks(cfg, CRASHING, plan, i, j, t);
  }

  lemma UnorderedIsTooEarly(plan: ExecutionPlan) returns (i: nat, j: nat)
    requires UniqueIds(plan.steps) && Closed(plan.steps) && Acyclic(GraphOf(plan.steps))
    requires SettledSteps(plan.steps, plan.planVersion) && !DependencyOrdered(plan.steps)
    ensures ListedTooEarly(plan, i, j)
  {
    var steps := plan.steps;
    var d;
    i, d :| i < |steps| && d in steps[i].dependsOn && forall k :: 0 <= k < i ==> steps[k].stepId != d;
    assert d in StepIds(steps);
    j :| j < |steps| && steps[j].stepId == d;
    NoSelfDependency(steps, i);
  }

  /** A closed acyclic plan, in whatever order it is listed, is never blocked as long as nobody replans it. */
  lemma UnreplannedIsNotBlocked(cfg: ExecConfig, w: World, sessions: map<string, SessionState>, plan: ExecutionPlan)
    requires StoreOk(sessions) && cfg.maxConcurrency >= 1 && plan.graphLimits.maxParallel >= 1
    requires UniqueIds(plan.steps) && Closed(plan.steps) && Acyclic(GraphOf(plan.steps)) && NeverReplans(cfg)
    ensures ExecuteRun(cfg, w, sessions, plan).ending != DependencyBlocked
  {
    var s := StartState(plan, Initialised(sessions, plan));
    StartIsSafe(sessions, plan);
    SafeSession(s);
    hide Initialised, Round, Run, Safe, Closed, Acyclic, UniqueIds, Registered;
    var n := RunStopsSomewhere(cfg, w, s);
    NoReplan(cfg, w, s, n);
    PlanUntilReplan(cfg, w, s, n);
    var x := StateAt(cfg, w, s, n).value;
    RoundCases(cfg, w, x);
    if Pending(x.plan.steps, x.completed) != [] {
      PendingHasReady(x.plan.steps, x.completed);
    }
  }

  /**
   When an accepted plan with settled ids can end up blocked, on some store and in some
   world: exactly when it is not listed in dependency order and the executor can replan.
   */
  lemma BlocksIff(cfg: ExecConfig, plan: ExecutionPlan, allowedTools: seq<string>)
    requires ValidPlan(plan, allowedTools) && SettledSteps(plan.steps, plan.planVersion) && cfg.maxConcurrency >= 1
    ensures plan.graphLimits.maxParallel >= 1
    ensures (exists w: World, sessions: map<string, SessionState> :: Blocks(cfg, w, sessions, plan)) <==>
      !DependencyOrdered(plan.steps) && !NeverReplans(cfg)
  {
    hide ExecuteRun, StoreOk, DependencyOrdered, Acyclic, Closed, UniqueIds, SettledSteps;
    if !DependencyOrdered(plan.steps) && !NeverReplans(cfg) {
      var i, j := UnorderedIsTooEarly(plan);
      TooEarlyBlocks(cfg, plan, i, j);
    } else {
      forall w: World, sessions: map<string, SessionState> ensures !Blocks(cfg, w, sessions, plan) {
        if StoreOk(sessions) {
          if NeverReplans(cfg) {
            UnreplannedIsNotBlocked(cfg, w, sessions, plan);
          } else {
            EveryCall(cfg, w, sessions, plan, allowedTools);
          }
        }
      }
    }
  }
}
