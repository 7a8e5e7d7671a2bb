/** Progress and traceability: no run of a workable plan is ever blocked, and every replan can be traced. */
module KernelProgress {
  import opened DependencyGraph
  import opened Plans
  import opened StepNames
  import opened StateStore
  import opened StepRunner
  import opened Replanner
  import opened ReplanGuarantees
  import opened WorkflowKernel
  import opened KernelTermination

  lemma {:induction false} Shallowest(g: Graph, steps: seq<PlanStep>) returns (i: nat)
    requires Acyclic(g) && steps != []
    ensures i < |steps| && forall j :: 0 <= j < |steps| ==> DepthOf(g, steps[i].stepId) <= DepthOf(g, steps[j].stepId)
  {
    var n := |steps| - 1;
    i := n;
    if n > 0 {
      var k := Shallowest(g, steps[..n]);
      if DepthOf(g, steps[k].stepId) < DepthOf(g, steps[n].stepId) {
        i := k;
      }
    }
  }

  /** In a closed acyclic plan, in whatever order it is listed, some pending step is always ready. */
  lemma PendingHasReady(steps: seq<PlanStep>, completed: set<string>)
    requires UniqueIds(steps) && Closed(steps) && Acyclic(GraphOf(steps))
    requires Pending(steps, completed) != []
    ensures Ready(Pending(steps, completed), completed) != []
  {
    var g, pending := GraphOf(steps), Pending(steps, completed);
    var i := Shallowest(g, pending);
    var step := pending[i];
    assert step in pending;
    PendingIs(steps, completed, step);
    forall d | d in step.dependsOn ensures d in completed {
      DependencyIsDone(steps, completed, i, d);
    }
    ReadyIs(pending, completed, step);
  }

  lemma DependencyIsDone(steps: seq<PlanStep>, completed: set<string>, i: nat, d: string)
    requires UniqueIds(steps) && Closed(steps) && Acyclic(GraphOf(steps))
    requires i < |Pending(steps, completed)|
    requires forall j :: 0 <= j < |Pending(steps, completed)| ==>
      DepthOf(GraphOf(steps), Pending(steps, completed)[i].stepId) <= DepthOf(GraphOf(steps), Pending(steps, completed)[j].stepId)
    requires d in Pending(steps, completed)[i].dependsOn
    ensures d in completed
  {
    var g, pending := GraphOf(steps), Pending(steps, completed);
    hide Pending;
    assert pending[i] in pending;
    PendingIs(steps, completed, pending[i]);
    var a :| 0 <= a < |steps| && steps[a] == pending[i];
    GraphOfUnique(steps, a);
    DepthRecurrence(g, pending[i].stepId);
    assert Edge(g, pending[i].stepId, d);
    var b :| 0 <= b < |steps| && steps[b].stepId == d;
    PendingIs(steps, completed, steps[b]);
  }

  /** The loop invariant of a run that started from `original`, on whatever session. */
  ghost predicate Traced(original: ExecutionPlan, s: ExecState) {
    && Registered(s.plan.steps, s.session.steps)
    && Workable(s.plan)
    && Descends(original, s.plan, s.history)
    && s.replanCount == |s.history|
  }

  /** The session holds no id that a later replan could make up, as when no call on it has replanned. */
  ghost predicate SessionSettled(s: ExecState) {
    forall id :: id in s.session.steps ==> Settled(id, s.plan.planVersion)
  }

  /** A replan's target ids are new to the session, and adopting it alters no step already there. */
  ghost predicate AddsOnlyNewSteps(before: map<string, StepState>, later: map<string, StepState>, outcome: ReplanOutcome) {
    && (forall id :: id in before ==> id in later && later[id] == before[id])
    && (forall m :: m in outcome.mappings ==>
          && m.targetStepId !in before && m.targetStepId in later
          && later[m.targetStepId].status == PENDING && later[m.targetStepId].attempts == 0)
  }

  lemma TargetIsNew(s: ExecState, outcome: ReplanOutcome, m: StepIdMapping)
    requires Registered(s.plan.steps, s.session.steps) && SessionSettled(s)
    requires Replans(s.plan, outcome) && m in outcome.mappings
    ensures m.targetStepId !in s.session.steps && m.targetStepId in StepIds(outcome.plan.steps)
  {
    assert forall id :: id in s.session.steps ==> Settled(id, s.plan.planVersion);
    assert m.sourceStepId in Sources(outcome.mappings);
    var i :| 0 <= i < |s.plan.steps| && s.plan.steps[i].stepId == m.sourceStepId;
    assert outcome.plan.steps[i].stepId == m.targetStepId;
  }

  lemma AdoptAddsOnlyNewSteps(s: ExecState, outcome: ReplanOutcome)
    requires Registered(s.plan.steps, s.session.steps) && SessionSettled(s) && Replans(s.plan, outcome)
    ensures AddsOnlyNewSteps(s.session.steps, Adopt(s, outcome).session.steps, outcome)
  {
    var version := outcome.plan.planVersion;
    var start := s.session.(planVersion := Max(s.session.planVersion, version));
    InsertedSteps(start, outcome.plan.steps);
    var t := Adopt(s, outcome);
    assert t.session == InsertSteps(start, outcome.plan.steps);
    hide InsertSteps, Replans, SessionSettled, Registered, Adopt;
    forall m | m in outcome.mappings
      ensures m.targetStepId !in s.session.steps && m.targetStepId in t.session.steps
      ensures t.session.steps[m.targetStepId].status == PENDING && t.session.steps[m.targetStepId].attempts == 0
    {
      TargetIsNew(s, outcome, m);
      InsertedStepsAreFresh(start, outcome.plan.steps, m.targetStepId);
    }
  }

  lemma AdoptKeepsSettled(s: ExecState, outcome: ReplanOutcome)
    requires SessionSettled(s) && Workable(s.plan) && Replans(s.plan, outcome)
    ensures SessionSettled(Adopt(s, outcome))
  {
    ReplanStaysWorkable(s.plan, outcome);
    var t := Adopt(s, outcome);
    InsertedSteps(s.session.(planVersion := Max(s.session.planVersion, outcome.plan.planVersion)), outcome.plan.steps);
    forall id | id in t.session.steps ensures Settled(id, t.plan.planVersion) {
      if id in s.session.steps {
        SettledLater(id, s.plan.planVersion, t.plan.planVersion);
      } else {
        var i :| 0 <= i < |outcome.plan.steps| && outcome.plan.steps[i].stepId == id;
      }
    }
  }

  lemma AdoptKeepsTraced(original: ExecutionPlan, s: ExecState, outcome: ReplanOutcome)
    requires Traced(original, s) && Replans(s.plan, outcome)
    ensures Traced(original, Adopt(s, outcome))
  {
    ReplanStaysWorkable(s.plan, outcome);
    DescentExtends(original, s.plan, s.history, outcome);
    hide Workable, Replans, Descends;
  }

  /** Whatever the executor replans after a failure is a proper replan of its plan. */
  lemma ReplanForReplans(cfg: ExecConfig, s: ExecState, failed: PlanStep, result: ToolResult)
    requires Workable(s.plan) && failed in s.plan.steps && ReplanFor(cfg, s, failed, result).Some?
    ensures Replans(s.plan, ReplanFor(cfg, s, failed, result).value)
  {
    hide Workable, Replans;
    var i :| 0 <= i < |s.plan.steps| && s.plan.steps[i] == failed;
    var decision := BuildDecision(ErrorOf(result).code, StepFailed);
    LocalReplaceReplans(s.plan, i, decision);
    RollbackReplans(s.plan, i, decision);
  }

  /** What one round does to the history: nothing, or one proper replan of the plan. */
  ghost predicate HistoryGrows(s: ExecState, t: ExecState) {
    || (t.history == s.history && t.plan == s.plan)
    || (exists outcome :: t.history == s.history + [outcome] && t.plan == outcome.plan && Replans(s.plan, outcome))
  }

  lemma TracedIsAbout(original: ExecutionPlan, s: ExecState, t: ExecState)
    requires Traced(original, s) && t.plan == s.plan && t.history == s.history && t.replanCount == s.replanCount
    requires t.session.steps.Keys == s.session.steps.Keys
    ensures Traced(original, t)
  {
  }

  lemma SettleKeepsTraced(cfg: ExecConfig, w: World, original: ExecutionPlan, s: ExecState)
    requires Traced(original, s)
    ensures
      match Settle(cfg, s, BatchOf(cfg, s), BatchRunOf(cfg, w, s))
      case Continue(t) => Traced(original, t) && HistoryGrows(s, t)
      case Stop(ending, t) => ending.StepFailure? && Traced(original, t)
  {
    var batch, run := BatchOf(cfg, s), BatchRunOf(cfg, w, s);
    var k := FirstFailure(run.results);
    SettleCases(cfg, s, batch, run);
    hide Settle, BatchOf, BatchRunOf, Adopt, ReplanFor, Records, Descends, Workable;
    if k < |batch| {
      var noted := Noted(s, batch, run);
      TracedIsAbout(original, s, noted);
      TracedIsAbout(original, s, Fail(noted));
      BatchIs(cfg, s, k);
      var o := ReplanFor(cfg, s, batch[k], run.results[k]);
      if o.Some? {
        ReplanForReplans(cfg, s, batch[k], run.results[k]);
        AdoptKeepsTraced(original, noted, o.value);
        AdoptHistory(noted, o.value);
      }
    } else {
      TracedIsAbout(original, s, Settle(cfg, s, batch, run).next);
    }
  }

  lemma AdoptHistory(s: ExecState, outcome: ReplanOutcome)
    ensures Adopt(s, outcome).history == s.history + [outcome] && Adopt(s, outcome).plan == outcome.plan
  {
  }

  lemma WorkableHasReady(plan: ExecutionPlan, completed: set<string>)
    requires Workable(plan) && Pending(plan.steps, completed) != []
    ensures Ready(Pending(plan.steps, completed), completed) != []
  {
    hide Pending, Ready;
    DependencyOrderIsAcyclic(plan.steps);
    PendingHasReady(plan.steps, completed);
  }

  /** One pass of the loop is never blocked, stays traced, and records the replan it makes. */
  lemma RoundKeepsTraced(cfg: ExecConfig, w: World, original: ExecutionPlan, s: ExecState)
    requires Traced(original, s)
    ensures
      match Round(cfg, w, s)
      case Continue(t) => Traced(original, t) && HistoryGrows(s, t)
      case Stop(ending, t) => ending != DependencyBlocked && Traced(original, t)
  {
    hide Round, Settle, BatchOf, BatchRunOf, Pending, Ready, HistoryGrows;
    RoundCases(cfg, w, s);
    if Pending(s.plan.steps, s.completed) != [] {
      WorkableHasReady(s.plan, s.completed);
    }
    if Works(cfg, w, s) {
      SettleKeepsTraced(cfg, w, original, s);
    } else if Idle(cfg, w, s) {
      TracedIsAbout(original, s, Round(cfg, w, s).last);
    }
  }

  lemma {:induction false} TracedAlways(cfg: ExecConfig, w: World, s: ExecState, n: nat)
    requires Traced(s.plan, s)
    ensures StateAt(cfg, w, s, n).Some? ==> Traced(s.plan, StateAt(cfg, w, s, n).value)
  {
    hide Round, Descends, Workable;
    if n > 0 {
      TracedAlways(cfg, w, s, n - 1);
      if StateAt(cfg, w, s, n - 1).Some? {
        RoundKeepsTraced(cfg, w, s.plan, StateAt(cfg, w, s, n - 1).value);
      }
    }
  }

  /** Before any replan, a workable plan is traced. */
  lemma StartIsTraced(s: ExecState)
    requires Registered(s.plan.steps, s.session.steps) && Workable(s.plan)
    requires s.history == [] && s.replanCount == 0
    ensures Traced(s.plan, s)
  {
    assert forall id :: Trace([], id) == id;
  }

  /**
   Progress: at every iteration of every run of a workable plan, after any number of
   replans, pending steps mean ready steps.
   */
  lemma NeverBlocked(cfg: ExecConfig, w: World, s: ExecState, n: nat)
    requires Traced(s.plan, s) && StateAt(cfg, w, s, n).Some?
    ensures
      var x := StateAt(cfg, w, s, n).value;
      var pending := Pending(x.plan.steps, x.completed);
      pending != [] ==> Ready(pending, x.completed) != []
  {
    hide Round, Pending, Ready;
    TracedAlways(cfg, w, s, n);
    var x := StateAt(cfg, w, s, n).value;
    if Pending(x.plan.steps, x.completed) != [] {
      WorkableHasReady(x.plan, x.completed);
    }
  }

  /**
   So `dependency_blocked` is unreachable, and the run's history maps the original plan
   onto its final plan: same steps in the same order, dependencies mapped along, ids
   unique, the version up by exactly one per replan.
   */
  lemma RunIsTraceable(cfg: ExecConfig, w: World, s: ExecState)
    requires Traced(s.plan, s) && Capped(cfg, s)
    ensures Run(cfg, w, s).ending != DependencyBlocked
    ensures
      var last := Run(cfg, w, s).last;
      && Descends(s.plan, last.plan, last.history)
      && UniqueIds(last.plan.steps)
      && last.plan.planVersion == s.plan.planVersion + last.replanCount
  {
    hide Round, Run, Descends;
    var n := RunStopsSomewhere(cfg, w, s);
    TracedAlways(cfg, w, s, n);
    RoundKeepsTraced(cfg, w, s.plan, StateAt(cfg, w, s, n).value);
    DescendsVersion(s.plan, Run(cfg, w, s).last.plan, Run(cfg, w, s).last.history);
  }

  lemma DescendsVersion(original: ExecutionPlan, current: ExecutionPlan, history: seq<ReplanOutcome>)
    requires Descends(original, current, history)
    ensures current.planVersion == original.planVersion + |history|
  {
  }

  /** Every pass of a run leaves the plan alone or makes one proper replan of it. */
  lemma EveryReplanIsProper(cfg: ExecConfig, w: World, s: ExecState, n: nat)
    requires Traced(s.plan, s) && StateAt(cfg, w, s, n).Some? && Round(cfg, w, StateAt(cfg, w, s, n).value).Continue?
    ensures
      var x := StateAt(cfg, w, s, n).value;
      HistoryGrows(x, Round(cfg, w, x).next)
  {
    hide Round, HistoryGrows, Descends, Workable;
    TracedAlways(cfg, w, s, n);
    RoundKeepsTraced(cfg, w, s.plan, StateAt(cfg, w, s, n).value);
  }

  /** The replan of a round, if it makes one, only adds steps the session did not have. */
  ghost predicate GrowsByNewSteps(cfg: ExecConfig, w: World, s: ExecState, t: ExecState)
    requires Registered(s.plan.steps, s.session.steps)
  {
    t.history == s.history
    || exists outcome :: t.history == s.history + [outcome] && AddsOnlyNewSteps(BatchRunOf(cfg, w, s).steps, t.session.steps, outcome)
  }

  lemma SettleKeepsSettled(cfg: ExecConfig, w: World, original: ExecutionPlan, s: ExecState)
    requires Traced(original, s) && SessionSettled(s)
    ensures
      var r := Settle(cfg, s, BatchOf(cfg, s), BatchRunOf(cfg, w, s));
      r.Continue? ==> SessionSettled(r.next) && GrowsByNewSteps(cfg, w, s, r.next)
  {
    var batch, run := BatchOf(cfg, s), BatchRunOf(cfg, w, s);
    var k := FirstFailure(run.results);
    SettleCases(cfg, s, batch, run);
    hide Settle, BatchOf, BatchRunOf, Adopt, ReplanFor, Records, Descends, Workable;
    if k < |batch| {
      var noted := Noted(s, batch, run);
      BatchIs(cfg, s, k);
      var o := ReplanFor(cfg, s, batch[k], run.results[k]);
      if o.Some? {
        ReplanForReplans(cfg, s, batch[k], run.results[k]);
        AdoptKeepsSettled(noted, o.value);
        AdoptAddsOnlyNewSteps(noted, o.value);
        AdoptHistory(noted, o.value);
      }
    }
  }

  lemma RoundKeepsSettled(cfg: ExecConfig, w: World, original: ExecutionPlan, s: ExecState)
    requires Traced(original, s) && SessionSettled(s) && Round(cfg, w, s).Continue?
    ensures SessionSettled(Round(cfg, w, s).next) && GrowsByNewSteps(cfg, w, s, Round(cfg, w, s).next)
  {
    hide Round, Settle, BatchOf, BatchRunOf, Pending, Ready, GrowsByNewSteps, SessionSettled;
    RoundCases(cfg, w, s);
    if Pending(s.plan.steps, s.completed) != [] {
      WorkableHasReady(s.plan, s.completed);
    }
    SettleKeepsSettled(cfg, w, original, s);
  }

  lemma {:induction false} SettledAlways(cfg: ExecConfig, w: World, s: ExecState, n: nat)
    requires Traced(s.plan, s) && SessionSettled(s)
    ensures StateAt(cfg, w, s, n).Some? ==> SessionSettled(StateAt(cfg, w, s, n).value)
  {
    hide Round, Descends, Workable, SessionSettled, GrowsByNewSteps;
    if n > 0 {
      SettledAlways(cfg, w, s, n - 1);
      if StateAt(cfg, w, s, n - 1).Some? {
        TracedAlways(cfg, w, s, n - 1);
        var x := StateAt(cfg, w, s, n - 1).value;
        if Round(cfg, w, x).Continue? {
          RoundKeepsSettled(cfg, w, s.plan, x);
        }
      }
    }
  }

  /**
   In a session on which nothing was replanned before, every replan's target ids are new
   to the whole session, and adopting it alters no step already registered.
   */
  lemma ReplansAddOnlyNewSteps(cfg: ExecConfig, w: World, s: ExecState, n: nat)
    requires Traced(s.plan, s) && SessionSettled(s)
    requires StateAt(cfg, w, s, n).Some? && Round(cfg, w, StateAt(cfg, w, s, n).value).Continue?
    ensures
      var x := StateAt(cfg, w, s, n).value;
      GrowsByNewSteps(cfg, w, x, Round(cfg, w, x).next)
  {
    hide Round, GrowsByNewSteps, Descends, Workable, SessionSettled;
    TracedAlways(cfg, w, s, n);
    SettledAlways(cfg, w, s, n);
    RoundKeepsSettled(cfg, w, s.plan, StateAt(cfg, w, s, n).value);
  }
}
