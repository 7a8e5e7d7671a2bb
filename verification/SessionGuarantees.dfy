/**
 * What a caller of `execute` gets, from the plan the planner accepted to the store the
 * last call leaves behind. The pieces are proved in the Kernel modules.
 */
module SessionGuarantees {
  import opened Wrappers
  import opened DependencyGraph
  import opened Plans
  import opened StateStore
  import opened StepRunner
  import opened Replanner
  import opened ReplanTheory
  import opened ReplanGuarantees
  import opened WorkflowKernel
  import opened KernelTermination
  import opened KernelSafety
  import opened KernelProgress
  import opened KernelResume
  import opened KernelResubmit
  import opened KernelAtMostOnce
  import opened Executor

  /** A replan of a plan the planner accepts is one it would accept again. */
  lemma ReplanStaysValid(plan: ExecutionPlan, outcome: ReplanOutcome, allowedTools: seq<string>)
    requires ValidPlan(plan, allowedTools) && Replans(plan, outcome)
    ensures ValidPlan(outcome.plan, allowedTools)
  {
    hide ValidPlan, Isomorphic;
    IsomorphicPlanIsValid(plan, outcome.plan, Sources(outcome.mappings), plan.planVersion + 1, allowedTools);
  }

  /** So whatever the replanner answers to a failed step of a plan listed in order, the plan stays acceptable. */
  lemma ReplannerKeepsPlansValid(plan: ExecutionPlan, i: nat, code: Option<string>, allowedTools: seq<string>)
    requires Submittable(plan, allowedTools) && i < |plan.steps|
    ensures
      var outcome := AfterFailure(plan, plan.steps[i], code);
      && outcome.Some? && ValidPlan(outcome.value.plan, allowedTools)
      && (outcome.value.decision.shouldReplan ==> Replans(plan, outcome.value))
  {
    var decision := BuildDecision(code, StepFailed);
    LocalReplaceReplans(plan, i, decision);
    RollbackReplans(plan, i, decision);
    hide ValidPlan, Replans, LocalReplaced, RolledBack;
    var outcome := AfterFailure(plan, plan.steps[i], code).value;
    if decision.shouldReplan {
      ReplanStaysValid(plan, outcome, allowedTools);
    }
  }

  /** Nobody validates a replanned plan, and nobody has to: every plan a run ever works on is acceptable. */
  lemma {:induction false} PlanIsAlwaysValid(cfg: ExecConfig, w: World, s: ExecState, n: nat, allowedTools: seq<string>)
    requires Traced(s.plan, s) && ValidPlan(s.plan, allowedTools) && StateAt(cfg, w, s, n).Some?
    ensures ValidPlan(StateAt(cfg, w, s, n).value.plan, allowedTools)
  {
    hide Round, ValidPlan, Traced, Replans, Registered;
    WorkablePlan(s.plan, s);
    if n > 0 {
      PlanIsAlwaysValid(cfg, w, s, n - 1, allowedTools);
      EveryReplanIsProper(cfg, w, s, n - 1);
      var x, t := StateAt(cfg, w, s, n - 1).value, StateAt(cfg, w, s, n).value;
      if t.plan != x.plan {
        var outcome: ReplanOutcome :| t.plan == outcome.plan && Replans(x.plan, outcome);
        ReplanStaysValid(x.plan, outcome, allowedTools);
      }
    }
  }

  /** A plan as `create_plan` hands it out: accepted, listed in dependency order, no replanned ids. */
  ghost predicate Submittable(plan: ExecutionPlan, allowedTools: seq<string>) {
    ValidPlan(plan, allowedTools) && DependencyOrdered(plan.steps) && SettledSteps(plan.steps, plan.planVersion)
  }

  lemma CallStartsTraced(sessions: map<string, SessionState>, plan: ExecutionPlan)
    requires StoreOk(sessions) && Workable(plan)
    ensures
      var s := StartState(plan, Initialised(sessions, plan));
      Safe(s) && Traced(plan, s) && Registered(plan.steps, s.session.steps)
  {
    hide Initialised, Workable;
    StartIsSafe(sessions, plan);
    var s := StartState(plan, Initialised(sessions, plan));
    SafeSession(s);
    hide Safe;
    StartIsTraced(s);
  }

  /**
   Any call, on any store: a new session, one that `init_session` has registered, or one
   that earlier calls left behind, replanned or not. Whatever the tools, the clock and the
   users do, the call ends within the work bound and is never blocked; its last plan is one
   the planner would accept, and is the submitted plan seen through the replan history;
   success means that every step of that last plan is a success in the store; and then the
   submitted plan is complete in the store if and only if no step of it was given up before
   it was stored, which, where every success can be saved, is if and only if nothing was
   replanned.
   */
  lemma EveryCall(cfg: ExecConfig, w: World, sessions: map<string, SessionState>, plan: ExecutionPlan,
                  allowedTools: seq<string>)
    requires StoreOk(sessions) && Submittable(plan, allowedTools)
    requires cfg.maxConcurrency >= 1 && plan.graphLimits.maxParallel >= 1
    ensures Registered(plan.steps, StartState(plan, Initialised(sessions, plan)).session.steps)
    ensures
      var run, start := ExecuteRun(cfg, w, sessions, plan), StartState(plan, Initialised(sessions, plan));
      && run.ending != DependencyBlocked
      && run.last.calls <= (Clip(cfg.maxReplanAttempts) + 1) * |plan.steps| * CallsPerStep(cfg)
      && ValidPlan(run.last.plan, allowedTools)
      && Descends(plan, run.last.plan, run.last.history)
      && (run.ending == Succeeded ==>
            && PlanDone(run.last)
            && (Complete(plan, run.last) <==> !EverGivesUp(cfg, w, start))
            && (Saves(w) ==> (Complete(plan, run.last) <==> run.last.replanCount == 0)))
  {
    var s := StartState(plan, Initialised(sessions, plan));
    StartIsSafe(sessions, plan);
    CallStartsTraced(sessions, plan);
    hide Run, Round, ValidPlan, Traced, Descends, Safe, PlanDone, Initialised, SuccessIds, Saves, EverGivesUp;
    RunIsTraceable(cfg, w, s);
    WorkBound(cfg, w, s);
    SuccessIsStored(cfg, w, s);
    LastPlanIsValid(cfg, w, s, allowedTools);
    if Run(cfg, w, s).ending == Succeeded {
      ResubmitIsFreeIff(cfg, w, s);
      if Saves(w) {
        ResubmitIsFreeIffNotReplanned(cfg, w, s);
      }
    }
  }

  /** Every step of the plan is a success in the store. */
  ghost predicate Complete(plan: ExecutionPlan, s: ExecState) {
    StepIds(plan.steps) <= SuccessIds(s.session.steps)
  }

  /** On this store no call with this plan makes a tool call, whatever its configuration and world. */
  ghost predicate FreeToSubmit(sessions: map<string, SessionState>, plan: ExecutionPlan)
    requires StoreOk(sessions) && plan.graphLimits.maxParallel >= 1
  {
    forall cfg: ExecConfig, w: World :: cfg.maxConcurrency >= 1 ==> ExecuteRun(cfg, w, sessions, plan).last.calls == 0
  }

  lemma {:induction false} CallsNeverDrop(cfg: ExecConfig, w: World, s: ExecState)
    requires Registered(s.plan.steps, s.session.steps) && Capped(cfg, s)
    ensures Run(cfg, w, s).last.calls >= s.calls + CallsOf(cfg, w, s)
    decreases ReplansLeft(cfg, s), Todo(s)
  {
    hide Round, Pending, CallsOf;
    RoundDecreases(cfg, w, s);
    RoundAdvances(cfg, w, s);
    if Round(cfg, w, s).Continue? {
      CallsNeverDrop(cfg, w, Round(cfg, w, s).next);
    }
  }

  lemma {:induction false} BatchMakesCalls(cfg: ExecConfig, w: World, round: nat, plan: ExecutionPlan, batch: seq<PlanStep>,
                                           m: map<string, StepState>)
    requires Registered(batch, m) && batch != [] && batch[0].stepId !in SuccessIds(m)
    requires cfg.maxRetryAttempts >= 0 && w.attempt(round, batch[0].stepId, 1).Invoked?
    ensures RunBatch(cfg, w, round, plan, batch, m).calls >= 1
  {
    var n := |batch| - 1;
    if n > 0 {
      hide RunOf;
      BatchMakesCalls(cfg, w, round, plan, batch[..n], m);
    } else {
      assert batch[..0] == [];
      assert RunBatch(cfg, w, round, plan, batch[..0], m).steps == m;
      assert AttemptsOf(w, round, batch[0].stepId)(1).Invoked?;
    }
  }

  lemma IncompleteIsNotFree(sessions: map<string, SessionState>, plan: ExecutionPlan) returns (cfg: ExecConfig, w: World)
    requires StoreOk(sessions) && Workable(plan) && plan.graphLimits.maxParallel >= 1
    requires !(StepIds(plan.steps) <= SuccessIds(Initialised(sessions, plan).steps))
    ensures cfg.maxConcurrency >= 1 && ExecuteRun(cfg, w, sessions, plan).last.calls >= 1
  {
    CallStartsTraced(sessions, plan);
    StartIsSafe(sessions, plan);
    hide Run, Initialised, Workable, Safe, Traced, Registered;
    cfg := ExecConfig(0, 0, false, 1);
    w := World((n: nat) => false, (n: nat) => false, (n: nat, id: string, k: nat) => Invoked(DONE, true));
    UnfinishedPlanCosts(cfg, w, StartState(plan, Initialised(sessions, plan)));
  }

  lemma CompleteIsFree(cfg: ExecConfig, w: World, sessions: map<string, SessionState>, plan: ExecutionPlan)
    requires StoreOk(sessions) && cfg.maxConcurrency >= 1 && plan.graphLimits.maxParallel >= 1
    requires StepIds(plan.steps) <= SuccessIds(Initialised(sessions, plan).steps)
    ensures ExecuteRun(cfg, w, sessions, plan).last.calls == 0
  {
    hide Run, Initialised;
    StartIsSafe(sessions, plan);
    SafeSession(StartState(plan, Initialised(sessions, plan)));
    FinishedPlanIsFree(cfg, w, plan, Initialised(sessions, plan));
  }

  /** A plan can be submitted for free exactly when all its steps are successes in the store. */
  lemma FreeIffComplete(sessions: map<string, SessionState>, plan: ExecutionPlan)
    requires StoreOk(sessions) && Workable(plan) && plan.graphLimits.maxParallel >= 1
    ensures FreeToSubmit(sessions, plan) <==> StepIds(plan.steps) <= SuccessIds(Initialised(sessions, plan).steps)
  {
    hide ExecuteRun, Initialised, Workable, StoreOk;
    if StepIds(plan.steps) <= SuccessIds(Initialised(sessions, plan).steps) {
      forall cfg: ExecConfig, w: World | cfg.maxConcurrency >= 1 ensures ExecuteRun(cfg, w, sessions, plan).last.calls == 0 {
        CompleteIsFree(cfg, w, sessions, plan);
      }
    } else {
      var cfg, w := IncompleteIsNotFree(sessions, plan);
    }
  }

  lemma UnfinishedPlanCosts(cfg: ExecConfig, w: World, s: ExecState)
    requires Registered(s.plan.steps, s.session.steps) && Workable(s.plan) && Capped(cfg, s)
    requires s.completed == SuccessIds(s.session.steps) && !(StepIds(s.plan.steps) <= s.completed)
    requires cfg.maxRetryAttempts >= 0 && !Interrupted(w, s)
    requires forall id: string :: w.attempt(s.round, id, 1).Invoked?
    ensures Run(cfg, w, s).last.calls >= 1
  {
    var i :| 0 <= i < |s.plan.steps| && s.plan.steps[i].stepId !in s.completed;
    PendingIs(s.plan.steps, s.completed, s.plan.steps[i]);
    hide Run, Round, Workable, Pending, Ready, BatchOf;
    WorkableHasReady(s.plan, s.completed);
    BatchNonempty(cfg, w, s);
    BatchIsRegistered(cfg, s);
    var batch := BatchOf(cfg, s);
    BatchIs(cfg, s, 0);
    hide RunBatch;
    BatchMakesCalls(cfg, w, s.round, s.plan, batch, s.session.steps);
    CallsNeverDrop(cfg, w, s);
  }

  /**
   After a successful call, submitting the same plan again makes no tool call, whoever does
   it and in whatever world, if and only if the call gave no step of it up before it was
   stored; where every success can be saved, if and only if it did not replan.
   */
  lemma ResubmittingIsFreeIff(cfg: ExecConfig, w: World, sessions: map<string, SessionState>, plan: ExecutionPlan,
                              allowedTools: seq<string>)
    requires StoreOk(sessions) && Submittable(plan, allowedTools)
    requires cfg.maxConcurrency >= 1 && plan.graphLimits.maxParallel >= 1
    requires ExecuteRun(cfg, w, sessions, plan).ending == Succeeded
    ensures Registered(plan.steps, StartState(plan, Initialised(sessions, plan)).session.steps)
    ensures
      var run := ExecuteRun(cfg, w, sessions, plan);
      var later := sessions[plan.sessionId := run.last.session];
      && StoreOk(later)
      && (FreeToSubmit(later, plan) <==> !EverGivesUp(cfg, w, StartState(plan, Initialised(sessions, plan))))
      && (Saves(w) ==> (FreeToSubmit(later, plan) <==> run.last.replanCount == 0))
  {
    EveryCall(cfg, w, sessions, plan, allowedTools);
    var run := ExecuteRun(cfg, w, sessions, plan);
    var later := sessions[plan.sessionId := run.last.session];
    RunKeepsStoreOk(sessions, Submission(cfg, w, plan));
    hide ExecuteRun, Initialised, ValidPlan, Descends, PlanDone, FreeToSubmit, EverGivesUp, Saves;
    NextCallKeepsSteps(later, plan);
    FreeIffComplete(later, plan);
  }

  lemma LastPlanIsValid(cfg: ExecConfig, w: World, s: ExecState, allowedTools: seq<string>)
    requires Traced(s.plan, s) && Capped(cfg, s) && ValidPlan(s.plan, allowedTools)
    ensures ValidPlan(Run(cfg, w, s).last.plan, allowedTools)
  {
    hide Run, Round, ValidPlan, Traced;
    WorkablePlan(s.plan, s);
    var n := RunStopsSomewhere(cfg, w, s);
    PlanIsAlwaysValid(cfg, w, s, n, allowedTools);
    RoundAdvances(cfg, w, StateAt(cfg, w, s, n).value);
  }

  /** One call of `execute`, with everything it depends on. */
  datatype Submission = Submission(cfg: ExecConfig, world: World, plan: ExecutionPlan)

  ghost predicate Accepted(sub: Submission) {
    sub.cfg.maxConcurrency >= 1 && sub.plan.graphLimits.maxParallel >= 1 && UniqueIds(sub.plan.steps)
  }

  ghost predicate AllAccepted(subs: seq<Submission>) {
    forall i :: 0 <= i < |subs| ==> Accepted(subs[i])
  }

  /** The store after a sequence of calls. */
  ghost function StoreAfter(sessions: map<string, SessionState>, subs: seq<Submission>): (r: map<string, SessionState>)
    requires StoreOk(sessions) && AllAccepted(subs)
    ensures StoreOk(r)
  {
    if subs == [] then sessions
    else
      var before, sub := StoreAfter(sessions, subs[..|subs| - 1]), subs[|subs| - 1];
      RunKeepsStoreOk(before, sub);
      before[sub.plan.sessionId := ExecuteRun(sub.cfg, sub.world, before, sub.plan).last.session]
  }

  lemma RunKeepsStoreOk(sessions: map<string, SessionState>, sub: Submission)
    requires StoreOk(sessions) && Accepted(sub)
    ensures StoreOk(sessions[sub.plan.sessionId := ExecuteRun(sub.cfg, sub.world, sessions, sub.plan).last.session])
  {
    hide Run, Initialised;
    StartIsSafe(sessions, sub.plan);
    var s := StartState(sub.plan, Initialised(sessions, sub.plan));
    SuccessIsStored(sub.cfg, sub.world, s);
    EndIsOk(sessions, sub.plan.sessionId, Run(sub.cfg, sub.world, s).last);
  }

  /** The run of the `i`-th call. */
  ghost function RunAt(sessions: map<string, SessionState>, subs: seq<Submission>, i: nat): RunOutcome
    requires StoreOk(sessions) && AllAccepted(subs) && i < |subs|
  {
    ExecuteRun(subs[i].cfg, subs[i].world, StoreAfter(sessions, subs[..i]), subs[i].plan)
  }

  ghost function CallAt(sessions: map<string, SessionState>, subs: seq<Submission>, i: nat): KernelResume.Call
    requires StoreOk(sessions) && AllAccepted(subs) && i < |subs|
  {
    var last := RunAt(sessions, subs, i).last;
    KernelResume.Call(Initialised(StoreAfter(sessions, subs[..i]), subs[i].plan).steps, last.wins, last.session.steps)
  }

  ghost function CallsOn(sessions: map<string, SessionState>, subs: seq<Submission>): seq<KernelResume.Call>
    requires StoreOk(sessions) && AllAccepted(subs)
  {
    seq(|subs|, i requires 0 <= i < |subs| => CallAt(sessions, subs, i))
  }

  /**
   What can be told before a call that makes its wins count: the audit log takes every
   success, and the call either cannot replan or runs an ordered plan one step at a time.
   */
  ghost predicate Careful(sub: Submission) {
    Logs(sub.world) && (NeverReplans(sub.cfg) || (OneAtATime(sub.cfg, sub.plan) && Workable(sub.plan)))
  }

  lemma CallKeepsContract(sessions: map<string, SessionState>, sub: Submission)
    requires StoreOk(sessions) && Accepted(sub) && Logs(sub.world)
    requires Careful(sub) || ExecuteRun(sub.cfg, sub.world, sessions, sub.plan).last.replanCount == 0
    ensures
      var last := ExecuteRun(sub.cfg, sub.world, sessions, sub.plan).last;
      CallContract(Initialised(sessions, sub.plan).steps, last.session.steps, last.wins)
  {
    StartIsSafe(sessions, sub.plan);
    hide Run, CallContract, Initialised, Logs, Workable;
    if Careful(sub) {
      CallIsAtMostOnce(sub.cfg, sub.world, sub.plan, Initialised(sessions, sub.plan));
    } else {
      CallWinsOnce(sub.cfg, sub.world, sub.plan, Initialised(sessions, sub.plan));
    }
  }

  lemma StoreOpens(sessions: map<string, SessionState>, subs: seq<Submission>, i: nat)
    requires StoreOk(sessions) && AllAccepted(subs) && 0 < i < |subs|
    requires subs[i].plan.sessionId == subs[i - 1].plan.sessionId
    ensures SuccessIds(CallAt(sessions, subs, i - 1).later) == SuccessIds(CallAt(sessions, subs, i).before)
  {
    hide ExecuteRun, Initialised;
    var before := StoreAfter(sessions, subs[..i]);
    assert subs[..i][..i - 1] == subs[..i - 1];
    assert before[subs[i].plan.sessionId] == RunAt(sessions, subs, i - 1).last.session;
    NextCallKeepsSteps(before, subs[i].plan);
  }

  /**
   Over any sequence of calls on one session, in worlds that log every success and from any
   store, when each call is careful or happens not to replan: no step id gets two
   successful tool calls, in the same call or in different ones, not even a step whose
   batch another step failed.
   */
  lemma NoStepIsWonTwiceInASession(sessions: map<string, SessionState>, subs: seq<Submission>)
    requires StoreOk(sessions) && AllAccepted(subs)
    requires forall i :: 0 < i < |subs| ==> subs[i].plan.sessionId == subs[i - 1].plan.sessionId
    requires forall i :: 0 <= i < |subs| ==>
      Logs(subs[i].world) && (Careful(subs[i]) || RunAt(sessions, subs, i).last.replanCount == 0)
    ensures Distinct(AllWins(CallsOn(sessions, subs)))
  {
    var calls := CallsOn(sessions, subs);
    hide CallAt, StoreAfter, Initialised, ExecuteRun, CallContract, SuccessIds, AllWins, CallsOn, RunAt, StoreOk, Careful, Logs;
    assert |calls| == |subs| && forall i :: 0 <= i < |subs| ==> calls[i] == CallAt(sessions, subs, i) by { CallsAre(sessions, subs); }
    forall i | 0 <= i < |calls| ensures CallContract(calls[i].before, calls[i].later, calls[i].wins) {
      CallAtKeepsContract(sessions, subs, i);
    }
    forall i | 0 < i < |calls| ensures SuccessIds(calls[i - 1].later) <= SuccessIds(calls[i].before) {
      StoreOpens(sessions, subs, i);
    }
    NoStepIsWonTwice(calls);
  }

  lemma CallsAre(sessions: map<string, SessionState>, subs: seq<Submission>)
    requires StoreOk(sessions) && AllAccepted(subs)
    ensures |CallsOn(sessions, subs)| == |subs|
    ensures forall i :: 0 <= i < |subs| ==> CallsOn(sessions, subs)[i] == CallAt(sessions, subs, i)
  {
  }

  lemma CallAtKeepsContract(sessions: map<string, SessionState>, subs: seq<Submission>, i: nat)
    requires StoreOk(sessions) && AllAccepted(subs) && i < |subs|
    requires Logs(subs[i].world) && (Careful(subs[i]) || RunAt(sessions, subs, i).last.replanCount == 0)
    ensures
      var call := CallAt(sessions, subs, i);
      CallContract(call.before, call.later, call.wins)
  {
    hide CallContract, Initialised, ExecuteRun, Careful, Logs;
    CallKeepsContract(StoreAfter(sessions, subs[..i]), subs[i]);
  }
}
