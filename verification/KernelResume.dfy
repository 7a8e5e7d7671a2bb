/** Resuming: no step is won twice over any number of calls without a replan, and a finished plan is free to resubmit. */
module KernelResume {
  import opened DependencyGraph
  import opened Plans
  import opened StateStore
  import opened StepRunner
  import opened WorkflowKernel
  import opened KernelTermination
  import opened KernelSafety

  lemma {:induction false} PendingUnique(steps: seq<PlanStep>, completed: set<string>)
    requires UniqueIds(steps)
    ensures UniqueIds(Pending(steps, completed))
  {
    if steps != [] {
      var n := |steps| - 1;
      PendingUnique(steps[..n], completed);
      var head := Pending(steps[..n], completed);
      forall i | 0 <= i < |head| ensures head[i].stepId != steps[n].stepId {
        assert head[i] in head;
        PendingIs(steps[..n], completed, head[i]);
      }
    }
  }

  lemma {:induction false} ReadyUnique(pending: seq<PlanStep>, completed: set<string>)
    requires UniqueIds(pending)
    ensures UniqueIds(Ready(pending, completed))
  {
    if pending != [] {
      var n := |pending| - 1;
      ReadyUnique(pending[..n], completed);
      var head := Ready(pending[..n], completed);
      forall i | 0 <= i < |head| ensures head[i].stepId != pending[n].stepId {
        assert head[i] in head;
        ReadyIs(pending[..n], completed, head[i]);
      }
    }
  }

  /** The steps of one batch have distinct ids, so their workers never share a step. */
  lemma BatchUnique(cfg: ExecConfig, s: ExecState)
    requires UniqueIds(s.plan.steps)
    ensures UniqueIds(BatchOf(cfg, s))
  {
    hide Pending, Ready;
    PendingUnique(s.plan.steps, s.completed);
    ReadyUnique(Pending(s.plan.steps, s.completed), s.completed);
  }

  ghost predicate NoneSucceeded(batch: seq<PlanStep>, m: map<string, StepState>) {
    forall i :: 0 <= i < |batch| ==> batch[i].stepId !in SuccessIds(m)
  }

  /** What a batch of distinct, unfinished steps leaves: reported implies stored, stored implies won. */
  lemma {:induction false} BatchStatus(cfg: ExecConfig, w: World, round: nat, plan: ExecutionPlan, batch: seq<PlanStep>,
                                       m: map<string, StepState>, i: nat)
    requires Registered(batch, m) && ResultsOk(m) && UniqueIds(batch) && NoneSucceeded(batch, m) && i < |batch|
    ensures
      var r, id := RunBatch(cfg, w, round, plan, batch, m), batch[i].stepId;
      && (r.results[i].success ==> r.steps[id].status == SUCCESS)
      && (r.steps[id].status == SUCCESS ==> id in r.wins)
      && (Logs(w) && id in r.wins ==> r.steps[id].status == SUCCESS)
      && (Saves(w) && r.steps[id].status == SUCCESS ==> r.results[i].success)
  {
    hide RunStep, RunOf, IdempotencyKey, ResultOk;
    var n := |batch| - 1;
    var before := RunBatch(cfg, w, round, plan, batch[..n], m);
    BatchResultsOk(cfg, w, round, plan, batch[..n], m);
    RunOfOutcome(cfg, w, round, plan, batch[n], before.steps);
    LastIsNew(batch);
    BatchElsewhere(cfg, w, round, plan, batch[..n], m, batch[n].stepId);
    BatchWinsAreIds(cfg, w, round, plan, batch[..n], m);
    if i < n {
      BatchStatus(cfg, w, round, plan, batch[..n], m, i);
    }
  }

  lemma LastIsNew(batch: seq<PlanStep>)
    requires UniqueIds(batch) && batch != []
    ensures batch[|batch| - 1].stepId !in StepIds(batch[..|batch| - 1])
  {
  }

  lemma {:induction false} BatchWinsAreIds(cfg: ExecConfig, w: World, round: nat, plan: ExecutionPlan, batch: seq<PlanStep>,
                                           m: map<string, StepState>)
    requires Registered(batch, m)
    ensures forall id :: id in RunBatch(cfg, w, round, plan, batch, m).wins ==> id in StepIds(batch)
  {
    hide RunStep, RunOf, IdempotencyKey;
    if batch != [] {
      var n := |batch| - 1;
      BatchWinsAreIds(cfg, w, round, plan, batch[..n], m);
      PrefixIds(batch, n);
      assert batch[n].stepId in StepIds(batch);
    }
  }

  lemma {:induction false} BatchWinsDistinct(cfg: ExecConfig, w: World, round: nat, plan: ExecutionPlan, batch: seq<PlanStep>,
                                             m: map<string, StepState>)
    requires Registered(batch, m) && UniqueIds(batch)
    ensures Distinct(RunBatch(cfg, w, round, plan, batch, m).wins)
  {
    hide RunStep, RunOf, IdempotencyKey;
    if batch != [] {
      var n := |batch| - 1;
      BatchWinsDistinct(cfg, w, round, plan, batch[..n], m);
      BatchWinsAreIds(cfg, w, round, plan, batch[..n], m);
      LastIsNew(batch);
      SnocDistinct(RunBatch(cfg, w, round, plan, batch[..n], m).wins, batch[n].stepId);
    }
  }

  lemma SnocDistinct(ids: seq<string>, id: string)
    requires Distinct(ids) && id !in ids
    ensures Distinct(ids + [id])
  {
  }

  /**
   What a call without a replan does: the steps it won are distinct, were not successes
   before, and are now; and no earlier success was touched.
   */
  ghost predicate CallContract(before: map<string, StepState>, later: map<string, StepState>, wins: seq<string>) {
    && Distinct(wins)
    && (forall id :: id in wins ==> id in SuccessIds(later) && id !in SuccessIds(before))
    && (forall id :: id in SuccessIds(before) ==> id in later && later[id] == before[id])
  }

  /** The loop invariant of a call that has not replanned: `completed_steps` is exactly the store's successes. */
  ghost predicate Resumed(before: map<string, StepState>, s: ExecState) {
    && Safe(s)
    && UniqueIds(s.plan.steps)
    && CallContract(before, s.session.steps, s.wins)
    && s.completed == SuccessIds(s.session.steps)
  }

  lemma BatchUnfinished(cfg: ExecConfig, s: ExecState)
    requires SuccessIds(s.session.steps) <= s.completed
    ensures NoneSucceeded(BatchOf(cfg, s), s.session.steps)
  {
    var batch := BatchOf(cfg, s);
    hide BatchOf;
    forall i | 0 <= i < |batch| ensures batch[i].stepId !in SuccessIds(s.session.steps) {
      BatchIs(cfg, s, i);
    }
  }

  /** What a batch does to the store's successes: it adds some of its own steps and touches no other. */
  ghost predicate BatchAdds(m: map<string, StepState>, batch: seq<PlanStep>, run: BatchRun)
    requires |batch| == |run.results|
  {
    && (forall id :: id in SuccessIds(m) ==> id in run.steps && run.steps[id] == m[id])
    && (forall id :: id in SuccessIds(run.steps) ==> id in SuccessIds(m) || id in StepIds(batch))
    && (forall i :: 0 <= i < |batch| ==>
          batch[i].stepId in run.steps && (run.results[i].success ==> run.steps[batch[i].stepId].status == SUCCESS))
  }

  /** What it wins: steps that were no successes, each once. */
  ghost predicate BatchOnce(m: map<string, StepState>, run: BatchRun) {
    Distinct(run.wins) && forall id :: id in run.wins ==> id in SuccessIds(run.steps) && id !in SuccessIds(m)
  }

  lemma BatchWinsOnce(cfg: ExecConfig, w: World, s: ExecState)
    requires Registered(s.plan.steps, s.session.steps) && ResultsOk(s.session.steps) && UniqueIds(s.plan.steps)
    requires NoneSucceeded(BatchOf(cfg, s), s.session.steps)
    ensures BatchAdds(s.session.steps, BatchOf(cfg, s), BatchRunOf(cfg, w, s))
    ensures Logs(w) ==> BatchOnce(s.session.steps, BatchRunOf(cfg, w, s))
    ensures Saves(w) ==> forall i :: 0 <= i < |BatchOf(cfg, s)| && !BatchRunOf(cfg, w, s).results[i].success ==>
              BatchOf(cfg, s)[i].stepId !in SuccessIds(BatchRunOf(cfg, w, s).steps)
  {
    var batch, run, m := BatchOf(cfg, s), BatchRunOf(cfg, w, s), s.session.steps;
    BatchIsRegistered(cfg, s);
    BatchUnique(cfg, s);
    hide BatchOf, RunBatch;
    BatchWinsDistinct(cfg, w, s.round, s.plan, batch, m);
    BatchWinsAreIds(cfg, w, s.round, s.plan, batch, m);
    forall i | 0 <= i < |batch| ensures StatusTells(w, batch[i].stepId, run, run.results[i].success) {
      BatchStatus(cfg, w, s.round, s.plan, batch, m, i);
    }
    forall id | id in m && id !in StepIds(batch) ensures run.steps[id] == m[id] {
      BatchElsewhere(cfg, w, s.round, s.plan, batch, m, id);
    }
    hide Logs, Saves, ResultsOk;
    AssembleOnce(w, m, batch, run);
  }

  ghost predicate StatusTells(w: World, id: string, run: BatchRun, success: bool) {
    && id in run.steps
    && (success ==> run.steps[id].status == SUCCESS)
    && (Logs(w) && id in run.wins ==> run.steps[id].status == SUCCESS)
    && (Saves(w) && run.steps[id].status == SUCCESS ==> success)
  }

  lemma AssembleOnce(w: World, m: map<string, StepState>, batch: seq<PlanStep>, run: BatchRun)
    requires Registered(batch, m) && NoneSucceeded(batch, m) && |batch| == |run.results|
    requires run.steps.Keys == m.Keys && Distinct(run.wins)
    requires forall id :: id in run.wins ==> id in StepIds(batch)
    requires forall i :: 0 <= i < |batch| ==> StatusTells(w, batch[i].stepId, run, run.results[i].success)
    requires forall id :: id in m && id !in StepIds(batch) ==> run.steps[id] == m[id]
    ensures BatchAdds(m, batch, run)
    ensures Logs(w) ==> BatchOnce(m, run)
    ensures Saves(w) ==> forall i :: 0 <= i < |batch| && !run.results[i].success ==> batch[i].stepId !in SuccessIds(run.steps)
  {
    hide Logs, Saves;
    forall id | id in run.wins && Logs(w) ensures id in SuccessIds(run.steps) && id !in SuccessIds(m) {
      var i :| 0 <= i < |batch| && batch[i].stepId == id;
      assert StatusTells(w, batch[i].stepId, run, run.results[i].success);
    }
    forall id | id in StepIds(batch) ensures id !in SuccessIds(m) {
      var i :| 0 <= i < |batch| && batch[i].stepId == id;
    }
  }

  lemma ContractExtends(before: map<string, StepState>, m: map<string, StepState>, wins: seq<string>,
                        batch: seq<PlanStep>, run: BatchRun)
    requires |batch| == |run.results|
    requires CallContract(before, m, wins) && BatchAdds(m, batch, run) && BatchOnce(m, run)
    ensures CallContract(before, run.steps, wins + run.wins)
  {
    forall i, j | 0 <= i < j < |wins + run.wins| ensures (wins + run.wins)[i] != (wins + run.wins)[j] {
      if i < |wins| <= j {
        assert wins[i] in wins && run.wins[j - |wins|] in run.wins;
      }
    }
    forall id | id in wins + run.wins ensures id in SuccessIds(run.steps) && id !in SuccessIds(before) {
      if id in wins { assert id in SuccessIds(m); }
    }
  }

  lemma AllWon(m: map<string, StepState>, batch: seq<PlanStep>, run: BatchRun)
    requires |batch| == |run.results| && BatchAdds(m, batch, run)
    requires forall i :: 0 <= i < |batch| ==> run.results[i].success
    ensures SuccessIds(run.steps) == SuccessIds(m) + StepIds(batch)
  {
  }

  /** One pass of the loop without a replan keeps the contract of the call. */
  lemma RoundKeepsResumed(cfg: ExecConfig, w: World, before: map<string, StepState>, s: ExecState)
    requires Logs(w) && Resumed(before, s)
    ensures
      match Round(cfg, w, s)
      case Continue(t) => t.replanCount == s.replanCount + 1 || (t.replanCount == s.replanCount && t.plan == s.plan && Resumed(before, t))
      case Stop(_, t) => t.replanCount == s.replanCount && t.plan == s.plan && CallContract(before, t.session.steps, t.wins)
  {
    hide Round, BatchOf, BatchRunOf, Pending, Ready;
    RoundCases(cfg, w, s);
    RoundKeepsSafe(cfg, w, s);
    if Works(cfg, w, s) {
      var batch, run := BatchOf(cfg, s), BatchRunOf(cfg, w, s);
      BatchUnfinished(cfg, s);
      BatchWinsOnce(cfg, w, s);
      hide Safe, BatchOnce, BatchAdds, CallContract, ReplanFor, Logs;
      ContractExtends(before, s.session.steps, s.wins, batch, run);
      if FirstFailure(run.results) == |batch| {
        assert batch[..|batch|] == batch;
        AllWon(s.session.steps, batch, run);
      }
    }
  }

  lemma {:induction false} ResumedAlways(cfg: ExecConfig, w: World, before: map<string, StepState>, s: ExecState, n: nat)
    requires Logs(w) && Resumed(before, s) && s.replanCount == 0
    ensures StateAt(cfg, w, s, n).Some? ==>
      var x := StateAt(cfg, w, s, n).value;
      x.replanCount == 0 ==> Resumed(before, x) && x.plan == s.plan
  {
    hide Round, CallContract, Logs;
    if n > 0 {
      ResumedAlways(cfg, w, before, s, n - 1);
      if StateAt(cfg, w, s, n - 1).Some? {
        var x := StateAt(cfg, w, s, n - 1).value;
        RoundAdvances(cfg, w, x);
        if x.replanCount == 0 {
          RoundKeepsResumed(cfg, w, before, x);
        }
      }
    }
  }

  /** Where `execute` enters its loop: the recovery point's ids are the store's successes. */
  function StartState(plan: ExecutionPlan, session: SessionState): ExecState {
    ExecState(session.(status := RUNNING), plan, SuccessIds(session.steps), 0, [], [], 0, 0, [])
  }

  /** One call of `execute` that does not replan wins each step at most once, and none that was won before. */
  lemma CallWinsOnce(cfg: ExecConfig, w: World, plan: ExecutionPlan, session: SessionState)
    requires Safe(StartState(plan, session)) && Capped(cfg, StartState(plan, session)) && UniqueIds(plan.steps)
    requires Logs(w) && Run(cfg, w, StartState(plan, session)).last.replanCount == 0
    ensures
      var last := Run(cfg, w, StartState(plan, session)).last;
      last.plan == plan && CallContract(session.steps, last.session.steps, last.wins)
  {
    hide Round, Run, CallContract, Logs;
    var s := StartState(plan, session);
    EmptyContract(session.steps);
    var n := RunStopsSomewhere(cfg, w, s);
    ResumedAlways(cfg, w, session.steps, s, n);
    RoundAdvances(cfg, w, StateAt(cfg, w, s, n).value);
    RoundKeepsResumed(cfg, w, session.steps, StateAt(cfg, w, s, n).value);
  }

  lemma EmptyContract(m: map<string, StepState>)
    ensures CallContract(m, m, [])
  {
  }

  /** One call on a session, as the store sees it. */
  datatype Call = Call(before: map<string, StepState>, wins: seq<string>, later: map<string, StepState>)

  /** Calls in order: each keeps its contract, and starts from a store that kept the last one's successes. */
  ghost predicate CallSequence(calls: seq<Call>) {
    && (forall i :: 0 <= i < |calls| ==> CallContract(calls[i].before, calls[i].later, calls[i].wins))
    && (forall i :: 0 < i < |calls| ==> SuccessIds(calls[i - 1].later) <= SuccessIds(calls[i].before))
  }

  function AllWins(calls: seq<Call>): seq<string> {
    if calls == [] then [] else AllWins(calls[..|calls| - 1]) + calls[|calls| - 1].wins
  }

  /** Over any sequence of calls without a replan, each step id is won at most once. */
  lemma {:induction false} NoStepIsWonTwice(calls: seq<Call>)
    requires CallSequence(calls)
    ensures Distinct(AllWins(calls))
    ensures calls != [] ==> forall id :: id in AllWins(calls) ==> id in SuccessIds(calls[|calls| - 1].later)
  {
    if calls != [] {
      var n := |calls| - 1;
      var earlier, call := calls[..n], calls[n];
      NoStepIsWonTwice(earlier);
      forall id | id in AllWins(earlier) ensures id in SuccessIds(call.before) && id in SuccessIds(call.later) {
        assert earlier != [] && earlier[n - 1] == calls[n - 1];
      }
      var all := AllWins(earlier) + call.wins;
      forall i, j | 0 <= i < j < |all| ensures all[i] != all[j] {
        if i < |AllWins(earlier)| <= j {
          assert all[i] in AllWins(earlier) && all[j] in call.wins;
        }
      }
    }
  }

  /** `init_session` hands the next call a store that keeps every step as the last call left it. */
  lemma NextCallKeepsSteps(sessions: map<string, SessionState>, plan: ExecutionPlan)
    requires plan.sessionId in sessions && SequenceOk(sessions[plan.sessionId]) && ResultsOk(sessions[plan.sessionId].steps)
    ensures
      var session := Initialised(sessions, plan);
      && (forall id :: id in sessions[plan.sessionId].steps ==> id in session.steps && session.steps[id] == sessions[plan.sessionId].steps[id])
      && SuccessIds(session.steps) == SuccessIds(sessions[plan.sessionId].steps)
      && Safe(StartState(plan, session))
  {
    var start := Rejoin(sessions, plan);
    InsertedKeeps(start, plan.steps);
    InsertedSteps(start, plan.steps);
    hide InsertSteps, Initialised, SequenceOk, ResultsOk, SuccessIds;
  }

  /** A later call upserts its plan into the session as it is. */
  lemma Rejoin(sessions: map<string, SessionState>, plan: ExecutionPlan) returns (start: SessionState)
    requires plan.sessionId in sessions && SequenceOk(sessions[plan.sessionId])
    ensures start.steps == sessions[plan.sessionId].steps && SequenceOk(start)
    ensures Initialised(sessions, plan) == InsertSteps(start, plan.steps)
  {
    var session := sessions[plan.sessionId];
    start := session.(
      requestId := plan.requestId,
      traceId := if plan.traceId != "" then plan.traceId else session.traceId,
      planVersion := Max(session.planVersion, plan.planVersion));
    hide InsertSteps;
  }

  /** Registering steps adds no success and no bad result. */
  lemma InsertedKeeps(session: SessionState, steps: seq<PlanStep>)
    requires ResultsOk(session.steps)
    ensures ResultsOk(InsertSteps(session, steps).steps)
    ensures SuccessIds(InsertSteps(session, steps).steps) == SuccessIds(session.steps)
  {
    InsertedSteps(session, steps);
    hide InsertSteps, SequenceOk;
    forall id | id in InsertSteps(session, steps).steps && id !in session.steps
      ensures InsertSteps(session, steps).steps[id].status == PENDING
    {
      InsertedStepsAreFresh(session, steps, id);
    }
  }

  /** Resubmitting a plan whose steps are all successes stops at once: no tool call, no step touched. */
  lemma FinishedPlanIsFree(cfg: ExecConfig, w: World, plan: ExecutionPlan, session: SessionState)
    requires Registered(plan.steps, session.steps) && Capped(cfg, StartState(plan, session))
    requires StepIds(plan.steps) <= SuccessIds(session.steps)
    ensures
      var last := Run(cfg, w, StartState(plan, session)).last;
      last.calls == 0 && last.session.steps == session.steps
  {
    var s := StartState(plan, session);
    if Pending(plan.steps, s.completed) != [] {
      var step := Pending(plan.steps, s.completed)[0];
      PendingIs(plan.steps, s.completed, step);
    }
  }
}
