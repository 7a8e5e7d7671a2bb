/** What a call of `execute` returns: an account of every step it ran, and the reason it ended. */
module KernelResults {
  import opened Wrappers
  import opened Plans
  import opened StateStore
  import opened StepRunner
  import opened Replanner
  import opened WorkflowKernel
  import opened KernelTermination
  import opened KernelSafety
  import opened KernelSchedule
  import opened KernelResume
  import opened Executor

  /** The store's steps when step `i` of the batch of this round begins: the steps before it have run. */
  ghost function StoreBefore(cfg: ExecConfig, w: World, x: ExecState, i: nat): (m: map<string, StepState>)
    requires Registered(x.plan.steps, x.session.steps) && i <= |BatchOf(cfg, x)|
    ensures m.Keys == x.session.steps.Keys
  {
    BatchIsRegistered(cfg, x);
    RunBatch(cfg, w, x.round, x.plan, BatchOf(cfg, x)[..i], x.session.steps).steps
  }

  /** The record tells which step ran `i`-th in this round, under which plan version, and with what result. */
  ghost predicate TellsOf(cfg: ExecConfig, w: World, x: ExecState, i: nat, record: StepRecord)
    requires Registered(x.plan.steps, x.session.steps) && i < |BatchOf(cfg, x)|
  {
    var step, m := BatchOf(cfg, x)[i], StoreBefore(cfg, w, x, i);
    && record.stepId == step.stepId && record.toolId == step.toolId && record.planVersion == x.plan.planVersion
    && step in x.plan.steps && step.stepId in m
    && record.result == RunStep(m[step.stepId], IdempotencyKey(x.plan.requestId, step.stepId, x.plan.planVersion),
                                AttemptsOf(w, x.round, step.stepId), cfg.maxRetryAttempts + 1).result
  }

  /**
   A round that runs a batch reports its steps in plan order up to the first failure, that
   one included, and all of them when none fails; any other round reports nothing.
   */
  ghost predicate Reports(cfg: ExecConfig, w: World, x: ExecState, records: seq<StepRecord>)
    requires Registered(x.plan.steps, x.session.steps)
  {
    if !Works(cfg, w, x) then records == []
    else
      && |records| <= |BatchOf(cfg, x)|
      && (forall i :: 0 <= i < |records| ==> TellsOf(cfg, w, x, i, records[i]))
      && (forall i :: 0 <= i < |records| - 1 ==> records[i].result.success)
      && (|records| < |BatchOf(cfg, x)| ==> EndsInFailure(records))
  }

  predicate EndsInFailure(records: seq<StepRecord>) {
    records != [] && !records[|records| - 1].result.success
  }

  /** The steps with a successful record. */
  function Successes(records: seq<StepRecord>): set<string> {
    set r | r in records && r.result.success :: r.stepId
  }

  function Flatten(parts: seq<seq<StepRecord>>): seq<StepRecord> {
    if parts == [] then [] else Flatten(parts[..|parts| - 1]) + parts[|parts| - 1]
  }

  lemma {:induction false} ResultAt(cfg: ExecConfig, w: World, round: nat, plan: ExecutionPlan, batch: seq<PlanStep>, i: nat, n: nat,
                                    m: map<string, StepState>)
    requires Registered(batch, m) && i < n <= |batch|
    ensures
      var before := RunBatch(cfg, w, round, plan, batch[..i], m).steps;
      RunBatch(cfg, w, round, plan, batch[..n], m).results[i] == RunOf(cfg, w, round, plan, batch[i], before).result
    decreases n
  {
    hide RunOf, RunBatch;
    BatchUnfolds(cfg, w, round, plan, batch, n, m);
    if i < n - 1 {
      ResultAt(cfg, w, round, plan, batch, i, n - 1, m);
    }
  }

  lemma RecordTells(cfg: ExecConfig, w: World, x: ExecState, i: nat)
    requires Registered(x.plan.steps, x.session.steps) && i < |BatchOf(cfg, x)|
    ensures
      var step := BatchOf(cfg, x)[i];
      TellsOf(cfg, w, x, i, StepRecord(step.stepId, step.toolId, x.plan.planVersion, BatchRunOf(cfg, w, x).results[i]))
  {
    hide RunStep, RunBatch, BatchOf, IdempotencyKey, AttemptsOf;
    BatchIsRegistered(cfg, x);
    BatchIs(cfg, x, i);
    ResultAt(cfg, w, x.round, x.plan, BatchOf(cfg, x), i, |BatchOf(cfg, x)|, x.session.steps);
    assert BatchOf(cfg, x)[..|BatchOf(cfg, x)|] == BatchOf(cfg, x);
  }

  /** The first `m` records of a batch, all but the last known to be successes, are what the round reports. */
  lemma RecordsReport(cfg: ExecConfig, w: World, x: ExecState, m: nat)
    requires Registered(x.plan.steps, x.session.steps) && Works(cfg, w, x) && m <= |BatchOf(cfg, x)|
    requires
      var k := FirstFailure(BatchRunOf(cfg, w, x).results);
      m == if k == |BatchOf(cfg, x)| then k else k + 1
    ensures
      var batch, run := BatchOf(cfg, x), BatchRunOf(cfg, w, x);
      var records := Records(x.plan, batch[..m], run.results[..m]);
      && Reports(cfg, w, x, records)
      && Successes(records) == StepIds(batch[..FirstFailure(run.results)])
      && (EndsInFailure(records) <==> FirstFailure(run.results) < |batch|)
      && (EndsInFailure(records) ==> records[m - 1].result == run.results[FirstFailure(run.results)])
  {
    hide BatchOf, BatchRunOf, TellsOf, Works, Registered;
    var batch, run := BatchOf(cfg, x), BatchRunOf(cfg, w, x);
    var k, records := FirstFailure(run.results), Records(x.plan, batch[..m], run.results[..m]);
    forall i | 0 <= i < m ensures TellsOf(cfg, w, x, i, records[i]) {
      RecordTells(cfg, w, x, i);
    }
    SuccessesAre(x.plan, batch, run.results, k, m);
  }

  lemma SuccessesAre(plan: ExecutionPlan, batch: seq<PlanStep>, results: seq<ToolResult>, k: nat, m: nat)
    requires |batch| == |results| && k <= m <= |batch| && m <= k + 1
    requires (forall i :: 0 <= i < k ==> results[i].success) && (k < m ==> !results[k].success)
    ensures Successes(Records(plan, batch[..m], results[..m])) == StepIds(batch[..k])
  {
    var records := Records(plan, batch[..m], results[..m]);
    forall i | 0 <= i < k ensures batch[i].stepId in Successes(records) {
      assert records[i].result.success && records[i] in records;
    }
    forall id | id in Successes(records) ensures id in StepIds(batch[..k]) {
      var r :| r in records && r.result.success && r.stepId == id;
      var i :| 0 <= i < |records| && records[i] == r;
      assert batch[..k][i].stepId == id;
    }
  }

  /** What a pass leaves behind, told from what it reports: results, completed steps, and how it ends. */
  ghost predicate AddsUp(x: ExecState, r: RoundOutcome, records: seq<StepRecord>, works: bool) {
    match r
    case Continue(t) => t.results == x.results + records && t.completed == x.completed + Successes(records)
    case Stop(ending, t) =>
      && t.results == x.results + records && t.completed == x.completed + Successes(records)
      && (ending.StepFailure? <==> works)
      && (works ==> EndsInFailure(records) && ending.error == records[|records| - 1].result.error)
  }

  lemma SettleReports(cfg: ExecConfig, w: World, x: ExecState) returns (records: seq<StepRecord>)
    requires Registered(x.plan.steps, x.session.steps) && Works(cfg, w, x)
    ensures Reports(cfg, w, x, records)
    ensures AddsUp(x, Settle(cfg, x, BatchOf(cfg, x), BatchRunOf(cfg, w, x)), records, true)
  {
    hide BatchOf, BatchRunOf, ReplanFor, Reports, Records, Works, Registered, Successes, Upserted;
    var batch, run := BatchOf(cfg, x), BatchRunOf(cfg, w, x);
    var k := FirstFailure(run.results);
    var m := if k == |batch| then k else k + 1;
    RecordsReport(cfg, w, x, m);
    assert k == |batch| ==> batch[..k] == batch && run.results[..k] == run.results;
    records := Records(x.plan, batch[..m], run.results[..m]);
  }

  lemma IdleReports(cfg: ExecConfig, w: World, x: ExecState)
    requires Registered(x.plan.steps, x.session.steps) && !Works(cfg, w, x)
    ensures Reports(cfg, w, x, []) && Successes([]) == {}
  {
  }

  /** One pass of the loop reports what it ran, and counts as completed just what it reports as a success. */
  lemma RoundReports(cfg: ExecConfig, w: World, x: ExecState) returns (records: seq<StepRecord>)
    requires Registered(x.plan.steps, x.session.steps)
    ensures Reports(cfg, w, x, records) && AddsUp(x, Round(cfg, w, x), records, Works(cfg, w, x))
  {
    RoundCases(cfg, w, x);
    hide Round, Settle, BatchOf, BatchRunOf, ForMissingDependency, Pending, Ready, Reports, Works, Registered;
    if Works(cfg, w, x) {
      records := SettleReports(cfg, w, x);
    } else {
      IdleReports(cfg, w, x);
      records := [];
    }
  }

  /** Part `j` is what round `j` of the run reports. */
  ghost predicate Account(cfg: ExecConfig, w: World, s: ExecState, parts: seq<seq<StepRecord>>)
    requires Registered(s.plan.steps, s.session.steps)
  {
    forall j :: 0 <= j < |parts| ==> StateAt(cfg, w, s, j).Some? && Reports(cfg, w, StateAt(cfg, w, s, j).value, parts[j])
  }

  lemma FlattenSnoc(parts: seq<seq<StepRecord>>, records: seq<StepRecord>)
    ensures Flatten(parts + [records]) == Flatten(parts) + records
    ensures Successes(Flatten(parts + [records])) == Successes(Flatten(parts)) + Successes(records)
  {
    assert (parts + [records])[..|parts|] == parts;
  }

  lemma OneMoreRound(cfg: ExecConfig, w: World, s: ExecState, parts: seq<seq<StepRecord>>, records: seq<StepRecord>)
    requires Registered(s.plan.steps, s.session.steps) && Account(cfg, w, s, parts)
    requires StateAt(cfg, w, s, |parts|).Some? && Reports(cfg, w, StateAt(cfg, w, s, |parts|).value, records)
    ensures Account(cfg, w, s, parts + [records])
  {
    hide StateAt, Reports, Registered;
    forall j | 0 <= j < |parts| + 1
      ensures StateAt(cfg, w, s, j).Some? && Reports(cfg, w, StateAt(cfg, w, s, j).value, (parts + [records])[j])
    {
      if j < |parts| {
        assert (parts + [records])[j] == parts[j];
      }
    }
  }

  /** The results and the completed steps at every loop head are those of the rounds before it. */
  lemma {:induction false} RunReports(cfg: ExecConfig, w: World, s: ExecState, n: nat) returns (parts: seq<seq<StepRecord>>)
    requires Registered(s.plan.steps, s.session.steps) && StateAt(cfg, w, s, n).Some?
    ensures |parts| == n && Account(cfg, w, s, parts)
    ensures StateAt(cfg, w, s, n).value.results == s.results + Flatten(parts)
    ensures StateAt(cfg, w, s, n).value.completed == s.completed + Successes(Flatten(parts))
  {
    hide Round, Reports, Registered, Works, Account, Successes, Flatten;
    if n == 0 {
      NothingYet(cfg, w, s);
      parts := [];
    } else {
      var before := RunReports(cfg, w, s, n - 1);
      var x := StateAt(cfg, w, s, n - 1).value;
      var records := RoundReports(cfg, w, x);
      FlattenSnoc(before, records);
      OneMoreRound(cfg, w, s, before, records);
      parts := before + [records];
    }
  }

  lemma NothingYet(cfg: ExecConfig, w: World, s: ExecState)
    requires Registered(s.plan.steps, s.session.steps)
    ensures Account(cfg, w, s, []) && Flatten([]) == [] && Successes(Flatten([])) == {}
  {
  }

  /** The account of a whole run, its last round included. */
  lemma RunAccount(cfg: ExecConfig, w: World, s: ExecState) returns (parts: seq<seq<StepRecord>>)
    requires Registered(s.plan.steps, s.session.steps) && Capped(cfg, s)
    ensures |parts| >= 1 && Account(cfg, w, s, parts) && StopsAt(cfg, w, s, |parts| - 1, Run(cfg, w, s))
    ensures
      var run, records := Run(cfg, w, s), Flatten(parts);
      && run.last.results == s.results + records && run.last.completed == s.completed + Successes(records)
      && (run.ending.StepFailure? ==>
            EndsInFailure(records) && run.ending.error == records[|records| - 1].result.error)
  {
    hide Round, Run, Reports, Registered, Works, Account, Successes, Flatten;
    var n := RunStopsSomewhere(cfg, w, s);
    var before := RunReports(cfg, w, s, n);
    var records := RoundReports(cfg, w, StateAt(cfg, w, s, n).value);
    FlattenSnoc(before, records);
    OneMoreRound(cfg, w, s, before, records);
    parts := before + [records];
  }

  /**
   The step results of a call are an exact account of it: round after round, each step of
   the batch in plan order with the result it got, up to the batch's first failure. The
   steps completed in the call are those with a successful record, and a call that fails
   on a step ends its results with that step and returns its error.
   */
  lemma CallReports(cfg: ExecConfig, w: World, sessions: map<string, SessionState>, plan: ExecutionPlan)
    returns (parts: seq<seq<StepRecord>>)
    requires StoreOk(sessions) && cfg.maxConcurrency >= 1 && plan.graphLimits.maxParallel >= 1
    ensures Registered(plan.steps, StartState(plan, Initialised(sessions, plan)).session.steps)
    ensures
      var start, run := StartState(plan, Initialised(sessions, plan)), ExecuteRun(cfg, w, sessions, plan);
      var result := ResultOf(run.ending, run.last);
      && |parts| >= 1 && Account(cfg, w, start, parts) && StopsAt(cfg, w, start, |parts| - 1, run)
      && result.stepResults == Flatten(parts)
      && run.last.completed == SuccessIds(Initialised(sessions, plan).steps) + Successes(result.stepResults)
      && (run.ending.StepFailure? ==>
            && !result.success && EndsInFailure(result.stepResults)
            && result.error == result.stepResults[|result.stepResults| - 1].result.error)
  {
    hide Run, Registered, Account, Successes, Flatten, Safe, Initialised, SuccessIds, StoreOk, StopsAt, SequenceOk, ResultsOk;
    StartIsSafe(sessions, plan);
    SafeSession(StartState(plan, Initialised(sessions, plan)));
    parts := RunAccount(cfg, w, StartState(plan, Initialised(sessions, plan)));
  }

  /** Where ids are unique, each step of a batch starts from what the store held when the round began. */
  lemma StepsStartAtTheHead(cfg: ExecConfig, w: World, x: ExecState, i: nat)
    requires Registered(x.plan.steps, x.session.steps) && UniqueIds(x.plan.steps) && i < |BatchOf(cfg, x)|
    ensures BatchOf(cfg, x)[i].stepId in x.session.steps
    ensures StoreBefore(cfg, w, x, i)[BatchOf(cfg, x)[i].stepId] == x.session.steps[BatchOf(cfg, x)[i].stepId]
  {
    BatchIsRegistered(cfg, x);
    BatchUnique(cfg, x);
    hide BatchOf, RunBatch;
    var batch := BatchOf(cfg, x);
    assert batch[i].stepId !in StepIds(batch[..i]);
    BatchElsewhere(cfg, w, x.round, x.plan, batch[..i], x.session.steps, batch[i].stepId);
  }

  ghost predicate AllDone(x: ExecState) {
    forall i :: 0 <= i < |x.plan.steps| ==> x.plan.steps[i].stepId in x.completed
  }

  /** Some step that is not completed has only completed dependencies. */
  ghost predicate SomeReady(x: ExecState) {
    exists i :: 0 <= i < |x.plan.steps| && x.plan.steps[i].stepId !in x.completed
      && forall d :: d in x.plan.steps[i].dependsOn ==> d in x.completed
  }

  lemma PendingTells(x: ExecState)
    ensures Pending(x.plan.steps, x.completed) == [] <==> AllDone(x)
    ensures Ready(Pending(x.plan.steps, x.completed), x.completed) != [] <==> SomeReady(x)
  {
    hide Pending, Ready;
    var pending := Pending(x.plan.steps, x.completed);
    var ready := Ready(pending, x.completed);
    forall i | 0 <= i < |x.plan.steps|
      ensures x.plan.steps[i] in pending <==> x.plan.steps[i].stepId !in x.completed
      ensures x.plan.steps[i] in ready <==> x.plan.steps[i] in pending && AllIn(x.plan.steps[i].dependsOn, x.completed)
    {
      PendingIs(x.plan.steps, x.completed, x.plan.steps[i]);
      ReadyIs(pending, x.completed, x.plan.steps[i]);
    }
    if pending != [] {
      PendingIs(x.plan.steps, x.completed, pending[0]);
      assert pending[0] in pending;
    }
    if ready != [] {
      ReadyIs(pending, x.completed, ready[0]);
      PendingIs(x.plan.steps, x.completed, ready[0]);
      assert ready[0] in ready;
    }
  }

  /** A run that stops in a round that runs a batch stops on that batch's failure. */
  lemma FailureTells(cfg: ExecConfig, w: World, x: ExecState)
    requires Registered(x.plan.steps, x.session.steps) && Works(cfg, w, x)
    ensures
      match Settle(cfg, x, BatchOf(cfg, x), BatchRunOf(cfg, w, x))
      case Continue(_) => true
      case Stop(ending, last) =>
        && ending.StepFailure? && last.session.status == FAILED && last.plan == x.plan && last.history == x.history
        && EndsInFailure(last.results) && ending.error == last.results[|last.results| - 1].result.error
  {
    var records := SettleReports(cfg, w, x);
    hide BatchOf, BatchRunOf, ReplanFor, Reports, Works, Registered, Records, Upserted;
  }

  /** The loop's tests, in their order, and what a round that stops there answers. */
  lemma StopBranches(cfg: ExecConfig, w: World, x: ExecState)
    requires Registered(x.plan.steps, x.session.steps) && Round(cfg, w, x).Stop?
    ensures
      Round(cfg, w, x) ==
        if w.cancelled(x.round) then StopWith(SessionCancelled, CANCELED, x)
        else if w.timedOut(x.round) then StopWith(SessionTimeout, FAILED, x)
        else if AllDone(x) then StopWith(Succeeded, SUCCESS, x)
        else if !SomeReady(x) then StopWith(DependencyBlocked, FAILED, x)
        else Settle(cfg, x, BatchOf(cfg, x), BatchRunOf(cfg, w, x))
    ensures !w.cancelled(x.round) && !w.timedOut(x.round) && !AllDone(x) && SomeReady(x) ==> Works(cfg, w, x)
  {
    hide Round, Pending, Ready, AllDone, SomeReady, Registered, BatchOf, BatchRunOf, Settle, Adopt, StopWith, ForMissingDependency;
    PendingTells(x);
    RoundBranches(cfg, w, x);
  }

  /**
   Why a call ended, from the state at its last loop head: cancellation goes before the
   timeout, the timeout before success, success before a blocked graph; and a step's own
   failure is all that is left. Each has its code and leaves its status on the session.
   */
  lemma EndingTells(cfg: ExecConfig, w: World, x: ExecState)
    requires Registered(x.plan.steps, x.session.steps) && Round(cfg, w, x).Stop?
    ensures
      var r := Round(cfg, w, x);
      var result, status := ResultOf(r.ending, r.last), r.last.session.status;
      && (result.success <==> !w.cancelled(x.round) && !w.timedOut(x.round) && AllDone(x))
      && result.planVersion == x.plan.planVersion && result.replanHistory == x.history
      && status == (if w.cancelled(x.round) then CANCELED else if result.success then SUCCESS else FAILED)
      && (if w.cancelled(x.round) then result.error == Some(ErrorInfo(Some("session_cancelled"), None))
          else if w.timedOut(x.round) then result.error == Some(ErrorInfo(Some("session_timeout"), None))
          else if AllDone(x) then result.error == None
          else if !SomeReady(x) then result.error == Some(ErrorInfo(Some("dependency_blocked"), None))
          else EndsInFailure(result.stepResults) && result.error == result.stepResults[|result.stepResults| - 1].result.error)
  {
    hide Round, Settle, AllDone, SomeReady, Registered, BatchOf, BatchRunOf, Works;
    StopBranches(cfg, w, x);
    if !w.cancelled(x.round) && !w.timedOut(x.round) && !AllDone(x) && SomeReady(x) {
      FailureTells(cfg, w, x);
    }
  }

  /** Not completed, with all dependencies completed. */
  predicate Runnable(x: ExecState, i: nat)
    requires i < |x.plan.steps|
  {
    x.plan.steps[i].stepId !in x.completed && forall d :: d in x.plan.steps[i].dependsOn ==> d in x.completed
  }

  /** The runnable steps listed before step `j`. */
  function RunnableBefore(x: ExecState, j: nat): nat
    requires j <= |x.plan.steps|
  {
    if j == 0 then 0 else RunnableBefore(x, j - 1) + if Runnable(x, j - 1) then 1 else 0
  }

  function ReadyUpTo(x: ExecState, j: nat): seq<PlanStep>
    requires j <= |x.plan.steps|
  {
    Ready(Pending(x.plan.steps[..j], x.completed), x.completed)
  }

  lemma ReadyUpToUnfolds(x: ExecState, j: nat)
    requires j < |x.plan.steps|
    ensures ReadyUpTo(x, j + 1) == ReadyUpTo(x, j) + if Runnable(x, j) then [x.plan.steps[j]] else []
  {
    var steps, step := x.plan.steps, x.plan.steps[j];
    var pending := Pending(steps[..j], x.completed);
    PendingUnfolds(steps, j, x.completed);
    if step.stepId in x.completed {
      assert Pending(steps[..j + 1], x.completed) == pending;
    } else {
      assert Pending(steps[..j + 1], x.completed) == pending + [step];
      ReadySnoc(pending, step, x.completed);
      assert AllIn(step.dependsOn, x.completed) <==> Runnable(x, j);
    }
  }

  lemma PendingUnfolds(steps: seq<PlanStep>, j: nat, completed: set<string>)
    requires j < |steps|
    ensures Pending(steps[..j + 1], completed)
      == Pending(steps[..j], completed) + if steps[j].stepId in completed then [] else [steps[j]]
  {
    assert steps[..j + 1][..j] == steps[..j];
  }

  lemma ReadySnoc(pending: seq<PlanStep>, step: PlanStep, completed: set<string>)
    ensures Ready(pending + [step], completed)
      == Ready(pending, completed) + if AllIn(step.dependsOn, completed) then [step] else []
  {
    assert (pending + [step])[..|pending|] == pending;
  }

  lemma {:induction false} ReadyPrefix(x: ExecState, j: nat, n: nat)
    requires j <= n <= |x.plan.steps|
    ensures ReadyUpTo(x, j) <= ReadyUpTo(x, n) && |ReadyUpTo(x, n)| == RunnableBefore(x, n)
    decreases n
  {
    hide ReadyUpTo, Runnable;
    if n == 0 {
      assert ReadyUpTo(x, 0) == [] by { NothingReady(x); }
    } else {
      ReadyUpToUnfolds(x, n - 1);
      ReadyPrefix(x, if j < n then j else n - 1, n - 1);
    }
  }

  lemma NothingReady(x: ExecState)
    ensures ReadyUpTo(x, 0) == []
  {
  }

  /**
   The batch is as wide as the limits allow: a runnable step is in it if and only if fewer
   runnable steps than either limit are listed before it.
   */
  lemma RunsIff(cfg: ExecConfig, x: ExecState, j: nat)
    requires UniqueIds(x.plan.steps) && cfg.maxConcurrency >= 0 && x.plan.graphLimits.maxParallel >= 0
    requires j < |x.plan.steps| && Runnable(x, j)
    ensures
      x.plan.steps[j] in BatchOf(cfg, x) <==>
        RunnableBefore(x, j) < cfg.maxConcurrency && RunnableBefore(x, j) < x.plan.graphLimits.maxParallel
  {
    hide BatchOf, Pending, Ready, ReadyUpTo, Runnable, RunnableBefore, UniqueIds;
    var ready := ReadyUpTo(x, |x.plan.steps|);
    BatchIsReadyPrefix(cfg, x);
    PendingUnique(x.plan.steps, x.completed);
    ReadyUnique(Pending(x.plan.steps, x.completed), x.completed);
    StandsAt(x, j);
    InPrefixIff(ready, BatchOf(cfg, x), RunnableBefore(x, j));
  }

  lemma StandsAt(x: ExecState, j: nat)
    requires j < |x.plan.steps| && Runnable(x, j)
    ensures
      var ready, k := ReadyUpTo(x, |x.plan.steps|), RunnableBefore(x, j);
      k < |ready| && ready[k] == x.plan.steps[j]
  {
    hide ReadyUpTo, Runnable;
    ReadyPrefix(x, j, j);
    ReadyPrefix(x, j + 1, |x.plan.steps|);
    ReadyUpToUnfolds(x, j);
  }

  lemma InPrefixIff(steps: seq<PlanStep>, prefix: seq<PlanStep>, k: nat)
    requires UniqueIds(steps) && prefix <= steps && k < |steps|
    ensures steps[k] in prefix <==> k < |prefix|
  {
    if steps[k] in prefix {
      var i :| 0 <= i < |prefix| && prefix[i] == steps[k];
      assert steps[i] == steps[k];
    }
  }

  lemma BatchIsReadyPrefix(cfg: ExecConfig, x: ExecState)
    requires cfg.maxConcurrency >= 0 && x.plan.graphLimits.maxParallel >= 0
    ensures
      var ready, batch := ReadyUpTo(x, |x.plan.steps|), BatchOf(cfg, x);
      var limit := Min(cfg.maxConcurrency, x.plan.graphLimits.maxParallel);
      && batch <= ready && |batch| == (if limit <= |ready| then limit else |ready|)
      && ready == Ready(Pending(x.plan.steps, x.completed), x.completed)
  {
    assert x.plan.steps[..|x.plan.steps|] == x.plan.steps;
    hide Pending, Ready;
  }

  lemma AdoptKeepsStatus(s: ExecState, o: ReplanOutcome)
    ensures Adopt(s, o).session.status == s.session.status
  {
    AdoptIs(s, o);
    InsertedSteps(s.session.(planVersion := Max(s.session.planVersion, o.plan.planVersion)), o.plan.steps);
    hide Adopt, InsertSteps;
  }

  lemma RoundKeepsStatus(cfg: ExecConfig, w: World, x: ExecState)
    requires Registered(x.plan.steps, x.session.steps)
    ensures Round(cfg, w, x).Continue? ==> Round(cfg, w, x).next.session.status == x.session.status
  {
    hide Round, Settle, BatchOf, BatchRunOf, Adopt, ReplanFor, ForMissingDependency, Pending, Ready, Records, Registered;
    RoundCases(cfg, w, x);
    if Works(cfg, w, x) {
      var batch, run := BatchOf(cfg, x), BatchRunOf(cfg, w, x);
      SettleCases(cfg, x, batch, run);
      var k := FirstFailure(run.results);
      if k < |batch| && ReplanFor(cfg, x, batch[k], run.results[k]).Some? {
        AdoptKeepsStatus(Noted(x, batch, run), ReplanFor(cfg, x, batch[k], run.results[k]).value);
      }
    } else if Unblocks(cfg, w, x) {
      AdoptKeepsStatus(x, ForMissingDependency(x.plan, Pending(x.plan.steps, x.completed)[0].stepId).value);
    }
  }

  /** From its first loop head to its last, a call shows its session as running. */
  lemma {:induction false} RunningUntilItEnds(cfg: ExecConfig, w: World, sessions: map<string, SessionState>, plan: ExecutionPlan, n: nat)
    requires Registered(plan.steps, StartState(plan, Initialised(sessions, plan)).session.steps)
    ensures
      var x := StateAt(cfg, w, StartState(plan, Initialised(sessions, plan)), n);
      x.Some? ==> x.value.session.status == RUNNING
  {
    hide Round, Initialised, Registered;
    if n > 0 {
      RunningUntilItEnds(cfg, w, sessions, plan, n - 1);
      var x := StateAt(cfg, w, StartState(plan, Initialised(sessions, plan)), n - 1);
      if x.Some? {
        RoundKeepsStatus(cfg, w, x.value);
      }
    }
  }

  lemma TellsOne(cfg: ExecConfig, w: World, x: ExecState, i: nat, a: StepRecord, b: StepRecord)
    requires Registered(x.plan.steps, x.session.steps) && i < |BatchOf(cfg, x)|
    requires TellsOf(cfg, w, x, i, a) && TellsOf(cfg, w, x, i, b)
    ensures a == b
  {
  }

  /** There is only one account of a round. */
  lemma ReportsOne(cfg: ExecConfig, w: World, x: ExecState, a: seq<StepRecord>, b: seq<StepRecord>)
    requires Registered(x.plan.steps, x.session.steps) && Reports(cfg, w, x, a) && Reports(cfg, w, x, b)
    ensures a == b
  {
    hide TellsOf, BatchOf, Works, Registered;
    if Works(cfg, w, x) {
      forall i: nat | i < |a| && i < |b| ensures a[i] == b[i] {
        TellsOne(cfg, w, x, i, a[i], b[i]);
      }
    }
  }

  /** The code of the error in a failed result, if it has one. */
  function CodeOf(result: ToolResult): Option<string> {
    if result.error.Some? then result.error.value.code else None
  }

  /** The next state follows from adopting this answer of the replanner. */
  ghost predicate Adopts(x: ExecState, t: ExecState, outcome: ReplanOutcome) {
    && t.plan == outcome.plan && t.plan.planVersion == x.plan.planVersion + 1
    && t.replanCount == x.replanCount + 1 && t.history == x.history + [outcome]
  }

  /**
   A failed step ends the call if and only if there is no replanner, its budget is spent, or
   the error is one for a human; any other failure is replanned, and its code chooses how.
   */
  lemma FailureEndsTheCallIff(cfg: ExecConfig, w: World, x: ExecState, records: seq<StepRecord>)
    requires Registered(x.plan.steps, x.session.steps) && Works(cfg, w, x)
    requires Reports(cfg, w, x, records) && EndsInFailure(records)
    ensures
      var r, code := Round(cfg, w, x), CodeOf(records[|records| - 1].result);
      && (r.Stop? <==>
            || !cfg.hasReplanner || x.replanCount >= cfg.maxReplanAttempts
            || (code.Some? && code.value in {"permission_denied", "schema_validation_error", "invalid_business_input"}))
      && (r.Continue? ==>
            exists outcome: ReplanOutcome :: Adopts(x, r.next, outcome)
              && AfterFailure(x.plan, BatchOf(cfg, x)[|records| - 1], code) == Some(outcome)
              && outcome.decision.strategy == if code.Some? && code.value in
                   {"tool_timeout", "transient_network_error", "retry_exhausted", "service_unavailable"}
                 then LocalReplace else RollbackRetry)
  {
    hide Round, Settle, BatchOf, BatchRunOf, Reports, Records, Works, Registered, AfterFailure, FirstFailure, Adopt, Adopts;
    var batch, run := BatchOf(cfg, x), BatchRunOf(cfg, w, x);
    var k := FirstFailure(run.results);
    WorkingRound(cfg, w, x);
    var m := if k == |batch| then k else k + 1;
    RecordsReport(cfg, w, x, m);
    ReportsOne(cfg, w, x, records, Records(x.plan, batch[..m], run.results[..m]));
    BatchIs(cfg, x, k);
    ReplanForIs(cfg, x, batch[k], run.results[k]);
    SettleAnswers(cfg, x, batch, run);
    hide ReplanFor, CodeOf;
  }

  lemma WorkingRound(cfg: ExecConfig, w: World, x: ExecState)
    requires Registered(x.plan.steps, x.session.steps) && Works(cfg, w, x)
    ensures Round(cfg, w, x) == Settle(cfg, x, BatchOf(cfg, x), BatchRunOf(cfg, w, x))
  {
    hide Round, Settle, BatchOf, BatchRunOf, Pending, Ready, Registered;
    RoundCases(cfg, w, x);
  }

  /** A batch's failure is settled by the replanner's answer, if it may be asked and gives one to act on. */
  lemma SettleAnswers(cfg: ExecConfig, x: ExecState, batch: seq<PlanStep>, run: BatchRun)
    requires |batch| == |run.results| && run.steps.Keys == x.session.steps.Keys
    requires Registered(x.plan.steps, x.session.steps) && FirstFailure(run.results) < |batch|
    ensures
      var k, r := FirstFailure(run.results), Settle(cfg, x, batch, run);
      var o := ReplanFor(cfg, x, batch[k], run.results[k]);
      && (r.Stop? <==> o.None?)
      && (o.Some? && o.value.plan.planVersion == x.plan.planVersion + 1 ==> Adopts(x, r.next, o.value))
  {
    hide Settle, ReplanFor, Adopt, Noted, FirstFailure, Registered, Adopts, Fail;
    SettleCases(cfg, x, batch, run);
    var k := FirstFailure(run.results);
    var o := ReplanFor(cfg, x, batch[k], run.results[k]);
    if o.Some? && o.value.plan.planVersion == x.plan.planVersion + 1 {
      NotedAdopts(x, batch, run, o.value);
    }
  }

  lemma NotedAdopts(x: ExecState, batch: seq<PlanStep>, run: BatchRun, outcome: ReplanOutcome)
    requires |batch| == |run.results| && FirstFailure(run.results) < |batch|
    requires outcome.plan.planVersion == x.plan.planVersion + 1
    ensures Adopts(x, Adopt(Noted(x, batch, run), outcome), outcome)
  {
    AdoptIs(Noted(x, batch, run), outcome);
    hide Adopt, Records, Upserted;
  }

  lemma ReplanForIs(cfg: ExecConfig, x: ExecState, failed: PlanStep, result: ToolResult)
    requires failed in x.plan.steps
    ensures
      var o, code := ReplanFor(cfg, x, failed, result), CodeOf(result);
      && (o.None? <==>
            || !cfg.hasReplanner || x.replanCount >= cfg.maxReplanAttempts
            || (code.Some? && code.value in {"permission_denied", "schema_validation_error", "invalid_business_input"}))
      && (o.Some? ==>
            && AfterFailure(x.plan, failed, code) == o && o.value.plan.planVersion == x.plan.planVersion + 1
            && o.value.decision.strategy == if code.Some? && code.value in
                 {"tool_timeout", "transient_network_error", "retry_exhausted", "service_unavailable"}
               then LocalReplace else RollbackRetry)
  {
    assert failed.stepId in StepIds(x.plan.steps);
    hide ReplacedSteps, RolledBackSteps, SuffixMappings, FirstIndex;
  }
}
