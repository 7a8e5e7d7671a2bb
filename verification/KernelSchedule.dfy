/** The batch of a round, run by threads: every schedule ends as the machine's serial batch does. */
module KernelSchedule {
  import opened Plans
  import opened StateStore
  import opened StepRunner
  import opened WorkflowKernel
  import KernelResume
  import opened BatchSchedule

  function JobOf(cfg: ExecConfig, w: World, round: nat, plan: ExecutionPlan, step: PlanStep): Job {
    Job(step.stepId, IdempotencyKey(plan.requestId, step.stepId, plan.planVersion),
        AttemptsOf(w, round, step.stepId), cfg.maxRetryAttempts + 1)
  }

  function JobsOf(cfg: ExecConfig, w: World, round: nat, plan: ExecutionPlan, batch: seq<PlanStep>): (jobs: seq<Job>)
    ensures |jobs| == |batch|
    ensures forall i :: 0 <= i < |batch| ==> jobs[i].stepId == batch[i].stepId
  {
    seq(|batch|, i requires 0 <= i < |batch| => JobOf(cfg, w, round, plan, batch[i]))
  }

  lemma RunOfIsAlone(cfg: ExecConfig, w: World, round: nat, plan: ExecutionPlan, step: PlanStep, m: map<string, StepState>)
    requires step.stepId in m
    ensures RunOf(cfg, w, round, plan, step, m) == Alone(JobOf(cfg, w, round, plan, step), m)
  {
    hide RunStep, IdempotencyKey;
  }

  lemma LastJobRuns(cfg: ExecConfig, w: World, round: nat, plan: ExecutionPlan, batch: seq<PlanStep>, m: map<string, StepState>)
    requires Registered(batch, m) && batch != []
    ensures
      var n := |batch| - 1;
      var job, before := JobOf(cfg, w, round, plan, batch[n]), RunBatch(cfg, w, round, plan, batch[..n], m);
      var run := RunBatch(cfg, w, round, plan, batch, m);
      && job.stepId == batch[n].stepId
      && run.steps == before.steps[job.stepId := Alone(job, before.steps).state]
      && run.results == before.results + [Alone(job, before.steps).result]
  {
    hide RunOf, RunBatch, Alone, IdempotencyKey;
    BatchUnfolds(cfg, w, round, plan, batch, |batch|, m);
    assert batch[..|batch|] == batch;
    RunOfIsAlone(cfg, w, round, plan, batch[|batch| - 1], RunBatch(cfg, w, round, plan, batch[..|batch| - 1], m).steps);
  }

  lemma JobsUnfold(cfg: ExecConfig, w: World, round: nat, plan: ExecutionPlan, batch: seq<PlanStep>)
    requires batch != []
    ensures
      var n, jobs := |batch| - 1, JobsOf(cfg, w, round, plan, batch);
      jobs[..n] == JobsOf(cfg, w, round, plan, batch[..n]) && jobs[n] == JobOf(cfg, w, round, plan, batch[n])
  {
    hide JobOf;
  }

  /** What the kernel's batch leaves is the serial account of its workers. */
  ghost predicate IsSerial(jobs: seq<Job>, run: BatchRun, m: map<string, StepState>)
    requires forall i :: 0 <= i < |jobs| ==> jobs[i].stepId in m
  {
    && run.steps == Serial(jobs, m)
    && |run.results| == |jobs|
    && forall i :: 0 <= i < |jobs| ==> run.results[i] == Alone(jobs[i], m).result
  }

  lemma {:induction false} BatchIsSerial(cfg: ExecConfig, w: World, round: nat, plan: ExecutionPlan, batch: seq<PlanStep>,
                                         m: map<string, StepState>)
    requires Registered(batch, m) && UniqueIds(batch)
    ensures IsSerial(JobsOf(cfg, w, round, plan, batch), RunBatch(cfg, w, round, plan, batch, m), m)
  {
    if batch != [] {
      var n, jobs := |batch| - 1, JobsOf(cfg, w, round, plan, batch);
      LastStep(batch, m);
      hide RunStep, IdempotencyKey, RunBatch, JobsOf, JobOf, Alone, IsSerial, UniqueIds, Registered;
      BatchIsSerial(cfg, w, round, plan, batch[..n], m);
      JobsUnfold(cfg, w, round, plan, batch);
      LastJobRuns(cfg, w, round, plan, batch, m);
      OneMoreJob(jobs, RunBatch(cfg, w, round, plan, batch[..n], m), RunBatch(cfg, w, round, plan, batch, m), m);
    }
  }

  lemma OneMoreJob(jobs: seq<Job>, before: BatchRun, run: BatchRun, m: map<string, StepState>)
    requires jobs != [] && forall i :: 0 <= i < |jobs| ==> jobs[i].stepId in m
    requires forall i :: 0 <= i < |jobs| - 1 ==> jobs[i].stepId != jobs[|jobs| - 1].stepId
    requires IsSerial(jobs[..|jobs| - 1], before, m)
    requires
      var job := jobs[|jobs| - 1];
      && run.steps == before.steps[job.stepId := Alone(job, before.steps).state]
      && run.results == before.results + [Alone(job, before.steps).result]
    ensures IsSerial(jobs, run, m)
  {
    hide Alone, Serial;
    SerialLast(jobs, m);
  }

  lemma LastStep(batch: seq<PlanStep>, m: map<string, StepState>)
    requires Registered(batch, m) && UniqueIds(batch) && batch != []
    ensures Registered(batch[..|batch| - 1], m) && UniqueIds(batch[..|batch| - 1]) && batch[|batch| - 1].stepId in m
    ensures forall i :: 0 <= i < |batch| ==> batch[i].stepId in m
    ensures forall i :: 0 <= i < |batch| - 1 ==> batch[i].stepId != batch[|batch| - 1].stepId
  {
  }

  lemma SerialLast(jobs: seq<Job>, m: map<string, StepState>)
    requires jobs != [] && forall i :: 0 <= i < |jobs| ==> jobs[i].stepId in m
    requires forall i :: 0 <= i < |jobs| - 1 ==> jobs[i].stepId != jobs[|jobs| - 1].stepId
    ensures
      var n := |jobs| - 1;
      && Alone(jobs[n], Serial(jobs[..n], m)) == Alone(jobs[n], m)
      && Serial(jobs, m) == Serial(jobs[..n], m)[jobs[n].stepId := Alone(jobs[n], m).state]
  {
    var n := |jobs| - 1;
    SerialElsewhere(jobs[..n], m, jobs[n].stepId);
    SameStart(jobs[n], Serial(jobs[..n], m), m);
    hide Alone;
  }

  lemma SameStart(job: Job, a: map<string, StepState>, b: map<string, StepState>)
    requires job.stepId in a && job.stepId in b && a[job.stepId] == b[job.stepId]
    ensures Alone(job, a) == Alone(job, b)
  {
    hide RunStep;
  }

  lemma AnyScheduleIsTheBatch(cfg: ExecConfig, w: World, round: nat, plan: ExecutionPlan, batch: seq<PlanStep>,
                              m: map<string, StepState>, schedule: seq<nat>)
    requires Registered(batch, m) && UniqueIds(batch)
    requires
      var jobs := JobsOf(cfg, w, round, plan, batch);
      && Valid(jobs, Start(jobs, m))
      && (forall k :: 0 <= k < |schedule| ==> schedule[k] < |jobs|)
      && Finished(After(jobs, Start(jobs, m), schedule))
    ensures
      var jobs, run := JobsOf(cfg, w, round, plan, batch), RunBatch(cfg, w, round, plan, batch, m);
      var end := After(jobs, Start(jobs, m), schedule);
      && end.steps == run.steps
      && |end.points| == |run.results|
      && forall i :: 0 <= i < |run.results| ==> end.points[i] == Done(run.results[i])
  {
    BatchIsSerial(cfg, w, round, plan, batch, m);
    ScheduleIndependence(JobsOf(cfg, w, round, plan, batch), m, schedule);
    hide RunBatch, RunStep, JobsOf, Serial, After, Registered, UniqueIds, Finished;
  }

  /**
   At any round of a plan with unique ids, every interleaving that runs the batch's workers
   to their end leaves the very step states, and gives each step the very result, of the
   batch the machine runs.
   */
  lemma AnyScheduleIsTheRound(cfg: ExecConfig, w: World, s: ExecState, schedule: seq<nat>)
    requires Registered(s.plan.steps, s.session.steps) && UniqueIds(s.plan.steps)
    requires
      var jobs := JobsOf(cfg, w, s.round, s.plan, BatchOf(cfg, s));
      && Valid(jobs, Start(jobs, s.session.steps))
      && (forall k :: 0 <= k < |schedule| ==> schedule[k] < |jobs|)
      && Finished(After(jobs, Start(jobs, s.session.steps), schedule))
    ensures
      var jobs, run := JobsOf(cfg, w, s.round, s.plan, BatchOf(cfg, s)), BatchRunOf(cfg, w, s);
      var end := After(jobs, Start(jobs, s.session.steps), schedule);
      && end.steps == run.steps
      && |end.points| == |run.results|
      && forall i :: 0 <= i < |run.results| ==> end.points[i] == Done(run.results[i])
  {
    BatchIsRegistered(cfg, s);
    KernelResume.BatchUnique(cfg, s);
    hide BatchOf, RunBatch, RunStep, JobsOf, Serial, Valid, Start, Finished, After, Registered, UniqueIds;
    AnyScheduleIsTheBatch(cfg, w, s.round, s.plan, BatchOf(cfg, s), s.session.steps, schedule);
  }

  lemma WorkersStart(cfg: ExecConfig, w: World, s: ExecState)
    requires Registered(s.plan.steps, s.session.steps) && UniqueIds(s.plan.steps)
    ensures
      var jobs := JobsOf(cfg, w, s.round, s.plan, BatchOf(cfg, s));
      Valid(jobs, Start(jobs, s.session.steps))
  {
    BatchIsRegistered(cfg, s);
    KernelResume.BatchUnique(cfg, s);
    hide BatchOf;
  }

  /** Any fair schedule runs the workers of a round to that end, so there is one. */
  lemma FairRoundFinishes(cfg: ExecConfig, w: World, s: ExecState, schedule: seq<nat>)
    requires Registered(s.plan.steps, s.session.steps) && UniqueIds(s.plan.steps)
    requires
      var jobs := JobsOf(cfg, w, s.round, s.plan, BatchOf(cfg, s));
      Fair(jobs, Start(jobs, s.session.steps), schedule)
    ensures
      var jobs, run := JobsOf(cfg, w, s.round, s.plan, BatchOf(cfg, s)), BatchRunOf(cfg, w, s);
      Valid(jobs, Start(jobs, s.session.steps)) && After(jobs, Start(jobs, s.session.steps), schedule).steps == run.steps
  {
    var jobs := JobsOf(cfg, w, s.round, s.plan, BatchOf(cfg, s));
    WorkersStart(cfg, w, s);
    hide BatchOf, BatchRunOf, JobsOf, Valid, Start, Registered, UniqueIds;
    FairScheduleFinishes(jobs, Start(jobs, s.session.steps), schedule);
    AnyScheduleIsTheRound(cfg, w, s, schedule);
  }
}
