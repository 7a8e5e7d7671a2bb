/**
 A batch's worker threads, one atomic store call at a time. Whatever the interleaving,
 every step ends in the state, and with the result, that running it alone gives, so
 running the batch serially in plan order is a faithful account of it.
 */
module BatchSchedule {
  import opened Wrappers
  import opened StateStore
  import opened StepRunner

  /** Where a worker stands between two atomic accesses to the store. */
  datatype Point =
    | AskSkip                                             // should_skip_step
    | NextAttempt(attempt: nat, last: Option<ToolResult>) // loop head and cancellation check
    | MarkRunning(attempt: nat, last: Option<ToolResult>)
    | Checks(attempt: nat, last: Option<ToolResult>)      // policy, schema, context
    | MarkWaiting(attempt: nat, last: Option<ToolResult>)
    | CallTool(attempt: nat, last: Option<ToolResult>)
    | MarkSuccess(result: ToolResult, saved: bool)        // mark_step_success, then snapshot
    | MarkRetryable(attempt: nat, result: ToolResult)     // mark_step_failed, then loop
    | MarkFailed(error: ErrorInfo, result: ToolResult)    // mark_step_failed, then return or raise
    | MarkCanceled
    | Done(result: ToolResult)

  /** The fixed circumstances of one worker: its step's key and the outcomes its attempts meet. */
  datatype Job = Job(stepId: string, key: string, attempts: nat -> Attempt, maxAttempts: int)

  /** One atomic action. It reads and writes the worker's own step only. */
  function Act(job: Job, at: Point, st: StepState): (Point, StepState) {
    match at
    case AskSkip => (if ShouldSkip(st, job.key) then Done(SkipResult(st)) else NextAttempt(1, None), st)
    case NextAttempt(k, last) =>
      if k > job.maxAttempts then
        (MarkFailed(ErrorOf(RetryExhausted(last)), Reported(RetryExhausted(last), !job.attempts(k).Crashed?)), st)
      else if job.attempts(k).Cancelled? then (MarkCanceled, st)
      else (MarkRunning(k, last), st)
    case MarkRunning(k, last) => (Checks(k, last), MarkedRunning(st))
    case Checks(k, last) =>
      (match job.attempts(k)
       case Denied(saved) => MarkFailed(ErrorOf(PERMISSION_DENIED), Reported(PERMISSION_DENIED, saved))
       case SchemaInvalid(saved) => MarkFailed(ErrorOf(SCHEMA_VALIDATION_ERROR), Reported(SCHEMA_VALIDATION_ERROR, saved))
       case Crashed => Done(EXECUTOR_INTERNAL_ERROR)
       case _ => MarkWaiting(k, last), st)
    case MarkWaiting(k, last) => (CallTool(k, last), MarkedWaitingTool(st))
    case CallTool(k, last) =>
      (match job.attempts(k)
       case Invoked(result, saved) =>
         if result.success then MarkSuccess(result, saved)
         else if !saved then MarkFailed(ErrorOf(result), EXECUTOR_INTERNAL_ERROR)
         else if result.retryable then MarkRetryable(k, result)
         else MarkFailed(ErrorOf(result), result)
       case _ => Done(EXECUTOR_INTERNAL_ERROR), st)
    case MarkSuccess(result, saved) => (Done(Reported(result, saved)), MarkedSuccess(st, result, job.key))
    case MarkRetryable(k, result) => (NextAttempt(k + 1, Some(result)), MarkedFailed(st, ErrorOf(result)))
    case MarkFailed(error, result) => (Done(result), MarkedFailed(st, error))
    case MarkCanceled => (Done(STEP_CANCELLED), MarkedCanceled(st, ErrorOf(STEP_CANCELLED)))
    case Done(_) => (at, st)
  }

  /** Outcomes that pass the checks before the tool call. */
  predicate Waits(a: Attempt) {
    a.Unstarted? || a.Unlogged? || a.Invoked?
  }

  /** Points a worker can stand at: past a check, the outcome is one that passed it. */
  predicate Sensible(job: Job, at: Point) {
    match at
    case MarkRunning(k, _) => k <= job.maxAttempts && !job.attempts(k).Cancelled?
    case Checks(k, _) => k <= job.maxAttempts && !job.attempts(k).Cancelled?
    case MarkWaiting(k, _) => k <= job.maxAttempts && Waits(job.attempts(k))
    case CallTool(k, _) => k <= job.maxAttempts && Waits(job.attempts(k))
    case MarkSuccess(result, _) => result.success
    case _ => true
  }

  datatype Verdict = Verdict(state: StepState, result: ToolResult)

  function VerdictOf(run: StepRun): Verdict {
    Verdict(run.state, run.result)
  }

  /** How a worker at `at` will end if only it runs. */
  function Forecast(job: Job, at: Point, st: StepState): Verdict {
    match at
    case AskSkip => VerdictOf(RunStep(st, job.key, job.attempts, job.maxAttempts))
    case NextAttempt(k, last) => VerdictOf(RunAttempts(st, job.key, job.attempts, k, job.maxAttempts, last))
    case MarkRunning(k, last) => AfterChecks(job, k, MarkedRunning(st))
    case Checks(k, last) => AfterChecks(job, k, st)
    case MarkWaiting(k, last) => AfterCall(job, k, MarkedWaitingTool(st))
    case CallTool(k, last) => AfterCall(job, k, st)
    case MarkSuccess(result, saved) => Verdict(MarkedSuccess(st, result, job.key), Reported(result, saved))
    case MarkRetryable(k, result) =>
      VerdictOf(RunAttempts(MarkedFailed(st, ErrorOf(result)), job.key, job.attempts, k + 1, job.maxAttempts, Some(result)))
    case MarkFailed(error, result) => Verdict(MarkedFailed(st, error), result)
    case MarkCanceled => Verdict(MarkedCanceled(st, ErrorOf(STEP_CANCELLED)), STEP_CANCELLED)
    case Done(result) => Verdict(st, result)
  }

  function AfterCall(job: Job, k: nat, st: StepState): Verdict {
    match job.attempts(k)
    case Invoked(result, saved) =>
      if result.success then Verdict(MarkedSuccess(st, result, job.key), Reported(result, saved))
      else if !saved then Verdict(MarkedFailed(st, ErrorOf(result)), EXECUTOR_INTERNAL_ERROR)
      else if !result.retryable then Verdict(MarkedFailed(st, ErrorOf(result)), result)
      else VerdictOf(RunAttempts(MarkedFailed(st, ErrorOf(result)), job.key, job.attempts, k + 1, job.maxAttempts, Some(result)))
    case _ => Verdict(st, EXECUTOR_INTERNAL_ERROR)
  }

  function AfterChecks(job: Job, k: nat, st: StepState): Verdict {
    match job.attempts(k)
    case Denied(saved) => Verdict(MarkedFailed(st, ErrorOf(PERMISSION_DENIED)), Reported(PERMISSION_DENIED, saved))
    case SchemaInvalid(saved) => Verdict(MarkedFailed(st, ErrorOf(SCHEMA_VALIDATION_ERROR)), Reported(SCHEMA_VALIDATION_ERROR, saved))
    case Crashed => Verdict(st, EXECUTOR_INTERNAL_ERROR)
    case _ => AfterCall(job, k, MarkedWaitingTool(st))
  }

  /** No action changes how its worker will end. */
  lemma ActKeepsForecast(job: Job, at: Point, st: StepState)
    requires Sensible(job, at)
    ensures
      var (at', st') := Act(job, at, st);
      Sensible(job, at') && Forecast(job, at', st') == Forecast(job, at, st)
  {
  }

  /** Actions left before a worker is done, at most. */
  function Left(job: Job, at: Point): nat {
    match at
    case AskSkip => 6 * Clip(job.maxAttempts + 1) + 8
    case NextAttempt(k, _) => 6 * Clip(job.maxAttempts + 1 - k) + 7
    case MarkRunning(k, _) => 6 * Clip(job.maxAttempts + 1 - k) + 6
    case Checks(k, _) => 6 * Clip(job.maxAttempts + 1 - k) + 5
    case MarkWaiting(k, _) => 6 * Clip(job.maxAttempts + 1 - k) + 4
    case CallTool(k, _) => 6 * Clip(job.maxAttempts + 1 - k) + 3
    case MarkRetryable(k, _) => 6 * Clip(job.maxAttempts - k) + 8
    case MarkSuccess(_, _) => 1
    case MarkFailed(_, _) => 1
    case MarkCanceled => 1
    case Done(_) => 0
  }

  /** Every action of an unfinished worker brings it closer to its end. */
  lemma ActMakesProgress(job: Job, at: Point, st: StepState)
    requires Sensible(job, at) && !at.Done?
    ensures Left(job, Act(job, at, st).0) < Left(job, at)
  {
  }

  /** A batch in flight: where each worker stands, and the store's steps. */
  datatype Batch = Batch(points: seq<Point>, steps: map<string, StepState>)

  ghost predicate Valid(jobs: seq<Job>, b: Batch) {
    && |b.points| == |jobs|
    && (forall i, j :: 0 <= i < j < |jobs| ==> jobs[i].stepId != jobs[j].stepId)
    && (forall i :: 0 <= i < |jobs| ==> jobs[i].stepId in b.steps && Sensible(jobs[i], b.points[i]))
  }

  /** Worker `i` performs its next action. */
  function Step(jobs: seq<Job>, b: Batch, i: nat): Batch
    requires i < |jobs| == |b.points| && jobs[i].stepId in b.steps
  {
    var id := jobs[i].stepId;
    var (at, st) := Act(jobs[i], b.points[i], b.steps[id]);
    Batch(b.points[i := at], b.steps[id := st])
  }

  lemma StepKeepsForecasts(jobs: seq<Job>, b: Batch, i: nat)
    requires Valid(jobs, b) && i < |jobs|
    ensures
      var b' := Step(jobs, b, i);
      && Valid(jobs, b')
      && b'.steps.Keys == b.steps.Keys
      && (forall j :: 0 <= j < |jobs| ==>
            Forecast(jobs[j], b'.points[j], b'.steps[jobs[j].stepId]) == Forecast(jobs[j], b.points[j], b.steps[jobs[j].stepId]))
      && (forall id :: id in b.steps && (forall j :: 0 <= j < |jobs| ==> jobs[j].stepId != id) ==> b'.steps[id] == b.steps[id])
  {
    ActKeepsForecast(jobs[i], b.points[i], b.steps[jobs[i].stepId]);
  }

  /** The batch after the workers acted in the order `schedule` gives. */
  ghost function After(jobs: seq<Job>, b: Batch, schedule: seq<nat>): (r: Batch)
    requires Valid(jobs, b) && forall k :: 0 <= k < |schedule| ==> schedule[k] < |jobs|
    ensures Valid(jobs, r)
    decreases |schedule|
  {
    if schedule == [] then b
    else
      StepKeepsForecasts(jobs, b, schedule[0]);
      After(jobs, Step(jobs, b, schedule[0]), schedule[1..])
  }

  ghost predicate Finished(b: Batch) {
    forall i :: 0 <= i < |b.points| ==> b.points[i].Done?
  }

  lemma {:induction false} AfterKeepsForecasts(jobs: seq<Job>, b: Batch, schedule: seq<nat>)
    requires Valid(jobs, b) && forall k :: 0 <= k < |schedule| ==> schedule[k] < |jobs|
    ensures
      var e := After(jobs, b, schedule);
      && e.steps.Keys == b.steps.Keys
      && (forall j :: 0 <= j < |jobs| ==>
            Forecast(jobs[j], e.points[j], e.steps[jobs[j].stepId]) == Forecast(jobs[j], b.points[j], b.steps[jobs[j].stepId]))
      && (forall id :: id in b.steps && (forall j :: 0 <= j < |jobs| ==> jobs[j].stepId != id) ==> e.steps[id] == b.steps[id])
    decreases |schedule|
  {
    if schedule != [] {
      StepKeepsForecasts(jobs, b, schedule[0]);
      AfterKeepsForecasts(jobs, Step(jobs, b, schedule[0]), schedule[1..]);
    }
  }

  /** How often the schedule lets worker `i` act. */
  function Turns(schedule: seq<nat>, i: nat): nat {
    if schedule == [] then 0 else (if schedule[0] == i then 1 else 0) + Turns(schedule[1..], i)
  }

  /** A schedule that gives every worker as many turns as it has actions left. */
  ghost predicate Fair(jobs: seq<Job>, b: Batch, schedule: seq<nat>)
    requires |b.points| == |jobs|
  {
    && (forall k :: 0 <= k < |schedule| ==> schedule[k] < |jobs|)
    && (forall i :: 0 <= i < |jobs| ==> Turns(schedule, i) >= Left(jobs[i], b.points[i]))
  }

  /** Whatever the order, a batch whose workers all keep getting turns runs to its end. */
  lemma {:induction false} FairScheduleFinishes(jobs: seq<Job>, b: Batch, schedule: seq<nat>)
    requires Valid(jobs, b) && Fair(jobs, b, schedule)
    ensures Finished(After(jobs, b, schedule))
    decreases |schedule|
  {
    hide Act, Sensible, Forecast;
    if schedule != [] {
      var i := schedule[0];
      var c := Step(jobs, b, i);
      StepKeepsForecasts(jobs, b, i);
      StepMakesProgress(jobs, b, i);
      forall j | 0 <= j < |jobs| ensures Turns(schedule[1..], j) >= Left(jobs[j], c.points[j]) {
        assert Turns(schedule, j) == (if i == j then 1 else 0) + Turns(schedule[1..], j);
      }
      FairScheduleFinishes(jobs, c, schedule[1..]);
    } else {
      forall i | 0 <= i < |b.points| ensures b.points[i].Done? {
        assert Turns(schedule, i) == 0;
      }
    }
  }

  lemma StepMakesProgress(jobs: seq<Job>, b: Batch, i: nat)
    requires Valid(jobs, b) && i < |jobs|
    ensures
      var c := Step(jobs, b, i);
      && |c.points| == |jobs|
      && (Left(jobs[i], c.points[i]) < Left(jobs[i], b.points[i]) || Left(jobs[i], c.points[i]) == 0)
      && forall j :: 0 <= j < |jobs| && j != i ==> c.points[j] == b.points[j]
  {
    if !b.points[i].Done? {
      ActMakesProgress(jobs[i], b.points[i], b.steps[jobs[i].stepId]);
    }
  }

  function Repeat(i: nat, k: nat): (r: seq<nat>)
    ensures |r| == k && forall j :: 0 <= j < k ==> r[j] == i
  {
    if k == 0 then [] else [i] + Repeat(i, k - 1)
  }

  lemma {:induction false} TurnsAdd(a: seq<nat>, b: seq<nat>, i: nat)
    ensures Turns(a + b, i) == Turns(a, i) + Turns(b, i)
  {
    if a == [] {
      assert a + b == b;
    } else {
      assert (a + b)[1..] == a[1..] + b;
      TurnsAdd(a[1..], b, i);
    }
  }

  lemma {:induction false} TurnsRepeat(i: nat, k: nat)
    ensures Turns(Repeat(i, k), i) == k
  {
    if k > 0 {
      assert Repeat(i, k)[1..] == Repeat(i, k - 1);
      TurnsRepeat(i, k - 1);
    }
  }

  lemma {:induction false} FairUpTo(jobs: seq<Job>, b: Batch, n: nat) returns (schedule: seq<nat>)
    requires n <= |jobs| == |b.points|
    ensures forall k :: 0 <= k < |schedule| ==> schedule[k] < n
    ensures forall i :: 0 <= i < n ==> Turns(schedule, i) >= Left(jobs[i], b.points[i])
  {
    schedule := [];
    if n > 0 {
      var before := FairUpTo(jobs, b, n - 1);
      var turns := Repeat(n - 1, Left(jobs[n - 1], b.points[n - 1]));
      schedule := before + turns;
      TurnsRepeat(n - 1, Left(jobs[n - 1], b.points[n - 1]));
      forall i | 0 <= i < n ensures Turns(schedule, i) >= Left(jobs[i], b.points[i]) {
        TurnsAdd(before, turns, i);
      }
    }
  }

  /** Every batch has a schedule that runs it to its end. */
  lemma FinishingSchedule(jobs: seq<Job>, b: Batch) returns (schedule: seq<nat>)
    requires Valid(jobs, b)
    ensures (forall k :: 0 <= k < |schedule| ==> schedule[k] < |jobs|) && Finished(After(jobs, b, schedule))
  {
    schedule := FairUpTo(jobs, b, |jobs|);
    FairScheduleFinishes(jobs, b, schedule);
  }

  /** What one job yields when it runs alone from the batch's first state. */
  function Alone(job: Job, steps: map<string, StepState>): StepRun
    requires job.stepId in steps
  {
    RunStep(steps[job.stepId], job.key, job.attempts, job.maxAttempts)
  }

  /** The steps after running the jobs one after another, as the serial account has it. */
  function Serial(jobs: seq<Job>, steps: map<string, StepState>): (r: map<string, StepState>)
    requires forall i :: 0 <= i < |jobs| ==> jobs[i].stepId in steps
    ensures r.Keys == steps.Keys
  {
    if jobs == [] then steps
    else
      var n := |jobs| - 1;
      var before := Serial(jobs[..n], steps);
      before[jobs[n].stepId := Alone(jobs[n], before).state]
  }

  lemma {:induction false} SerialElsewhere(jobs: seq<Job>, steps: map<string, StepState>, id: string)
    requires forall i :: 0 <= i < |jobs| ==> jobs[i].stepId in steps && jobs[i].stepId != id
    requires id in steps
    ensures Serial(jobs, steps)[id] == steps[id]
  {
    if jobs != [] {
      SerialElsewhere(jobs[..|jobs| - 1], steps, id);
    }
  }

  lemma {:induction false} SerialStep(jobs: seq<Job>, steps: map<string, StepState>, i: nat)
    requires forall j :: 0 <= j < |jobs| ==> jobs[j].stepId in steps
    requires forall j, k :: 0 <= j < k < |jobs| ==> jobs[j].stepId != jobs[k].stepId
    requires i < |jobs|
    ensures Serial(jobs, steps)[jobs[i].stepId] == Alone(jobs[i], steps).state
  {
    var n := |jobs| - 1;
    if i < n {
      SerialStep(jobs[..n], steps, i);
    } else {
      SerialElsewhere(jobs[..n], steps, jobs[n].stepId);
    }
  }

  function Start(jobs: seq<Job>, steps: map<string, StepState>): Batch {
    Batch(seq(|jobs|, i => AskSkip), steps)
  }

  /**
   Schedule independence: every interleaving that runs all workers to their end leaves
   the very steps that the serial run leaves, and the very result of each step alone.
   */
  lemma ScheduleIndependence(jobs: seq<Job>, steps: map<string, StepState>, schedule: seq<nat>)
    requires Valid(jobs, Start(jobs, steps))
    requires forall k :: 0 <= k < |schedule| ==> schedule[k] < |jobs|
    requires Finished(After(jobs, Start(jobs, steps), schedule))
    ensures After(jobs, Start(jobs, steps), schedule).steps == Serial(jobs, steps)
    ensures forall i :: 0 <= i < |jobs| ==> After(jobs, Start(jobs, steps), schedule).points[i] == Done(Alone(jobs[i], steps).result)
  {
    var e := After(jobs, Start(jobs, steps), schedule);
    forall i | 0 <= i < |jobs| ensures e.points[i] == Done(Alone(jobs[i], steps).result) {
      WorkerEndsAlone(jobs, steps, schedule, i);
    }
    assert e.steps.Keys == steps.Keys by { AfterKeepsForecasts(jobs, Start(jobs, steps), schedule); }
    forall id | id in steps ensures e.steps[id] == Serial(jobs, steps)[id] {
      if i :| 0 <= i < |jobs| && jobs[i].stepId == id {
        WorkerEndsAlone(jobs, steps, schedule, i);
        SerialStep(jobs, steps, i);
      } else {
        AfterKeepsForecasts(jobs, Start(jobs, steps), schedule);
        SerialElsewhere(jobs, steps, id);
      }
    }
    SameMap(e.steps, Serial(jobs, steps));
  }

  lemma SameMap(a: map<string, StepState>, b: map<string, StepState>)
    requires a.Keys == b.Keys && forall id :: id in a ==> a[id] == b[id]
    ensures a == b
  {
  }

  lemma WorkerEndsAlone(jobs: seq<Job>, steps: map<string, StepState>, schedule: seq<nat>, i: nat)
    requires Valid(jobs, Start(jobs, steps)) && i < |jobs|
    requires forall k :: 0 <= k < |schedule| ==> schedule[k] < |jobs|
    requires Finished(After(jobs, Start(jobs, steps), schedule))
    ensures
      var e := After(jobs, Start(jobs, steps), schedule);
      && jobs[i].stepId in e.steps && e.steps[jobs[i].stepId] == Alone(jobs[i], steps).state
      && e.points[i] == Done(Alone(jobs[i], steps).result)
  {
    var e := After(jobs, Start(jobs, steps), schedule);
    AfterKeepsForecasts(jobs, Start(jobs, steps), schedule);
    assert e.points[i].Done?;
    FinishedAsForecast(jobs[i], e.points[i], e.steps[jobs[i].stepId], steps[jobs[i].stepId]);
  }

  lemma FinishedAsForecast(job: Job, at: Point, st: StepState, start: StepState)
    requires at.Done? && Forecast(job, at, st) == Forecast(job, AskSkip, start)
    ensures
      var run := RunStep(start, job.key, job.attempts, job.maxAttempts);
      at == Done(run.result) && st == run.state
  {
  }

  /** `results_by_step_id`, filled in the order in which the futures complete. */
  function Collect(ids: seq<string>, results: seq<ToolResult>, completion: seq<nat>): map<string, ToolResult>
    requires |results| == |ids| && forall k :: 0 <= k < |completion| ==> completion[k] < |ids|
  {
    if completion == [] then map[]
    else
      var n := |completion| - 1;
      Collect(ids, results, completion[..n])[ids[completion[n]] := results[completion[n]]]
  }

  /** Looked up in plan order, the collected results are the same for every completion order. */
  lemma {:induction false} CompletionOrderIsIrrelevant(ids: seq<string>, results: seq<ToolResult>, completion: seq<nat>, i: nat)
    requires |results| == |ids| && forall k :: 0 <= k < |completion| ==> completion[k] < |ids|
    requires forall a, b :: 0 <= a < b < |ids| ==> ids[a] != ids[b]
    requires i < |ids| && i in completion
    ensures ids[i] in Collect(ids, results, completion) && Collect(ids, results, completion)[ids[i]] == results[i]
  {
    var n := |completion| - 1;
    if completion[n] != i {
      assert completion == completion[..n] + [completion[n]];
      CompletionOrderIsIrrelevant(ids, results, completion[..n], i);
    }
  }
}
