/** `InMemoryStateStore`: sessions, their steps and the marks the executor leaves on them. */
module StateStore {
  import opened Wrappers
  import opened Plans
  import opened StepNames

  datatype ExecutionStatus = PENDING | RUNNING | WAITING_TOOL | SUCCESS | FAILED | CANCELED

  /** An error dictionary; the empty dictionary has no code. */
  datatype ErrorInfo = ErrorInfo(code: Option<string>, lastError: Option<ErrorInfo>)

  const NO_ERROR_INFO := ErrorInfo(None, None)

  /** The normalised envelope a tool, or a check before it, returns. */
  datatype ToolResult = ToolResult(success: bool, data: string, error: Option<ErrorInfo>, retryable: bool)

  datatype StepState = StepState(
    stepId: string,
    toolId: string,
    goal: string,
    dependsOn: seq<string>,
    status: ExecutionStatus,
    attempts: nat,
    idempotencyKey: string,
    result: Option<ToolResult>,
    error: Option<ErrorInfo>
  )

  datatype SessionState = SessionState(
    sessionId: string,
    requestId: string,
    traceId: string,
    planVersion: int,
    status: ExecutionStatus,
    cancelRequested: bool,
    steps: map<string, StepState>,
    stepSequence: seq<string>
  )

  function NewStep(step: PlanStep): StepState {
    StepState(step.stepId, step.toolId, step.goal, step.dependsOn, PENDING, 0, "", None, None)
  }

  function MarkedRunning(st: StepState): StepState {
    st.(status := RUNNING, attempts := st.attempts + 1)
  }

  function MarkedWaitingTool(st: StepState): StepState {
    st.(status := WAITING_TOOL)
  }

  function MarkedSuccess(st: StepState, result: ToolResult, key: string): StepState {
    st.(status := SUCCESS, result := Some(result), error := None, idempotencyKey := key)
  }

  function MarkedFailed(st: StepState, error: ErrorInfo): StepState {
    st.(status := FAILED, error := Some(error))
  }

  function MarkedCanceled(st: StepState, reason: ErrorInfo): StepState {
    st.(status := CANCELED, error := Some(reason))
  }

  predicate ShouldSkip(st: StepState, key: string) {
    st.status == SUCCESS && st.idempotencyKey != "" && st.idempotencyKey == key
  }

  /** `build_idempotency_key`. */
  function IdempotencyKey(requestId: string, stepId: string, version: int): string {
    requestId + ":" + stepId + ":" + Decimal(version)
  }

  /** The key of a replanned version never equals an earlier version's key for the same step. */
  lemma IdempotencyKeyPinsVersion(requestId: string, stepId: string, m: int, n: int)
    requires IdempotencyKey(requestId, stepId, m) == IdempotencyKey(requestId, stepId, n)
    ensures m == n
  {
    var prefix := requestId + ":" + stepId + ":";
    assert (prefix + Decimal(m))[|prefix|..] == Decimal(m);
    assert (prefix + Decimal(n))[|prefix|..] == Decimal(n);
    DecimalInjective(m, n);
  }

  lemma DecimalHasNoColon(n: int)
    ensures ':' !in Decimal(n)
  {
  }

  lemma CharAfter(a: string, x: string, i: nat)
    requires |a| < i < |a + ":" + x|
    ensures (a + ":" + x)[i] in x
  {
    assert (a + ":" + x)[i] == x[i - |a| - 1];
  }

  lemma SplitAtLastColon(a: string, x: string, b: string, y: string)
    requires ':' !in x && ':' !in y && a + ":" + x == b + ":" + y
    ensures a == b && x == y
  {
    if |a| < |b| { CharAfter(a, x, |b|); }
    if |b| < |a| { CharAfter(b, y, |a|); }
    assert (a + ":" + x)[..|a|] == a && (b + ":" + y)[..|b|] == b;
    assert (a + ":" + x)[|a| + 1..] == x && (b + ":" + y)[|b| + 1..] == y;
  }

  /** A key can be read back: among step ids without a colon, request, step and version all count. */
  lemma IdempotencyKeyInjective(r1: string, s1: string, v1: int, r2: string, s2: string, v2: int)
    requires ':' !in s1 && ':' !in s2
    requires IdempotencyKey(r1, s1, v1) == IdempotencyKey(r2, s2, v2)
    ensures r1 == r2 && s1 == s2 && v1 == v2
  {
    DecimalHasNoColon(v1);
    DecimalHasNoColon(v2);
    SplitAtLastColon(r1 + ":" + s1, Decimal(v1), r2 + ":" + s2, Decimal(v2));
    SplitAtLastColon(r1, s1, r2, s2);
    DecimalInjective(v1, v2);
  }

  /** A step's keys differ from request to request and from version to version, whatever its id. */
  lemma IdempotencyKeyPinsRequest(r1: string, v1: int, r2: string, v2: int, stepId: string)
    requires IdempotencyKey(r1, stepId, v1) == IdempotencyKey(r2, stepId, v2)
    ensures r1 == r2 && v1 == v2
  {
    DecimalHasNoColon(v1);
    DecimalHasNoColon(v2);
    SplitAtLastColon(r1 + ":" + stepId, Decimal(v1), r2 + ":" + stepId, Decimal(v2));
    DecimalInjective(v1, v2);
    assert (r1 + ":" + stepId)[..|r1|] == r1 && (r2 + ":" + stepId)[..|r2|] == r2;
  }

  /** A colon in a step id can make the keys of two steps the same. */
  lemma IdempotencyKeysCanCollide(version: int)
    ensures IdempotencyKey("a", "b:c", version) == IdempotencyKey("a:b", "c", version)
  {
    assert "a" + ":" + "b:c" + ":" == "a:b" + ":" + "c" + ":";
  }

  /**
   A step that succeeded under one plan version is skipped under that version only: after
   a replan, a sibling that had already succeeded in the dropped batch runs again.
   */
  lemma SuccessIsSkippedIff(st: StepState, requestId: string, stepId: string, won: int, current: int)
    requires st.status == SUCCESS && st.idempotencyKey == IdempotencyKey(requestId, stepId, won)
    ensures ShouldSkip(st, IdempotencyKey(requestId, stepId, current)) <==> won == current
  {
    if IdempotencyKey(requestId, stepId, won) == IdempotencyKey(requestId, stepId, current) {
      IdempotencyKeyPinsVersion(requestId, stepId, won, current);
    }
  }

  function InsertStep(session: SessionState, step: PlanStep): SessionState {
    if step.stepId in session.steps then session
    else session.(
        steps := session.steps[step.stepId := NewStep(step)],
        stepSequence := session.stepSequence + [step.stepId])
  }

  function InsertSteps(session: SessionState, steps: seq<PlanStep>): SessionState {
    if steps == [] then session
    else InsertStep(InsertSteps(session, steps[..|steps| - 1]), steps[|steps| - 1])
  }

  function Max(a: int, b: int): int {
    if a >= b then a else b
  }

  /** The session after `upsert_plan_steps`. */
  function Upserted(session: SessionState, steps: seq<PlanStep>, version: int): SessionState {
    InsertSteps(session.(planVersion := Max(session.planVersion, version)), steps)
  }

  /** The sequence lists every registered step exactly once. */
  ghost predicate SequenceOk(session: SessionState) {
    && (forall i, j :: 0 <= i < j < |session.stepSequence| ==> session.stepSequence[i] != session.stepSequence[j])
    && (forall id :: id in session.steps <==> id in session.stepSequence)
  }

  /** Upserting registers every id of the plan, keeps every existing step and its order. */
  lemma {:induction false} InsertedSteps(session: SessionState, steps: seq<PlanStep>)
    ensures
      var s := InsertSteps(session, steps);
      && s == session.(steps := s.steps, stepSequence := s.stepSequence)
      && s.steps.Keys == session.steps.Keys + StepIds(steps)
      && (forall id :: id in session.steps ==> s.steps[id] == session.steps[id])
      && session.stepSequence <= s.stepSequence
      && (SequenceOk(session) ==> SequenceOk(s))
  {
    if steps != [] {
      var n := |steps| - 1;
      InsertedSteps(session, steps[..n]);
      assert StepIds(steps) == StepIds(steps[..n]) + {steps[n].stepId} by {
        assert forall i :: 0 <= i < n ==> steps[..n][i] == steps[i];
      }
    }
  }

  /** A new step is as the plan describes it: pending, with no attempts, key, result or error. */
  ghost predicate IsNew(st: StepState, step: PlanStep) {
    && st.stepId == step.stepId && st.toolId == step.toolId && st.goal == step.goal && st.dependsOn == step.dependsOn
    && st.status == PENDING && st.attempts == 0 && st.idempotencyKey == "" && st.result == None && st.error == None
  }

  /** Each id an upsert adds starts out pending, with no attempts. */
  lemma {:induction false} InsertedStepsAreFresh(session: SessionState, steps: seq<PlanStep>, id: string)
    requires id in StepIds(steps) && id !in session.steps
    ensures id in InsertSteps(session, steps).steps
    ensures exists i :: 0 <= i < |steps| && steps[i].stepId == id && IsNew(InsertSteps(session, steps).steps[id], steps[i])
  {
    var n := |steps| - 1;
    InsertedSteps(session, steps[..n]);
    if id in StepIds(steps[..n]) {
      InsertedStepsAreFresh(session, steps[..n], id);
      var i :| 0 <= i < n && steps[..n][i].stepId == id && IsNew(InsertSteps(session, steps[..n]).steps[id], steps[..n][i]);
      assert steps[i] == steps[..n][i];
    } else {
      assert forall k :: 0 <= k < n ==> steps[..n][k] == steps[k];
      assert steps[n].stepId == id;
    }
  }

  function SuccessIds(steps: map<string, StepState>): set<string> {
    set id | id in steps && steps[id].status == SUCCESS
  }

  class InMemoryStateStore {
    var sessions: map<string, SessionState>

    constructor ()
      ensures sessions == map[]
    {
      sessions := map[];
    }

    predicate HasStep(sessionId: string, stepId: string)
      reads this
    {
      sessionId in sessions && stepId in sessions[sessionId].steps
    }

    /** `init_session`: creates the session or joins the existing one. */
    method InitSession(plan: ExecutionPlan)
      modifies this
      ensures sessions == old(sessions)[plan.sessionId := Initialised(old(sessions), plan)]
    {
      if plan.sessionId in sessions {
        var session := sessions[plan.sessionId];
        session := session.(
          requestId := plan.requestId,
          traceId := if plan.traceId != "" then plan.traceId else session.traceId,
          planVersion := Max(session.planVersion, plan.planVersion));
        sessions := sessions[plan.sessionId := session];
      } else {
        sessions := sessions[plan.sessionId := NewSession(plan)];
      }
      var _ := UpsertPlanSteps(plan.sessionId, plan.steps, plan.planVersion);
    }

    /** `upsert_plan_steps`; `found` is false where the source raises `KeyError`. */
    method UpsertPlanSteps(sessionId: string, steps: seq<PlanStep>, version: int) returns (found: bool)
      modifies this
      ensures found <==> sessionId in old(sessions)
      ensures sessions == if found then old(sessions)[sessionId := Upserted(old(sessions)[sessionId], steps, version)]
                          else old(sessions)
    {
      if sessionId !in sessions {
        return false;
      }
      ghost var start := sessions[sessionId].(planVersion := Max(sessions[sessionId].planVersion, version));
      sessions := sessions[sessionId := sessions[sessionId].(planVersion := Max(sessions[sessionId].planVersion, version))];
      for i := 0 to |steps|
        invariant sessions == old(sessions)[sessionId := InsertSteps(start, steps[..i])]
      {
        assert steps[..i + 1][..i] == steps[..i];
        var session := sessions[sessionId];
        if steps[i].stepId !in session.steps {
          sessions := sessions[sessionId := session.(
            steps := session.steps[steps[i].stepId := NewStep(steps[i])],
            stepSequence := session.stepSequence + [steps[i].stepId])];
        }
      }
      assert steps[..|steps|] == steps;
      return true;
    }

    method SetSessionStatus(sessionId: string, status: ExecutionStatus) returns (found: bool)
      modifies this
      ensures found <==> sessionId in old(sessions)
      ensures sessions == if found then old(sessions)[sessionId := old(sessions)[sessionId].(status := status)] else old(sessions)
    {
      if sessionId !in sessions {
        return false;
      }
      sessions := sessions[sessionId := sessions[sessionId].(status := status)];
      return true;
    }

    /** The common part of the `mark_step_*` methods: replace one step's state. */
    method PutStep(sessionId: string, st: StepState, stepId: string)
      requires HasStep(sessionId, stepId)
      modifies this
      ensures sessions == WithStep(old(sessions), sessionId, stepId, st)
    {
      var session := sessions[sessionId];
      sessions := sessions[sessionId := session.(steps := session.steps[stepId := st])];
    }

    method MarkStepRunning(sessionId: string, stepId: string) returns (found: bool)
      modifies this
      ensures found <==> old(HasStep(sessionId, stepId))
      ensures found ==> sessions == WithStep(old(sessions), sessionId, stepId, MarkedRunning(old(sessions)[sessionId].steps[stepId]))
      ensures !found ==> sessions == old(sessions)
    {
      found := HasStep(sessionId, stepId);
      if found {
        PutStep(sessionId, MarkedRunning(sessions[sessionId].steps[stepId]), stepId);
      }
    }

    method MarkStepWaitingTool(sessionId: string, stepId: string) returns (found: bool)
      modifies this
      ensures found <==> old(HasStep(sessionId, stepId))
      ensures found ==> sessions == WithStep(old(sessions), sessionId, stepId, MarkedWaitingTool(old(sessions)[sessionId].steps[stepId]))
      ensures !found ==> sessions == old(sessions)
    {
      found := HasStep(sessionId, stepId);
      if found {
        PutStep(sessionId, MarkedWaitingTool(sessions[sessionId].steps[stepId]), stepId);
      }
    }

    method MarkStepSuccess(sessionId: string, stepId: string, result: ToolResult, key: string) returns (found: bool)
      modifies this
      ensures found <==> old(HasStep(sessionId, stepId))
      ensures found ==> sessions == WithStep(old(sessions), sessionId, stepId, MarkedSuccess(old(sessions)[sessionId].steps[stepId], result, key))
      ensures !found ==> sessions == old(sessions)
    {
      found := HasStep(sessionId, stepId);
      if found {
        PutStep(sessionId, MarkedSuccess(sessions[sessionId].steps[stepId], result, key), stepId);
      }
    }

    method MarkStepFailed(sessionId: string, stepId: string, error: ErrorInfo) returns (found: bool)
      modifies this
      ensures found <==> old(HasStep(sessionId, stepId))
      ensures found ==> sessions == WithStep(old(sessions), sessionId, stepId, MarkedFailed(old(sessions)[sessionId].steps[stepId], error))
      ensures !found ==> sessions == old(sessions)
    {
      found := HasStep(sessionId, stepId);
      if found {
        PutStep(sessionId, MarkedFailed(sessions[sessionId].steps[stepId], error), stepId);
      }
    }

    method MarkStepCanceled(sessionId: string, stepId: string, reason: ErrorInfo) returns (found: bool)
      modifies this
      ensures found <==> old(HasStep(sessionId, stepId))
      ensures found ==> sessions == WithStep(old(sessions), sessionId, stepId, MarkedCanceled(old(sessions)[sessionId].steps[stepId], reason))
      ensures !found ==> sessions == old(sessions)
    {
      found := HasStep(sessionId, stepId);
      if found {
        PutStep(sessionId, MarkedCanceled(sessions[sessionId].steps[stepId], reason), stepId);
      }
    }

    /** `completed_step_ids`: the successful steps, each once, in registration order. */
    method CompletedStepIds(sessionId: string) returns (completed: Option<seq<string>>)
      requires sessionId in sessions ==> SequenceOk(sessions[sessionId])
      ensures completed.None? <==> sessionId !in sessions
      ensures completed.Some? ==> completed.value == CompletedIn(sessions[sessionId].steps, sessions[sessionId].stepSequence)
      ensures completed.Some? ==> forall id :: id in completed.value <==> id in SuccessIds(sessions[sessionId].steps)
    {
      if sessionId !in sessions {
        return None;
      }
      var ids := CollectCompleted(sessions[sessionId]);
      return Some(ids);
    }
  }

  /** The loop that `completed_step_ids` and `find_recovery_point` share. */
  method CollectCompleted(session: SessionState) returns (completed: seq<string>)
    requires SequenceOk(session)
    ensures completed == CompletedIn(session.steps, session.stepSequence)
    ensures forall id :: id in completed <==> id in SuccessIds(session.steps)
  {
    completed := [];
    for i := 0 to |session.stepSequence|
      invariant completed == CompletedIn(session.steps, session.stepSequence[..i])
    {
      var id := session.stepSequence[i];
      assert session.stepSequence[..i + 1][..i] == session.stepSequence[..i];
      if session.steps[id].status == SUCCESS {
        completed := completed + [id];
      }
    }
    assert session.stepSequence[..|session.stepSequence|] == session.stepSequence;
    CompletedInIsSuccess(session.steps, session.stepSequence);
  }

  function WithStep(sessions: map<string, SessionState>, sessionId: string, stepId: string, st: StepState)
    : map<string, SessionState>
    requires sessionId in sessions
  {
    sessions[sessionId := sessions[sessionId].(steps := sessions[sessionId].steps[stepId := st])]
  }

  /** The later of two writes to one step stands, and writing back what is there changes nothing. */
  lemma WithStepLaws(sessions: map<string, SessionState>, sessionId: string, stepId: string, a: StepState, b: StepState)
    requires sessionId in sessions
    ensures WithStep(WithStep(sessions, sessionId, stepId, a), sessionId, stepId, b) == WithStep(sessions, sessionId, stepId, b)
    ensures
      var later := WithStep(sessions, sessionId, stepId, b);
      sessionId in later && stepId in later[sessionId].steps && later[sessionId].steps[stepId] == b
    ensures stepId in sessions[sessionId].steps && a == sessions[sessionId].steps[stepId] ==>
      WithStep(sessions, sessionId, stepId, a) == sessions
  {
    var steps := sessions[sessionId].steps;
    assert steps[stepId := a][stepId := b] == steps[stepId := b];
    if stepId in steps && a == steps[stepId] {
      assert steps[stepId := a] == steps;
      assert sessions[sessionId].(steps := steps) == sessions[sessionId];
    }
  }

  function NewSession(plan: ExecutionPlan): SessionState {
    SessionState(plan.sessionId, plan.requestId, plan.traceId, plan.planVersion, PENDING, false, map[], [])
  }

  /** The session `init_session` leaves for a plan. */
  function Initialised(sessions: map<string, SessionState>, plan: ExecutionPlan): SessionState {
    if plan.sessionId in sessions then
      var session := sessions[plan.sessionId];
      Upserted(
        session.(requestId := plan.requestId, traceId := if plan.traceId != "" then plan.traceId else session.traceId),
        plan.steps, plan.planVersion)
    else
      Upserted(NewSession(plan), plan.steps, plan.planVersion)
  }

  /** Joining a session takes over the request and the trace, and never lowers the version; a new session starts pending. */
  lemma InitialisedFields(sessions: map<string, SessionState>, plan: ExecutionPlan)
    ensures
      var r := Initialised(sessions, plan);
      && r.requestId == plan.requestId && r.planVersion >= plan.planVersion
      && (plan.traceId != "" ==> r.traceId == plan.traceId)
      && StepIds(plan.steps) <= r.steps.Keys
      && if plan.sessionId in sessions then
           var s := sessions[plan.sessionId];
           && r.sessionId == s.sessionId && r.status == s.status && r.cancelRequested == s.cancelRequested
           && (plan.traceId == "" ==> r.traceId == s.traceId)
           && (r.planVersion == plan.planVersion || r.planVersion == s.planVersion) && r.planVersion >= s.planVersion
         else
           && r.sessionId == plan.sessionId && r.traceId == plan.traceId && r.planVersion == plan.planVersion
           && r.status == PENDING && !r.cancelRequested && r.steps.Keys == StepIds(plan.steps)
  {
    hide InsertSteps;
    var start := if plan.sessionId in sessions then
        sessions[plan.sessionId].(requestId := plan.requestId,
          traceId := if plan.traceId != "" then plan.traceId else sessions[plan.sessionId].traceId)
      else NewSession(plan);
    InsertedSteps(start.(planVersion := Max(start.planVersion, plan.planVersion)), plan.steps);
  }

  function CompletedIn(steps: map<string, StepState>, ids: seq<string>): seq<string> {
    if ids == [] then []
    else
      var n := |ids| - 1;
      CompletedIn(steps, ids[..n]) + if ids[n] in steps && steps[ids[n]].status == SUCCESS then [ids[n]] else []
  }

  lemma {:induction false} CompletedInIsSuccess(steps: map<string, StepState>, ids: seq<string>)
    ensures forall id :: id in CompletedIn(steps, ids) <==> id in ids && id in SuccessIds(steps)
  {
    if ids != [] {
      var n := |ids| - 1;
      CompletedInIsSuccess(steps, ids[..n]);
      assert ids == ids[..n] + [ids[n]];
    }
  }

  /** The completed steps come in registration order. */
  lemma {:induction false} CompletedInOrder(steps: map<string, StepState>, ids: seq<string>, i: nat, j: nat) returns (p: nat, q: nat)
    requires i < j < |CompletedIn(steps, ids)|
    ensures p < q < |ids| && ids[p] == CompletedIn(steps, ids)[i] && ids[q] == CompletedIn(steps, ids)[j]
    decreases |ids|
  {
    var n := |ids| - 1;
    var before := CompletedIn(steps, ids[..n]);
    if j < |before| {
      p, q := CompletedInOrder(steps, ids[..n], i, j);
    } else {
      CompletedInIsSuccess(steps, ids[..n]);
      assert before[i] in before;
      p :| 0 <= p < n && ids[p] == before[i];
      q := n;
    }
  }
}
