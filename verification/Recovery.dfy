/** `RecoveryService.find_recovery_point`: what a resumed session skips and where it resumes. */
module Recovery {
  import opened Wrappers
  import opened StateStore

  datatype RecoveryPoint = RecoveryPoint(sessionId: string, completedStepIds: seq<string>, resumeStepId: Option<string>)

  /** Reads back exactly the successful steps, and the first step that is not one of them. */
  method FindRecoveryPoint(session: SessionState, stepId: Option<string>) returns (point: RecoveryPoint)
    requires SequenceOk(session)
    ensures point.sessionId == session.sessionId
    ensures point.completedStepIds == CompletedIn(session.steps, session.stepSequence)
    ensures forall id :: id in point.completedStepIds <==> id in SuccessIds(session.steps)
    ensures stepId.Some? ==> point.resumeStepId == stepId
    ensures stepId.None? ==> (point.resumeStepId.None? <==> SuccessIds(session.steps) == session.steps.Keys)
    ensures stepId.None? && point.resumeStepId.Some? ==>
      exists i: nat :: ResumesAt(session, i) && session.stepSequence[i] == point.resumeStepId.value
  {
    var completed := CollectCompleted(session);
    if stepId.Some? {
      return RecoveryPoint(session.sessionId, completed, stepId);
    }
    var resume := FirstUnfinished(session);
    return RecoveryPoint(session.sessionId, completed, resume);
  }

  ghost predicate ResumesAt(session: SessionState, i: nat) {
    && i < |session.stepSequence|
    && session.stepSequence[i] !in SuccessIds(session.steps)
    && forall k :: 0 <= k < i ==> session.stepSequence[k] in SuccessIds(session.steps)
  }

  method FirstUnfinished(session: SessionState) returns (resume: Option<string>)
    requires SequenceOk(session)
    ensures resume.None? <==> SuccessIds(session.steps) == session.steps.Keys
    ensures resume.Some? ==> exists i: nat :: ResumesAt(session, i) && session.stepSequence[i] == resume.value
  {
    for i := 0 to |session.stepSequence|
      invariant forall k :: 0 <= k < i ==> session.stepSequence[k] in SuccessIds(session.steps)
    {
      var id := session.stepSequence[i];
      if session.steps[id].status != SUCCESS {
        assert ResumesAt(session, i);
        return Some(id);
      }
    }
    return None;
  }
}
