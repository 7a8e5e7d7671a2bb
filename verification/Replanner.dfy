/** `Replanner`: the two rewrites of a live plan, and what they keep. */
module Replanner {
  import opened Wrappers
  import opened Plans
  import opened StepNames

  datatype Strategy = HumanHandoff | LocalReplace | RollbackRetry

  datatype Reason = StepFailed | MissingDependency

  datatype ReplanDecision = ReplanDecision(
    shouldReplan: bool,
    strategy: Strategy,
    reason: Reason,
    requiresHumanHandoff: bool
  )

  datatype StepIdMapping = StepIdMapping(sourceStepId: string, targetStepId: string, planVersion: int)

  datatype ReplanOutcome = ReplanOutcome(plan: ExecutionPlan, decision: ReplanDecision, mappings: seq<StepIdMapping>)

  /** Errors no replan can mend, and errors that may pass. */
  const HANDOFF_CODES := {"permission_denied", "schema_validation_error", "invalid_business_input"}
  const TRANSIENT_CODES := {"tool_timeout", "transient_network_error", "retry_exhausted", "service_unavailable"}

  /** Their lengths tell the codes apart, but for one pair. */
  lemma CodesDiffer()
    ensures HANDOFF_CODES !! TRANSIENT_CODES
    ensures "unknown_error" !in HANDOFF_CODES && "unknown_error" !in TRANSIENT_CODES
  {
    HandoffLengths();
    TransientLengths();
    hide *;
  }

  lemma HandoffLengths()
    ensures forall c :: c in HANDOFF_CODES ==> |c| == 17 || |c| == 22 || (|c| == 23 && c[0] == 's')
  {
  }

  lemma TransientLengths()
    ensures forall c :: c in TRANSIENT_CODES ==> |c| == 12 || |c| == 15 || |c| == 19 || (|c| == 23 && c[0] == 't')
  {
  }

  /**
   `_build_decision`, from the error's optional code: a human for exactly the errors no
   replan can mend, local replacement for exactly those that may pass, and rollback for
   every other code and for none.
   */
  function BuildDecision(code: Option<string>, reason: Reason): (d: ReplanDecision)
    ensures d.shouldReplan <==> !d.requiresHumanHandoff
    ensures d.shouldReplan <==> d.strategy != HumanHandoff
    ensures d.strategy == HumanHandoff <==> code.Some? && code.value in HANDOFF_CODES
    ensures d.strategy == LocalReplace <==> code.Some? && code.value in TRANSIENT_CODES
    ensures d.reason == reason
  {
    CodesDiffer();
    var errorCode := if code.Some? then code.value else "unknown_error";
    if errorCode in HANDOFF_CODES then
      ReplanDecision(false, HumanHandoff, reason, true)
    else if errorCode in TRANSIENT_CODES then
      ReplanDecision(true, LocalReplace, reason, false)
    else
      ReplanDecision(true, RollbackRetry, reason, false)
  }

  /** The id a replan to `version` gives a step: renamed when it is among `ids`. */
  function Target(ids: set<string>, version: int, id: string): string {
    if id in ids then Renamed(id, version) else id
  }

  function Targets(ids: set<string>, version: int, deps: seq<string>): (r: seq<string>)
    ensures |r| == |deps|
  {
    seq(|deps|, i requires 0 <= i < |deps| => Target(ids, version, deps[i]))
  }

  const REPLANNED := " (replanned)"
  const ROLLBACK_REPLAN := " (rollback-replan)"

  function ReplacedStep(step: PlanStep, failed: PlanStep, version: int): PlanStep {
    if step.stepId == failed.stepId then
      failed.(stepId := Renamed(failed.stepId, version), goal := failed.goal + REPLANNED)
    else
      step.(dependsOn := Targets({failed.stepId}, version, step.dependsOn))
  }

  function ReplacedSteps(steps: seq<PlanStep>, failed: PlanStep, version: int): (r: seq<PlanStep>)
    ensures |r| == |steps|
  {
    seq(|steps|, i requires 0 <= i < |steps| => ReplacedStep(steps[i], failed, version))
  }

  /** The outcome of `_local_replace`. */
  function LocalReplaced(plan: ExecutionPlan, failed: PlanStep, decision: ReplanDecision): ReplanOutcome {
    var version := plan.planVersion + 1;
    ReplanOutcome(
      plan.(planVersion := version, steps := ReplacedSteps(plan.steps, failed, version)),
      decision,
      [StepIdMapping(failed.stepId, Renamed(failed.stepId, version), version)])
  }

  /** `_local_replace`. */
  method DoLocalReplace(plan: ExecutionPlan, failed: PlanStep, decision: ReplanDecision) returns (outcome: ReplanOutcome)
    ensures outcome == LocalReplaced(plan, failed, decision)
  {
    var newPlanVersion := plan.planVersion + 1;
    var replacementStepId := Renamed(failed.stepId, newPlanVersion);
    var replacement := failed.(stepId := replacementStepId, goal := failed.goal + REPLANNED);
    var remapped: seq<PlanStep> := [];
    for i := 0 to |plan.steps|
      invariant |remapped| == i
      invariant forall k :: 0 <= k < i ==> remapped[k] == ReplacedStep(plan.steps[k], failed, newPlanVersion)
    {
      var step := plan.steps[i];
      if step.stepId == failed.stepId {
        remapped := remapped + [replacement];
      } else {
        var deps := RemapDependencies(
          step.dependsOn, map[failed.stepId := replacementStepId], newPlanVersion);
        assert (map[failed.stepId := replacementStepId]).Keys == {failed.stepId};
        remapped := remapped + [step.(dependsOn := deps)];
      }
      assert remapped[i] == ReplacedStep(step, failed, newPlanVersion);
    }
    outcome := ReplanOutcome(
      plan.(planVersion := newPlanVersion, steps := remapped),
      decision,
      [StepIdMapping(failed.stepId, replacementStepId, newPlanVersion)]);
  }

  /** `_find_step_index`: the first step with that id, or the `ValueError`. */
  method FindStepIndex(steps: seq<PlanStep>, stepId: string) returns (index: Option<nat>)
    ensures index == FirstIndex(steps, stepId)
  {
    for i := 0 to |steps|
      invariant forall k :: 0 <= k < i ==> steps[k].stepId != stepId
    {
      if steps[i].stepId == stepId {
        FirstIndexIs(steps, stepId, i);
        return Some(i);
      }
    }
    return None;
  }

  function FirstIndex(steps: seq<PlanStep>, stepId: string): (index: Option<nat>)
    ensures index.None? <==> stepId !in StepIds(steps)
    ensures index.Some? ==> index.value < |steps| && steps[index.value].stepId == stepId
    ensures index.Some? ==> forall k :: 0 <= k < index.value ==> steps[k].stepId != stepId
  {
    if steps == [] then None
    else if steps[0].stepId == stepId then Some(0)
    else
      assert steps == [steps[0]] + steps[1..];
      match FirstIndex(steps[1..], stepId)
      case None => None
      case Some(k) => Some(k + 1)
  }

  lemma FirstIndexIs(steps: seq<PlanStep>, stepId: string, i: nat)
    requires i < |steps| && steps[i].stepId == stepId
    requires forall k :: 0 <= k < i ==> steps[k].stepId != stepId
    ensures FirstIndex(steps, stepId) == Some(i)
  {
    assert steps[i] in steps;
  }

  function RolledBackStep(step: PlanStep, suffixIds: set<string>, version: int): PlanStep {
    step.(
      stepId := Renamed(step.stepId, version),
      goal := step.goal + ROLLBACK_REPLAN,
      dependsOn := Targets(suffixIds, version, step.dependsOn))
  }

  /** Steps before `index` stay as they are; the rest are renamed. */
  function RolledBackSteps(steps: seq<PlanStep>, index: nat, version: int): (r: seq<PlanStep>)
    requires index <= |steps|
    ensures |r| == |steps|
  {
    seq(|steps|, i requires 0 <= i < |steps| =>
      if i < index then steps[i] else RolledBackStep(steps[i], StepIds(steps[index..]), version))
  }

  function MappingOf(step: PlanStep, version: int): StepIdMapping {
    StepIdMapping(step.stepId, Renamed(step.stepId, version), version)
  }

  function SuffixMappings(steps: seq<PlanStep>, index: nat, version: int): (r: seq<StepIdMapping>)
    requires index <= |steps|
    ensures |r| == |steps| - index
  {
    seq(|steps| - index, i requires 0 <= i < |steps| - index => MappingOf(steps[index + i], version))
  }

  /** The outcome of `_rollback_retry`; none stands for its `ValueError`. */
  function RolledBack(plan: ExecutionPlan, failed: PlanStep, decision: ReplanDecision): Option<ReplanOutcome> {
    var version := plan.planVersion + 1;
    match FirstIndex(plan.steps, failed.stepId)
    case None => None
    case Some(index) => Some(ReplanOutcome(
      plan.(planVersion := version, steps := RolledBackSteps(plan.steps, index, version)),
      decision,
      SuffixMappings(plan.steps, index, version)))
  }

  /** `_rollback_retry`. */
  method DoRollbackRetry(plan: ExecutionPlan, failed: PlanStep, decision: ReplanDecision)
    returns (outcome: Option<ReplanOutcome>)
    ensures outcome == RolledBack(plan, failed, decision)
  {
    var newPlanVersion := plan.planVersion + 1;
    var found := FindStepIndex(plan.steps, failed.stepId);
    if found.None? {
      return None;
    }
    var index := found.value;
    var suffix := plan.steps[index..];
    var stepIdMap := BuildStepIdMap(suffix, newPlanVersion);
    var remapped, mappings := RemapSuffix(suffix, stepIdMap, newPlanVersion);
    var steps := plan.steps[..index] + remapped;
    assert steps == RolledBackSteps(plan.steps, index, newPlanVersion);
    assert mappings == SuffixMappings(plan.steps, index, newPlanVersion);
    outcome := Some(ReplanOutcome(plan.(planVersion := newPlanVersion, steps := steps), decision, mappings));
  }

  method BuildStepIdMap(suffix: seq<PlanStep>, version: int) returns (stepIdMap: map<string, string>)
    ensures stepIdMap.Keys == StepIds(suffix)
    ensures forall id :: id in stepIdMap ==> stepIdMap[id] == Renamed(id, version)
  {
    hide Renamed;
    stepIdMap := map[];
    for i := 0 to |suffix|
      invariant stepIdMap.Keys == StepIds(suffix[..i])
      invariant forall id :: id in stepIdMap ==> stepIdMap[id] == Renamed(id, version)
    {
      assert suffix[..i + 1] == suffix[..i] + [suffix[i]];
      assert StepIds(suffix[..i + 1]) == StepIds(suffix[..i]) + {suffix[i].stepId};
      stepIdMap := stepIdMap[suffix[i].stepId := Renamed(suffix[i].stepId, version)];
    }
    assert suffix[..|suffix|] == suffix;
  }

  method RemapSuffix(suffix: seq<PlanStep>, stepIdMap: map<string, string>, version: int)
    returns (remapped: seq<PlanStep>, mappings: seq<StepIdMapping>)
    requires stepIdMap.Keys == StepIds(suffix)
    requires forall id :: id in stepIdMap ==> stepIdMap[id] == Renamed(id, version)
    ensures |remapped| == |suffix| == |mappings|
    ensures forall i :: 0 <= i < |suffix| ==> remapped[i] == RolledBackStep(suffix[i], StepIds(suffix), version)
    ensures forall i :: 0 <= i < |suffix| ==> mappings[i] == MappingOf(suffix[i], version)
  {
    hide Renamed, Targets;
    remapped, mappings := [], [];
    for i := 0 to |suffix|
      invariant |remapped| == i == |mappings|
      invariant forall k :: 0 <= k < i ==> remapped[k] == RolledBackStep(suffix[k], StepIds(suffix), version)
      invariant forall k :: 0 <= k < i ==> mappings[k] == MappingOf(suffix[k], version)
    {
      var step := suffix[i];
      assert step.stepId in stepIdMap;
      var deps := RemapDependencies(step.dependsOn, stepIdMap, version);
      var remappedStep := step.(
        stepId := stepIdMap[step.stepId], goal := step.goal + ROLLBACK_REPLAN, dependsOn := deps);
      assert remappedStep == RolledBackStep(step, StepIds(suffix), version);
      remapped := remapped + [remappedStep];
      mappings := mappings + [StepIdMapping(step.stepId, stepIdMap[step.stepId], version)];
    }
  }

  method RemapDependencies(dependsOn: seq<string>, stepIdMap: map<string, string>, version: int)
    returns (deps: seq<string>)
    requires forall id :: id in stepIdMap ==> stepIdMap[id] == Renamed(id, version)
    ensures deps == Targets(stepIdMap.Keys, version, dependsOn)
  {
    hide Renamed;
    deps := [];
    for j := 0 to |dependsOn|
      invariant |deps| == j
      invariant forall k :: 0 <= k < j ==> deps[k] == Target(stepIdMap.Keys, version, dependsOn[k])
    {
      deps := deps + [if dependsOn[j] in stepIdMap then stepIdMap[dependsOn[j]] else dependsOn[j]];
    }
  }

  /** The outcome of `replan_after_failure`. */
  function AfterFailure(plan: ExecutionPlan, failed: PlanStep, code: Option<string>): Option<ReplanOutcome> {
    var decision := BuildDecision(code, StepFailed);
    match decision.strategy
    case HumanHandoff => Some(ReplanOutcome(plan, decision, []))
    case LocalReplace => Some(LocalReplaced(plan, failed, decision))
    case RollbackRetry => RolledBack(plan, failed, decision)
  }

  method ReplanAfterFailure(plan: ExecutionPlan, failed: PlanStep, code: Option<string>)
    returns (outcome: Option<ReplanOutcome>)
    ensures outcome == AfterFailure(plan, failed, code)
  {
    var decision := BuildDecision(code, StepFailed);
    if !decision.shouldReplan {
      return Some(ReplanOutcome(plan, decision, []));
    }
    if decision.strategy == LocalReplace {
      var replaced := DoLocalReplace(plan, failed, decision);
      return Some(replaced);
    }
    outcome := DoRollbackRetry(plan, failed, decision);
  }

  /** The outcome of `replan_for_missing_dependency`. */
  function ForMissingDependency(plan: ExecutionPlan, blockedStepId: string): Option<ReplanOutcome> {
    match FirstIndex(plan.steps, blockedStepId)
    case None => None
    case Some(index) =>
      RolledBack(plan, plan.steps[index], ReplanDecision(true, RollbackRetry, MissingDependency, false))
  }

  method ReplanForMissingDependency(plan: ExecutionPlan, blockedStepId: string)
    returns (outcome: Option<ReplanOutcome>)
    ensures outcome == ForMissingDependency(plan, blockedStepId)
  {
    var found := FindStepIndex(plan.steps, blockedStepId);
    if found.None? {
      return None;
    }
    outcome := DoRollbackRetry(
      plan, plan.steps[found.value], ReplanDecision(true, RollbackRetry, MissingDependency, false));
  }
}
