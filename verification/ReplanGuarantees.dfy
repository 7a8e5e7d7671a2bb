/** The guarantees of the two replan strategies, and their exact conditions. */
module ReplanGuarantees {
  import opened Wrappers
  import opened DependencyGraph
  import opened Plans
  import opened StepNames
  import opened Replanner
  import opened ReplanTheory

  lemma NoSelfDependency(steps: seq<PlanStep>, i: nat)
    requires UniqueIds(steps) && Acyclic(GraphOf(steps)) && i < |steps|
    ensures steps[i].stepId !in steps[i].dependsOn
  {
    var g, id := GraphOf(steps), steps[i].stepId;
    GraphOfUnique(steps, i);
    if Edge(g, id, id) {
      assert Cycle(g, [id, id]);
    }
  }

  lemma TargetsUnchanged(ids: set<string>, version: int, deps: seq<string>)
    requires forall d :: d in deps ==> d !in ids
    ensures Targets(ids, version, deps) == deps
  {
  }

  /** `_local_replace` of any step of an acyclic plan yields an isomorphic plan, if the made-up id is not taken. */
  lemma LocalReplaceIsIsomorphic(steps: seq<PlanStep>, i: nat, version: int)
    requires UniqueIds(steps) && Closed(steps) && Acyclic(GraphOf(steps)) && i < |steps|
    requires Renamed(steps[i].stepId, version) !in StepIds(steps)
    ensures Isomorphic(steps, ReplacedSteps(steps, steps[i], version), {steps[i].stepId}, version)
  {
    NoSelfDependency(steps, i);
    LocalReplaceIsInjective(steps, i, version);
    LocalReplaceRenames(steps, i, version);
    hide Renamed, Acyclic, Closed, GraphOf, InjectiveOn, IsRenaming, UniqueIds, ReplacedSteps;
  }

  lemma LocalReplaceRenames(steps: seq<PlanStep>, i: nat, version: int)
    requires UniqueIds(steps) && i < |steps| && steps[i].stepId !in steps[i].dependsOn
    ensures IsRenaming(steps, ReplacedSteps(steps, steps[i], version), {steps[i].stepId}, version)
  {
    var later := ReplacedSteps(steps, steps[i], version);
    hide Targets, Target, SameWork, ReplacedStep;
    forall k | 0 <= k < |steps|
      ensures
        && later[k].dependsOn == Targets({steps[i].stepId}, version, steps[k].dependsOn)
        && later[k].stepId == Target({steps[i].stepId}, version, steps[k].stepId) && SameWork(steps[k], later[k])
    {
      assert later[k] == ReplacedStep(steps[k], steps[i], version);
      ReplacedStepIsRenamed(steps[k], steps[i], version);
    }
  }

  lemma LocalReplaceIsInjective(steps: seq<PlanStep>, i: nat, version: int)
    requires i < |steps| && Renamed(steps[i].stepId, version) !in StepIds(steps)
    ensures InjectiveOn(steps, {steps[i].stepId}, version)
  {
    hide Renamed;
  }

  lemma SettledIdIsNew(steps: seq<PlanStep>, i: nat, version: int)
    requires SettledSteps(steps, version) && i < |steps|
    ensures Renamed(steps[i].stepId, version + 1) !in StepIds(steps)
  {
    hide Renamed;
    forall k | 0 <= k < |steps| ensures steps[k].stepId != Renamed(steps[i].stepId, version + 1) {
      assert Settled(steps[k].stepId, version);
    }
  }

  lemma ReplacedStepIsRenamed(step: PlanStep, failed: PlanStep, version: int)
    requires step.stepId == failed.stepId ==> step == failed
    requires failed.stepId !in failed.dependsOn
    ensures
      var later, ids := ReplacedStep(step, failed, version), {failed.stepId};
      && later.stepId == Target(ids, version, step.stepId)
      && later.dependsOn == Targets(ids, version, step.dependsOn)
      && SameWork(step, later)
  {
    if step == failed {
      TargetsUnchanged({failed.stepId}, version, failed.dependsOn);
    }
  }

  /** Ids stay unique under `_local_replace` exactly when the made-up id is not taken. */
  lemma LocalReplaceUniqueIff(steps: seq<PlanStep>, i: nat, version: int)
    requires UniqueIds(steps) && i < |steps|
    ensures UniqueIds(ReplacedSteps(steps, steps[i], version)) <==> Renamed(steps[i].stepId, version) !in StepIds(steps)
  {
    var later, made := ReplacedSteps(steps, steps[i], version), Renamed(steps[i].stepId, version);
    assert |made| > |steps[i].stepId|;
    forall k | 0 <= k < |steps| ensures later[k].stepId == if k == i then made else steps[k].stepId {
      assert later[k] == ReplacedStep(steps[k], steps[i], version);
    }
    if made in StepIds(steps) {
      var k :| 0 <= k < |steps| && steps[k].stepId == made;
      assert k != i && later[k].stepId == later[i].stepId;
    }
  }

  /** `validate_plan` would accept a locally replaced plan again exactly when the made-up id is not taken. */
  lemma LocalReplaceValidIff(plan: ExecutionPlan, i: nat, decision: ReplanDecision, allowedTools: seq<string>)
    requires ValidPlan(plan, allowedTools) && i < |plan.steps|
    ensures ValidPlan(LocalReplaced(plan, plan.steps[i], decision).plan, allowedTools)
      <==> Renamed(plan.steps[i].stepId, plan.planVersion + 1) !in StepIds(plan.steps)
  {
    hide ReplacedSteps, Renamed, Isomorphic, Closed, Acyclic, UniqueIds, DepthOk, WidthOk, FieldsOk, LimitsOk;
    var later, version := LocalReplaced(plan, plan.steps[i], decision).plan, plan.planVersion + 1;
    LocalReplaceUniqueIff(plan.steps, i, version);
    if Renamed(plan.steps[i].stepId, version) !in StepIds(plan.steps) {
      LocalReplaceIsIsomorphic(plan.steps, i, version);
      IsomorphicPlanIsValid(plan, later, {plan.steps[i].stepId}, version, allowedTools);
    }
  }

  function Stub(id: string, dependsOn: seq<string>): PlanStep {
    PlanStep(id, "goal", "tool.search", Dictionary(map[]), dependsOn, "done", 8, true)
  }

  function StubPlan(steps: seq<PlanStep>): ExecutionPlan {
    ExecutionPlan("request", "session", "trace", 1, steps, [], GraphLimits(6, 4))
  }

  const TOOLS := ["tool.search"]

  /** Made-up ids of version 2, worked out. */
  lemma SecondVersion(id: string)
    ensures Renamed(id, 2) == id + "-replan-v2"
  {
    assert Decimal(2) == "2";
  }

  /** The condition matters: a plan the planner accepts, and does not accept after `_local_replace`. */
  lemma LocalReplaceCanCollide(decision: ReplanDecision)
    ensures
      var plan := StubPlan([Stub("a", []), Stub("a-replan-v2", [])]);
      ValidPlan(plan, TOOLS) && !ValidPlan(LocalReplaced(plan, plan.steps[0], decision).plan, TOOLS)
  {
    var plan := StubPlan([Stub("a", []), Stub("a-replan-v2", [])]);
    assert |plan.steps[0].stepId| != |plan.steps[1].stepId|;
    DependencyOrderIsAcyclic(plan.steps);
    SmallPlanIsValid(plan, TOOLS);
    SecondVersion("a");
    assert "a" + "-replan-v2" == "a-replan-v2" == plan.steps[1].stepId;
    assert plan.steps[1].stepId in StepIds(plan.steps);
    hide ValidPlan, LocalReplaced, Renamed, StepIds;
    LocalReplaceValidIff(plan, 0, decision, TOOLS);
  }

  /** No step before `index` depends on a step at or after it. */
  ghost predicate PrefixIndependent(steps: seq<PlanStep>, index: nat)
    requires index <= |steps|
  {
    forall i, d :: 0 <= i < index && d in steps[i].dependsOn ==> d !in StepIds(steps[index..])
  }

  lemma RolledBackIs(plan: ExecutionPlan, index: nat, decision: ReplanDecision)
    requires UniqueIds(plan.steps) && index < |plan.steps|
    ensures
      var version := plan.planVersion + 1;
      RolledBack(plan, plan.steps[index], decision) == Some(ReplanOutcome(
        plan.(planVersion := version, steps := RolledBackSteps(plan.steps, index, version)),
        decision,
        SuffixMappings(plan.steps, index, version)))
  {
    hide RolledBackSteps, SuffixMappings;
    FirstIndexIs(plan.steps, plan.steps[index].stepId, index);
  }

  /** The ids a rollback makes up. */
  function RenamedSuffix(steps: seq<PlanStep>, index: nat, version: int): set<string>
    requires index <= |steps|
  {
    set id | id in StepIds(steps[index..]) :: Renamed(id, version)
  }

  /** No step before `index` has an id that the rollback makes up. */
  ghost predicate PrefixDistinct(steps: seq<PlanStep>, index: nat, version: int)
    requires index <= |steps|
  {
    forall i :: 0 <= i < index ==> steps[i].stepId !in RenamedSuffix(steps, index, version)
  }

  lemma SuffixHolds(steps: seq<PlanStep>, index: nat)
    requires index <= |steps|
    ensures forall k :: index <= k < |steps| ==> steps[k].stepId in StepIds(steps[index..])
  {
    forall k | index <= k < |steps| ensures steps[k].stepId in StepIds(steps[index..]) {
      assert steps[index..][k - index] == steps[k];
    }
  }

  lemma PrefixOrSuffix(steps: seq<PlanStep>, index: nat, id: string)
    requires index <= |steps| && id in StepIds(steps) && id !in StepIds(steps[index..])
    ensures exists i :: 0 <= i < index && steps[i].stepId == id
  {
    SuffixHolds(steps, index);
    var i :| 0 <= i < |steps| && steps[i].stepId == id;
  }

  lemma RollbackIsInjective(steps: seq<PlanStep>, index: nat, version: int)
    requires index <= |steps| && PrefixDistinct(steps, index, version)
    ensures InjectiveOn(steps, StepIds(steps[index..]), version)
  {
    var ids := StepIds(steps[index..]);
    hide Renamed;
    assert forall a :: a in ids ==> Renamed(a, version) in RenamedSuffix(steps, index, version);
    forall a, b | a in StepIds(steps) && b in StepIds(steps) && Target(ids, version, a) == Target(ids, version, b) ensures a == b {
      if a in ids && b in ids {
        RenamedInjective(a, version, b, version);
      } else if a in ids {
        PrefixOrSuffix(steps, index, b);
      } else if b in ids {
        PrefixOrSuffix(steps, index, a);
      }
    }
  }

  lemma RollbackIsIsomorphic(steps: seq<PlanStep>, index: nat, version: int)
    requires UniqueIds(steps) && Closed(steps) && index <= |steps|
    requires PrefixIndependent(steps, index) && PrefixDistinct(steps, index, version)
    ensures Isomorphic(steps, RolledBackSteps(steps, index, version), StepIds(steps[index..]), version)
  {
    var ids := StepIds(steps[index..]);
    var later := RolledBackSteps(steps, index, version);
    RollbackIsInjective(steps, index, version);
    hide PrefixDistinct, InjectiveOn, Renamed;
    forall k | 0 <= k < |steps|
      ensures later[k].dependsOn == Targets(ids, version, steps[k].dependsOn)
      ensures later[k].stepId == Target(ids, version, steps[k].stepId) && SameWork(steps[k], later[k])
    {
      if k < index {
        TargetsUnchanged(ids, version, steps[k].dependsOn);
        PrefixIdNotInSuffix(steps, index, k);
      } else {
        assert steps[k] == steps[index..][k - index];
      }
    }
  }

  /**
   `_rollback_retry` keeps the meaning of a plan, every step with its work and its
   dependencies mapped along, exactly when no step listed before the failed one depends on
   a step listed at or after it, or has an id that the rollback makes up.
   */
  lemma RollbackIsIsomorphicIff(steps: seq<PlanStep>, index: nat, version: int)
    requires UniqueIds(steps) && Closed(steps) && index <= |steps|
    ensures Isomorphic(steps, RolledBackSteps(steps, index, version), StepIds(steps[index..]), version)
      <==> PrefixIndependent(steps, index) && PrefixDistinct(steps, index, version)
  {
    var ids, later := StepIds(steps[index..]), RolledBackSteps(steps, index, version);
    if PrefixIndependent(steps, index) && PrefixDistinct(steps, index, version) {
      RollbackIsIsomorphic(steps, index, version);
    } else if !PrefixIndependent(steps, index) {
      var i, d :| 0 <= i < index && d in steps[i].dependsOn && d in ids;
      var k :| 0 <= k < |steps[i].dependsOn| && steps[i].dependsOn[k] == d;
      assert Targets(ids, version, steps[i].dependsOn)[k] == Renamed(d, version) != d;
      assert later[i].dependsOn == steps[i].dependsOn;
    } else {
      PrefixCollides(steps, index, version);
    }
  }

  lemma PrefixCollides(steps: seq<PlanStep>, index: nat, version: int)
    requires UniqueIds(steps) && index <= |steps| && !PrefixDistinct(steps, index, version)
    ensures !InjectiveOn(steps, StepIds(steps[index..]), version)
    ensures !UniqueIds(RolledBackSteps(steps, index, version))
  {
    hide Renamed;
    var ids := StepIds(steps[index..]);
    var i :| 0 <= i < index && steps[i].stepId in RenamedSuffix(steps, index, version);
    var d :| d in ids && Renamed(d, version) == steps[i].stepId;
    PrefixIdNotInSuffix(steps, index, i);
    var j :| 0 <= j < |steps| - index && steps[index..][j].stepId == d;
    assert steps[index + j].stepId == d && d in StepIds(steps) && steps[i].stepId in StepIds(steps);
    assert Target(ids, version, steps[i].stepId) == Target(ids, version, d);
    var later := RolledBackSteps(steps, index, version);
    assert later[i].stepId == later[index + j].stepId;
  }

  lemma PrefixIdNotInSuffix(steps: seq<PlanStep>, index: nat, k: nat)
    requires UniqueIds(steps) && k < index <= |steps|
    ensures steps[k].stepId !in StepIds(steps[index..])
  {
  }

  /** A prefix step left pointing at a renamed suffix step points nowhere, or at another step that was given its id. */
  lemma RollbackOrphansPrefix(steps: seq<PlanStep>, index: nat, version: int, i: nat, d: string)
    requires UniqueIds(steps) && i < index <= |steps|
    requires d in steps[i].dependsOn && d in StepIds(steps[index..]) && d !in RenamedSuffix(steps, index, version)
    ensures !Closed(RolledBackSteps(steps, index, version))
  {
    hide Renamed;
    var later := RolledBackSteps(steps, index, version);
    forall k | 0 <= k < |later| ensures later[k].stepId != d {
      if k < index {
        PrefixIdNotInSuffix(steps, index, k);
      } else {
        assert steps[index..][k - index].stepId in StepIds(steps[index..]);
      }
    }
    assert later[i] == steps[i];
  }

  /** No step the rollback renames has an id that the rollback makes up. */
  ghost predicate SuffixDistinct(steps: seq<PlanStep>, index: nat, version: int)
    requires index <= |steps|
  {
    StepIds(steps[index..]) !! RenamedSuffix(steps, index, version)
  }

  /** A prefix step depends on a renamed step whose old id nobody is given. */
  ghost predicate Dangles(steps: seq<PlanStep>, index: nat, version: int)
    requires index <= |steps|
  {
    exists i, d :: 0 <= i < index && d in steps[i].dependsOn && d in StepIds(steps[index..]) && d !in RenamedSuffix(steps, index, version)
  }

  /** The step that a dependency of the prefix points at when the rollback is over, by the id it had before. */
  ghost function Reread(steps: seq<PlanStep>, index: nat, version: int, d: string): (r: string)
    requires index <= |steps|
    ensures r != d ==> d in StepIds(steps[index..]) && r in StepIds(steps[index..]) && Renamed(r, version) == d
    ensures r == d ==> d !in StepIds(steps[index..]) || d !in RenamedSuffix(steps, index, version)
  {
    if d in StepIds(steps[index..]) && d in RenamedSuffix(steps, index, version) then
      (var e :| e in StepIds(steps[index..]) && Renamed(e, version) == d;
       assert |Renamed(e, version)| > |e|; e)
    else d
  }

  ghost function RereadStep(step: PlanStep, steps: seq<PlanStep>, index: nat, version: int): PlanStep
    requires index <= |steps|
  {
    step.(dependsOn := seq(|step.dependsOn|, k requires 0 <= k < |step.dependsOn| => Reread(steps, index, version, step.dependsOn[k])))
  }

  /** The plan before the rollback, with its prefix depending on what it will depend on after it. */
  ghost function RereadSteps(steps: seq<PlanStep>, index: nat, version: int): (r: seq<PlanStep>)
    requires index <= |steps|
    ensures |r| == |steps|
    ensures forall i :: 0 <= i < |steps| ==> r[i] == if i < index then RereadStep(steps[i], steps, index, version) else steps[i]
  {
    seq(|steps|, i requires 0 <= i < |steps| => if i < index then RereadStep(steps[i], steps, index, version) else steps[i])
  }

  /** An independent prefix is read as it is. */
  lemma IndependentIsReread(steps: seq<PlanStep>, index: nat, version: int)
    requires index <= |steps| && PrefixIndependent(steps, index)
    ensures !Dangles(steps, index, version) && RereadSteps(steps, index, version) == steps
  {
    hide Renamed, RenamedSuffix;
    forall i | 0 <= i < index ensures RereadStep(steps[i], steps, index, version) == steps[i] {
      assert forall k :: 0 <= k < |steps[i].dependsOn| ==> steps[i].dependsOn[k] in steps[i].dependsOn;
      assert RereadStep(steps[i], steps, index, version).dependsOn == steps[i].dependsOn;
    }
  }

  lemma RereadIds(steps: seq<PlanStep>, index: nat, version: int)
    requires index <= |steps|
    ensures StepIds(RereadSteps(steps, index, version)) == StepIds(steps)
    ensures UniqueIds(steps) ==> UniqueIds(RereadSteps(steps, index, version))
  {
    hide Reread;
    var r := RereadSteps(steps, index, version);
    assert forall i :: 0 <= i < |steps| ==> r[i].stepId == steps[i].stepId;
    forall id | id in StepIds(steps) ensures id in StepIds(r) {
      var i :| 0 <= i < |steps| && steps[i].stepId == id;
      assert r[i].stepId == id;
    }
  }

  lemma RereadIsClosed(steps: seq<PlanStep>, index: nat, version: int)
    requires Closed(steps) && index <= |steps| && !Dangles(steps, index, version)
    ensures Closed(RereadSteps(steps, index, version))
  {
    var r := RereadSteps(steps, index, version);
    RereadIds(steps, index, version);
    hide Renamed;
    SuffixIdsAreIds(steps, index);
    forall i, e | 0 <= i < |r| && e in r[i].dependsOn ensures e in StepIds(r) {
      if i < index {
        var k :| 0 <= k < |r[i].dependsOn| && r[i].dependsOn[k] == e;
        assert steps[i].dependsOn[k] in steps[i].dependsOn;
      }
    }
  }

  lemma SuffixIdsAreIds(steps: seq<PlanStep>, index: nat)
    requires index <= |steps|
    ensures StepIds(steps[index..]) <= StepIds(steps)
  {
    forall id | id in StepIds(steps[index..]) ensures id in StepIds(steps) {
      var k :| 0 <= k < |steps[index..]| && steps[index..][k].stepId == id;
      assert steps[index + k].stepId == id;
    }
  }

  /** Read that way, a rollback is an isomorphism even if the prefix depends on the suffix. */
  lemma RollbackOfReread(steps: seq<PlanStep>, index: nat, version: int)
    requires UniqueIds(steps) && Closed(steps) && index <= |steps|
    requires PrefixDistinct(steps, index, version) && !Dangles(steps, index, version)
    ensures Isomorphic(RereadSteps(steps, index, version), RolledBackSteps(steps, index, version), StepIds(steps[index..]), version)
  {
    var ids, r := StepIds(steps[index..]), RereadSteps(steps, index, version);
    RereadIds(steps, index, version);
    RereadIsClosed(steps, index, version);
    RollbackIsInjective(steps, index, version);
    var later := RolledBackSteps(steps, index, version);
    hide PrefixDistinct, InjectiveOn, Closed, UniqueIds, RereadSteps;
    forall k | 0 <= k < |steps|
      ensures later[k].dependsOn == Targets(ids, version, r[k].dependsOn)
      ensures later[k].stepId == Target(ids, version, r[k].stepId) && SameWork(r[k], later[k])
    {
      if k < index {
        PrefixStepReread(steps, index, version, k);
      } else {
        assert steps[k] == steps[index..][k - index];
      }
    }
    assert InjectiveOn(r, ids, version) by {
      SameIdsInjective(steps, r, ids, version);
    }
  }

  lemma SameIdsInjective(steps: seq<PlanStep>, r: seq<PlanStep>, ids: set<string>, version: int)
    requires StepIds(r) == StepIds(steps) && InjectiveOn(steps, ids, version)
    ensures InjectiveOn(r, ids, version)
  {
  }

  lemma PrefixStepReread(steps: seq<PlanStep>, index: nat, version: int, k: nat)
    requires UniqueIds(steps) && k < index <= |steps| && !Dangles(steps, index, version)
    ensures
      var ids, r := StepIds(steps[index..]), RereadStep(steps[k], steps, index, version);
      && steps[k].dependsOn == Targets(ids, version, r.dependsOn)
      && steps[k].stepId == Target(ids, version, r.stepId) && SameWork(r, steps[k])
  {
    var ids, r := StepIds(steps[index..]), RereadStep(steps[k], steps, index, version);
    PrefixIdNotInSuffix(steps, index, k);
    hide Renamed, RenamedSuffix, Reread;
    forall j | 0 <= j < |r.dependsOn| ensures Target(ids, version, r.dependsOn[j]) == steps[k].dependsOn[j] {
      assert steps[k].dependsOn[j] in steps[k].dependsOn;
    }
  }

  /**
   Exactly when `validate_plan` would accept a plan again after `_rollback_retry`, for every
   plan it accepts: no prefix step has an id that the rollback makes up, no prefix step
   depends on a renamed step whose old id nobody is given, and the plan would be accepted
   with the prefix depending on what those ids then stand for. A prefix that depends on no
   renamed step needs only the first; and when no renamed step has a made-up id, such a
   prefix is also the only kind that will do.
   */
  lemma RollbackValidIff(plan: ExecutionPlan, index: nat, decision: ReplanDecision, allowedTools: seq<string>)
    requires ValidPlan(plan, allowedTools) && index < |plan.steps|
    ensures RolledBack(plan, plan.steps[index], decision).Some?
    ensures
      var valid := ValidPlan(RolledBack(plan, plan.steps[index], decision).value.plan, allowedTools);
      var steps, version := plan.steps, plan.planVersion + 1;
      && (valid <==>
            && PrefixDistinct(steps, index, version)
            && !Dangles(steps, index, version)
            && ValidPlan(plan.(steps := RereadSteps(steps, index, version)), allowedTools))
      && (PrefixIndependent(steps, index) ==> (valid <==> PrefixDistinct(steps, index, version)))
      && (SuffixDistinct(steps, index, version) ==>
            (valid <==> PrefixDistinct(steps, index, version) && PrefixIndependent(steps, index)))
  {
    RolledBackIs(plan, index, decision);
    hide RolledBack, RolledBackSteps, SuffixMappings, PrefixIndependent, PrefixDistinct, SuffixDistinct, Dangles, ValidPlan;
    var steps, version := plan.steps, plan.planVersion + 1;
    SuffixRenameValidIff(plan, index, RolledBack(plan, steps[index], decision).value.plan, allowedTools);
    if PrefixIndependent(steps, index) {
      IndependentIsReread(steps, index, version);
      assert plan.(steps := steps) == plan;
    } else if SuffixDistinct(steps, index, version) {
      DependentDangles(steps, index, version);
    }
  }

  lemma DependentDangles(steps: seq<PlanStep>, index: nat, version: int)
    requires index <= |steps| && SuffixDistinct(steps, index, version) && !PrefixIndependent(steps, index)
    ensures Dangles(steps, index, version)
  {
    hide RenamedSuffix;
  }

  lemma SuffixRenameValidIff(plan: ExecutionPlan, index: nat, later: ExecutionPlan, allowedTools: seq<string>)
    requires ValidPlan(plan, allowedTools) && index < |plan.steps| && later.graphLimits == plan.graphLimits
    requires later.steps == RolledBackSteps(plan.steps, index, plan.planVersion + 1)
    ensures
      var steps, version := plan.steps, plan.planVersion + 1;
      ValidPlan(later, allowedTools) <==>
        && PrefixDistinct(steps, index, version)
        && !Dangles(steps, index, version)
        && ValidPlan(plan.(steps := RereadSteps(steps, index, version)), allowedTools)
  {
    var steps, version := plan.steps, plan.planVersion + 1;
    hide RolledBackSteps, Renamed, RenamedSuffix, Isomorphic, Closed, Acyclic, PrefixDistinct, RereadStep,
      UniqueIds, StepIds, DepthOk, WidthOk, FieldsOk, LimitsOk;
    if !PrefixDistinct(steps, index, version) {
      PrefixCollides(steps, index, version);
    } else if Dangles(steps, index, version) {
      var i: nat, d :| i < index && d in steps[i].dependsOn && d in StepIds(steps[index..]) && d !in RenamedSuffix(steps, index, version);
      RollbackOrphansPrefix(steps, index, version, i, d);
    } else {
      var reread, ids := plan.(steps := RereadSteps(steps, index, version)), StepIds(steps[index..]);
      RollbackOfReread(steps, index, version);
      RereadFieldsOk(steps, index, version, allowedTools);
      hide ValidPlan, Dangles;
      if ValidPlan(reread, allowedTools) {
        IsomorphicPlanIsValid(reread, later, ids, version, allowedTools);
      }
      if ValidPlan(later, allowedTools) {
        IsomorphicPlanWasValid(reread, later, ids, version, allowedTools);
      }
    }
  }

  lemma RereadFieldsOk(steps: seq<PlanStep>, index: nat, version: int, allowedTools: seq<string>)
    requires index <= |steps| && forall i :: 0 <= i < |steps| ==> FieldsOk(steps[i], allowedTools)
    ensures forall i :: 0 <= i < |steps| ==> FieldsOk(RereadSteps(steps, index, version)[i], allowedTools)
  {
    hide Reread;
  }

  /** An independent prefix is not enough: its id can be the one the rollback makes up. */
  lemma RollbackCanCollide(decision: ReplanDecision)
    ensures
      var plan := StubPlan([Stub("a-replan-v2", []), Stub("a", [])]);
      && ValidPlan(plan, TOOLS) && PrefixIndependent(plan.steps, 1)
      && RolledBack(plan, plan.steps[1], decision).Some?
      && !ValidPlan(RolledBack(plan, plan.steps[1], decision).value.plan, TOOLS)
  {
    var plan := StubPlan([Stub("a-replan-v2", []), Stub("a", [])]);
    assert |plan.steps[0].stepId| != |plan.steps[1].stepId|;
    DependencyOrderIsAcyclic(plan.steps);
    SmallPlanIsValid(plan, TOOLS);
    SecondVersion("a");
    assert "a" + "-replan-v2" == "a-replan-v2" == plan.steps[0].stepId;
    assert plan.steps[1..][0].stepId == "a";
    assert "a" in StepIds(plan.steps[1..]);
    assert plan.steps[0].stepId in RenamedSuffix(plan.steps, 1, 2);
    hide ValidPlan, RolledBack;
    RollbackValidIff(plan, 1, decision, TOOLS);
  }

  /**
   And a dependent prefix does not rule acceptance out: here `p` waits for the third step,
   and after the rollback it waits for what was the second, in a plan the planner accepts.
   */
  lemma RollbackCanRewire(decision: ReplanDecision)
    ensures
      var plan := StubPlan([Stub("p", ["a-replan-v2"]), Stub("a", []), Stub("a-replan-v2", [])]);
      && ValidPlan(plan, TOOLS) && !PrefixIndependent(plan.steps, 1)
      && RolledBack(plan, plan.steps[1], decision).Some?
      && ValidPlan(RolledBack(plan, plan.steps[1], decision).value.plan, TOOLS)
  {
    var plan := StubPlan([Stub("p", ["a-replan-v2"]), Stub("a", []), Stub("a-replan-v2", [])]);
    RewiredBefore(plan);
    RewiredAfter(plan);
    RolledBackIs(plan, 1, decision);
    hide ValidPlan, RolledBack;
    assert plan.steps[1..][1].stepId == "a-replan-v2";
    assert "a-replan-v2" in StepIds(plan.steps[1..]) && "a-replan-v2" in plan.steps[0].dependsOn;
  }

  lemma HeadWaitsForTail(steps: seq<PlanStep>, d: string)
    requires |steps| == 3 && UniqueIds(steps)
    requires steps[0].dependsOn == [d] && steps[1].dependsOn == [] == steps[2].dependsOn
    requires d == steps[1].stepId || d == steps[2].stepId
    ensures Closed(steps) && Acyclic(GraphOf(steps))
  {
    var g, order := GraphOf(steps), [steps[1].stepId, steps[2].stepId, steps[0].stepId];
    GraphOfUnique(steps, 0);
    GraphOfUnique(steps, 1);
    GraphOfUnique(steps, 2);
    assert order[..2] == [order[0], order[1]];
    assert forall id :: id in StepIds(steps) ==> id == order[0] || id == order[1] || id == order[2];
    OrderForbidsCycles(g, order);
  }

  lemma RewiredBefore(plan: ExecutionPlan)
    requires plan == StubPlan([Stub("p", ["a-replan-v2"]), Stub("a", []), Stub("a-replan-v2", [])])
    ensures ValidPlan(plan, TOOLS) && UniqueIds(plan.steps)
  {
    var steps := plan.steps;
    assert steps[0].stepId[0] == 'p' && steps[1].stepId[0] == 'a' && |steps[1].stepId| != |steps[2].stepId|;
    HeadWaitsForTail(steps, steps[2].stepId);
    SmallPlanIsValid(plan, TOOLS);
  }

  lemma RewiredAfter(plan: ExecutionPlan)
    requires plan == StubPlan([Stub("p", ["a-replan-v2"]), Stub("a", []), Stub("a-replan-v2", [])])
    ensures ValidPlan(plan.(planVersion := 2, steps := RolledBackSteps(plan.steps, 1, 2)), TOOLS)
  {
    var steps := RolledBackSteps(plan.steps, 1, 2);
    SecondVersion("a");
    SecondVersion("a-replan-v2");
    assert steps[0].stepId == "p" && steps[1].stepId == "a-replan-v2";
    assert |steps[2].stepId| > |steps[1].stepId|;
    assert steps[1].dependsOn == [] == steps[2].dependsOn;
    HeadWaitsForTail(steps, "a-replan-v2");
    SmallPlanIsValid(plan.(planVersion := 2, steps := steps), TOOLS);
  }

  /** Listing the steps in dependency order, as the repository's strategy does, is enough. */
  lemma OrderedPrefixIsIndependent(steps: seq<PlanStep>, index: nat)
    requires UniqueIds(steps) && DependencyOrdered(steps) && index <= |steps|
    ensures PrefixIndependent(steps, index)
  {
    forall i, d | 0 <= i < index && d in steps[i].dependsOn ensures d !in StepIds(steps[index..]) {
      var j :| 0 <= j < i && steps[j].stepId == d;
      PrefixIdNotInSuffix(steps, index, j);
    }
  }

  /** What an executable plan satisfies throughout a run. */
  ghost predicate Workable(plan: ExecutionPlan) {
    && UniqueIds(plan.steps)
    && DependencyOrdered(plan.steps)
    && SettledSteps(plan.steps, plan.planVersion)
  }

  /** The step ids a replan renames. */
  function Sources(mappings: seq<StepIdMapping>): set<string> {
    set m | m in mappings :: m.sourceStepId
  }

  /** Reads a step id through one replan's mapping. */
  function Follow(mappings: seq<StepIdMapping>, id: string): string {
    if mappings == [] then id
    else if mappings[0].sourceStepId == id then mappings[0].targetStepId
    else Follow(mappings[1..], id)
  }

  lemma {:induction false} FollowIsTarget(mappings: seq<StepIdMapping>, version: int, id: string)
    requires forall m :: m in mappings ==> m.targetStepId == Renamed(m.sourceStepId, version)
    ensures Follow(mappings, id) == Target(Sources(mappings), version, id)
  {
    if mappings != [] {
      assert mappings == [mappings[0]] + mappings[1..];
      FollowIsTarget(mappings[1..], version, id);
    }
  }

  /** One replan, as recorded: version up by one, an isomorphic plan, and the mapping that says so. */
  ghost predicate Replans(plan: ExecutionPlan, outcome: ReplanOutcome) {
    && outcome.plan.planVersion == plan.planVersion + 1
    && outcome.plan == plan.(planVersion := plan.planVersion + 1, steps := outcome.plan.steps)
    && (forall m :: m in outcome.mappings ==>
         m.targetStepId == Renamed(m.sourceStepId, plan.planVersion + 1) && m.planVersion == plan.planVersion + 1)
    && Isomorphic(plan.steps, outcome.plan.steps, Sources(outcome.mappings), plan.planVersion + 1)
    && Sources(outcome.mappings) <= StepIds(plan.steps)
  }

  lemma OneMapping(m: StepIdMapping)
    ensures Sources([m]) == {m.sourceStepId}
    ensures forall n :: n in [m] ==> n == m
  {
    assert m in [m];
  }

  lemma ReplacementReplans(plan: ExecutionPlan, i: nat, outcome: ReplanOutcome, m: StepIdMapping)
    requires Workable(plan) && i < |plan.steps|
    requires outcome.plan == plan.(
      planVersion := plan.planVersion + 1, steps := ReplacedSteps(plan.steps, plan.steps[i], plan.planVersion + 1))
    requires outcome.mappings == [m] && m == MappingOf(plan.steps[i], plan.planVersion + 1)
    ensures Replans(plan, outcome)
  {
    OneMapping(m);
    hide ReplacedSteps, Renamed, Isomorphic, Closed, Acyclic, SettledSteps, DependencyOrdered, UniqueIds, Sources;
    DependencyOrderIsAcyclic(plan.steps);
    SettledIdIsNew(plan.steps, i, plan.planVersion);
    LocalReplaceIsIsomorphic(plan.steps, i, plan.planVersion + 1);
    assert plan.steps[i].stepId in StepIds(plan.steps);
  }

  lemma LocalReplaceReplans(plan: ExecutionPlan, i: nat, decision: ReplanDecision)
    requires Workable(plan) && i < |plan.steps|
    ensures Replans(plan, LocalReplaced(plan, plan.steps[i], decision))
  {
    hide Workable, Replans, ReplacedSteps, Renamed;
    var outcome := LocalReplaced(plan, plan.steps[i], decision);
    ReplacementReplans(plan, i, outcome, outcome.mappings[0]);
  }

  /** Steps `i` to `end` are renamed and marked in their goals, and mapped in plan order; all other steps keep id and goal. */
  ghost predicate Marks(plan: ExecutionPlan, outcome: ReplanOutcome, i: nat, end: nat, mark: string) {
    var later, mappings := outcome.plan.steps, outcome.mappings;
    && |later| == |plan.steps| && i <= end <= |later| && |mappings| == end - i
    && (forall k :: 0 <= k < |later| && !(i <= k < end) ==>
          later[k].stepId == plan.steps[k].stepId && later[k].goal == plan.steps[k].goal)
    && (forall k :: i <= k < end ==> later[k].goal == plan.steps[k].goal + mark)
    && (forall j :: 0 <= j < |mappings| ==>
          mappings[j] == StepIdMapping(plan.steps[i + j].stepId, later[i + j].stepId, plan.planVersion + 1))
  }

  lemma ReplacementMarks(plan: ExecutionPlan, i: nat, decision: ReplanDecision)
    requires UniqueIds(plan.steps) && i < |plan.steps|
    ensures Marks(plan, LocalReplaced(plan, plan.steps[i], decision), i, i + 1, " (replanned)")
  {
    hide Renamed, Targets;
  }

  lemma RollbackMarks(plan: ExecutionPlan, i: nat, decision: ReplanDecision, mark: string)
    requires UniqueIds(plan.steps) && i < |plan.steps| && mark == ROLLBACK_REPLAN
    ensures
      var o := RolledBack(plan, plan.steps[i], decision);
      o.Some? && Marks(plan, o.value, i, |plan.steps|, mark)
  {
    hide RolledBack, Renamed, RolledBackSteps, SuffixMappings, UniqueIds, ROLLBACK_REPLAN;
    RolledBackIs(plan, i, decision);
    RolledBackStepsAre(plan.steps, i, plan.planVersion + 1, mark);
    SuffixMappingsAre(plan.steps, i, plan.planVersion + 1);
  }

  lemma RolledBackStepsAre(steps: seq<PlanStep>, i: nat, version: int, mark: string)
    requires i <= |steps| && mark == ROLLBACK_REPLAN
    ensures
      var later := RolledBackSteps(steps, i, version);
      forall k :: 0 <= k < |steps| ==>
        if k < i then later[k] == steps[k]
        else later[k].stepId == Renamed(steps[k].stepId, version) && later[k].goal == steps[k].goal + mark
  {
    hide Renamed, Targets;
  }

  lemma SuffixMappingsAre(steps: seq<PlanStep>, i: nat, version: int)
    requires i <= |steps|
    ensures
      var mappings := SuffixMappings(steps, i, version);
      forall j :: 0 <= j < |mappings| ==>
        mappings[j] == StepIdMapping(steps[i + j].stepId, Renamed(steps[i + j].stepId, version), version)
  {
    hide Renamed;
    var mappings := SuffixMappings(steps, i, version);
    forall j | 0 <= j < |mappings|
      ensures mappings[j] == StepIdMapping(steps[i + j].stepId, Renamed(steps[i + j].stepId, version), version)
    {
      assert mappings[j] == MappingOf(steps[i + j], version);
    }
  }

  /** What a replan renames and marks: the failed step alone, or all steps from it on. */
  lemma ReplanMarks(plan: ExecutionPlan, i: nat, code: Option<string>)
    requires UniqueIds(plan.steps) && i < |plan.steps|
    ensures
      var o := AfterFailure(plan, plan.steps[i], code);
      && o.Some?
      && match o.value.decision.strategy
         case HumanHandoff => o.value.plan == plan && o.value.mappings == []
         case LocalReplace => Marks(plan, o.value, i, i + 1, " (replanned)")
         case RollbackRetry => Marks(plan, o.value, i, |plan.steps|, " (rollback-replan)")
  {
    var decision := BuildDecision(code, StepFailed);
    ReplacementMarks(plan, i, decision);
    RollbackMarks(plan, i, decision, ROLLBACK_REPLAN);
    hide Marks, ReplacedSteps, RolledBackSteps, SuffixMappings, FirstIndex, Renamed, BuildDecision;
  }

  lemma SuffixSources(steps: seq<PlanStep>, index: nat, version: int)
    requires index <= |steps|
    ensures Sources(SuffixMappings(steps, index, version)) == StepIds(steps[index..])
  {
    var mappings := SuffixMappings(steps, index, version);
    forall id | id in StepIds(steps[index..]) ensures id in Sources(mappings) {
      var j :| 0 <= j < |steps| - index && steps[index..][j].stepId == id;
      assert mappings[j] in mappings && mappings[j].sourceStepId == id;
    }
    forall id | id in Sources(mappings) ensures id in StepIds(steps[index..]) {
      var m :| m in mappings && m.sourceStepId == id;
      var j :| 0 <= j < |mappings| && mappings[j] == m;
      assert mappings[j] == MappingOf(steps[index + j], version);
      assert steps[index..][j] == steps[index + j];
    }
  }

  lemma SuffixMappingsRename(steps: seq<PlanStep>, index: nat, version: int)
    requires index <= |steps|
    ensures forall m :: m in SuffixMappings(steps, index, version) ==>
      m.targetStepId == Renamed(m.sourceStepId, version) && m.planVersion == version
  {
    hide Renamed;
    var mappings := SuffixMappings(steps, index, version);
    forall m | m in mappings ensures m == MappingOf(Stub(m.sourceStepId, []), version) {
      var j :| 0 <= j < |mappings| && mappings[j] == m;
      assert mappings[j] == MappingOf(steps[index + j], version);
    }
  }

  lemma SettledPrefixIsDistinct(steps: seq<PlanStep>, index: nat, version: int)
    requires SettledSteps(steps, version) && index <= |steps|
    ensures PrefixDistinct(steps, index, version + 1)
  {
    hide Renamed;
    forall i | 0 <= i < index ensures steps[i].stepId !in RenamedSuffix(steps, index, version + 1) {
      assert Settled(steps[i].stepId, version);
    }
  }

  /** The suffix rename is a proper replan, whichever step it starts from. */
  lemma SuffixReplans(plan: ExecutionPlan, i: nat, outcome: ReplanOutcome)
    requires Workable(plan) && i < |plan.steps|
    requires outcome.plan == plan.(planVersion := plan.planVersion + 1, steps := RolledBackSteps(plan.steps, i, plan.planVersion + 1))
    requires outcome.mappings == SuffixMappings(plan.steps, i, plan.planVersion + 1)
    ensures Replans(plan, outcome)
  {
    hide RolledBackSteps, SuffixMappings, Renamed, Isomorphic, Closed, Acyclic, SettledSteps, DependencyOrdered,
      PrefixIndependent, PrefixDistinct, UniqueIds, StepIds, Sources;
    DependencyOrderIsAcyclic(plan.steps);
    OrderedPrefixIsIndependent(plan.steps, i);
    SettledPrefixIsDistinct(plan.steps, i, plan.planVersion);
    RollbackIsIsomorphic(plan.steps, i, plan.planVersion + 1);
    SuffixSources(plan.steps, i, plan.planVersion + 1);
    SuffixMappingsRename(plan.steps, i, plan.planVersion + 1);
    SuffixIdsAreIds(plan.steps, i);
  }

  lemma RollbackReplans(plan: ExecutionPlan, i: nat, decision: ReplanDecision)
    requires Workable(plan) && i < |plan.steps|
    ensures RolledBack(plan, plan.steps[i], decision).Some?
    ensures Replans(plan, RolledBack(plan, plan.steps[i], decision).value)
  {
    RolledBackIs(plan, i, decision);
    hide RolledBack, RolledBackSteps, SuffixMappings, Replans, Workable;
    SuffixReplans(plan, i, RolledBack(plan, plan.steps[i], decision).value);
  }

  lemma ReplansParts(plan: ExecutionPlan, outcome: ReplanOutcome)
    requires Replans(plan, outcome)
    ensures outcome.plan.planVersion == plan.planVersion + 1
    ensures Isomorphic(plan.steps, outcome.plan.steps, Sources(outcome.mappings), plan.planVersion + 1)
    ensures IsRenaming(plan.steps, outcome.plan.steps, Sources(outcome.mappings), plan.planVersion + 1)
  {
    hide IsRenaming, Sources;
  }

  /** A replan of a workable plan is workable, so no number of replans can block it. */
  lemma ReplanStaysWorkable(plan: ExecutionPlan, outcome: ReplanOutcome)
    requires Workable(plan) && Replans(plan, outcome)
    ensures Workable(outcome.plan)
  {
    hide IsRenaming, Isomorphic, UniqueIds, DependencyOrdered, SettledSteps, Sources, Replans;
    ReplansParts(plan, outcome);
    RenamedIsWorkable(plan.steps, outcome.plan.steps, Sources(outcome.mappings), plan.planVersion);
  }

  lemma RenamedIsWorkable(before: seq<PlanStep>, later: seq<PlanStep>, ids: set<string>, version: int)
    requires Isomorphic(before, later, ids, version + 1) && IsRenaming(before, later, ids, version + 1)
    requires DependencyOrdered(before) && SettledSteps(before, version)
    ensures UniqueIds(later) && DependencyOrdered(later) && SettledSteps(later, version + 1)
  {
    hide IsRenaming, Isomorphic, UniqueIds, DependencyOrdered, SettledSteps;
    UniquePreserved(before, later, ids, version + 1);
    OrderPreserved(before, later, ids, version + 1);
    RenamedStepsStaySettled(before, later, ids, version);
  }

  /** Reads an original step id through a whole replan history. */
  function Trace(history: seq<ReplanOutcome>, id: string): string {
    if history == [] then id
    else Follow(history[|history| - 1].mappings, Trace(history[..|history| - 1], id))
  }

  /** `current` is `original` seen through the mappings of `history`. */
  ghost predicate Descends(original: ExecutionPlan, current: ExecutionPlan, history: seq<ReplanOutcome>) {
    && current.planVersion == original.planVersion + |history|
    && |current.steps| == |original.steps|
    && (forall k :: 0 <= k < |history| ==> history[k].plan.planVersion == original.planVersion + k + 1)
    && forall i :: 0 <= i < |original.steps| ==> DescendsAt(original, current, history, i)
  }

  ghost predicate DescendsAt(original: ExecutionPlan, current: ExecutionPlan, history: seq<ReplanOutcome>, i: nat)
    requires i < |original.steps| == |current.steps|
  {
    var a, b := original.steps[i], current.steps[i];
    && b.stepId == Trace(history, a.stepId)
    && |b.dependsOn| == |a.dependsOn|
    && (forall k :: 0 <= k < |a.dependsOn| ==> b.dependsOn[k] == Trace(history, a.dependsOn[k]))
    && SameWork(a, b)
  }

  lemma DescentExtends(original: ExecutionPlan, plan: ExecutionPlan, history: seq<ReplanOutcome>, outcome: ReplanOutcome)
    requires Descends(original, plan, history) && Replans(plan, outcome)
    ensures Descends(original, outcome.plan, history + [outcome])
  {
    var longer, version, ids := history + [outcome], plan.planVersion + 1, Sources(outcome.mappings);
    assert longer[..|longer| - 1] == history;
    forall id ensures Trace(longer, id) == Target(ids, version, Trace(history, id)) {
      FollowIsTarget(outcome.mappings, version, Trace(history, id));
    }
    forall i | 0 <= i < |original.steps| ensures DescendsAt(original, outcome.plan, longer, i) {
      assert DescendsAt(original, plan, history, i);
    }
  }
}
