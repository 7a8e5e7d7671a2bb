/** The planner's own strategy: the plans it lists meet everything the executor's guarantees ask for. */
module PlanningStrategy {
  import opened Plans
  import opened StepNames
  import opened SessionGuarantees

  /** The steps of an analysis request: two independent collectors and a check that needs both. */
  function AnalysisSteps(userInput: string, timeoutSeconds: int): seq<PlanStep> {
    [ PlanStep("step-1", "collect external context", "tool.search",
               Dictionary(map["query" := userInput, "top_k" := "5"]), [],
               "search returns at least one item", timeoutSeconds, true),
      PlanStep("step-2", "collect structured metrics", "tool.query_db",
               Dictionary(map["sql" := "SELECT 1 AS ok", "limit" := "10"]), [],
               "query returns at least one row", timeoutSeconds, true),
      PlanStep("step-3", "final consistency check", "tool.search",
               Dictionary(map["query" := "summary check: " + userInput, "top_k" := "3"]), ["step-1", "step-2"],
               "summary check result is available", timeoutSeconds, true) ]
  }

  /**
   A plan with well-formed steps, unique plain ids and a listing in dependency order is
   accepted, and fit for the executor, as soon as it has no more steps than its limits.
   */
  lemma SmallOrderedPlanIsSubmittable(plan: ExecutionPlan, allowedTools: seq<string>)
    requires plan.steps != [] && UniqueIds(plan.steps) && DependencyOrdered(plan.steps)
    requires forall i :: 0 <= i < |plan.steps| ==> FieldsOk(plan.steps[i], allowedTools) && 'v' !in plan.steps[i].stepId
    requires |plan.steps| <= plan.graphLimits.maxDepth && |plan.steps| <= plan.graphLimits.maxParallel
    ensures Submittable(plan, allowedTools)
  {
    DependencyOrderIsAcyclic(plan.steps);
    SmallPlanIsValid(plan, allowedTools);
    forall i | 0 <= i < |plan.steps| ensures Settled(plan.steps[i].stepId, plan.planVersion) {
      PlainIdIsSettled(plan.steps[i].stepId, plan.planVersion);
    }
  }

  /** The repository's own analysis plan, under the default limits, is one of them. */
  lemma AnalysisPlanIsSubmittable(plan: ExecutionPlan, userInput: string, timeoutSeconds: int, allowedTools: seq<string>)
    requires plan.steps == AnalysisSteps(userInput, timeoutSeconds) && timeoutSeconds >= 1
    requires plan.graphLimits == GraphLimits(6, 4)
    requires "tool.search" in allowedTools && "tool.query_db" in allowedTools
    ensures Submittable(plan, allowedTools)
  {
    var steps := plan.steps;
    assert steps[0].stepId[5] == '1' && steps[1].stepId[5] == '2' && steps[2].stepId[5] == '3';
    forall i, d | 0 <= i < |steps| && d in steps[i].dependsOn ensures exists j :: 0 <= j < i && steps[j].stepId == d {
      assert i == 2 && (d == steps[0].stepId || d == steps[1].stepId);
    }
    SmallOrderedPlanIsSubmittable(plan, allowedTools);
  }
}
