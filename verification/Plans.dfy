/** The planner's data: steps, limits and plans, and what a well-formed plan is. */
module Plans {
  import opened DependencyGraph

  datatype GraphLimits = GraphLimits(maxDepth: int, maxParallel: int)

  /** A step's payload: a dictionary, or some other value the validator rejects. */
  datatype Payload = Dictionary(entries: map<string, string>) | NotADictionary(text: string)

  datatype PlanStep = PlanStep(
    stepId: string,
    goal: string,
    toolId: string,
    payload: Payload,
    dependsOn: seq<string>,
    doneCriteria: string,
    timeoutSeconds: int,
    allowRollback: bool
  )

  datatype ExecutionPlan = ExecutionPlan(
    requestId: string,
    sessionId: string,
    traceId: string,
    planVersion: int,
    steps: seq<PlanStep>,
    riskFlags: seq<string>,
    graphLimits: GraphLimits
  )

  function StepIds(steps: seq<PlanStep>): set<string> {
    set i | 0 <= i < |steps| :: steps[i].stepId
  }

  /** `{step.step_id: list(step.depends_on) for step in steps}`: a later duplicate wins. */
  function GraphOf(steps: seq<PlanStep>): (g: Graph)
    ensures forall id :: id in g <==> id in StepIds(steps)
  {
    if steps == [] then map[]
    else
      var n := |steps| - 1;
      assert steps == steps[..n] + [steps[n]];
      GraphOf(steps[..n])[steps[n].stepId := steps[n].dependsOn]
  }

  ghost predicate UniqueIds(steps: seq<PlanStep>) {
    forall i, j :: 0 <= i < j < |steps| ==> steps[i].stepId != steps[j].stepId
  }

  lemma {:induction false} GraphOfUnique(steps: seq<PlanStep>, i: nat)
    requires UniqueIds(steps) && i < |steps|
    ensures steps[i].stepId in GraphOf(steps) && GraphOf(steps)[steps[i].stepId] == steps[i].dependsOn
  {
    var n := |steps| - 1;
    if i < n {
      GraphOfUnique(steps[..n], i);
    }
  }

  /** Every dependency names a step of the plan. */
  ghost predicate Closed(steps: seq<PlanStep>) {
    forall i, d {:trigger d in steps[i].dependsOn} :: 0 <= i < |steps| && d in steps[i].dependsOn ==> d in StepIds(steps)
  }

  lemma ClosedNodes(steps: seq<PlanStep>, id: string, d: string)
    requires UniqueIds(steps) && Closed(steps) && Edge(GraphOf(steps), id, d)
    ensures d in GraphOf(steps)
  {
    var i :| 0 <= i < |steps| && steps[i].stepId == id;
    GraphOfUnique(steps, i);
  }

  /** The list order is a dependency order: each step follows all it depends on. */
  ghost predicate DependencyOrdered(steps: seq<PlanStep>) {
    forall i, d :: 0 <= i < |steps| && d in steps[i].dependsOn ==>
      exists j :: 0 <= j < i && steps[j].stepId == d
  }

  /** How many steps share one depth. */
  ghost function Level(g: Graph, depth: int): set<string>
    requires Acyclic(g)
  {
    set id | id in g && DepthOf(g, id) == depth
  }

  predicate FieldsOk(step: PlanStep, allowedTools: seq<string>) {
    && step.stepId != "" && step.goal != "" && step.doneCriteria != "" && step.toolId != ""
    && step.toolId in allowedTools
    && step.payload.Dictionary?
    && step.timeoutSeconds >= 1
  }

  /** No check of a step's fields is idle: an accepted step is refused when any one of them is spoilt. */
  lemma EachFieldMatters(step: PlanStep, allowedTools: seq<string>, timeout: int, text: string)
    requires FieldsOk(step, allowedTools) && timeout <= 0
    ensures !FieldsOk(step.(stepId := ""), allowedTools) && !FieldsOk(step.(goal := ""), allowedTools)
    ensures !FieldsOk(step.(doneCriteria := ""), allowedTools) && !FieldsOk(step.(toolId := ""), allowedTools)
    ensures forall tools :: step.toolId !in tools ==> !FieldsOk(step, tools)
    ensures !FieldsOk(step.(payload := NotADictionary(text)), allowedTools)
    ensures !FieldsOk(step.(timeoutSeconds := timeout), allowedTools)
  {
  }

  ghost predicate LimitsOk(limits: GraphLimits) {
    limits.maxDepth >= 1 && limits.maxParallel >= 1
  }

  /** No dependency chain of the plan is longer than the depth limit. */
  ghost predicate DepthOk(g: Graph, maxDepth: int) {
    forall p {:trigger Walk(g, p)} :: Walk(g, p) && p[0] in g ==> |p| <= maxDepth
  }

  /** No more steps than the parallelism limit share one depth. */
  ghost predicate WidthOk(g: Graph, maxParallel: int)
    requires Acyclic(g)
  {
    forall depth :: |Level(g, depth)| <= maxParallel
  }

  /** What `validate_plan` is for, stated without its algorithms. */
  ghost predicate ValidPlan(plan: ExecutionPlan, allowedTools: seq<string>) {
    && LimitsOk(plan.graphLimits)
    && (forall i :: 0 <= i < |plan.steps| ==> FieldsOk(plan.steps[i], allowedTools))
    && UniqueIds(plan.steps)
    && Closed(plan.steps)
    && Acyclic(GraphOf(plan.steps))
    && plan.steps != []
    && DepthOk(GraphOf(plan.steps), plan.graphLimits.maxDepth)
    && WidthOk(GraphOf(plan.steps), plan.graphLimits.maxParallel)
  }

  function IdSequence(steps: seq<PlanStep>): seq<string> {
    seq(|steps|, i requires 0 <= i < |steps| => steps[i].stepId)
  }

  /** A dependency-ordered plan is closed and acyclic. */
  lemma DependencyOrderIsAcyclic(steps: seq<PlanStep>)
    requires UniqueIds(steps) && DependencyOrdered(steps)
    ensures Closed(steps) && Acyclic(GraphOf(steps))
  {
    var g, order := GraphOf(steps), IdSequence(steps);
    forall i, d | 0 <= i < |order| && Edge(g, order[i], d) ensures d in order[..i] {
      GraphOfUnique(steps, i);
      var j :| 0 <= j < i && steps[j].stepId == d;
      assert order[..i][j] == d;
    }
    assert TopologicalOrder(g, order);
    forall id | id in g ensures id in order {
      var i :| 0 <= i < |steps| && steps[i].stepId == id;
      assert order[i] == id;
    }
    OrderForbidsCycles(g, order);
  }

  lemma {:induction false} LevelsPartition(g: Graph, ids: set<string>, depth: nat, width: nat)
    requires Acyclic(g) && WidthOk(g, width)
    requires forall id :: id in ids ==> id in g && 1 <= DepthOf(g, id) <= depth
    ensures |ids| <= depth * width
  {
    if depth == 0 {
      assert ids == {};
    } else {
      var level := Level(g, depth);
      var top, rest := ids * level, ids - level;
      forall id | id in rest ensures DepthOf(g, id) <= depth - 1 {
        assert DepthOf(g, id) != depth;
      }
      LevelsPartition(g, rest, depth - 1, width);
      SubsetSize(top, level);
      assert ids == rest + top && rest !! top;
      LevelArithmetic(depth, width, |rest|, |top|);
    }
  }

  lemma LevelArithmetic(depth: nat, width: nat, below: nat, top: nat)
    requires depth > 0 && below <= (depth - 1) * width && top <= width
    ensures below + top <= depth * width
  {
    assert depth * width == (depth - 1) * width + width;
  }

  lemma {:induction false} SubsetSize(a: set<string>, b: set<string>)
    requires a <= b
    ensures |a| <= |b|
  {
    assert |b| == |b - a| + |b * a|;
    assert b * a == a;
  }

  lemma {:induction false} UniqueIdCount(steps: seq<PlanStep>)
    requires UniqueIds(steps)
    ensures |StepIds(steps)| == |steps|
  {
    if steps != [] {
      var n := |steps| - 1;
      UniqueIdCount(steps[..n]);
      assert StepIds(steps) == StepIds(steps[..n]) + {steps[n].stepId} by {
        assert steps == steps[..n] + [steps[n]];
      }
      assert steps[n].stepId !in StepIds(steps[..n]);
    }
  }

  /** An accepted plan has at most `max_depth * max_parallel` steps. */
  lemma AcceptedPlanIsSmall(plan: ExecutionPlan, allowedTools: seq<string>)
    requires ValidPlan(plan, allowedTools)
    ensures |plan.steps| <= plan.graphLimits.maxDepth * plan.graphLimits.maxParallel
  {
    var g := GraphOf(plan.steps);
    forall id | id in g ensures 1 <= DepthOf(g, id) <= plan.graphLimits.maxDepth {
      DepthPositive(g, id);
      assert LongestChain(g, id, DepthOf(g, id));
    }
    LevelsPartition(g, g.Keys, plan.graphLimits.maxDepth, plan.graphLimits.maxParallel);
    UniqueIdCount(plan.steps);
    assert g.Keys == StepIds(plan.steps);
  }

  lemma NodesAreSteps(steps: seq<PlanStep>)
    requires UniqueIds(steps) && Closed(steps)
    ensures Nodes(GraphOf(steps)) == StepIds(steps)
  {
    var g := GraphOf(steps);
    forall id | id in Nodes(g) ensures id in StepIds(steps) {
      if id !in g {
        var a :| a in g.Keys && id in g[a];
        ClosedNodes(steps, a, id);
      }
    }
  }

  /** A closed acyclic plan of well-formed steps that has no more steps than its limits is accepted. */
  lemma SmallPlanIsValid(plan: ExecutionPlan, allowedTools: seq<string>)
    requires plan.steps != [] && UniqueIds(plan.steps) && Closed(plan.steps) && Acyclic(GraphOf(plan.steps))
    requires forall i :: 0 <= i < |plan.steps| ==> FieldsOk(plan.steps[i], allowedTools)
    requires |plan.steps| <= plan.graphLimits.maxDepth && |plan.steps| <= plan.graphLimits.maxParallel
    ensures ValidPlan(plan, allowedTools)
  {
    var g := GraphOf(plan.steps);
    UniqueIdCount(plan.steps);
    NodesAreSteps(plan.steps);
    hide UniqueIds, Closed, Acyclic, FieldsOk;
    forall p {:trigger Walk(g, p)} | Walk(g, p) && p[0] in g ensures |p| <= plan.graphLimits.maxDepth {
      WalkFits(g, p);
    }
    forall depth ensures |Level(g, depth)| <= plan.graphLimits.maxParallel {
      SubsetSize(Level(g, depth), StepIds(plan.steps));
    }
  }
}
