/** `Planner.validate_plan` and its five checks. */
module Planner {
  import opened Wrappers
  import opened DependencyGraph
  import opened Plans

  /** The outcome of `validate_plan`: acceptance, or the check that raised. */
  datatype Verdict =
    | Accepted
    | LimitTooSmall
    | BadStep(index: nat)
    | UnknownDependency(index: nat, dependency: string)
    | CycleAt(stepId: string)
    | EmptyPlan
    | TooDeep(depth: int)
    | TooWide(width: int)

  /** The recursive search of `_validate_acyclic` with its `visiting` and `visited` sets. */
  class CycleSearch {
    const dependencyMap: Graph
    var visiting: set<string>
    var visited: set<string>
    ghost var order: seq<string>  // ids in the order they entered `visited`

    ghost predicate Valid()
      reads this
    {
      && visiting !! visited
      && (forall id :: id in visited <==> id in order)
      && TopologicalOrder(dependencyMap, order)
    }

    constructor (g: Graph)
      ensures Valid() && visiting == {} && visited == {} && dependencyMap == g
    {
      dependencyMap := g;
      visiting, visited, order := {}, {}, [];
    }

    method Dfs(id: string, ghost stack: seq<string>) returns (cycleAt: Option<string>)
      requires Valid()
      requires id in Nodes(dependencyMap)
      requires Walk(dependencyMap, stack + [id])
      requires forall s :: s in visiting <==> s in stack
      modifies this
      ensures cycleAt.None? ==> Valid() && visiting == old(visiting)
      ensures cycleAt.None? ==> id in visited && old(visited) <= visited
      ensures cycleAt.Some? ==> !Acyclic(dependencyMap)
      decreases Nodes(dependencyMap) - visiting - visited
    {
      if id in visited {
        return None;
      }
      if id in visiting {
        StackClosesCycle(dependencyMap, stack, id);
        return Some(id);
      }
      ghost var unexplored := Nodes(dependencyMap) - visiting - visited;
      assert id in unexplored;
      visiting := visiting + {id};
      var deps := Deps(dependencyMap, id);
      for i := 0 to |deps|
        invariant Valid() && visiting == old(visiting) + {id}
        invariant old(visited) <= visited
        invariant forall k :: 0 <= k < i ==> deps[k] in visited
      {
        assert Edge(dependencyMap, id, deps[i]);
        StackGrows(dependencyMap, stack + [id], deps[i]);
        assert Nodes(dependencyMap) - visiting - visited < unexplored;
        cycleAt := Dfs(deps[i], stack + [id]);
        if cycleAt.Some? {
          return;
        }
      }
      visiting := visiting - {id};
      visited := visited + {id};
      assert visiting == old(visiting);
      OrderGrows(dependencyMap, order, id);
      order := order + [id];
      return None;
    }
  }

  lemma StackClosesCycle(g: Graph, stack: seq<string>, id: string)
    requires Walk(g, stack + [id]) && id in stack
    ensures !Acyclic(g)
  {
    var i :| 0 <= i < |stack| && stack[i] == id;
    var p := stack + [id];
    SubWalk(g, p, i, |p|);
    assert Cycle(g, p[i..]);
  }

  lemma StackGrows(g: Graph, stack: seq<string>, d: string)
    requires Walk(g, stack) && Edge(g, stack[|stack| - 1], d)
    ensures Walk(g, stack + [d])
  {
    var p := stack + [d];
    forall i | 0 <= i < |p| - 1 ensures Edge(g, p[i], p[i + 1]) {
      if i + 1 < |stack| {
        WalkEdge(g, stack, i);
      }
    }
  }

  lemma OrderGrows(g: Graph, order: seq<string>, id: string)
    requires TopologicalOrder(g, order) && id !in order
    requires forall d :: Edge(g, id, d) ==> d in order
    ensures TopologicalOrder(g, order + [id])
  {
    var longer := order + [id];
    forall i, d | 0 <= i < |longer| && Edge(g, longer[i], d) ensures d in longer[..i] {
      assert longer[..i] == order[..i];
      if i == |order| { assert order[..i] == order; }
    }
  }

  /**
   Runs the search from every step. It ends on every plan, cyclic, unclosed or not,
   and finds a cycle exactly when the dependency relation has one.
   */
  method ValidateAcyclic(steps: seq<PlanStep>) returns (cycleAt: Option<string>, ghost order: seq<string>)
    ensures cycleAt.None? <==> Acyclic(GraphOf(steps))
    ensures cycleAt.None? ==> TopologicalOrder(GraphOf(steps), order)
    ensures cycleAt.None? ==> forall id :: id in StepIds(steps) ==> id in order
    ensures steps == [] ==> cycleAt.None?
  {
    var search := new CycleSearch(GraphOf(steps));
    for i := 0 to |steps|
      invariant fresh(search) && search.dependencyMap == GraphOf(steps)
      invariant search.Valid() && search.visiting == {}
      invariant forall k :: 0 <= k < i ==> steps[k].stepId in search.visited
    {
      assert [] + [steps[i].stepId] == [steps[i].stepId];
      cycleAt := search.Dfs(steps[i].stepId, []);
      if cycleAt.Some? {
        return cycleAt, [];
      }
    }
    OrderForbidsCycles(GraphOf(steps), search.order);
    return None, search.order;
  }

  /** The memo table of `_build_depth_map`. */
  class DepthTable {
    const dependencyMap: Graph
    var cache: map<string, int>

    ghost predicate Valid()
      reads this
    {
      && Acyclic(dependencyMap)
      && forall id :: id in cache ==> cache[id] == DepthOf(dependencyMap, id) && id in Nodes(dependencyMap)
    }

    constructor (g: Graph)
      requires Acyclic(g)
      ensures Valid() && cache == map[] && dependencyMap == g
    {
      dependencyMap := g;
      cache := map[];
    }

    method Compute(id: string) returns (depth: int)
      requires Valid() && id in Nodes(dependencyMap)
      modifies this
      ensures Valid() && old(cache.Keys) <= cache.Keys && id in cache
      ensures depth == DepthOf(dependencyMap, id)
      decreases DepthOf(dependencyMap, id)
    {
      if id in cache {
        return cache[id];
      }
      DepthRecurrence(dependencyMap, id);
      var deps := Deps(dependencyMap, id);
      if deps == [] {
        cache := cache[id := 1];
        return 1;
      }
      var deepest := 0;
      for i := 0 to |deps|
        invariant Valid() && old(cache.Keys) <= cache.Keys
        invariant forall k :: 0 <= k < i ==> DepthOf(dependencyMap, deps[k]) <= deepest
        invariant i > 0 ==> exists k :: 0 <= k < i && deepest == DepthOf(dependencyMap, deps[k])
      {
        assert Edge(dependencyMap, id, deps[i]);
        var depthOfDependency := Compute(deps[i]);
        if i == 0 || depthOfDependency > deepest {
          deepest := depthOfDependency;
        }
      }
      ghost var k :| 0 <= k < |deps| && deepest == DepthOf(dependencyMap, deps[k]);
      assert Edge(dependencyMap, id, deps[k]);
      depth := 1 + deepest;
      cache := cache[id := depth];
    }

    method ComputeAll(steps: seq<PlanStep>)
      requires Valid()
      requires forall i :: 0 <= i < |steps| ==> steps[i].stepId in dependencyMap
      modifies this
      ensures Valid() && old(cache.Keys) <= cache.Keys
      ensures forall i :: 0 <= i < |steps| ==> steps[i].stepId in cache.Keys
    {
      for i := 0 to |steps|
        invariant Valid() && old(cache.Keys) <= cache.Keys
        invariant forall k :: 0 <= k < i ==> steps[k].stepId in cache.Keys
      {
        var _ := Compute(steps[i].stepId);
      }
    }
  }

  /** `_build_depth_map`: the longest chain ending at each step. */
  method BuildDepthMap(steps: seq<PlanStep>) returns (depths: map<string, int>)
    requires Acyclic(GraphOf(steps))
    ensures StepIds(steps) <= depths.Keys
    ensures UniqueIds(steps) && Closed(steps) ==> depths.Keys == StepIds(steps)
    ensures forall id :: id in depths ==> depths[id] == DepthOf(GraphOf(steps), id)
  {
    var table := new DepthTable(GraphOf(steps));
    table.ComputeAll(steps);
    depths := table.cache;
    assert StepIds(steps) <= depths.Keys;
    if UniqueIds(steps) && Closed(steps) {
      NodesAreSteps(steps);
      assert depths.Keys == StepIds(steps);
    }
  }

  /** `max(depth_map.values())` over a nonempty map. */
  method MaxValue<K(==)>(m: map<K, int>) returns (top: int, ghost at: K)
    requires m != map[]
    ensures at in m && m[at] == top
    ensures forall k :: k in m ==> m[k] <= top
  {
    var first :| first in m;
    top, at := m[first], first;
    var rest := m.Keys - {first};
    while rest != {}
      invariant rest <= m.Keys
      invariant at in m && m[at] == top
      invariant forall k :: k in m.Keys - rest ==> m[k] <= top
    {
      var k :| k in rest;
      if m[k] > top { top, at := m[k], k; }
      rest := rest - {k};
    }
  }

  /** Ids of `seen` that `m` maps to `depth`. */
  ghost function At(m: map<string, int>, seen: set<string>, depth: int): set<string> {
    set id | id in seen && id in m && m[id] == depth
  }

  /** The `depth_count` dictionary of `_validate_parallelism`. */
  method CountLevels(m: map<string, int>) returns (count: map<int, int>)
    ensures forall depth :: depth in count <==> At(m, m.Keys, depth) != {}
    ensures forall depth :: depth in count ==> count[depth] == |At(m, m.Keys, depth)|
  {
    count := map[];
    var rest := m.Keys;
    while rest != {}
      invariant rest <= m.Keys
      invariant forall depth :: depth in count <==> At(m, m.Keys - rest, depth) != {}
      invariant forall depth :: depth in count ==> count[depth] == |At(m, m.Keys - rest, depth)|
    {
      var id :| id in rest;
      var depth := m[id];
      ghost var seen, seen' := m.Keys - rest, m.Keys - (rest - {id});
      assert seen' == seen + {id};
      assert At(m, seen', depth) == At(m, seen, depth) + {id};
      assert forall d :: d != depth ==> At(m, seen', d) == At(m, seen, d);
      count := count[depth := (if depth in count then count[depth] else 0) + 1];
      rest := rest - {id};
    }
    assert m.Keys - rest == m.Keys;
  }

  method EstimateParallelism(m: map<string, int>) returns (estimated: int)
    ensures forall depth :: |At(m, m.Keys, depth)| <= estimated
    ensures exists depth :: |At(m, m.Keys, depth)| == estimated
  {
    var count := CountLevels(m);
    estimated := 0;
    if count != map[] {
      ghost var widest;
      estimated, widest := MaxValue(count);
      assert |At(m, m.Keys, widest)| == estimated;
    } else {
      assert 0 !in count;
      assert |At(m, m.Keys, 0)| == estimated;
    }
    forall depth ensures |At(m, m.Keys, depth)| <= estimated {
      if depth in count {
        assert count[depth] <= estimated;
      } else {
        assert |At(m, m.Keys, depth)| == 0;
      }
    }
  }

  /** `_validate_step_fields`: the first step that is malformed or repeats an id. */
  method ValidateStepFields(steps: seq<PlanStep>, allowedTools: seq<string>) returns (bad: Option<nat>)
    ensures bad.None? ==> UniqueIds(steps) && forall i :: 0 <= i < |steps| ==> FieldsOk(steps[i], allowedTools)
    ensures bad.Some? ==> FirstBadStep(steps, allowedTools, bad.value)
  {
    var stepIds := {};
    for i := 0 to |steps|
      invariant UniqueIds(steps[..i])
      invariant forall id :: id in stepIds <==> exists k :: 0 <= k < i && steps[k].stepId == id
      invariant forall k :: 0 <= k < i ==> FieldsOk(steps[k], allowedTools)
    {
      if !FieldsOk(steps[i], allowedTools) || steps[i].stepId in stepIds {
        return Some(i);
      }
      stepIds := stepIds + {steps[i].stepId};
    }
    assert steps[..|steps|] == steps;
    return None;
  }

  ghost predicate FirstBadStep(steps: seq<PlanStep>, allowedTools: seq<string>, index: nat) {
    && index < |steps|
    && UniqueIds(steps[..index])
    && (forall i :: 0 <= i < index ==> FieldsOk(steps[i], allowedTools))
    && (!FieldsOk(steps[index], allowedTools) || exists i :: 0 <= i < index && steps[i].stepId == steps[index].stepId)
  }

  /** Reference `j` of step `i` is the first, in listing order, that names no step. */
  ghost predicate FirstDangling(steps: seq<PlanStep>, i: nat, j: nat) {
    && i < |steps| && j < |steps[i].dependsOn|
    && steps[i].dependsOn[j] !in StepIds(steps)
    && (forall k :: 0 <= k < j ==> steps[i].dependsOn[k] in StepIds(steps))
    && (forall a, k :: 0 <= a < i && 0 <= k < |steps[a].dependsOn| ==> steps[a].dependsOn[k] in StepIds(steps))
  }

  /** `_validate_dependencies`: the first reference to an unknown step. */
  method ValidateDependencies(steps: seq<PlanStep>) returns (unknown: Option<(nat, string)>)
    ensures unknown.None? <==> Closed(steps)
    ensures unknown.Some? ==> exists j: nat ::
      FirstDangling(steps, unknown.value.0, j) && steps[unknown.value.0].dependsOn[j] == unknown.value.1
  {
    var stepIds := StepIds(steps);
    for i := 0 to |steps|
      invariant forall a, k :: 0 <= a < i && 0 <= k < |steps[a].dependsOn| ==> steps[a].dependsOn[k] in stepIds
    {
      for j := 0 to |steps[i].dependsOn|
        invariant forall k :: 0 <= k < j ==> steps[i].dependsOn[k] in stepIds
      {
        if steps[i].dependsOn[j] !in stepIds {
          assert FirstDangling(steps, i, j) && steps[i].dependsOn[j] in steps[i].dependsOn;
          return Some((i, steps[i].dependsOn[j]));
        }
      }
    }
    return None;
  }

  /** `_validate_depth`; the empty map makes `max` raise. */
  method ValidateDepth(plan: ExecutionPlan) returns (verdict: Verdict)
    requires UniqueIds(plan.steps) && Closed(plan.steps) && Acyclic(GraphOf(plan.steps))
    ensures verdict.Accepted? || verdict.EmptyPlan? || verdict.TooDeep?
    ensures verdict.Accepted? <==> plan.steps != [] && DepthOk(GraphOf(plan.steps), plan.graphLimits.maxDepth)
    ensures verdict.EmptyPlan? <==> plan.steps == []
    ensures verdict.TooDeep? ==> verdict.depth > plan.graphLimits.maxDepth
    ensures verdict.TooDeep? ==> exists id :: id in GraphOf(plan.steps) && DepthOf(GraphOf(plan.steps), id) == verdict.depth
  {
    ghost var g := GraphOf(plan.steps);
    var depths := BuildDepthMap(plan.steps);
    if plan.steps != [] {
      assert plan.steps[0].stepId in depths;
    }
    if depths == map[] {
      return EmptyPlan;
    }
    var top, id := MaxValue(depths);
    if top > plan.graphLimits.maxDepth {
      assert LongestChain(g, id, DepthOf(g, id));
      ghost var p :| Walk(g, p) && p[0] == id && |p| == top;
      return TooDeep(top);
    }
    forall p {:trigger Walk(g, p)} | Walk(g, p) && p[0] in g ensures |p| <= plan.graphLimits.maxDepth {
      assert LongestChain(g, p[0], DepthOf(g, p[0]));
      assert p[0] in depths;
    }
    return Accepted;
  }

  /** `_validate_parallelism`. */
  method ValidateParallelism(plan: ExecutionPlan) returns (verdict: Verdict)
    requires UniqueIds(plan.steps) && Closed(plan.steps) && Acyclic(GraphOf(plan.steps))
    requires plan.graphLimits.maxParallel >= 1
    ensures verdict.Accepted? || verdict.TooWide?
    ensures verdict.Accepted? <==> WidthOk(GraphOf(plan.steps), plan.graphLimits.maxParallel)
    ensures verdict.TooWide? ==> verdict.width > plan.graphLimits.maxParallel
    ensures verdict.TooWide? ==> exists depth :: |Level(GraphOf(plan.steps), depth)| == verdict.width
    ensures verdict.TooWide? ==> forall depth :: |Level(GraphOf(plan.steps), depth)| <= verdict.width
  {
    ghost var g := GraphOf(plan.steps);
    var depths := BuildDepthMap(plan.steps);
    forall depth ensures At(depths, depths.Keys, depth) == Level(g, depth) {}
    var estimated := EstimateParallelism(depths);
    verdict := if estimated > plan.graphLimits.maxParallel then TooWide(estimated) else Accepted;
  }

  /**
   `validate_plan`: accepts exactly the valid plans, and otherwise names the first
   failing check in the source's order.
   */
  method ValidatePlan(plan: ExecutionPlan, allowedTools: seq<string>) returns (verdict: Verdict)
    ensures verdict.Accepted? <==> ValidPlan(plan, allowedTools)
    ensures verdict.LimitTooSmall? <==> !LimitsOk(plan.graphLimits)
    ensures verdict.EmptyPlan? <==> LimitsOk(plan.graphLimits) && plan.steps == []
    ensures verdict.BadStep? ==> FirstBadStep(plan.steps, allowedTools, verdict.index)
    ensures verdict.UnknownDependency? ==> UniqueIds(plan.steps) && !Closed(plan.steps)
    ensures verdict.CycleAt? ==> Closed(plan.steps) && !Acyclic(GraphOf(plan.steps))
    ensures verdict.TooDeep? ==> Acyclic(GraphOf(plan.steps)) && !DepthOk(GraphOf(plan.steps), plan.graphLimits.maxDepth)
    ensures verdict.TooWide? ==> Acyclic(GraphOf(plan.steps)) && !WidthOk(GraphOf(plan.steps), plan.graphLimits.maxParallel)
  {
    if plan.graphLimits.maxDepth < 1 || plan.graphLimits.maxParallel < 1 {
      return LimitTooSmall;
    }
    var bad := ValidateStepFields(plan.steps, allowedTools);
    if bad.Some? {
      return BadStep(bad.value);
    }
    var unknown := ValidateDependencies(plan.steps);
    if unknown.Some? {
      return UnknownDependency(unknown.value.0, unknown.value.1);
    }
    var cycleAt, order := ValidateAcyclic(plan.steps);
    if cycleAt.Some? {
      return CycleAt(cycleAt.value);
    }
    verdict := ValidateDepth(plan);
    if !verdict.Accepted? {
      return;
    }
    verdict := ValidateParallelism(plan);
  }
}
