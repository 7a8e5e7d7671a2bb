/**
 What replanning preserves. A replan renames some steps of the plan; when it redirects
 every dependency on them as well, the new plan is isomorphic to the old one, and
 everything the planner validated still holds although nobody validates again.
 */
module ReplanTheory {
  import opened DependencyGraph
  import opened Plans
  import opened StepNames
  import opened Replanner

  predicate SameWork(a: PlanStep, b: PlanStep) {
    && a.toolId == b.toolId && a.payload == b.payload && a.doneCriteria == b.doneCriteria
    && a.timeoutSeconds == b.timeoutSeconds && a.allowRollback == b.allowRollback
    && a.goal <= b.goal
  }

  /** Step by step, `later` is `before` with ids and dependencies renamed alike. */
  ghost predicate IsRenaming(before: seq<PlanStep>, later: seq<PlanStep>, ids: set<string>, version: int) {
    && |later| == |before|
    && forall i :: 0 <= i < |before| ==>
      && later[i].stepId == Target(ids, version, before[i].stepId)
      && later[i].dependsOn == Targets(ids, version, before[i].dependsOn)
      && SameWork(before[i], later[i])
  }

  ghost predicate InjectiveOn(steps: seq<PlanStep>, ids: set<string>, version: int) {
    forall a, b :: a in StepIds(steps) && b in StepIds(steps) && Target(ids, version, a) == Target(ids, version, b) ==> a == b
  }

  ghost predicate Isomorphic(before: seq<PlanStep>, later: seq<PlanStep>, ids: set<string>, version: int) {
    && UniqueIds(before) && Closed(before)
    && IsRenaming(before, later, ids, version)
    && InjectiveOn(before, ids, version)
  }

  /** No step of the plan already carries an id that a later replan could produce. */
  ghost predicate SettledSteps(steps: seq<PlanStep>, version: int) {
    forall i :: 0 <= i < |steps| ==> Settled(steps[i].stepId, version)
  }

  lemma RenamedStepsStaySettled(before: seq<PlanStep>, later: seq<PlanStep>, ids: set<string>, version: int)
    requires SettledSteps(before, version) && IsRenaming(before, later, ids, version + 1)
    ensures SettledSteps(later, version + 1)
  {
    forall i | 0 <= i < |later| ensures Settled(later[i].stepId, version + 1) {
      assert Settled(before[i].stepId, version);
      RenamedIsSettled(before[i].stepId, version + 1);
    }
  }

  lemma UniquePreserved(before: seq<PlanStep>, later: seq<PlanStep>, ids: set<string>, version: int)
    requires Isomorphic(before, later, ids, version)
    ensures UniqueIds(later)
  {
    forall i, j | 0 <= i < j < |later| ensures later[i].stepId != later[j].stepId {
      assert before[i].stepId in StepIds(before) && before[j].stepId in StepIds(before);
    }
  }

  lemma ClosedPreserved(before: seq<PlanStep>, later: seq<PlanStep>, ids: set<string>, version: int)
    requires Isomorphic(before, later, ids, version)
    ensures Closed(later)
  {
    forall i, d | 0 <= i < |later| && d in later[i].dependsOn ensures d in StepIds(later) {
      var k :| 0 <= k < |later[i].dependsOn| && later[i].dependsOn[k] == d;
      var e := before[i].dependsOn[k];
      assert e in before[i].dependsOn;
      var j :| 0 <= j < |before| && before[j].stepId == e;
      assert later[j].stepId == d;
    }
  }

  /** Renaming keeps the listing a dependency order. */
  lemma OrderPreserved(before: seq<PlanStep>, later: seq<PlanStep>, ids: set<string>, version: int)
    requires IsRenaming(before, later, ids, version) && DependencyOrdered(before)
    ensures DependencyOrdered(later)
  {
    forall i, d | 0 <= i < |later| && d in later[i].dependsOn
      ensures exists j :: 0 <= j < i && later[j].stepId == d
    {
      var k :| 0 <= k < |later[i].dependsOn| && later[i].dependsOn[k] == d;
      var e := before[i].dependsOn[k];
      assert e in before[i].dependsOn;
      var j :| 0 <= j < i && before[j].stepId == e;
      assert later[j].stepId == d;
    }
  }

  lemma EdgeForward(before: seq<PlanStep>, later: seq<PlanStep>, ids: set<string>, version: int, a: string, b: string)
    requires Isomorphic(before, later, ids, version) && Edge(GraphOf(before), a, b)
    ensures Edge(GraphOf(later), Target(ids, version, a), Target(ids, version, b))
  {
    UniquePreserved(before, later, ids, version);
    var i :| 0 <= i < |before| && before[i].stepId == a;
    GraphOfUnique(before, i);
    GraphOfUnique(later, i);
    var k :| 0 <= k < |before[i].dependsOn| && before[i].dependsOn[k] == b;
    assert later[i].dependsOn[k] == Target(ids, version, b);
  }

  lemma DependencyBehind(deps: seq<string>, ids: set<string>, version: int, y: string) returns (b: string)
    requires y in Targets(ids, version, deps)
    ensures b in deps && y == Target(ids, version, b)
  {
    var k :| 0 <= k < |deps| && Targets(ids, version, deps)[k] == y;
    b := deps[k];
  }

  lemma EdgeBackward(before: seq<PlanStep>, later: seq<PlanStep>, ids: set<string>, version: int, a: string, y: string)
    returns (b: string)
    requires Isomorphic(before, later, ids, version)
    requires a in StepIds(before) && Edge(GraphOf(later), Target(ids, version, a), y)
    ensures Edge(GraphOf(before), a, b) && y == Target(ids, version, b) && b in StepIds(before)
  {
    UniquePreserved(before, later, ids, version);
    var i :| 0 <= i < |before| && before[i].stepId == a;
    GraphOfUnique(before, i);
    GraphOfUnique(later, i);
    b := DependencyBehind(before[i].dependsOn, ids, version, y);
  }

  lemma WalkForward(before: seq<PlanStep>, later: seq<PlanStep>, ids: set<string>, version: int, p: seq<string>)
    requires Isomorphic(before, later, ids, version) && Walk(GraphOf(before), p)
    ensures Walk(GraphOf(later), Targets(ids, version, p))
  {
    forall i | 0 <= i < |p| - 1
      ensures Edge(GraphOf(later), Target(ids, version, p[i]), Target(ids, version, p[i + 1]))
    {
      WalkEdge(GraphOf(before), p, i);
      EdgeForward(before, later, ids, version, p[i], p[i + 1]);
    }
    EdgesMakeWalk(GraphOf(later), ids, version, p);
  }

  lemma EdgesMakeWalk(h: Graph, ids: set<string>, version: int, p: seq<string>)
    requires |p| >= 1
    requires forall i :: 0 <= i < |p| - 1 ==> Edge(h, Target(ids, version, p[i]), Target(ids, version, p[i + 1]))
    ensures Walk(h, Targets(ids, version, p))
  {
  }

  /** Every walk of the renamed plan is the image of a walk of the plan it came from. */
  lemma {:induction false} WalkBackward(before: seq<PlanStep>, later: seq<PlanStep>, ids: set<string>, version: int,
                                        q: seq<string>, a: string)
    returns (p: seq<string>)
    requires Isomorphic(before, later, ids, version)
    requires Walk(GraphOf(later), q) && a in StepIds(before) && q[0] == Target(ids, version, a)
    ensures Walk(GraphOf(before), p) && |p| == |q| && p[0] == a
    ensures p[|p| - 1] in StepIds(before) && q[|q| - 1] == Target(ids, version, p[|p| - 1])
  {
    if |q| == 1 {
      p := [a];
    } else {
      hide Isomorphic, GraphOf, Target, Edge;
      WalkEdge(GraphOf(later), q, 0);
      var b := EdgeBackward(before, later, ids, version, a, q[1]);
      SubWalk(GraphOf(later), q, 1, |q|);
      var rest := WalkBackward(before, later, ids, version, q[1..], b);
      ExtendWalk(GraphOf(before), a, rest);
      p := [a] + rest;
    }
  }

  lemma CycleBackward(before: seq<PlanStep>, later: seq<PlanStep>, ids: set<string>, version: int, q: seq<string>)
    requires Isomorphic(before, later, ids, version) && Cycle(GraphOf(later), q)
    ensures !Acyclic(GraphOf(before))
  {
    WalkEdge(GraphOf(later), q, 0);
    var i :| 0 <= i < |later| && later[i].stepId == q[0];
    assert before[i].stepId in StepIds(before);
    var p := WalkBackward(before, later, ids, version, q, before[i].stepId);
    assert Cycle(GraphOf(before), p);
  }

  lemma AcyclicPreserved(before: seq<PlanStep>, later: seq<PlanStep>, ids: set<string>, version: int)
    requires Isomorphic(before, later, ids, version) && Acyclic(GraphOf(before))
    ensures Acyclic(GraphOf(later))
  {
    forall q ensures !Cycle(GraphOf(later), q) {
      if Cycle(GraphOf(later), q) {
        CycleBackward(before, later, ids, version, q);
      }
    }
  }

  lemma DepthPreserved(before: seq<PlanStep>, later: seq<PlanStep>, ids: set<string>, version: int, a: string)
    requires Isomorphic(before, later, ids, version) && a in StepIds(before)
    requires Acyclic(GraphOf(before)) && Acyclic(GraphOf(later))
    ensures DepthOf(GraphOf(later), Target(ids, version, a)) == DepthOf(GraphOf(before), a)
  {
    var g, h, b := GraphOf(before), GraphOf(later), Target(ids, version, a);
    assert LongestChain(g, a, DepthOf(g, a)) && LongestChain(h, b, DepthOf(h, b));
    var p :| Walk(g, p) && p[0] == a && |p| == DepthOf(g, a);
    WalkForward(before, later, ids, version, p);
    assert Targets(ids, version, p)[0] == b;
    var q :| Walk(h, q) && q[0] == b && |q| == DepthOf(h, b);
    var r := WalkBackward(before, later, ids, version, q, a);
  }

  lemma {:induction false} ImageSize(ids: set<string>, version: int, from: set<string>, to: set<string>)
    requires forall a, b :: a in from && b in from && Target(ids, version, a) == Target(ids, version, b) ==> a == b
    requires forall b :: b in to <==> exists a :: a in from && Target(ids, version, a) == b
    ensures |to| == |from|
  {
    if from == {} {
      assert to == {};
    } else {
      var a :| a in from;
      ImageSize(ids, version, from - {a}, to - {Target(ids, version, a)});
    }
  }

  lemma LevelForward(before: seq<PlanStep>, later: seq<PlanStep>, ids: set<string>, version: int, depth: int, a: string)
    requires Isomorphic(before, later, ids, version)
    requires Acyclic(GraphOf(before)) && Acyclic(GraphOf(later))
    requires a in Level(GraphOf(before), depth)
    ensures Target(ids, version, a) in Level(GraphOf(later), depth)
  {
    var i :| 0 <= i < |before| && before[i].stepId == a;
    DepthPreserved(before, later, ids, version, a);
    assert later[i] in later;
  }

  lemma LevelBackward(before: seq<PlanStep>, later: seq<PlanStep>, ids: set<string>, version: int, depth: int, b: string)
    returns (a: string)
    requires Isomorphic(before, later, ids, version)
    requires Acyclic(GraphOf(before)) && Acyclic(GraphOf(later))
    requires b in Level(GraphOf(later), depth)
    ensures a in Level(GraphOf(before), depth) && Target(ids, version, a) == b
  {
    var i :| 0 <= i < |later| && later[i].stepId == b;
    a := before[i].stepId;
    assert before[i] in before;
    DepthPreserved(before, later, ids, version, a);
  }

  lemma LevelPreserved(before: seq<PlanStep>, later: seq<PlanStep>, ids: set<string>, version: int, depth: int)
    requires Isomorphic(before, later, ids, version)
    requires Acyclic(GraphOf(before)) && Acyclic(GraphOf(later))
    ensures |Level(GraphOf(later), depth)| == |Level(GraphOf(before), depth)|
  {
    var from, to := Level(GraphOf(before), depth), Level(GraphOf(later), depth);
    forall b | b in to ensures exists a :: a in from && Target(ids, version, a) == b {
      var a := LevelBackward(before, later, ids, version, depth, b);
    }
    forall a | a in from ensures Target(ids, version, a) in to {
      LevelForward(before, later, ids, version, depth, a);
    }
    ImageSize(ids, version, from, to);
  }

  /** A plan isomorphic to a valid one is valid. */
  lemma IsomorphicPlanIsValid(before: ExecutionPlan, later: ExecutionPlan, ids: set<string>, version: int,
                              allowedTools: seq<string>)
    requires ValidPlan(before, allowedTools) && later.graphLimits == before.graphLimits
    requires Isomorphic(before.steps, later.steps, ids, version)
    ensures ValidPlan(later, allowedTools)
  {
    var s, t := before.steps, later.steps;
    UniquePreserved(s, t, ids, version);
    ClosedPreserved(s, t, ids, version);
    AcyclicPreserved(s, t, ids, version);
    forall i | 0 <= i < |t| ensures FieldsOk(t[i], allowedTools) {
      assert FieldsOk(s[i], allowedTools);
    }
    var h := GraphOf(t);
    forall q {:trigger Walk(h, q)} | Walk(h, q) && q[0] in h ensures |q| <= later.graphLimits.maxDepth {
      var i :| 0 <= i < |t| && t[i].stepId == q[0];
      assert s[i].stepId in StepIds(s);
      var p := WalkBackward(s, t, ids, version, q, s[i].stepId);
    }
    forall depth ensures |Level(GraphOf(t), depth)| <= later.graphLimits.maxParallel {
      LevelPreserved(s, t, ids, version, depth);
    }
  }

  lemma CycleForward(before: seq<PlanStep>, later: seq<PlanStep>, ids: set<string>, version: int, p: seq<string>)
    requires Isomorphic(before, later, ids, version) && Cycle(GraphOf(before), p)
    ensures !Acyclic(GraphOf(later))
  {
    WalkForward(before, later, ids, version, p);
    assert Cycle(GraphOf(later), Targets(ids, version, p));
  }

  /** And the other way round: a plan isomorphic to a valid one was valid, if its steps are well formed. */
  lemma IsomorphicPlanWasValid(before: ExecutionPlan, later: ExecutionPlan, ids: set<string>, version: int,
                               allowedTools: seq<string>)
    requires ValidPlan(later, allowedTools) && later.graphLimits == before.graphLimits
    requires Isomorphic(before.steps, later.steps, ids, version)
    requires forall i :: 0 <= i < |before.steps| ==> FieldsOk(before.steps[i], allowedTools)
    ensures ValidPlan(before, allowedTools)
  {
    var s, t := before.steps, later.steps;
    hide Isomorphic, FieldsOk, GraphOf;
    forall p ensures !Cycle(GraphOf(s), p) {
      if Cycle(GraphOf(s), p) {
        CycleForward(s, t, ids, version, p);
      }
    }
    hide Acyclic;
    forall p {:trigger Walk(GraphOf(s), p)} | Walk(GraphOf(s), p) && p[0] in GraphOf(s) ensures |p| <= before.graphLimits.maxDepth {
      DepthForward(s, t, ids, version, p);
    }
    forall depth ensures |Level(GraphOf(s), depth)| <= before.graphLimits.maxParallel {
      LevelPreserved(s, t, ids, version, depth);
    }
    assert UniqueIds(s) && Closed(s) && s != [] by {
      IsomorphicParts(s, t, ids, version);
    }
  }

  lemma IsomorphicParts(before: seq<PlanStep>, later: seq<PlanStep>, ids: set<string>, version: int)
    requires Isomorphic(before, later, ids, version)
    ensures UniqueIds(before) && Closed(before) && |before| == |later|
  {
  }

  lemma DepthForward(before: seq<PlanStep>, later: seq<PlanStep>, ids: set<string>, version: int, p: seq<string>)
    requires Isomorphic(before, later, ids, version) && Walk(GraphOf(before), p) && p[0] in GraphOf(before)
    ensures Walk(GraphOf(later), Targets(ids, version, p)) && Targets(ids, version, p)[0] in GraphOf(later)
    ensures |Targets(ids, version, p)| == |p|
  {
    WalkForward(before, later, ids, version, p);
    var i :| 0 <= i < |before| && before[i].stepId == p[0];
    assert later[i].stepId == Target(ids, version, p[0]);
    assert later[i] in later;
  }
}
