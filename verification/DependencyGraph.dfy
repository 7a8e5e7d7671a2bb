/**
 Dependency graphs of plans: walks, cycles, topological orders and longest chains.

 A graph maps a step id to the ids it depends on; an id that is not a key has no
 dependencies, as `dependency_map.get(step_id, [])` has it.
 */
module DependencyGraph {

  type Graph = map<string, seq<string>>

  function Deps(g: Graph, id: string): seq<string> {
    if id in g then g[id] else []
  }

  predicate Edge(g: Graph, a: string, b: string) {
    b in Deps(g, a)
  }

  /** Every id the graph mentions. */
  function Nodes(g: Graph): set<string> {
    g.Keys + set a, b | a in g.Keys && b in g[a] :: b
  }

  /** A path that follows dependencies, from a step down to one it needs. */
  ghost predicate Walk(g: Graph, p: seq<string>) {
    && |p| >= 1
    && forall i :: 0 <= i < |p| - 1 ==> Edge(g, p[i], p[i + 1])
  }

  ghost predicate Cycle(g: Graph, p: seq<string>) {
    Walk(g, p) && |p| >= 2 && p[0] == p[|p| - 1]
  }

  ghost predicate Acyclic(g: Graph) {
    forall p :: !Cycle(g, p)
  }

  ghost predicate Distinct(s: seq<string>) {
    forall i, j :: 0 <= i < j < |s| ==> s[i] != s[j]
  }

  /** Every element comes after all of its dependencies. */
  ghost predicate TopologicalOrder(g: Graph, order: seq<string>) {
    && Distinct(order)
    && forall i, d :: 0 <= i < |order| && Edge(g, order[i], d) ==> d in order[..i]
  }

  lemma {:induction false} WalkDescends(g: Graph, order: seq<string>, p: seq<string>, i: nat)
    requires TopologicalOrder(g, order) && Walk(g, p) && |p| >= 2
    requires i < |order| && order[i] == p[0]
    ensures p[|p| - 1] in order[..i]
  {
    assert Edge(g, p[0], p[1]);
    var j :| 0 <= j < i && order[j] == p[1];
    if |p| > 2 {
      assert Walk(g, p[1..]) by {
        forall k | 0 <= k < |p[1..]| - 1 ensures Edge(g, p[1..][k], p[1..][k + 1]) {
          assert Edge(g, p[k + 1], p[k + 2]);
        }
      }
      WalkDescends(g, order, p[1..], j);
      assert order[..j] == order[..i][..j];
    }
  }

  /** A topological order of all steps rules out cycles. */
  lemma OrderForbidsCycles(g: Graph, order: seq<string>)
    requires TopologicalOrder(g, order)
    requires forall id :: id in g ==> id in order
    ensures Acyclic(g)
  {
    forall p {:trigger Walk(g, p)} | Walk(g, p) && |p| >= 2 ensures !Cycle(g, p) {
      assert Edge(g, p[0], p[1]);
      var i :| 0 <= i < |order| && order[i] == p[0];
      WalkDescends(g, order, p, i);
    }
  }

  lemma WalkEdge(g: Graph, p: seq<string>, i: nat)
    requires Walk(g, p) && i + 1 < |p|
    ensures Edge(g, p[i], p[i + 1])
  {
  }

  lemma SubWalk(g: Graph, p: seq<string>, i: nat, j: nat)
    requires Walk(g, p) && i < j <= |p|
    ensures Walk(g, p[i..j])
  {
    forall k | 0 <= k < j - i - 1 ensures Edge(g, p[i..j][k], p[i..j][k + 1]) {
      assert Edge(g, p[i + k], p[i + k + 1]);
    }
  }

  lemma ExtendWalk(g: Graph, a: string, p: seq<string>)
    requires Walk(g, p) && Edge(g, a, p[0])
    ensures Walk(g, [a] + p)
  {
    var q := [a] + p;
    forall k | 0 <= k < |q| - 1 ensures Edge(g, q[k], q[k + 1]) {
      if k > 0 { assert Edge(g, p[k - 1], p[k]); }
    }
  }

  lemma {:induction false} DistinctFits(s: seq<string>, bag: set<string>)
    requires Distinct(s) && forall i :: 0 <= i < |s| ==> s[i] in bag
    ensures |s| <= |bag|
  {
    if s != [] {
      var n := |s| - 1;
      DistinctFits(s[..n], bag - {s[n]});
    }
  }

  lemma WalkNeverReturns(g: Graph, p: seq<string>, i: nat, j: nat)
    requires Acyclic(g) && Walk(g, p) && i < j < |p|
    ensures p[i] != p[j]
  {
    SubWalk(g, p, i, j + 1);
    var q := p[i..j + 1];
    assert !Cycle(g, q);
    assert q[0] == p[i] && q[|q| - 1] == p[j];
  }

  /** In an acyclic graph no walk is longer than the number of nodes. */
  lemma WalkIsShort(g: Graph, p: seq<string>)
    requires Acyclic(g) && Walk(g, p)
    ensures |p| <= |Nodes(g)| + 1
  {
    forall i, j | 0 <= i < j < |p| ensures p[i] != p[j] { WalkNeverReturns(g, p, i, j); }
    var q := p[1..];
    forall i | 0 <= i < |q| ensures q[i] in Nodes(g) {
      assert Edge(g, p[i], p[i + 1]);
    }
    assert Distinct(q);
    DistinctFits(q, Nodes(g));
  }

  /** A walk that starts at a key has at most as many nodes as the graph. */
  lemma WalkFits(g: Graph, p: seq<string>)
    requires Acyclic(g) && Walk(g, p) && p[0] in g
    ensures |p| <= |Nodes(g)|
  {
    forall i, j | 0 <= i < j < |p| ensures p[i] != p[j] { WalkNeverReturns(g, p, i, j); }
    forall i | 0 <= i < |p| ensures p[i] in Nodes(g) {
      if i > 0 { assert Edge(g, p[i - 1], p[i]); }
    }
    DistinctFits(p, Nodes(g));
  }

  /** `n` is the number of steps on the longest dependency chain that ends at `id`. */
  ghost predicate LongestChain(g: Graph, id: string, n: nat) {
    && (exists p {:trigger Walk(g, p)} :: Walk(g, p) && p[0] == id && |p| == n)
    && (forall p {:trigger Walk(g, p)} :: Walk(g, p) && p[0] == id ==> |p| <= n)
  }

  lemma {:induction false} LongestChainExists(g: Graph, id: string, bound: nat)
    requires forall p {:trigger Walk(g, p)} :: Walk(g, p) && p[0] == id ==> |p| <= bound
    ensures exists n :: LongestChain(g, id, n)
  {
    if exists p {:trigger Walk(g, p)} :: Walk(g, p) && p[0] == id && |p| == bound {
      assert LongestChain(g, id, bound);
    } else {
      assert Walk(g, [id]);
      LongestChainExists(g, id, bound - 1);
    }
  }

  /** The depth of a step, independently of how the planner computes it. */
  ghost function DepthOf(g: Graph, id: string): (n: nat)
    requires Acyclic(g)
    ensures LongestChain(g, id, n)
  {
    assert exists n :: LongestChain(g, id, n) by {
      forall p {:trigger Walk(g, p)} | Walk(g, p) && p[0] == id ensures |p| <= |Nodes(g)| + 1 { WalkIsShort(g, p); }
      LongestChainExists(g, id, |Nodes(g)| + 1);
    }
    var n: nat :| LongestChain(g, id, n);
    n
  }

  /** The recurrence that `depth_of` evaluates: one more than the deepest dependency. */
  lemma DepthRecurrence(g: Graph, id: string)
    requires Acyclic(g)
    ensures Deps(g, id) == [] ==> DepthOf(g, id) == 1
    ensures forall d :: Edge(g, id, d) ==> DepthOf(g, d) < DepthOf(g, id)
    ensures Deps(g, id) != [] ==> exists d :: Edge(g, id, d) && DepthOf(g, id) == DepthOf(g, d) + 1
    ensures DepthOf(g, id) >= 1
  {
    assert Walk(g, [id]);
    forall d | Edge(g, id, d) ensures DepthOf(g, d) < DepthOf(g, id) {
      assert LongestChain(g, d, DepthOf(g, d));
      var p :| Walk(g, p) && p[0] == d && |p| == DepthOf(g, d);
      ExtendWalk(g, id, p);
      assert ([id] + p)[0] == id;
    }
    var p :| Walk(g, p) && p[0] == id && |p| == DepthOf(g, id);
    if |p| >= 2 {
      var d := p[1];
      WalkEdge(g, p, 0);
      SubWalk(g, p, 1, |p|);
      assert p[1..|p|][0] == d;
    } else if Deps(g, id) != [] {
      assert Edge(g, id, Deps(g, id)[0]);
      DepthPositive(g, Deps(g, id)[0]);
    }
  }

  lemma DepthPositive(g: Graph, id: string)
    requires Acyclic(g)
    ensures DepthOf(g, id) >= 1
  {
    assert Walk(g, [id]);
  }

  /** Depth strictly falls along every walk, so steps of equal depth never reach each other. */
  lemma {:induction false} EqualDepthIsUnreachable(g: Graph, p: seq<string>)
    requires Acyclic(g) && Walk(g, p) && |p| >= 2
    ensures DepthOf(g, p[|p| - 1]) < DepthOf(g, p[0])
  {
    assert Edge(g, p[0], p[1]);
    DepthRecurrence(g, p[0]);
    if |p| > 2 {
      SubWalk(g, p, 1, |p|);
      EqualDepthIsUnreachable(g, p[1..]);
    }
  }
}
