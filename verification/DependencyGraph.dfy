/**
 The dependency relation between Feature Plans as a finite directed graph, and the
 breadth-first search that guards every new edge.
 */
module DependencyGraph {

  /** `g[a]` lists the plans that `a` depends on, in row order. */
  type Graph = map<int, seq<int>>

  ghost predicate Edge(g: Graph, a: int, b: int) {
    a in g && b in g[a]
  }

  ghost predicate IsPath(g: Graph, p: seq<int>) {
    |p| > 0 && forall i :: 0 <= i < |p| - 1 ==> Edge(g, p[i], p[i + 1])
  }

  ghost predicate PathBetween(g: Graph, p: seq<int>, a: int, b: int) {
    IsPath(g, p) && p[0] == a && p[|p| - 1] == b
  }

  ghost predicate Reaches(g: Graph, a: int, b: int) {
    exists p :: PathBetween(g, p, a, b)
  }

  ghost predicate Acyclic(g: Graph) {
    forall a, b :: Edge(g, a, b) ==> !Reaches(g, b, a)
  }

  lemma ReachesSelf(g: Graph, a: int)
    ensures Reaches(g, a, a)
  {
    assert PathBetween(g, [a], a, a);
  }

  lemma ReachesStep(g: Graph, a: int, b: int, c: int)
    requires Reaches(g, a, b) && Edge(g, b, c)
    ensures Reaches(g, a, c)
  {
    var p :| PathBetween(g, p, a, b);
    assert PathBetween(g, p + [c], a, c);
  }

  lemma ReachesTransitive(g: Graph, a: int, b: int, c: int)
    requires Reaches(g, a, b) && Reaches(g, b, c)
    ensures Reaches(g, a, c)
  {
    var p :| PathBetween(g, p, a, b);
    var q :| PathBetween(g, q, b, c);
    var r := p + q[1..];
    forall i | 0 <= i < |r| - 1 ensures Edge(g, r[i], r[i + 1]) {
      if i >= |p| - 1 {
        assert r[i] == q[i - |p| + 1] && r[i + 1] == q[i - |p| + 2];
      }
    }
    assert PathBetween(g, r, a, c);
  }

  lemma ReachesMonotone(g: Graph, h: Graph, a: int, b: int)
    requires forall x, y :: Edge(g, x, y) ==> Edge(h, x, y)
    requires Reaches(g, a, b)
    ensures Reaches(h, a, b)
  {
    var p :| PathBetween(g, p, a, b);
    assert PathBetween(h, p, a, b);
  }

  /** A set closed under edges traps every path that enters it. */
  lemma {:induction false} ClosedTrapsPath(g: Graph, S: set<int>, p: seq<int>)
    requires IsPath(g, p) && p[0] in S
    requires forall x, y :: x in S && Edge(g, x, y) ==> y in S
    ensures p[|p| - 1] in S
  {
    if |p| > 1 {
      assert Edge(g, p[0], p[1]);
      assert IsPath(g, p[1..]) by {
        forall i | 0 <= i < |p| - 2 ensures Edge(g, p[1..][i], p[1..][i + 1]) {
          assert Edge(g, p[i + 1], p[i + 2]);
        }
      }
      ClosedTrapsPath(g, S, p[1..]);
    }
  }

  /** Removing edges keeps a graph acyclic. */
  lemma SubgraphAcyclic(g: Graph, h: Graph)
    requires Acyclic(h)
    requires forall x, y :: Edge(g, x, y) ==> Edge(h, x, y)
    ensures Acyclic(g)
  {
    forall a, b | Edge(g, a, b) ensures !Reaches(g, b, a) {
      if Reaches(g, b, a) {
        ReachesMonotone(g, h, b, a);
      }
    }
  }

  /** `h` is `g` with the one extra edge from `a` to `b`. */
  ghost predicate Extends(g: Graph, h: Graph, a: int, b: int) {
    forall x, y :: Edge(h, x, y) <==> Edge(g, x, y) || (x == a && y == b)
  }

  /** A path of the extended graph either avoids the new edge or is cut by it in two old paths. */
  lemma {:induction false} PathThroughNewEdge(g: Graph, h: Graph, a: int, b: int, p: seq<int>)
    requires Extends(g, h, a, b) && IsPath(h, p)
    ensures Reaches(g, p[0], p[|p| - 1]) || (Reaches(g, p[0], a) && Reaches(g, b, p[|p| - 1]))
  {
    if |p| == 1 {
      ReachesSelf(g, p[0]);
    } else {
      var q, x, y := p[..|p| - 1], p[|p| - 2], p[|p| - 1];
      assert IsPath(h, q) by {
        forall i | 0 <= i < |q| - 1 ensures Edge(h, q[i], q[i + 1]) {
          assert Edge(h, p[i], p[i + 1]);
        }
      }
      PathThroughNewEdge(g, h, a, b, q);
      assert Edge(h, p[|p| - 2], p[|p| - 2 + 1]);
      if Edge(g, x, y) {
        if Reaches(g, p[0], x) {
          ReachesStep(g, p[0], x, y);
        } else {
          ReachesStep(g, b, x, y);
        }
      } else {
        ReachesSelf(g, b);
      }
    }
  }

  /**
   The guard is exact: adding the edge from `a` to `b` keeps the graph acyclic
   if and only if `a` is not reachable from `b`.
   */
  lemma GuardIsExact(g: Graph, h: Graph, a: int, b: int)
    requires Acyclic(g) && Extends(g, h, a, b)
    ensures Acyclic(h) <==> !Reaches(g, b, a)
  {
    if Reaches(g, b, a) {
      ReachesMonotone(g, h, b, a);
      assert Edge(h, a, b);
    } else {
      forall x, y | Edge(h, x, y) ensures !Reaches(h, y, x) {
        if Reaches(h, y, x) {
          var p :| PathBetween(h, p, y, x);
          PathThroughNewEdge(g, h, a, b, p);
          if Edge(g, x, y) {
            assert !Reaches(g, y, x);
            ReachesStep(g, b, x, y);
            ReachesTransitive(g, b, y, a);
          }
        }
      }
    }
  }

  ghost function Nodes(g: Graph): set<int> {
    g.Keys + set a, b | a in g && b in g[a] :: b
  }

  /** What the search knows: everything found is reachable, and visited plans have no unqueued successor. */
  ghost predicate Searching(g: Graph, root: int, visited: set<int>, queue: seq<int>) {
    && (forall x :: x in visited || x in queue ==> x in Nodes(g) + {root} && Reaches(g, root, x))
    && (forall x, y :: x in visited && Edge(g, x, y) ==> y in visited || y in queue)
    && (root in visited || root in queue)
  }

  /**
   The breadth-first search with its work queue, which may hold a plan more than once:
   it answers whether `planId` is reachable from `dependsOnId`, on every finite graph.
   */
  method CheckDependencyCycle(g: Graph, planId: int, dependsOnId: int) returns (cyclic: bool)
    ensures cyclic <==> Reaches(g, dependsOnId, planId)
  {
    var visited: set<int> := {};
    var queue := [dependsOnId];
    ReachesSelf(g, dependsOnId);
    while |queue| > 0
      invariant Searching(g, dependsOnId, visited, queue)
      invariant planId !in visited
      decreases Unvisited(g, dependsOnId, visited), |queue|
    {
      var current := queue[0];
      if current == planId {
        return true;
      }
      if current in visited {
        DropVisited(g, dependsOnId, visited, queue);
        queue := queue[1..];
        continue;
      }
      var rows := if current in g then g[current] else [];
      var longer := EnqueueUnvisited(queue[1..], rows, visited + {current});
      VisitNext(g, dependsOnId, visited, queue, longer);
      queue, visited := longer, visited + {current};
    }
    NothingLeft(g, dependsOnId, planId, visited);
    return false;
  }

  /** The inner loop of the search: the successors that were not visited go to the back of the queue. */
  method EnqueueUnvisited(queue: seq<int>, rows: seq<int>, visited: set<int>) returns (longer: seq<int>)
    ensures queue <= longer
    ensures forall x :: x in longer ==> x in queue || x in rows
    ensures forall y :: y in rows ==> y in visited || y in longer
  {
    longer := queue;
    for i := 0 to |rows|
      invariant queue <= longer
      invariant forall x :: x in longer ==> x in queue || x in rows
      invariant forall k :: 0 <= k < i ==> rows[k] in visited || rows[k] in longer
    {
      if rows[i] !in visited {
        longer := longer + [rows[i]];
      }
    }
  }

  ghost function Unvisited(g: Graph, root: int, visited: set<int>): nat {
    |Nodes(g) + {root} - visited|
  }

  lemma DropVisited(g: Graph, root: int, visited: set<int>, queue: seq<int>)
    requires Searching(g, root, visited, queue) && |queue| > 0 && queue[0] in visited
    ensures Searching(g, root, visited, queue[1..])
  {
    assert forall x :: x in queue ==> x == queue[0] || x in queue[1..];
  }

  lemma VisitNext(g: Graph, root: int, visited: set<int>, queue: seq<int>, longer: seq<int>)
    requires Searching(g, root, visited, queue) && |queue| > 0 && queue[0] !in visited
    requires queue[1..] <= longer
    requires forall x :: x in longer ==> x in queue[1..] || Edge(g, queue[0], x)
    requires forall y :: Edge(g, queue[0], y) ==> y in visited + {queue[0]} || y in longer
    ensures Searching(g, root, visited + {queue[0]}, longer)
    ensures Unvisited(g, root, visited + {queue[0]}) < Unvisited(g, root, visited)
  {
    var current := queue[0];
    assert current in queue;
    var v := visited + {current};
    forall x | x in v || x in longer ensures x in Nodes(g) + {root} && Reaches(g, root, x) {
      if x !in visited && x !in queue {
        assert Edge(g, current, x);
        ReachesStep(g, root, current, x);
      }
    }
    forall x, y | x in v && Edge(g, x, y) ensures y in v || y in longer {
      if x != current {
        assert y in visited || y in queue;
        assert y in queue ==> y == current || y in queue[1..];
      }
    }
    SmallerIsFewer(Nodes(g) + {root} - v, Nodes(g) + {root} - visited);
  }

  lemma NothingLeft(g: Graph, root: int, target: int, visited: set<int>)
    requires Searching(g, root, visited, []) && target !in visited
    ensures !Reaches(g, root, target)
  {
    if Reaches(g, root, target) {
      var p :| PathBetween(g, p, root, target);
      ClosedTrapsPath(g, visited, p);
    }
  }

  lemma SmallerIsFewer(a: set<int>, b: set<int>)
    requires a < b
    ensures |a| < |b|
  {
    assert |b| == |a| + |b - a| by {
      assert b == a + (b - a);
    }
    assert b - a != {};
  }

  /** In a finite acyclic graph every set of nodes left along edges has a node all of whose edges leave it. */
  lemma {:induction false} MinimalElement(g: Graph, S: set<int>, start: int, seen: set<int>) returns (m: int)
    requires Acyclic(g) && start in S && seen <= S
    requires forall x :: x in seen ==> Reaches(g, x, start) && x != start
    ensures m in S && Reaches(g, start, m)
    ensures forall y :: Edge(g, m, y) ==> y !in S
    decreases |S - seen|
  {
    if y :| Edge(g, start, y) && y in S {
      assert y !in seen + {start} by {
        ReachesSelf(g, start);
      }
      forall x | x in seen + {start} ensures Reaches(g, x, y) && x != y {
        if x == start {
          ReachesSelf(g, start);
        }
        ReachesStep(g, x, start, y);
      }
      SmallerIsFewer(S - (seen + {start}), S - seen);
      m := MinimalElement(g, S, y, seen + {start});
      ReachesSelf(g, start);
      ReachesStep(g, start, start, y);
      ReachesTransitive(g, start, y, m);
    } else {
      m := start;
      ReachesSelf(g, start);
    }
  }
}
