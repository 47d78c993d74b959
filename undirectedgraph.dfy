/** UndirectedGraph.java: every edge is a pair of one-way links. */
module UndirectedGraphs {
  import opened Results
  import opened GraphSpec
  import opened AbstractGraphs
  import opened Vertices

  /** The Java class extends AbstractGraph; here it holds its AbstractGraph in
      `graph`, through which callers add vertices and ask for paths. */
  class UndirectedGraph<T(==,!new)> {
    const graph: AbstractGraph<T>

    constructor ()
      ensures fresh(graph) && graph.Valid() && graph.Adj() == map[]
    {
      graph := new AbstractGraph();
    }

    /** The link from `firstId` to `secondId`, then the link back. A rejected
        reverse link does not undo the forward one. */
    method AddEdge(firstId: Option<T>, secondId: Option<T>) returns (r: Outcome)
      requires graph.Valid()
      modifies graph.verticesById.Values
      ensures graph.Valid()
      ensures Step(r, graph.Adj()) == UndirectedAddEdge(old(graph.Adj()), firstId, secondId)
      ensures Symmetric(old(graph.Adj())) ==> Symmetric(graph.Adj())
    {
      r := graph.AddEdge(firstId, secondId);
      if r.Fail? {
        if Symmetric(old(graph.Adj())) {
          AddEdgeKeepsSymmetric(old(graph.Adj()), firstId, secondId);
        }
        return;
      }
      ghost var forward := graph.Adj();
      label Forward:
      var second := graph.verticesById[secondId.value];
      r := second.ConnectTo(firstId.value);
      forall k | k in graph.verticesById && k != secondId.value
        ensures graph.verticesById[k].connectedTo == old@Forward(graph.verticesById[k].connectedTo)
      {
        assert graph.verticesById[k].id == k;
      }
      assert graph.Adj() == forward[secondId.value := second.connectedTo];
      UndirectedAddEdgeKeepsWellFormed(old(graph.Adj()), firstId, secondId);
      if Symmetric(old(graph.Adj())) {
        AddEdgeKeepsSymmetric(old(graph.Adj()), firstId, secondId);
      }
    }
  }

  /** A call that succeeds adds both links, so a symmetric graph stays
      symmetric. */
  lemma BothLinksKeepSymmetric<T>(g: Adjacency<T>, a: T, b: T)
    requires Symmetric(g)
    requires UndirectedAddEdge(g, Some(a), Some(b)).outcome.Ok?
    ensures Symmetric(UndirectedAddEdge(g, Some(a), Some(b)).graph)
  {
    var h := UndirectedAddEdge(g, Some(a), Some(b)).graph;
    forall u, x | u in h && x in h[u]
      ensures x in h && u in h[x]
    {
      if u == a && x == b {
      } else if u == b && x == a {
      } else {
        assert x in g[u] by {
          if u == a || u == b {
            assert h[u][..|g[u]|] == g[u];
            assert x in h[u][..|g[u]|];
          }
        }
        assert u in g[x];
        if x == a || x == b {
          assert u in h[x];
        }
      }
    }
  }

  /** Every call keeps a symmetric graph symmetric, whatever its outcome: a
      rejected forward link changes nothing; in a symmetric graph a new
      forward link between distinct vertices has a new reverse link too; and
      a loop is its own reverse. So every graph built through `UndirectedGraph`
      alone is symmetric. */
  lemma AddEdgeKeepsSymmetric<T>(g: Adjacency<T>, firstId: Option<T>, secondId: Option<T>)
    requires Symmetric(g)
    ensures Symmetric(UndirectedAddEdge(g, firstId, secondId).graph)
  {
    var r := UndirectedAddEdge(g, firstId, secondId);
    if r.outcome.Ok? {
      BothLinksKeepSymmetric(g, firstId.value, secondId.value);
    } else if AddEdge(g, firstId, secondId).outcome.Ok? {
      var a, b := firstId.value, secondId.value;
      if a != b {
        assert false;
      }
      var h := r.graph;
      assert h == g[a := g[a] + [a]];
      forall u, x | u in h && x in h[u]
        ensures x in h && u in h[x]
      {
        if u == a {
          assert x in g[a] || x == a;
        } else {
          assert x in g[u];
        }
      }
    }
  }

  /** When `b` already lists `a` but `a` does not list `b`, the forward link
      is added and then the call fails on the reverse one. Such a graph is not
      symmetric: only a one-way link added through `graph.AddEdge` leads to it,
      never a sequence of undirected calls. */
  lemma PartialFailure<T>(g: Adjacency<T>, a: T, b: T)
    requires a in g && b in g && b !in g[a] && a in g[b]
    ensures !Symmetric(g)
    ensures UndirectedAddEdge(g, Some(a), Some(b)) == Step(Fail(DuplicateEdge), g[a := g[a] + [b]])
  {
  }

  /** A loop is added once, then rejected as its own reverse. */
  lemma SelfEdge<T>(g: Adjacency<T>, x: T)
    requires x in g && x !in g[x]
    ensures UndirectedAddEdge(g, Some(x), Some(x)) == Step(Fail(DuplicateEdge), g[x := g[x] + [x]])
  {
  }

  /** In a symmetric graph every walk can be walked backwards. */
  lemma {:induction false} ReachableBothWays<T(!new)>(g: Adjacency<T>, a: T, b: T)
    requires Symmetric(g) && Reachable(g, a, b)
    ensures Reachable(g, b, a)
  {
    var w :| IsWalk(g, w) && w[0] == a && w[|w| - 1] == b;
    var v := Reverse(w);
    forall i | 0 <= i < |v| - 1
      ensures v[i + 1] in g[v[i]]
    {
      var j := |w| - 2 - i;
      assert v[i] == w[j + 1] && v[i + 1] == w[j];
      assert w[j + 1] in g[w[j]];
    }
    assert IsWalk(g, v);
  }

  /** In a symmetric graph (every graph built through `UndirectedGraph` alone),
      a path exists one way exactly when it exists the other way. */
  lemma PathSymmetric<T(!new)>(g: Adjacency<T>, a: T, b: T)
    requires Closed(g) && Symmetric(g) && a in g && b in g && a != b
    ensures Path(g, Some(a), Some(b)) == Success(None) <==> Path(g, Some(b), Some(a)) == Success(None)
  {
    PathComplete(g, a, b);
    PathComplete(g, b, a);
    if Reachable(g, a, b) {
      ReachableBothWays(g, a, b);
    }
    if Reachable(g, b, a) {
      ReachableBothWays(g, b, a);
    }
  }
}
