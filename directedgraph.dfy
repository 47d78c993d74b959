/** DirectedGraph.java: a graph whose edges are one-way links. */
module DirectedGraphs {
  import opened Results
  import opened GraphSpec
  import opened AbstractGraphs

  /** The Java class extends AbstractGraph; here it holds its AbstractGraph in
      `graph`, through which callers add vertices and ask for paths. */
  class DirectedGraph<T(==,!new)> {
    const graph: AbstractGraph<T>

    constructor ()
      ensures fresh(graph) && graph.Valid() && graph.Adj() == map[]
    {
      graph := new AbstractGraph();
    }

    /** The one-way link from `fromId` to `toId` and nothing else. */
    method AddEdge(fromId: Option<T>, toId: Option<T>) returns (r: Outcome)
      requires graph.Valid()
      modifies graph.verticesById.Values
      ensures graph.Valid()
      ensures Step(r, graph.Adj()) == GraphSpec.AddEdge(old(graph.Adj()), fromId, toId)
    {
      r := graph.AddEdge(fromId, toId);
    }
  }

  /** Nothing rejects a loop: a vertex may be linked to itself, once. */
  lemma SelfEdgeAccepted<T>(g: Adjacency<T>, x: T)
    requires x in g && x !in g[x]
    ensures GraphSpec.AddEdge(g, Some(x), Some(x)) == Step(Ok, g[x := g[x] + [x]])
  {
  }
}
