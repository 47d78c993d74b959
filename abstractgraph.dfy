/** AbstractGraph.java: the vertex registry and the path search shared by the
    directed and the undirected graph. */
module AbstractGraphs {
  import opened Results
  import opened GraphSpec
  import opened Vertices

  class AbstractGraph<T(==,!new)> {
    /** Every registered vertex, keyed by its id. */
    var verticesById: map<T, Vertex<T>>

    /** Each vertex is stored under its own id (so distinct keys hold distinct
        vertices), every neighbour id is a key and no list repeats an id. */
    ghost predicate Valid()
      reads this, verticesById.Values
    {
      && (forall k | k in verticesById :: verticesById[k].id == k)
      && WellFormed(Adj())
    }

    /** The abstract state: each id mapped to that vertex's neighbour list. */
    ghost function Adj(): Adjacency<T>
      reads this, verticesById.Values
    {
      map k | k in verticesById :: verticesById[k].connectedTo
    }

    /** A new graph has no vertices. */
    constructor ()
      ensures Valid() && verticesById == map[] && Adj() == map[]
    {
      verticesById := map[];
    }

    /** Registers a new vertex with no neighbours. A null id or an id already
        registered is rejected and leaves the graph as it was. */
    method AddVertex(vertexId: Option<T>) returns (r: Outcome)
      requires Valid()
      modifies this
      ensures Valid()
      ensures Step(r, Adj()) == GraphSpec.AddVertex(old(Adj()), vertexId)
      ensures forall k | k in old(verticesById) :: k in verticesById && verticesById[k] == old(verticesById[k])
      ensures fresh(verticesById.Values - old(verticesById.Values))
    {
      if vertexId.None? {
        return Fail(NullId);
      }
      if vertexId.value in verticesById {
        return Fail(DuplicateVertex);
      }
      var v := new Vertex(vertexId.value);
      verticesById := verticesById[vertexId.value := v];
      assert Adj() == old(Adj())[vertexId.value := []];
      AddVertexKeepsWellFormed(old(Adj()), vertexId);
      return Ok;
    }

    /** The one-way link from `firstId` to `secondId`. Null ids and
        unregistered endpoints are rejected before anything changes; a link
        that already exists is rejected by the vertex. */
    method AddEdge(firstId: Option<T>, secondId: Option<T>) returns (r: Outcome)
      requires Valid()
      modifies verticesById.Values
      ensures Valid()
      ensures Step(r, Adj()) == GraphSpec.AddEdge(old(Adj()), firstId, secondId)
    {
      if firstId.None? || secondId.None? {
        return Fail(NullId);
      }
      if firstId.value !in verticesById {
        return Fail(UnknownVertex);
      }
      var first := verticesById[firstId.value];
      if secondId.value !in verticesById {
        return Fail(UnknownVertex);
      }
      r := first.ConnectTo(secondId.value);
      forall k | k in verticesById && k != firstId.value
        ensures verticesById[k].connectedTo == old(verticesById[k].connectedTo)
      {
        assert verticesById[k].id == k;
      }
      assert Adj() == old(Adj())[firstId.value := first.connectedTo];
      AddEdgeKeepsWellFormed(old(Adj()), firstId, secondId);
    }

    /** Some path from `fromId` to `toId`: its intermediate ids, both endpoints
        left out, or None when there is none. */
    method GetPath(fromId: Option<T>, toId: Option<T>) returns (r: Result<Option<seq<T>>>)
      requires Valid()
      ensures r == Path(Adj(), fromId, toId)
      ensures fromId.None? || toId.None? ==> r == Failure(NullId)
      ensures fromId.Some? && toId.Some? && fromId.value == toId.value ==> r == Failure(SameIds)
      ensures fromId.Some? && toId.Some? && fromId.value != toId.value &&
              (fromId.value !in verticesById || toId.value !in verticesById) ==>
              r == Failure(UnknownVertex)
      ensures r.Success? && r.value.Some? ==>
                var w := [fromId.value] + r.value.value + [toId.value];
                IsWalk(Adj(), w) && NoDuplicates(w)
      ensures r.Success? ==> (r.value.None? <==> !Reachable(Adj(), fromId.value, toId.value))
    {
      if fromId.None? || toId.None? {
        return Failure(NullId);
      }
      if fromId.value == toId.value {
        return Failure(SameIds);
      }
      if fromId.value !in verticesById {
        return Failure(UnknownVertex);
      }
      var from := verticesById[fromId.value];
      if toId.value !in verticesById {
        return Failure(UnknownVertex);
      }
      var found, path, _ := IsFound([], {fromId.value}, from, toId.value);
      PathComplete(Adj(), fromId.value, toId.value);
      if found {
        ghost var s := Search(Adj(), {fromId.value}, fromId.value, toId.value);
        ReverseReverse(s.path);
        assert path == Reverse(s.path);
        path := Reverse(path);
        PathSound(Adj(), fromId.value, toId.value, path);
        return Success(Some(path));
      } else {
        return Success(None);
      }
    }

    /** The depth-first search. `path` and `traversedVertices` stand for the
        list and the set the search shares across its recursive calls: each
        call receives their current contents and returns the new ones. A
        successful call appends the ids of the path it found, target side
        first. */
    method IsFound(path: seq<T>, traversedVertices: set<T>, from: Vertex<T>, toId: T)
      returns (found: bool, path': seq<T>, traversed': set<T>)
      requires Valid()
      requires from.id in verticesById && verticesById[from.id] == from
      requires traversedVertices <= verticesById.Keys
      ensures var s := Search(Adj(), traversedVertices, from.id, toId);
        && found == s.found
        && traversed' == s.visited
        && path' == if found then path + Reverse(s.path) else path
      decreases verticesById.Keys - traversedVertices
    {
      if from.id == toId {
        return true, path, traversedVertices;
      }
      ghost var g := Adj();
      found, path', traversed' := false, path, traversedVertices;
      var children := from.connectedTo;
      assert children == g[from.id];
      for i := 0 to |children|
        invariant traversedVertices <= traversed' <= verticesById.Keys
        invariant path' == path
        invariant SearchFrom(g, traversed', from.id, toId, i) == Search(g, traversedVertices, from.id, toId)
      {
        var childId := children[i];
        if childId in traversed' {
          continue;
        }
        assert childId in g[from.id];
        traversed' := traversed' + {childId};
        var childFound;
        childFound, path', traversed' := IsFound(path', traversed', verticesById[childId], toId);
        if childFound {
          if childId != toId {
            path' := path' + [childId];
          }
          return true, path', traversed';
        }
      }
    }
  }
}
