/** The abstract state of a graph and the specification of every operation on it.

    A graph is seen as a map from each registered vertex id to that vertex's
    neighbour ids in insertion order. The classes in the other modules keep
    their state in `Vertex` objects; their `Adj()` functions give this view, and
    their methods are proved to act on it as the functions below do. */
module GraphSpec {
  import opened Results

  /** Vertex id to neighbour ids, in insertion order. */
  type Adjacency<T(==)> = map<T, seq<T>>

  /** The outcome of a mutating call together with the state it leaves behind. */
  datatype Step<T(==)> = Step(outcome: Outcome, graph: Adjacency<T>)

  ghost predicate NoDuplicates<T>(s: seq<T>) {
    forall i, j | 0 <= i < j < |s| :: s[i] != s[j]
  }

  /** Every neighbour id is itself a registered vertex. */
  ghost predicate Closed<T>(g: Adjacency<T>) {
    forall u, x | u in g && x in g[u] :: x in g
  }

  /** The invariant every graph keeps: closed, and no neighbour listed twice. */
  ghost predicate WellFormed<T>(g: Adjacency<T>) {
    Closed(g) && forall u | u in g :: NoDuplicates(g[u])
  }

  /** `b` lists `a` whenever `a` lists `b`. */
  ghost predicate Symmetric<T>(g: Adjacency<T>) {
    forall u, x | u in g && x in g[u] :: x in g && u in g[x]
  }

  // ---------------------------------------------------------------------------
  // Mutations

  /** Vertex.connectTo on a neighbour list: a neighbour already listed is
      rejected; otherwise it goes at the end. */
  function Connect<T(==)>(list: seq<T>, toId: T): (r: Result<seq<T>>)
    ensures r.Failure? <==> toId in list
    ensures r.Failure? ==> r.error == DuplicateEdge
    ensures r.Success? ==> |r.value| == |list| + 1 && r.value[..|list|] == list && r.value[|list|] == toId
  {
    if toId in list then Failure(DuplicateEdge) else Success(list + [toId])
  }

  /** AbstractGraph.addVertex. */
  function AddVertex<T(==)>(g: Adjacency<T>, id: Option<T>): (r: Step<T>)
    ensures id.None? ==> r == Step(Fail(NullId), g)
    ensures id.Some? && id.value in g ==> r == Step(Fail(DuplicateVertex), g)
    ensures r.outcome.Ok? <==> id.Some? && id.value !in g
    ensures r.outcome.Ok? ==>
              && r.graph.Keys == g.Keys + {id.value}
              && r.graph[id.value] == []
              && forall u | u in g :: r.graph[u] == g[u]
  {
    match id
    case None => Step(Fail(NullId), g)
    case Some(k) => if k in g then Step(Fail(DuplicateVertex), g) else Step(Ok, g[k := []])
  }

  /** AbstractGraph.addEdge, the one-way link both variants start with. */
  function AddEdge<T(==)>(g: Adjacency<T>, firstId: Option<T>, secondId: Option<T>): (r: Step<T>)
    ensures firstId.None? || secondId.None? ==> r == Step(Fail(NullId), g)
    ensures firstId.Some? && secondId.Some? && (firstId.value !in g || secondId.value !in g) ==>
              r == Step(Fail(UnknownVertex), g)
    ensures r.outcome.Fail? ==> r.graph == g
    ensures r.outcome.Ok? <==>
              firstId.Some? && secondId.Some? && firstId.value in g && secondId.value in g &&
              secondId.value !in g[firstId.value]
    ensures r.outcome == Fail(DuplicateEdge) <==>
              firstId.Some? && secondId.Some? && firstId.value in g && secondId.value in g &&
              secondId.value in g[firstId.value]
    ensures r.outcome.Ok? ==>
              && r.graph.Keys == g.Keys
              && r.graph[firstId.value] == g[firstId.value] + [secondId.value]
              && forall u | u in g && u != firstId.value :: r.graph[u] == g[u]
  {
    if firstId.None? || secondId.None? then Step(Fail(NullId), g)
    else if firstId.value !in g then Step(Fail(UnknownVertex), g)
    else if secondId.value !in g then Step(Fail(UnknownVertex), g)
    else match Connect(g[firstId.value], secondId.value)
      case Failure(e) => Step(Fail(e), g)
      case Success(list) => Step(Ok, g[firstId.value := list])
  }

  /** UndirectedGraph.addEdge: the one-way link, then the reverse link. When the
      reverse link is rejected the forward link stays in place. */
  function UndirectedAddEdge<T(==)>(g: Adjacency<T>, firstId: Option<T>, secondId: Option<T>): (r: Step<T>)
    ensures AddEdge(g, firstId, secondId).outcome.Fail? ==> r == AddEdge(g, firstId, secondId)
    ensures r.outcome.Ok? <==>
              firstId.Some? && secondId.Some? && firstId.value in g && secondId.value in g &&
              firstId.value != secondId.value &&
              secondId.value !in g[firstId.value] && firstId.value !in g[secondId.value]
    ensures r.outcome.Ok? ==>
              && r.graph.Keys == g.Keys
              && r.graph[firstId.value] == g[firstId.value] + [secondId.value]
              && r.graph[secondId.value] == g[secondId.value] + [firstId.value]
              && forall u | u in g && u != firstId.value && u != secondId.value :: r.graph[u] == g[u]
  {
    var forward := AddEdge(g, firstId, secondId);
    if forward.outcome.Fail? then forward
    else match Connect(forward.graph[secondId.value], firstId.value)
      case Failure(e) => Step(Fail(e), forward.graph)
      case Success(list) => Step(Ok, forward.graph[secondId.value := list])
  }

  /** Appending an id that is not yet listed keeps a list free of repeats. */
  lemma ConnectKeepsNoDuplicates<T>(list: seq<T>, toId: T)
    requires NoDuplicates(list) && Connect(list, toId).Success?
    ensures NoDuplicates(Connect(list, toId).value)
  {
  }

  lemma AddVertexKeepsWellFormed<T>(g: Adjacency<T>, id: Option<T>)
    requires WellFormed(g)
    ensures WellFormed(AddVertex(g, id).graph)
  {
  }

  lemma AddVertexKeepsSymmetric<T>(g: Adjacency<T>, id: Option<T>)
    requires Symmetric(g)
    ensures Symmetric(AddVertex(g, id).graph)
  {
  }

  lemma AddEdgeKeepsWellFormed<T>(g: Adjacency<T>, firstId: Option<T>, secondId: Option<T>)
    requires WellFormed(g)
    ensures WellFormed(AddEdge(g, firstId, secondId).graph)
  {
    var r := AddEdge(g, firstId, secondId);
    if r.outcome.Ok? {
      ConnectKeepsNoDuplicates(g[firstId.value], secondId.value);
    }
  }

  /** The graph stays well formed even when the reverse link is rejected. */
  lemma UndirectedAddEdgeKeepsWellFormed<T>(g: Adjacency<T>, firstId: Option<T>, secondId: Option<T>)
    requires WellFormed(g)
    ensures WellFormed(UndirectedAddEdge(g, firstId, secondId).graph)
  {
    AddEdgeKeepsWellFormed(g, firstId, secondId);
    var forward := AddEdge(g, firstId, secondId);
    if forward.outcome.Ok? && firstId.value !in forward.graph[secondId.value] {
      ConnectKeepsNoDuplicates(forward.graph[secondId.value], firstId.value);
    }
  }

  // ---------------------------------------------------------------------------
  // Walks and reachability

  /** `w` is a non-empty sequence of vertices, each linked to the next. */
  ghost predicate IsWalk<T>(g: Adjacency<T>, w: seq<T>) {
    && |w| > 0
    && (forall i | 0 <= i < |w| :: w[i] in g)
    && (forall i | 0 <= i < |w| - 1 :: w[i + 1] in g[w[i]])
  }

  ghost predicate Reachable<T(!new)>(g: Adjacency<T>, a: T, b: T) {
    exists w :: IsWalk(g, w) && w[0] == a && w[|w| - 1] == b
  }

  /** Prepending a vertex that links to the head of a walk gives a walk. */
  lemma WalkCons<T>(g: Adjacency<T>, v: T, w: seq<T>)
    requires IsWalk(g, w) && v in g && w[0] in g[v]
    ensures IsWalk(g, [v] + w)
  {
    var w' := [v] + w;
    forall i | 0 <= i < |w'| - 1
      ensures w'[i + 1] in g[w'[i]]
    {
      if i > 0 {
        assert w'[i] == w[i - 1] && w'[i + 1] == w[i];
      }
    }
  }

  // ---------------------------------------------------------------------------
  // Depth-first search (AbstractGraph.isFound)

  /** What a search reports: whether the target was found, the intermediate
      ids of the path it found (source side first, target excluded), and the
      visited set as it stands when the search returns. */
  datatype SearchResult<T(==)> = SearchResult(found: bool, path: seq<T>, visited: set<T>)

  /** The search from vertex `v` towards `to`, given the ids visited so far. */
  ghost function Search<T>(g: Adjacency<T>, visited: set<T>, v: T, to: T): (r: SearchResult<T>)
    requires Closed(g) && visited <= g.Keys && v in g
    ensures visited <= r.visited <= g.Keys
    decreases g.Keys - visited, 1
  {
    if v == to then SearchResult(true, [], visited)
    else SearchFrom(g, visited, v, to, 0)
  }

  /** The loop over `v`'s neighbours, from the `i`-th one on. */
  ghost function SearchFrom<T>(g: Adjacency<T>, visited: set<T>, v: T, to: T, i: nat): (r: SearchResult<T>)
    requires Closed(g) && visited <= g.Keys && v in g && i <= |g[v]|
    ensures visited <= r.visited <= g.Keys
    decreases g.Keys - visited, 0, |g[v]| - i
  {
    if i == |g[v]| then SearchResult(false, [], visited)
    else
      var c := g[v][i];
      if c in visited then SearchFrom(g, visited, v, to, i + 1)
      else
        var r := Search(g, visited + {c}, c, to);
        if r.found then SearchResult(true, if c == to then r.path else [c] + r.path, r.visited)
        else SearchFrom(g, r.visited, v, to, i + 1)
  }

  /** AbstractGraph.getPath: the argument checks, then the search from `fromId`
      with only `fromId` visited. */
  ghost function Path<T>(g: Adjacency<T>, fromId: Option<T>, toId: Option<T>): (r: Result<Option<seq<T>>>)
    requires Closed(g)
    ensures fromId.None? || toId.None? ==> r == Failure(NullId)
    ensures fromId.Some? && toId.Some? && fromId.value == toId.value ==> r == Failure(SameIds)
    ensures fromId.Some? && toId.Some? && fromId.value != toId.value &&
              (fromId.value !in g || toId.value !in g) ==>
              r == Failure(UnknownVertex)
    ensures r.Success? <==>
              fromId.Some? && toId.Some? && fromId.value != toId.value &&
              fromId.value in g && toId.value in g
  {
    if fromId.None? || toId.None? then Failure(NullId)
    else if fromId.value == toId.value then Failure(SameIds)
    else if fromId.value !in g then Failure(UnknownVertex)
    else if toId.value !in g then Failure(UnknownVertex)
    else
      var s := Search(g, {fromId.value}, fromId.value, toId.value);
      Success(if s.found then Some(s.path) else None)
  }

  /** Collections.reverse. */
  function Reverse<T>(s: seq<T>): (r: seq<T>)
    ensures |r| == |s|
    ensures forall i | 0 <= i < |s| :: r[i] == s[|s| - 1 - i]
  {
    if s == [] then [] else Reverse(s[1..]) + [s[0]]
  }

  lemma ReverseReverse<T>(s: seq<T>)
    ensures Reverse(Reverse(s)) == s
  {
  }

  // ---------------------------------------------------------------------------
  // Soundness: a search that succeeds reports a simple path

  /** What a successful search from `v` promises, given the set `visited` it
      started from: a walk from `v` through the path to `to`, with distinct
      intermediates that are neither `to` nor visited before the search. */
  ghost predicate SoundFrom<T>(g: Adjacency<T>, visited: set<T>, v: T, to: T, r: SearchResult<T>) {
    r.found ==>
      && IsWalk(g, [v] + r.path + [to])
      && NoDuplicates(r.path)
      && to !in r.path
      && forall x | x in r.path :: x in r.visited && x !in visited
  }

  lemma {:induction false} SearchSound<T>(g: Adjacency<T>, visited: set<T>, v: T, to: T)
    requires Closed(g) && visited <= g.Keys && v in g
    ensures var r := Search(g, visited, v, to);
      r.found ==> if v == to then r.path == [] else SoundFrom(g, visited, v, to, r)
    decreases g.Keys - visited, 1
  {
    if v != to {
      SearchFromSound(g, visited, v, to, 0);
    }
  }

  lemma {:induction false} SearchFromSound<T>(g: Adjacency<T>, visited: set<T>, v: T, to: T, i: nat)
    requires Closed(g) && visited <= g.Keys && v in g && i <= |g[v]|
    ensures SoundFrom(g, visited, v, to, SearchFrom(g, visited, v, to, i))
    decreases g.Keys - visited, 0, |g[v]| - i
  {
    if i < |g[v]| {
      var c := g[v][i];
      assert c in g[v];
      if c in visited {
        SearchFromSound(g, visited, v, to, i + 1);
      } else {
        var r := Search(g, visited + {c}, c, to);
        SearchSound(g, visited + {c}, c, to);
        if r.found {
          if c == to {
            assert [v] + r.path + [to] == [v, c];
          } else {
            var p := [c] + r.path;
            WalkCons(g, v, [c] + r.path + [to]);
            assert [v] + p + [to] == [v] + ([c] + r.path + [to]);
            forall j, k | 0 <= j < k < |p|
              ensures p[j] != p[k]
            {
              if j == 0 {
                assert p[k] in r.path;
              } else {
                assert p[j] == r.path[j - 1] && p[k] == r.path[k - 1];
              }
            }
          }
        } else {
          SearchFromSound(g, r.visited, v, to, i + 1);
        }
      }
    }
  }

  // ---------------------------------------------------------------------------
  // Completeness: a search that fails has explored a set closed under edges

  /** Every neighbour of `u` lies in `s`. */
  ghost predicate Expanded<T>(g: Adjacency<T>, s: set<T>, u: T) {
    u in g && forall x | x in g[u] :: x in s
  }

  lemma {:induction false} SearchComplete<T>(g: Adjacency<T>, visited: set<T>, v: T, to: T)
    requires Closed(g) && visited <= g.Keys && v in g && to !in visited
    ensures var r := Search(g, visited, v, to);
      !r.found ==>
        && to !in r.visited
        && Expanded(g, r.visited, v)
        && forall u | u in r.visited - visited :: Expanded(g, r.visited, u)
    decreases g.Keys - visited, 1
  {
    if v != to {
      SearchFromComplete(g, visited, v, to, 0);
      var r := Search(g, visited, v, to);
      if !r.found {
        forall x | x in g[v]
          ensures x in r.visited
        {
          var j :| 0 <= j < |g[v]| && g[v][j] == x;
        }
      }
    }
  }

  lemma {:induction false} SearchFromComplete<T>(g: Adjacency<T>, visited: set<T>, v: T, to: T, i: nat)
    requires Closed(g) && visited <= g.Keys && v in g && i <= |g[v]| && to !in visited
    ensures var r := SearchFrom(g, visited, v, to, i);
      !r.found ==>
        && to !in r.visited
        && (forall j | i <= j < |g[v]| :: g[v][j] in r.visited)
        && forall u | u in r.visited - visited :: Expanded(g, r.visited, u)
    decreases g.Keys - visited, 0, |g[v]| - i
  {
    if i < |g[v]| {
      var c := g[v][i];
      assert c in g[v];
      if c in visited {
        SearchFromComplete(g, visited, v, to, i + 1);
      } else {
        var r := Search(g, visited + {c}, c, to);
        if !r.found {
          assert c != to;
          SearchComplete(g, visited + {c}, c, to);
          SearchFromComplete(g, r.visited, v, to, i + 1);
          var r' := SearchFrom(g, r.visited, v, to, i + 1);
          if !r'.found {
            forall u | u in r'.visited - visited
              ensures Expanded(g, r'.visited, u)
            {
              if u in r.visited {
                assert u == c || u in r.visited - (visited + {c});
              } else {
                assert u in r'.visited - r.visited;
              }
            }
          }
        }
      }
    }
  }

  /** No walk leaves a set that contains its start and every neighbour of its
      members. */
  lemma {:induction false} WalkStaysInside<T>(g: Adjacency<T>, s: set<T>, w: seq<T>, n: nat)
    requires IsWalk(g, w) && w[0] in s && n < |w|
    requires forall u | u in s :: Expanded(g, s, u)
    ensures w[n] in s
  {
    if n > 0 {
      WalkStaysInside(g, s, w, n - 1);
      assert Expanded(g, s, w[n - 1]);
      assert w[n] in g[w[n - 1]];
    }
  }

  lemma ClosedSetBlocks<T(!new)>(g: Adjacency<T>, s: set<T>, a: T, b: T)
    requires a in s && b !in s
    requires forall u | u in s :: Expanded(g, s, u)
    ensures !Reachable(g, a, b)
  {
    forall w | IsWalk(g, w) && w[0] == a
      ensures w[|w| - 1] != b
    {
      WalkStaysInside(g, s, w, |w| - 1);
    }
  }

  // ---------------------------------------------------------------------------
  // The guarantees of getPath

  /** A returned path, framed by its endpoints, is a walk along existing edges
      that visits no vertex twice. */
  lemma PathSound<T>(g: Adjacency<T>, a: T, b: T, p: seq<T>)
    requires Closed(g)
    requires Path(g, Some(a), Some(b)) == Success(Some(p))
    ensures IsWalk(g, [a] + p + [b])
    ensures NoDuplicates([a] + p + [b])
  {
    SearchSound(g, {a}, a, b);
    var w := [a] + p + [b];
    forall j, k | 0 <= j < k < |w|
      ensures w[j] != w[k]
    {
      if 0 < j && k < |w| - 1 {
        assert w[j] == p[j - 1] && w[k] == p[k - 1];
      } else if j == 0 && k < |w| - 1 {
        assert w[k] == p[k - 1];
      } else if 0 < j {
        assert w[j] == p[j - 1];
      }
    }
  }

  /** getPath answers null exactly when the target is unreachable. */
  lemma PathComplete<T(!new)>(g: Adjacency<T>, a: T, b: T)
    requires Closed(g) && a in g && b in g && a != b
    ensures Path(g, Some(a), Some(b)) == Success(None) <==> !Reachable(g, a, b)
  {
    var r := Search(g, {a}, a, b);
    if r.found {
      PathSound(g, a, b, r.path);
      var w := [a] + r.path + [b];
      assert w[0] == a && w[|w| - 1] == b;
    } else {
      SearchComplete(g, {a}, a, b);
      forall u | u in r.visited
        ensures Expanded(g, r.visited, u)
      {
        if u != a {
          assert u in r.visited - {a};
        }
      }
      ClosedSetBlocks(g, r.visited, a, b);
    }
  }

  /** A set that holds the source, not the target, and every neighbour of
      its members witnesses that getPath answers null. */
  lemma NoPathWhenEnclosed<T(!new)>(g: Adjacency<T>, s: set<T>, a: T, b: T)
    requires Closed(g) && a in g && b in g && a != b
    requires a in s && b !in s
    requires forall u | u in s :: Expanded(g, s, u)
    ensures Path(g, Some(a), Some(b)) == Success(None)
  {
    ClosedSetBlocks(g, s, a, b);
    PathComplete(g, a, b);
  }

  /** When the source's first neighbour is the target, the search stops there
      and the path has no intermediate vertex. */
  lemma FirstNeighbourGivesEmptyPath<T>(g: Adjacency<T>, a: T, b: T)
    requires Closed(g) && a in g && a != b && |g[a]| > 0 && g[a][0] == b
    ensures Path(g, Some(a), Some(b)) == Success(Some([]))
  {
    assert Search(g, {a} + {b}, b, b).found;
    assert SearchFrom(g, {a}, a, b, 0).path == [];
  }
}
