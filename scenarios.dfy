/** The scenarios of GraphTest.java, stated on the adjacency maps its calls
    build. Each graph below is the map that the listed sequence of addVertex
    and addEdge calls produces, proved call by call: `BasicVertices`,
    `BasicLinks` and `NoPathDirectedLinks` for the two directed graphs of
    testBasicActions and testNoPath, and the `...Build<k>` lemmas, a few calls
    each, for the other three; consecutive lemmas of one graph meet in the same
    literal map. The other lemmas prove the answers the test expects from
    getPath on these graphs. */
module GraphScenarios {
  import opened Results
  import opened GraphSpec

  /** testBasicActions: a directed graph on 1, 2, 3, 1000 with the edges
      1->2, 2->3, 3->1, 3->1000, 1000->3, added in that order. */
  function Basic(): (g: Adjacency<int>)
    ensures Closed(g)
  {
    map[1 := [2], 2 := [3], 3 := [1, 1000], 1000 := [3]]
  }

  /** testNoPath, directed part: vertices 1, 2, 3, 1000 and the edges 1->2,
      2->3, 3->1, 1000->3. */
  function NoPathDirected(): (g: Adjacency<int>)
    ensures Closed(g)
  {
    map[1 := [2], 2 := [3], 3 := [1], 1000 := [3]]
  }

  /** testNoPath, undirected part: vertices A to F and the edges A-B, A-C, B-C,
      C-D, E-F. */
  function NoPathUndirected(): (g: Adjacency<char>)
    ensures Closed(g)
  {
    map['A' := ['B', 'C'], 'B' := ['A', 'C'], 'C' := ['A', 'B', 'D'],
        'D' := ['C'], 'E' := ['F'], 'F' := ['E']]
  }

  /** testDirectedPath: vertices 1 to 9 and the edges 1->2, 2->3, 3->4, 4->3,
      4->2, 4->5, 5->6, 5->8, 5->9, 6->3, 6->7, 7->3, 8->9. */
  function NineVertices(): (g: Adjacency<int>)
    ensures Closed(g)
  {
    map[1 := [2], 2 := [3], 3 := [4], 4 := [3, 2, 5], 5 := [6, 8, 9],
        6 := [3, 7], 7 := [3], 8 := [9], 9 := []]
  }

  /** testUndirectedPath: vertices A to K and the edges A-C, A-H, B-C, B-D, F-D,
      F-E, F-I, F-J, G-E, G-K, I-J. */
  function ElevenVertices(): (g: Adjacency<char>)
    ensures Closed(g)
  {
    map['A' := ['C', 'H'], 'B' := ['C', 'D'], 'C' := ['A', 'B'],
        'D' := ['B', 'F'], 'E' := ['F', 'G'], 'F' := ['D', 'E', 'I', 'J'],
        'G' := ['E', 'K'], 'H' := ['A'], 'I' := ['F', 'J'], 'J' := ['F', 'I'],
        'K' := ['G']]
  }

  /** GraphTest.java:34-37: each addVertex call succeeds, and together they
      register 1, 2, 3, 1000 with no links. */
  lemma BasicVertices()
    ensures var g0: Adjacency<int> := map[];
      var g1 := g0[1 := []];
      var g2 := g1[2 := []];
      var g3 := g2[3 := []];
      var g4 := g3[1000 := []];
      && AddVertex(g0, Some(1)) == Step(Ok, g1)
      && AddVertex(g1, Some(2)) == Step(Ok, g2)
      && AddVertex(g2, Some(3)) == Step(Ok, g3)
      && AddVertex(g3, Some(1000)) == Step(Ok, g4)
      && g4 == map[1 := [], 2 := [], 3 := [], 1000 := []]
  {
  }

  /** GraphTest.java:38-42: each addEdge call succeeds, and together they
      turn the graph of `BasicVertices` into `Basic()`. */
  lemma BasicLinks()
    ensures var g0: Adjacency<int> := map[1 := [], 2 := [], 3 := [], 1000 := []];
      var g1 := g0[1 := [2]];
      var g2 := g1[2 := [3]];
      var g3 := g2[3 := [1]];
      var g4 := g3[3 := [1, 1000]];
      var g5 := g4[1000 := [3]];
      && AddEdge(g0, Some(1), Some(2)) == Step(Ok, g1)
      && AddEdge(g1, Some(2), Some(3)) == Step(Ok, g2)
      && AddEdge(g2, Some(3), Some(1)) == Step(Ok, g3)
      && AddEdge(g3, Some(3), Some(1000)) == Step(Ok, g4)
      && AddEdge(g4, Some(1000), Some(3)) == Step(Ok, g5)
      && g5 == Basic()
  {
    assert [1] + [1000] == [1, 1000];
  }

  /** GraphTest.java:160-163: each addEdge call succeeds, and together they
      turn the graph of `BasicVertices` (the same four addVertex calls, lines
      156-159) into `NoPathDirected()`. */
  lemma NoPathDirectedLinks()
    ensures var g0: Adjacency<int> := map[1 := [], 2 := [], 3 := [], 1000 := []];
      var g1 := g0[1 := [2]];
      var g2 := g1[2 := [3]];
      var g3 := g2[3 := [1]];
      var g4 := g3[1000 := [3]];
      && AddEdge(g0, Some(1), Some(2)) == Step(Ok, g1)
      && AddEdge(g1, Some(2), Some(3)) == Step(Ok, g2)
      && AddEdge(g2, Some(3), Some(1)) == Step(Ok, g3)
      && AddEdge(g3, Some(1000), Some(3)) == Step(Ok, g4)
      && g4 == NoPathDirected()
  {
  }

  /** GraphTest.java:168-171: each of these addVertex calls succeeds. */
  lemma NoPathUndirectedBuild1()
    ensures AddVertex(map[], Some('A'))
      == Step(Ok, map['A' := []])
    ensures AddVertex(map['A' := []], Some('B'))
      == Step(Ok, map['A' := [], 'B' := []])
    ensures AddVertex(map['A' := [], 'B' := []], Some('C'))
      == Step(Ok, map['A' := [], 'B' := [], 'C' := []])
    ensures AddVertex(map['A' := [], 'B' := [], 'C' := []], Some('D'))
      == Step(Ok, map['A' := [], 'B' := [], 'C' := [], 'D' := []])
  {
  }

  /** GraphTest.java:172-173: each of these addVertex calls succeeds. */
  lemma NoPathUndirectedBuild2()
    ensures AddVertex(map['A' := [], 'B' := [], 'C' := [], 'D' := []], Some('E'))
      == Step(Ok, map['A' := [], 'B' := [], 'C' := [], 'D' := [], 'E' := []])
    ensures AddVertex(map['A' := [], 'B' := [], 'C' := [], 'D' := [], 'E' := []], Some('F'))
      == Step(Ok, map['A' := [], 'B' := [], 'C' := [], 'D' := [], 'E' := [], 'F' := []])
  {
  }

  /** GraphTest.java:174-175: each of these addEdge calls succeeds. */
  lemma NoPathUndirectedBuild3()
    ensures UndirectedAddEdge(map['A' := [], 'B' := [], 'C' := [], 'D' := [], 'E' := [], 'F' := []], Some('A'), Some('B'))
      == Step(Ok, map['A' := [], 'B' := [], 'C' := [], 'D' := [], 'E' := [], 'F' := []]['A' := ['B']]['B' := ['A']])
    ensures UndirectedAddEdge(map['A' := [], 'B' := [], 'C' := [], 'D' := [], 'E' := [], 'F' := []]['A' := ['B']]['B' := ['A']], Some('A'), Some('C'))
      == Step(Ok, map['A' := [], 'B' := [], 'C' := [], 'D' := [], 'E' := [], 'F' := []]['A' := ['B']]['B' := ['A']]['A' := ['B', 'C']]['C' := ['A']])
    ensures map['A' := [], 'B' := [], 'C' := [], 'D' := [], 'E' := [], 'F' := []]['A' := ['B']]['B' := ['A']]['A' := ['B', 'C']]['C' := ['A']]
      == map['A' := ['B', 'C'], 'B' := ['A'], 'C' := ['A'], 'D' := [],
        'E' := [], 'F' := []]
  {
    assert ['B'] + ['C'] == ['B', 'C'];
  }

  /** GraphTest.java:176-177: each of these addEdge calls succeeds. */
  lemma NoPathUndirectedBuild4()
    ensures UndirectedAddEdge(map['A' := ['B', 'C'], 'B' := ['A'], 'C' := ['A'], 'D' := [],
        'E' := [], 'F' := []], Some('B'), Some('C'))
      == Step(Ok, map['A' := ['B', 'C'], 'B' := ['A'], 'C' := ['A'], 'D' := [],
        'E' := [], 'F' := []]['B' := ['A', 'C']]['C' := ['A', 'B']])
    ensures UndirectedAddEdge(map['A' := ['B', 'C'], 'B' := ['A'], 'C' := ['A'], 'D' := [],
        'E' := [], 'F' := []]['B' := ['A', 'C']]['C' := ['A', 'B']], Some('C'), Some('D'))
      == Step(Ok, map['A' := ['B', 'C'], 'B' := ['A'], 'C' := ['A'], 'D' := [],
        'E' := [], 'F' := []]['B' := ['A', 'C']]['C' := ['A', 'B']]['C' := ['A', 'B', 'D']]['D' := ['C']])
    ensures map['A' := ['B', 'C'], 'B' := ['A'], 'C' := ['A'], 'D' := [],
        'E' := [], 'F' := []]['B' := ['A', 'C']]['C' := ['A', 'B']]['C' := ['A', 'B', 'D']]['D' := ['C']]
      == map['A' := ['B', 'C'], 'B' := ['A', 'C'], 'C' := ['A', 'B', 'D'],
        'D' := ['C'], 'E' := [], 'F' := []]
  {
    assert ['A'] + ['C'] == ['A', 'C'];
    assert ['A'] + ['B'] == ['A', 'B'];
    assert ['A', 'B'] + ['D'] == ['A', 'B', 'D'];
  }

  /** GraphTest.java:178: each of these addEdge calls succeeds; the last
      one leaves `NoPathUndirected()`. */
  lemma NoPathUndirectedBuild5()
    ensures UndirectedAddEdge(map['A' := ['B', 'C'], 'B' := ['A', 'C'], 'C' := ['A', 'B', 'D'],
        'D' := ['C'], 'E' := [], 'F' := []], Some('E'), Some('F'))
      == Step(Ok, map['A' := ['B', 'C'], 'B' := ['A', 'C'], 'C' := ['A', 'B', 'D'],
        'D' := ['C'], 'E' := [], 'F' := []]['E' := ['F']]['F' := ['E']])
    ensures map['A' := ['B', 'C'], 'B' := ['A', 'C'], 'C' := ['A', 'B', 'D'],
        'D' := ['C'], 'E' := [], 'F' := []]['E' := ['F']]['F' := ['E']]
      == map['A' := ['B', 'C'], 'B' := ['A', 'C'], 'C' := ['A', 'B', 'D'],
        'D' := ['C'], 'E' := ['F'], 'F' := ['E']]
    ensures map['A' := ['B', 'C'], 'B' := ['A', 'C'], 'C' := ['A', 'B', 'D'],
        'D' := ['C'], 'E' := ['F'], 'F' := ['E']] == NoPathUndirected()
  {
  }

  /** GraphTest.java:206-209: each of these addVertex calls succeeds. */
  lemma NineVerticesBuild1()
    ensures AddVertex(map[], Some(1))
      == Step(Ok, map[1 := []])
    ensures AddVertex(map[1 := []], Some(2))
      == Step(Ok, map[1 := [], 2 := []])
    ensures AddVertex(map[1 := [], 2 := []], Some(3))
      == Step(Ok, map[1 := [], 2 := [], 3 := []])
    ensures AddVertex(map[1 := [], 2 := [], 3 := []], Some(4))
      == Step(Ok, map[1 := [], 2 := [], 3 := [], 4 := []])
  {
  }

  /** GraphTest.java:210-213: each of these addVertex calls succeeds. */
  lemma NineVerticesBuild2()
    ensures AddVertex(map[1 := [], 2 := [], 3 := [], 4 := []], Some(5))
      == Step(Ok, map[1 := [], 2 := [], 3 := [], 4 := [], 5 := []])
    ensures AddVertex(map[1 := [], 2 := [], 3 := [], 4 := [], 5 := []], Some(6))
      == Step(Ok, map[1 := [], 2 := [], 3 := [], 4 := [], 5 := [], 6 := []])
    ensures AddVertex(map[1 := [], 2 := [], 3 := [], 4 := [], 5 := [], 6 := []], Some(7))
      == Step(Ok, map[1 := [], 2 := [], 3 := [], 4 := [], 5 := [], 6 := [], 7 := []])
    ensures AddVertex(map[1 := [], 2 := [], 3 := [], 4 := [], 5 := [], 6 := [], 7 := []], Some(8))
      == Step(Ok, map[1 := [], 2 := [], 3 := [], 4 := [], 5 := [], 6 := [], 7 := [],
        8 := []])
  {
  }

  /** GraphTest.java:214: each of these addVertex calls succeeds. */
  lemma NineVerticesBuild3()
    ensures AddVertex(map[1 := [], 2 := [], 3 := [], 4 := [], 5 := [], 6 := [], 7 := [],
        8 := []], Some(9))
      == Step(Ok, map[1 := [], 2 := [], 3 := [], 4 := [], 5 := [], 6 := [], 7 := [],
        8 := [], 9 := []])
  {
  }

  /** GraphTest.java:215-217: each of these addEdge calls succeeds. */
  lemma NineVerticesBuild4()
    ensures AddEdge(map[1 := [], 2 := [], 3 := [], 4 := [], 5 := [], 6 := [], 7 := [],
        8 := [], 9 := []], Some(1), Some(2))
      == Step(Ok, map[1 := [], 2 := [], 3 := [], 4 := [], 5 := [], 6 := [], 7 := [],
        8 := [], 9 := []][1 := [2]])
    ensures AddEdge(map[1 := [], 2 := [], 3 := [], 4 := [], 5 := [], 6 := [], 7 := [],
        8 := [], 9 := []][1 := [2]], Some(2), Some(3))
      == Step(Ok, map[1 := [], 2 := [], 3 := [], 4 := [], 5 := [], 6 := [], 7 := [],
        8 := [], 9 := []][1 := [2]][2 := [3]])
    ensures AddEdge(map[1 := [], 2 := [], 3 := [], 4 := [], 5 := [], 6 := [], 7 := [],
        8 := [], 9 := []][1 := [2]][2 := [3]], Some(3), Some(4))
      == Step(Ok, map[1 := [], 2 := [], 3 := [], 4 := [], 5 := [], 6 := [], 7 := [],
        8 := [], 9 := []][1 := [2]][2 := [3]][3 := [4]])
    ensures map[1 := [], 2 := [], 3 := [], 4 := [], 5 := [], 6 := [], 7 := [],
        8 := [], 9 := []][1 := [2]][2 := [3]][3 := [4]]
      == map[1 := [2], 2 := [3], 3 := [4], 4 := [], 5 := [], 6 := [], 7 := [],
        8 := [], 9 := []]
  {
  }

  /** GraphTest.java:218-220: each of these addEdge calls succeeds. */
  lemma NineVerticesBuild5()
    ensures AddEdge(map[1 := [2], 2 := [3], 3 := [4], 4 := [], 5 := [], 6 := [], 7 := [],
        8 := [], 9 := []], Some(4), Some(3))
      == Step(Ok, map[1 := [2], 2 := [3], 3 := [4], 4 := [], 5 := [], 6 := [], 7 := [],
        8 := [], 9 := []][4 := [3]])
    ensures AddEdge(map[1 := [2], 2 := [3], 3 := [4], 4 := [], 5 := [], 6 := [], 7 := [],
        8 := [], 9 := []][4 := [3]], Some(4), Some(2))
      == Step(Ok, map[1 := [2], 2 := [3], 3 := [4], 4 := [], 5 := [], 6 := [], 7 := [],
        8 := [], 9 := []][4 := [3]][4 := [3, 2]])
    ensures AddEdge(map[1 := [2], 2 := [3], 3 := [4], 4 := [], 5 := [], 6 := [], 7 := [],
        8 := [], 9 := []][4 := [3]][4 := [3, 2]], Some(4), Some(5))
      == Step(Ok, map[1 := [2], 2 := [3], 3 := [4], 4 := [], 5 := [], 6 := [], 7 := [],
        8 := [], 9 := []][4 := [3]][4 := [3, 2]][4 := [3, 2, 5]])
    ensures map[1 := [2], 2 := [3], 3 := [4], 4 := [], 5 := [], 6 := [], 7 := [],
        8 := [], 9 := []][4 := [3]][4 := [3, 2]][4 := [3, 2, 5]]
      == map[1 := [2], 2 := [3], 3 := [4], 4 := [3, 2, 5], 5 := [], 6 := [],
        7 := [], 8 := [], 9 := []]
  {
    assert [3] + [2] == [3, 2];
    assert [3, 2] + [5] == [3, 2, 5];
  }

  /** GraphTest.java:221-223: each of these addEdge calls succeeds. */
  lemma NineVerticesBuild6()
    ensures AddEdge(map[1 := [2], 2 := [3], 3 := [4], 4 := [3, 2, 5], 5 := [], 6 := [],
        7 := [], 8 := [], 9 := []], Some(5), Some(6))
      == Step(Ok, map[1 := [2], 2 := [3], 3 := [4], 4 := [3, 2, 5], 5 := [], 6 := [],
        7 := [], 8 := [], 9 := []][5 := [6]])
    ensures AddEdge(map[1 := [2], 2 := [3], 3 := [4], 4 := [3, 2, 5], 5 := [], 6 := [],
        7 := [], 8 := [], 9 := []][5 := [6]], Some(5), Some(8))
      == Step(Ok, map[1 := [2], 2 := [3], 3 := [4], 4 := [3, 2, 5], 5 := [], 6 := [],
        7 := [], 8 := [], 9 := []][5 := [6]][5 := [6, 8]])
    ensures AddEdge(map[1 := [2], 2 := [3], 3 := [4], 4 := [3, 2, 5], 5 := [], 6 := [],
        7 := [], 8 := [], 9 := []][5 := [6]][5 := [6, 8]], Some(5), Some(9))
      == Step(Ok, map[1 := [2], 2 := [3], 3 := [4], 4 := [3, 2, 5], 5 := [], 6 := [],
        7 := [], 8 := [], 9 := []][5 := [6]][5 := [6, 8]][5 := [6, 8, 9]])
    ensures map[1 := [2], 2 := [3], 3 := [4], 4 := [3, 2, 5], 5 := [], 6 := [],
        7 := [], 8 := [], 9 := []][5 := [6]][5 := [6, 8]][5 := [6, 8, 9]]
      == map[1 := [2], 2 := [3], 3 := [4], 4 := [3, 2, 5], 5 := [6, 8, 9],
        6 := [], 7 := [], 8 := [], 9 := []]
  {
    assert [6] + [8] == [6, 8];
    assert [6, 8] + [9] == [6, 8, 9];
  }

  /** GraphTest.java:224-226: each of these addEdge calls succeeds. */
  lemma NineVerticesBuild7()
    ensures AddEdge(map[1 := [2], 2 := [3], 3 := [4], 4 := [3, 2, 5], 5 := [6, 8, 9],
        6 := [], 7 := [], 8 := [], 9 := []], Some(6), Some(3))
      == Step(Ok, map[1 := [2], 2 := [3], 3 := [4], 4 := [3, 2, 5], 5 := [6, 8, 9],
        6 := [], 7 := [], 8 := [], 9 := []][6 := [3]])
    ensures AddEdge(map[1 := [2], 2 := [3], 3 := [4], 4 := [3, 2, 5], 5 := [6, 8, 9],
        6 := [], 7 := [], 8 := [], 9 := []][6 := [3]], Some(6), Some(7))
      == Step(Ok, map[1 := [2], 2 := [3], 3 := [4], 4 := [3, 2, 5], 5 := [6, 8, 9],
        6 := [], 7 := [], 8 := [], 9 := []][6 := [3]][6 := [3, 7]])
    ensures AddEdge(map[1 := [2], 2 := [3], 3 := [4], 4 := [3, 2, 5], 5 := [6, 8, 9],
        6 := [], 7 := [], 8 := [], 9 := []][6 := [3]][6 := [3, 7]], Some(7), Some(3))
      == Step(Ok, map[1 := [2], 2 := [3], 3 := [4], 4 := [3, 2, 5], 5 := [6, 8, 9],
        6 := [], 7 := [], 8 := [], 9 := []][6 := [3]][6 := [3, 7]][7 := [3]])
    ensures map[1 := [2], 2 := [3], 3 := [4], 4 := [3, 2, 5], 5 := [6, 8, 9],
        6 := [], 7 := [], 8 := [], 9 := []][6 := [3]][6 := [3, 7]][7 := [3]]
      == map[1 := [2], 2 := [3], 3 := [4], 4 := [3, 2, 5], 5 := [6, 8, 9],
        6 := [3, 7], 7 := [3], 8 := [], 9 := []]
  {
    assert [3] + [7] == [3, 7];
  }

  /** GraphTest.java:227: each of these addEdge calls succeeds; the last
      one leaves `NineVertices()`. */
  lemma NineVerticesBuild8()
    ensures AddEdge(map[1 := [2], 2 := [3], 3 := [4], 4 := [3, 2, 5], 5 := [6, 8, 9],
        6 := [3, 7], 7 := [3], 8 := [], 9 := []], Some(8), Some(9))
      == Step(Ok, map[1 := [2], 2 := [3], 3 := [4], 4 := [3, 2, 5], 5 := [6, 8, 9],
        6 := [3, 7], 7 := [3], 8 := [], 9 := []][8 := [9]])
    ensures map[1 := [2], 2 := [3], 3 := [4], 4 := [3, 2, 5], 5 := [6, 8, 9],
        6 := [3, 7], 7 := [3], 8 := [], 9 := []][8 := [9]]
      == map[1 := [2], 2 := [3], 3 := [4], 4 := [3, 2, 5], 5 := [6, 8, 9],
        6 := [3, 7], 7 := [3], 8 := [9], 9 := []]
    ensures map[1 := [2], 2 := [3], 3 := [4], 4 := [3, 2, 5], 5 := [6, 8, 9],
        6 := [3, 7], 7 := [3], 8 := [9], 9 := []] == NineVertices()
  {
  }

  /** GraphTest.java:261-264: each of these addVertex calls succeeds. */
  lemma ElevenVerticesBuild1()
    ensures AddVertex(map[], Some('A'))
      == Step(Ok, map['A' := []])
    ensures AddVertex(map['A' := []], Some('B'))
      == Step(Ok, map['A' := [], 'B' := []])
    ensures AddVertex(map['A' := [], 'B' := []], Some('C'))
      == Step(Ok, map['A' := [], 'B' := [], 'C' := []])
    ensures AddVertex(map['A' := [], 'B' := [], 'C' := []], Some('D'))
      == Step(Ok, map['A' := [], 'B' := [], 'C' := [], 'D' := []])
  {
  }

  /** GraphTest.java:265-268: each of these addVertex calls succeeds. */
  lemma ElevenVerticesBuild2()
    ensures AddVertex(map['A' := [], 'B' := [], 'C' := [], 'D' := []], Some('E'))
      == Step(Ok, map['A' := [], 'B' := [], 'C' := [], 'D' := [], 'E' := []])
    ensures AddVertex(map['A' := [], 'B' := [], 'C' := [], 'D' := [], 'E' := []], Some('F'))
      == Step(Ok, map['A' := [], 'B' := [], 'C' := [], 'D' := [], 'E' := [], 'F' := []])
    ensures AddVertex(map['A' := [], 'B' := [], 'C' := [], 'D' := [], 'E' := [], 'F' := []], Some('G'))
      == Step(Ok, map['A' := [], 'B' := [], 'C' := [], 'D' := [], 'E' := [], 'F' := [],
        'G' := []])
    ensures AddVertex(map['A' := [], 'B' := [], 'C' := [], 'D' := [], 'E' := [], 'F' := [],
        'G' := []], Some('H'))
      == Step(Ok, map['A' := [], 'B' := [], 'C' := [], 'D' := [], 'E' := [], 'F' := [],
        'G' := [], 'H' := []])
  {
  }

  /** GraphTest.java:269-271: each of these addVertex calls succeeds. */
  lemma ElevenVerticesBuild3()
    ensures AddVertex(map['A' := [], 'B' := [], 'C' := [], 'D' := [], 'E' := [], 'F' := [],
        'G' := [], 'H' := []], Some('I'))
      == Step(Ok, map['A' := [], 'B' := [], 'C' := [], 'D' := [], 'E' := [], 'F' := [],
        'G' := [], 'H' := [], 'I' := []])
    ensures AddVertex(map['A' := [], 'B' := [], 'C' := [], 'D' := [], 'E' := [], 'F' := [],
        'G' := [], 'H' := [], 'I' := []], Some('J'))
      == Step(Ok, map['A' := [], 'B' := [], 'C' := [], 'D' := [], 'E' := [], 'F' := [],
        'G' := [], 'H' := [], 'I' := [], 'J' := []])
    ensures AddVertex(map['A' := [], 'B' := [], 'C' := [], 'D' := [], 'E' := [], 'F' := [],
        'G' := [], 'H' := [], 'I' := [], 'J' := []], Some('K'))
      == Step(Ok, map['A' := [], 'B' := [], 'C' := [], 'D' := [], 'E' := [], 'F' := [],
        'G' := [], 'H' := [], 'I' := [], 'J' := [], 'K' := []])
  {
  }

  /** GraphTest.java:272-273: each of these addEdge calls succeeds. */
  lemma ElevenVerticesBuild4()
    ensures UndirectedAddEdge(map['A' := [], 'B' := [], 'C' := [], 'D' := [], 'E' := [], 'F' := [],
        'G' := [], 'H' := [], 'I' := [], 'J' := [], 'K' := []], Some('A'), Some('C'))
      == Step(Ok, map['A' := [], 'B' := [], 'C' := [], 'D' := [], 'E' := [], 'F' := [],
        'G' := [], 'H' := [], 'I' := [], 'J' := [], 'K' := []]['A' := ['C']]['C' := ['A']])
    ensures UndirectedAddEdge(map['A' := [], 'B' := [], 'C' := [], 'D' := [], 'E' := [], 'F' := [],
        'G' := [], 'H' := [], 'I' := [], 'J' := [], 'K' := []]['A' := ['C']]['C' := ['A']], Some('A'), Some('H'))
      == Step(Ok, map['A' := [], 'B' := [], 'C' := [], 'D' := [], 'E' := [], 'F' := [],
        'G' := [], 'H' := [], 'I' := [], 'J' := [], 'K' := []]['A' := ['C']]['C' := ['A']]['A' := ['C', 'H']]['H' := ['A']])
    ensures map['A' := [], 'B' := [], 'C' := [], 'D' := [], 'E' := [], 'F' := [],
        'G' := [], 'H' := [], 'I' := [], 'J' := [], 'K' := []]['A' := ['C']]['C' := ['A']]['A' := ['C', 'H']]['H' := ['A']]
      == map['A' := ['C', 'H'], 'B' := [], 'C' := ['A'], 'D' := [], 'E' := [],
        'F' := [], 'G' := [], 'H' := ['A'], 'I' := [], 'J' := [],
        'K' := []]
  {
    assert ['C'] + ['H'] == ['C', 'H'];
  }

  /** GraphTest.java:274-275: each of these addEdge calls succeeds. */
  lemma ElevenVerticesBuild5()
    ensures UndirectedAddEdge(map['A' := ['C', 'H'], 'B' := [], 'C' := ['A'], 'D' := [], 'E' := [],
        'F' := [], 'G' := [], 'H' := ['A'], 'I' := [], 'J' := [],
        'K' := []], Some('B'), Some('C'))
      == Step(Ok, map['A' := ['C', 'H'], 'B' := [], 'C' := ['A'], 'D' := [], 'E' := [],
        'F' := [], 'G' := [], 'H' := ['A'], 'I' := [], 'J' := [],
        'K' := []]['B' := ['C']]['C' := ['A', 'B']])
    ensures UndirectedAddEdge(map['A' := ['C', 'H'], 'B' := [], 'C' := ['A'], 'D' := [], 'E' := [],
        'F' := [], 'G' := [], 'H' := ['A'], 'I' := [], 'J' := [],
        'K' := []]['B' := ['C']]['C' := ['A', 'B']], Some('B'), Some('D'))
      == Step(Ok, map['A' := ['C', 'H'], 'B' := [], 'C' := ['A'], 'D' := [], 'E' := [],
        'F' := [], 'G' := [], 'H' := ['A'], 'I' := [], 'J' := [],
        'K' := []]['B' := ['C']]['C' := ['A', 'B']]['B' := ['C', 'D']]['D' := ['B']])
    ensures map['A' := ['C', 'H'], 'B' := [], 'C' := ['A'], 'D' := [], 'E' := [],
        'F' := [], 'G' := [], 'H' := ['A'], 'I' := [], 'J' := [],
        'K' := []]['B' := ['C']]['C' := ['A', 'B']]['B' := ['C', 'D']]['D' := ['B']]
      == map['A' := ['C', 'H'], 'B' := ['C', 'D'], 'C' := ['A', 'B'],
        'D' := ['B'], 'E' := [], 'F' := [], 'G' := [], 'H' := ['A'],
        'I' := [], 'J' := [], 'K' := []]
  {
    assert ['A'] + ['B'] == ['A', 'B'];
    assert ['C'] + ['D'] == ['C', 'D'];
  }

  /** GraphTest.java:276-277: each of these addEdge calls succeeds. */
  lemma ElevenVerticesBuild6()
    ensures UndirectedAddEdge(map['A' := ['C', 'H'], 'B' := ['C', 'D'], 'C' := ['A', 'B'],
        'D' := ['B'], 'E' := [], 'F' := [], 'G' := [], 'H' := ['A'],
        'I' := [], 'J' := [], 'K' := []], Some('F'), Some('D'))
      == Step(Ok, map['A' := ['C', 'H'], 'B' := ['C', 'D'], 'C' := ['A', 'B'],
        'D' := ['B'], 'E' := [], 'F' := [], 'G' := [], 'H' := ['A'],
        'I' := [], 'J' := [], 'K' := []]['F' := ['D']]['D' := ['B', 'F']])
    ensures UndirectedAddEdge(map['A' := ['C', 'H'], 'B' := ['C', 'D'], 'C' := ['A', 'B'],
        'D' := ['B'], 'E' := [], 'F' := [], 'G' := [], 'H' := ['A'],
        'I' := [], 'J' := [], 'K' := []]['F' := ['D']]['D' := ['B', 'F']], Some('F'), Some('E'))
      == Step(Ok, map['A' := ['C', 'H'], 'B' := ['C', 'D'], 'C' := ['A', 'B'],
        'D' := ['B'], 'E' := [], 'F' := [], 'G' := [], 'H' := ['A'],
        'I' := [], 'J' := [], 'K' := []]['F' := ['D']]['D' := ['B', 'F']]['F' := ['D', 'E']]['E' := ['F']])
    ensures map['A' := ['C', 'H'], 'B' := ['C', 'D'], 'C' := ['A', 'B'],
        'D' := ['B'], 'E' := [], 'F' := [], 'G' := [], 'H' := ['A'],
        'I' := [], 'J' := [], 'K' := []]['F' := ['D']]['D' := ['B', 'F']]['F' := ['D', 'E']]['E' := ['F']]
      == map['A' := ['C', 'H'], 'B' := ['C', 'D'], 'C' := ['A', 'B'],
        'D' := ['B', 'F'], 'E' := ['F'], 'F' := ['D', 'E'], 'G' := [],
        'H' := ['A'], 'I' := [], 'J' := [], 'K' := []]
  {
    assert ['B'] + ['F'] == ['B', 'F'];
    assert ['D'] + ['E'] == ['D', 'E'];
  }

  /** GraphTest.java:278-279: each of these addEdge calls succeeds. */
  lemma ElevenVerticesBuild7()
    ensures UndirectedAddEdge(map['A' := ['C', 'H'], 'B' := ['C', 'D'], 'C' := ['A', 'B'],
        'D' := ['B', 'F'], 'E' := ['F'], 'F' := ['D', 'E'], 'G' := [],
        'H' := ['A'], 'I' := [], 'J' := [], 'K' := []], Some('F'), Some('I'))
      == Step(Ok, map['A' := ['C', 'H'], 'B' := ['C', 'D'], 'C' := ['A', 'B'],
        'D' := ['B', 'F'], 'E' := ['F'], 'F' := ['D', 'E'], 'G' := [],
        'H' := ['A'], 'I' := [], 'J' := [], 'K' := []]['F' := ['D', 'E', 'I']]['I' := ['F']])
    ensures UndirectedAddEdge(map['A' := ['C', 'H'], 'B' := ['C', 'D'], 'C' := ['A', 'B'],
        'D' := ['B', 'F'], 'E' := ['F'], 'F' := ['D', 'E'], 'G' := [],
        'H' := ['A'], 'I' := [], 'J' := [], 'K' := []]['F' := ['D', 'E', 'I']]['I' := ['F']], Some('F'), Some('J'))
      == Step(Ok, map['A' := ['C', 'H'], 'B' := ['C', 'D'], 'C' := ['A', 'B'],
        'D' := ['B', 'F'], 'E' := ['F'], 'F' := ['D', 'E'], 'G' := [],
        'H' := ['A'], 'I' := [], 'J' := [], 'K' := []]['F' := ['D', 'E', 'I']]['I' := ['F']]['F' := ['D', 'E', 'I', 'J']]['J' := ['F']])
    ensures map['A' := ['C', 'H'], 'B' := ['C', 'D'], 'C' := ['A', 'B'],
        'D' := ['B', 'F'], 'E' := ['F'], 'F' := ['D', 'E'], 'G' := [],
        'H' := ['A'], 'I' := [], 'J' := [], 'K' := []]['F' := ['D', 'E', 'I']]['I' := ['F']]['F' := ['D', 'E', 'I', 'J']]['J' := ['F']]
      == map['A' := ['C', 'H'], 'B' := ['C', 'D'], 'C' := ['A', 'B'],
        'D' := ['B', 'F'], 'E' := ['F'], 'F' := ['D', 'E', 'I', 'J'],
        'G' := [], 'H' := ['A'], 'I' := ['F'], 'J' := ['F'], 'K' := []]
  {
    assert ['D', 'E'] + ['I'] == ['D', 'E', 'I'];
    assert ['D', 'E', 'I'] + ['J'] == ['D', 'E', 'I', 'J'];
  }

  /** GraphTest.java:280-281: each of these addEdge calls succeeds. */
  lemma ElevenVerticesBuild8()
    ensures UndirectedAddEdge(map['A' := ['C', 'H'], 'B' := ['C', 'D'], 'C' := ['A', 'B'],
        'D' := ['B', 'F'], 'E' := ['F'], 'F' := ['D', 'E', 'I', 'J'],
        'G' := [], 'H' := ['A'], 'I' := ['F'], 'J' := ['F'], 'K' := []], Some('G'), Some('E'))
      == Step(Ok, map['A' := ['C', 'H'], 'B' := ['C', 'D'], 'C' := ['A', 'B'],
        'D' := ['B', 'F'], 'E' := ['F'], 'F' := ['D', 'E', 'I', 'J'],
        'G' := [], 'H' := ['A'], 'I' := ['F'], 'J' := ['F'], 'K' := []]['G' := ['E']]['E' := ['F', 'G']])
    ensures UndirectedAddEdge(map['A' := ['C', 'H'], 'B' := ['C', 'D'], 'C' := ['A', 'B'],
        'D' := ['B', 'F'], 'E' := ['F'], 'F' := ['D', 'E', 'I', 'J'],
        'G' := [], 'H' := ['A'], 'I' := ['F'], 'J' := ['F'], 'K' := []]['G' := ['E']]['E' := ['F', 'G']], Some('G'), Some('K'))
      == Step(Ok, map['A' := ['C', 'H'], 'B' := ['C', 'D'], 'C' := ['A', 'B'],
        'D' := ['B', 'F'], 'E' := ['F'], 'F' := ['D', 'E', 'I', 'J'],
        'G' := [], 'H' := ['A'], 'I' := ['F'], 'J' := ['F'], 'K' := []]['G' := ['E']]['E' := ['F', 'G']]['G' := ['E', 'K']]['K' := ['G']])
    ensures map['A' := ['C', 'H'], 'B' := ['C', 'D'], 'C' := ['A', 'B'],
        'D' := ['B', 'F'], 'E' := ['F'], 'F' := ['D', 'E', 'I', 'J'],
        'G' := [], 'H' := ['A'], 'I' := ['F'], 'J' := ['F'], 'K' := []]['G' := ['E']]['E' := ['F', 'G']]['G' := ['E', 'K']]['K' := ['G']]
      == map['A' := ['C', 'H'], 'B' := ['C', 'D'], 'C' := ['A', 'B'],
        'D' := ['B', 'F'], 'E' := ['F', 'G'],
        'F' := ['D', 'E', 'I', 'J'], 'G' := ['E', 'K'], 'H' := ['A'],
        'I' := ['F'], 'J' := ['F'], 'K' := ['G']]
  {
    assert ['F'] + ['G'] == ['F', 'G'];
    assert ['E'] + ['K'] == ['E', 'K'];
  }

  /** GraphTest.java:282: each of these addEdge calls succeeds; the last
      one leaves `ElevenVertices()`. */
  lemma ElevenVerticesBuild9()
    ensures UndirectedAddEdge(map['A' := ['C', 'H'], 'B' := ['C', 'D'], 'C' := ['A', 'B'],
        'D' := ['B', 'F'], 'E' := ['F', 'G'],
        'F' := ['D', 'E', 'I', 'J'], 'G' := ['E', 'K'], 'H' := ['A'],
        'I' := ['F'], 'J' := ['F'], 'K' := ['G']], Some('I'), Some('J'))
      == Step(Ok, map['A' := ['C', 'H'], 'B' := ['C', 'D'], 'C' := ['A', 'B'],
        'D' := ['B', 'F'], 'E' := ['F', 'G'],
        'F' := ['D', 'E', 'I', 'J'], 'G' := ['E', 'K'], 'H' := ['A'],
        'I' := ['F'], 'J' := ['F'], 'K' := ['G']]['I' := ['F', 'J']]['J' := ['F', 'I']])
    ensures map['A' := ['C', 'H'], 'B' := ['C', 'D'], 'C' := ['A', 'B'],
        'D' := ['B', 'F'], 'E' := ['F', 'G'],
        'F' := ['D', 'E', 'I', 'J'], 'G' := ['E', 'K'], 'H' := ['A'],
        'I' := ['F'], 'J' := ['F'], 'K' := ['G']]['I' := ['F', 'J']]['J' := ['F', 'I']]
      == map['A' := ['C', 'H'], 'B' := ['C', 'D'], 'C' := ['A', 'B'],
        'D' := ['B', 'F'], 'E' := ['F', 'G'],
        'F' := ['D', 'E', 'I', 'J'], 'G' := ['E', 'K'], 'H' := ['A'],
        'I' := ['F', 'J'], 'J' := ['F', 'I'], 'K' := ['G']]
    ensures map['A' := ['C', 'H'], 'B' := ['C', 'D'], 'C' := ['A', 'B'],
        'D' := ['B', 'F'], 'E' := ['F', 'G'],
        'F' := ['D', 'E', 'I', 'J'], 'G' := ['E', 'K'], 'H' := ['A'],
        'I' := ['F', 'J'], 'J' := ['F', 'I'], 'K' := ['G']] == ElevenVertices()
  {
    assert ['F'] + ['J'] == ['F', 'J'];
    assert ['F'] + ['I'] == ['F', 'I'];
  }

  /** getPath(1, 1000) is null: 1, 2 and 3 only lead to each other. */
  lemma NoPathOneTo1000()
    ensures Path(NoPathDirected(), Some(1), Some(1000)) == Success(None)
  {
    var g := NoPathDirected();
    var s := {1, 2, 3};
    forall u | u in s
      ensures Expanded(g, s, u)
    {
    }
    NoPathWhenEnclosed(g, s, 1, 1000);
  }

  /** getPath("A", "F") is null: A, B, C and D only touch each other. */
  lemma NoPathAToF()
    ensures Path(NoPathUndirected(), Some('A'), Some('F')) == Success(None)
  {
    var g := NoPathUndirected();
    var s := {'A', 'B', 'C', 'D'};
    forall u | u in s
      ensures Expanded(g, s, u)
    {
    }
    NoPathWhenEnclosed(g, s, 'A', 'F');
  }

  /** getPath("F", "A") is null: E and F only touch each other. */
  lemma NoPathFToA()
    ensures Path(NoPathUndirected(), Some('F'), Some('A')) == Success(None)
  {
    var g := NoPathUndirected();
    var s := {'E', 'F'};
    forall u | u in s
      ensures Expanded(g, s, u)
    {
    }
    NoPathWhenEnclosed(g, s, 'F', 'A');
  }

  /** getPath(3, 1) is null: no edge enters 1, and 2 to 9 only lead among
      themselves. */
  lemma NoPathThreeToOne()
    ensures Path(NineVertices(), Some(3), Some(1)) == Success(None)
  {
    var g := NineVertices();
    var s := {2, 3, 4, 5, 6, 7, 8, 9};
    forall u | u in s
      ensures Expanded(g, s, u)
    {
    }
    NoPathWhenEnclosed(g, s, 3, 1);
  }

  /** getPath(7, 1) is null, by the same enclosure. */
  lemma NoPathSevenToOne()
    ensures Path(NineVertices(), Some(7), Some(1)) == Success(None)
  {
    var g := NineVertices();
    var s := {2, 3, 4, 5, 6, 7, 8, 9};
    forall u | u in s
      ensures Expanded(g, s, u)
    {
    }
    NoPathWhenEnclosed(g, s, 7, 1);
  }

  /** getPath(3, 4) is the empty list: 4 is the first neighbour of 3. */
  lemma PathThreeToFour()
    ensures Path(NineVertices(), Some(3), Some(4)) == Success(Some([]))
  {
    FirstNeighbourGivesEmptyPath(NineVertices(), 3, 4);
  }

  // The lemmas below replay the search bottom-up, one assertion per call of
  // `Search` or `SearchFrom`. Each visited set is written as the union that
  // `SearchFrom` builds (`{1} + {2} + ...`) rather than as a display
  // `{1, 2, ...}`, so that matching a call to its definition needs no set
  // extensionality.

  /** getPath(1, 7) lists the five intermediate vertices 2, 3, 4, 5, 6, in
      walking order. */
  lemma PathOneToSeven()
    ensures Path(NineVertices(), Some(1), Some(7)) == Success(Some([2, 3, 4, 5, 6]))
  {
    var g := NineVertices();
    assert Search(g, {1} + {2} + {3} + {4} + {5} + {6} + {7}, 7, 7) == SearchResult(true, [], {1} + {2} + {3} + {4} + {5} + {6} + {7});
    assert SearchFrom(g, {1} + {2} + {3} + {4} + {5} + {6}, 6, 7, 1) == SearchResult(true, [], {1} + {2} + {3} + {4} + {5} + {6} + {7});
    assert SearchFrom(g, {1} + {2} + {3} + {4} + {5} + {6}, 6, 7, 0) == SearchResult(true, [], {1} + {2} + {3} + {4} + {5} + {6} + {7});
    assert Search(g, {1} + {2} + {3} + {4} + {5} + {6}, 6, 7) == SearchResult(true, [], {1} + {2} + {3} + {4} + {5} + {6} + {7});
    assert SearchFrom(g, {1} + {2} + {3} + {4} + {5}, 5, 7, 0) == SearchResult(true, [6], {1} + {2} + {3} + {4} + {5} + {6} + {7});
    assert Search(g, {1} + {2} + {3} + {4} + {5}, 5, 7) == SearchResult(true, [6], {1} + {2} + {3} + {4} + {5} + {6} + {7});
    assert SearchFrom(g, {1} + {2} + {3} + {4}, 4, 7, 2) == SearchResult(true, [5, 6], {1} + {2} + {3} + {4} + {5} + {6} + {7});
    assert SearchFrom(g, {1} + {2} + {3} + {4}, 4, 7, 1) == SearchResult(true, [5, 6], {1} + {2} + {3} + {4} + {5} + {6} + {7});
    assert SearchFrom(g, {1} + {2} + {3} + {4}, 4, 7, 0) == SearchResult(true, [5, 6], {1} + {2} + {3} + {4} + {5} + {6} + {7});
    assert Search(g, {1} + {2} + {3} + {4}, 4, 7) == SearchResult(true, [5, 6], {1} + {2} + {3} + {4} + {5} + {6} + {7});
    assert SearchFrom(g, {1} + {2} + {3}, 3, 7, 0) == SearchResult(true, [4, 5, 6], {1} + {2} + {3} + {4} + {5} + {6} + {7});
    assert Search(g, {1} + {2} + {3}, 3, 7) == SearchResult(true, [4, 5, 6], {1} + {2} + {3} + {4} + {5} + {6} + {7});
    assert SearchFrom(g, {1} + {2}, 2, 7, 0) == SearchResult(true, [3, 4, 5, 6], {1} + {2} + {3} + {4} + {5} + {6} + {7});
    assert Search(g, {1} + {2}, 2, 7) == SearchResult(true, [3, 4, 5, 6], {1} + {2} + {3} + {4} + {5} + {6} + {7});
    assert SearchFrom(g, {1}, 1, 7, 0) == SearchResult(true, [2, 3, 4, 5, 6], {1} + {2} + {3} + {4} + {5} + {6} + {7});
    assert Search(g, {1}, 1, 7) == SearchResult(true, [2, 3, 4, 5, 6], {1} + {2} + {3} + {4} + {5} + {6} + {7});
  }

  /** getPath(5, 3) goes through 6, the first of the two answers the test
      accepts. */
  lemma PathFiveToThree()
    ensures Path(NineVertices(), Some(5), Some(3)) == Success(Some([6]))
  {
    var g := NineVertices();
    assert Search(g, {5} + {6} + {3}, 3, 3) == SearchResult(true, [], {5} + {6} + {3});
    assert SearchFrom(g, {5} + {6}, 6, 3, 0) == SearchResult(true, [], {5} + {6} + {3});
    assert Search(g, {5} + {6}, 6, 3) == SearchResult(true, [], {5} + {6} + {3});
    assert SearchFrom(g, {5}, 5, 3, 0) == SearchResult(true, [6], {5} + {6} + {3});
    assert Search(g, {5}, 5, 3) == SearchResult(true, [6], {5} + {6} + {3});
  }

  /** getPath("A", "G") lists C, B, D, F, E. */
  lemma PathAToG()
    ensures Path(ElevenVertices(), Some('A'), Some('G')) == Success(Some(['C', 'B', 'D', 'F', 'E']))
  {
    var g := ElevenVertices();
    assert Search(g, {'A'} + {'C'} + {'B'} + {'D'} + {'F'} + {'E'} + {'G'}, 'G', 'G') == SearchResult(true, [], {'A'} + {'C'} + {'B'} + {'D'} + {'F'} + {'E'} + {'G'});
    assert SearchFrom(g, {'A'} + {'C'} + {'B'} + {'D'} + {'F'} + {'E'}, 'E', 'G', 1) == SearchResult(true, [], {'A'} + {'C'} + {'B'} + {'D'} + {'F'} + {'E'} + {'G'});
    assert SearchFrom(g, {'A'} + {'C'} + {'B'} + {'D'} + {'F'} + {'E'}, 'E', 'G', 0) == SearchResult(true, [], {'A'} + {'C'} + {'B'} + {'D'} + {'F'} + {'E'} + {'G'});
    assert Search(g, {'A'} + {'C'} + {'B'} + {'D'} + {'F'} + {'E'}, 'E', 'G') == SearchResult(true, [], {'A'} + {'C'} + {'B'} + {'D'} + {'F'} + {'E'} + {'G'});
    assert SearchFrom(g, {'A'} + {'C'} + {'B'} + {'D'} + {'F'}, 'F', 'G', 1) == SearchResult(true, ['E'], {'A'} + {'C'} + {'B'} + {'D'} + {'F'} + {'E'} + {'G'});
    assert SearchFrom(g, {'A'} + {'C'} + {'B'} + {'D'} + {'F'}, 'F', 'G', 0) == SearchResult(true, ['E'], {'A'} + {'C'} + {'B'} + {'D'} + {'F'} + {'E'} + {'G'});
    assert Search(g, {'A'} + {'C'} + {'B'} + {'D'} + {'F'}, 'F', 'G') == SearchResult(true, ['E'], {'A'} + {'C'} + {'B'} + {'D'} + {'F'} + {'E'} + {'G'});
    assert SearchFrom(g, {'A'} + {'C'} + {'B'} + {'D'}, 'D', 'G', 1) == SearchResult(true, ['F', 'E'], {'A'} + {'C'} + {'B'} + {'D'} + {'F'} + {'E'} + {'G'});
    assert SearchFrom(g, {'A'} + {'C'} + {'B'} + {'D'}, 'D', 'G', 0) == SearchResult(true, ['F', 'E'], {'A'} + {'C'} + {'B'} + {'D'} + {'F'} + {'E'} + {'G'});
    assert Search(g, {'A'} + {'C'} + {'B'} + {'D'}, 'D', 'G') == SearchResult(true, ['F', 'E'], {'A'} + {'C'} + {'B'} + {'D'} + {'F'} + {'E'} + {'G'});
    assert SearchFrom(g, {'A'} + {'C'} + {'B'}, 'B', 'G', 1) == SearchResult(true, ['D', 'F', 'E'], {'A'} + {'C'} + {'B'} + {'D'} + {'F'} + {'E'} + {'G'});
    assert SearchFrom(g, {'A'} + {'C'} + {'B'}, 'B', 'G', 0) == SearchResult(true, ['D', 'F', 'E'], {'A'} + {'C'} + {'B'} + {'D'} + {'F'} + {'E'} + {'G'});
    assert Search(g, {'A'} + {'C'} + {'B'}, 'B', 'G') == SearchResult(true, ['D', 'F', 'E'], {'A'} + {'C'} + {'B'} + {'D'} + {'F'} + {'E'} + {'G'});
    assert SearchFrom(g, {'A'} + {'C'}, 'C', 'G', 1) == SearchResult(true, ['B', 'D', 'F', 'E'], {'A'} + {'C'} + {'B'} + {'D'} + {'F'} + {'E'} + {'G'});
    assert SearchFrom(g, {'A'} + {'C'}, 'C', 'G', 0) == SearchResult(true, ['B', 'D', 'F', 'E'], {'A'} + {'C'} + {'B'} + {'D'} + {'F'} + {'E'} + {'G'});
    assert Search(g, {'A'} + {'C'}, 'C', 'G') == SearchResult(true, ['B', 'D', 'F', 'E'], {'A'} + {'C'} + {'B'} + {'D'} + {'F'} + {'E'} + {'G'});
    assert SearchFrom(g, {'A'}, 'A', 'G', 0) == SearchResult(true, ['C', 'B', 'D', 'F', 'E'], {'A'} + {'C'} + {'B'} + {'D'} + {'F'} + {'E'} + {'G'});
    assert Search(g, {'A'}, 'A', 'G') == SearchResult(true, ['C', 'B', 'D', 'F', 'E'], {'A'} + {'C'} + {'B'} + {'D'} + {'F'} + {'E'} + {'G'});
  }

  /** getPath("G", "C") lists E, F, D, B. */
  lemma PathGToC()
    ensures Path(ElevenVertices(), Some('G'), Some('C')) == Success(Some(['E', 'F', 'D', 'B']))
  {
    var g := ElevenVertices();
    assert Search(g, {'G'} + {'E'} + {'F'} + {'D'} + {'B'} + {'C'}, 'C', 'C') == SearchResult(true, [], {'G'} + {'E'} + {'F'} + {'D'} + {'B'} + {'C'});
    assert SearchFrom(g, {'G'} + {'E'} + {'F'} + {'D'} + {'B'}, 'B', 'C', 0) == SearchResult(true, [], {'G'} + {'E'} + {'F'} + {'D'} + {'B'} + {'C'});
    assert Search(g, {'G'} + {'E'} + {'F'} + {'D'} + {'B'}, 'B', 'C') == SearchResult(true, [], {'G'} + {'E'} + {'F'} + {'D'} + {'B'} + {'C'});
    assert SearchFrom(g, {'G'} + {'E'} + {'F'} + {'D'}, 'D', 'C', 0) == SearchResult(true, ['B'], {'G'} + {'E'} + {'F'} + {'D'} + {'B'} + {'C'});
    assert Search(g, {'G'} + {'E'} + {'F'} + {'D'}, 'D', 'C') == SearchResult(true, ['B'], {'G'} + {'E'} + {'F'} + {'D'} + {'B'} + {'C'});
    assert SearchFrom(g, {'G'} + {'E'} + {'F'}, 'F', 'C', 0) == SearchResult(true, ['D', 'B'], {'G'} + {'E'} + {'F'} + {'D'} + {'B'} + {'C'});
    assert Search(g, {'G'} + {'E'} + {'F'}, 'F', 'C') == SearchResult(true, ['D', 'B'], {'G'} + {'E'} + {'F'} + {'D'} + {'B'} + {'C'});
    assert SearchFrom(g, {'G'} + {'E'}, 'E', 'C', 0) == SearchResult(true, ['F', 'D', 'B'], {'G'} + {'E'} + {'F'} + {'D'} + {'B'} + {'C'});
    assert Search(g, {'G'} + {'E'}, 'E', 'C') == SearchResult(true, ['F', 'D', 'B'], {'G'} + {'E'} + {'F'} + {'D'} + {'B'} + {'C'});
    assert SearchFrom(g, {'G'}, 'G', 'C', 0) == SearchResult(true, ['E', 'F', 'D', 'B'], {'G'} + {'E'} + {'F'} + {'D'} + {'B'} + {'C'});
    assert Search(g, {'G'}, 'G', 'C') == SearchResult(true, ['E', 'F', 'D', 'B'], {'G'} + {'E'} + {'F'} + {'D'} + {'B'} + {'C'});
  }

  /** The rejected calls of testBasicActions: each fails with the check
      that catches it and leaves the graph as it was. */
  lemma BasicActionsRejected()
    ensures AddVertex(Basic(), None) == Step(Fail(NullId), Basic())
    ensures AddVertex(Basic(), Some(2)) == Step(Fail(DuplicateVertex), Basic())
    ensures AddEdge(Basic(), Some(2), Some(3)) == Step(Fail(DuplicateEdge), Basic())
    ensures AddEdge(Basic(), Some(2), None) == Step(Fail(NullId), Basic())
    ensures AddEdge(Basic(), None, Some(1)) == Step(Fail(NullId), Basic())
    ensures AddEdge(Basic(), Some(222), Some(3)) == Step(Fail(UnknownVertex), Basic())
    ensures Path(Basic(), Some(222), Some(3)) == Failure(UnknownVertex)
    ensures Path(Basic(), Some(1), Some(2222)) == Failure(UnknownVertex)
    ensures Path(Basic(), None, Some(3)) == Failure(NullId)
    ensures Path(Basic(), Some(1), None) == Failure(NullId)
    ensures Path(Basic(), Some(3), Some(3)) == Failure(SameIds)
  {
  }

  /** A triangle 1->2, 1->3, 2->3 (directed). */
  function Triangle(): (g: Adjacency<int>)
    ensures Closed(g)
  {
    map[1 := [2, 3], 2 := [3], 3 := []]
  }


  /** A direct edge does not make the path empty: the search follows 2 first
      and reaches 3 through it, although 1->3 is an edge. */
  lemma DirectEdgeNotPreferred()
    ensures Path(Triangle(), Some(1), Some(3)) == Success(Some([2]))
  {
    var g := Triangle();
    assert Search(g, {1} + {2} + {3}, 3, 3) == SearchResult(true, [], {1} + {2} + {3});
    assert SearchFrom(g, {1} + {2}, 2, 3, 0) == SearchResult(true, [], {1} + {2} + {3});
    assert Search(g, {1} + {2}, 2, 3) == SearchResult(true, [], {1} + {2} + {3});
    assert SearchFrom(g, {1}, 1, 3, 0) == SearchResult(true, [2], {1} + {2} + {3});
    assert Search(g, {1}, 1, 3) == SearchResult(true, [2], {1} + {2} + {3});
  }

}
