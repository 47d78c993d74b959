# Graph library: a verified Dafny model

This project models a small generic graph library. The library has:

- vertices identified by user-chosen ids, each with an ordered list of the ids it links to;
- an abstract graph that registers vertices and adds one-way links;
- `getPath`, a depth-first search that returns the intermediate ids of the first path it finds, or `null` when there is none;
- a directed variant that adds one link per edge, and an undirected variant that adds a link and then the link back.

The model has these modules:

- `Results`: a Java `null` id is `None`, and each `IllegalArgumentException` is a `Fail` or `Failure` tag naming the kind of check that threw. For example, an unregistered first or second endpoint both give `UnknownVertex`.
- `Vertices`: `Vertex` is a class with an immutable `id` and a mutable `connectedTo` list.
- `AbstractGraphs`: `AbstractGraph` holds the `map` from ids to `Vertex` objects. Its methods mutate the vertices in place. `IsFound` is a recursive method with a loop over the neighbours, as in the source.
- `GraphSpec`: every method is proved to act on the abstract view `Adj()` (id to neighbour list) exactly as a pure function here says. `Search`/`SearchFrom` specify the depth-first search step by step.
- `DirectedGraphs` and `UndirectedGraphs`: the two variants.
- `GraphScenarios`: the scenarios of `GraphTest.java`.

The main results:

- Soundness: a path returned by `getPath`, framed by its two endpoints, is a walk along existing links with no vertex repeated.
- Completeness: `getPath` returns `null` exactly when the target cannot be reached.
- The graph invariant is preserved: every listed neighbour is a registered vertex, and no list repeats an id.
- Every undirected `addEdge` call keeps a symmetric graph symmetric, whether it succeeds or fails. So every graph built through `UndirectedGraph`'s own calls is symmetric, and in it a path exists one way exactly when it exists the other way.

The model follows the code where the class comment of `AbstractGraph.java` (line 16, "no loops") says otherwise:

- A vertex may be linked to itself. The directed graph accepts the loop. The undirected graph adds the loop and then fails on the reverse link, keeping the forward one. The loop is its own reverse, so the graph stays symmetric.
- A direct link does not guarantee an empty path. The search follows the neighbours in insertion order, so it can reach the target through an earlier neighbour first (`GraphScenarios.DirectEdgeNotPreferred`).

## Model

| member | source | states |
|---|---|---|
| `Vertices.Vertex.constructor` | Vertex.java:15-32 | a new vertex keeps the given id and has no neighbours |
| `Vertices.Vertex.Create` | Vertex.java:27-32 | construction fails exactly when the id is null; otherwise a fresh vertex with that id and no neighbours |
| `Vertices.Vertex.ConnectTo` | Vertex.java:34-39 | acts on the list in place as `GraphSpec.Connect` does: a duplicate-edge failure exactly when the id is already listed, with the list unchanged; otherwise the id is appended; a list without repeats keeps none |
| `Vertices.Vertex.Equals` | Vertex.java:49-55 | two vertices are equal exactly when their ids are; null equals no vertex |
| `GraphSpec.Connect` | Vertex.java:34-39 | rejection iff the id is listed; on success the old list is a prefix and the new id is the single addition at the end |
| `GraphSpec.AddVertex` | AbstractGraph.java:32-40 | null id and registered id are rejected with the graph unchanged; success iff the id is new, adding it with no neighbours and changing no other vertex |
| `GraphSpec.AddEdge` | AbstractGraph.java:48-60 | null ids, then unknown endpoints, then a link already present are rejected, leaving the graph unchanged; the call succeeds exactly when both ids are registered and the link is new, and then only the first vertex's list changes, gaining the second id at the end |
| `GraphSpec.UndirectedAddEdge` | UndirectedGraph.java:14-17 | a forward failure is reported as is; success iff both ids are registered, distinct and neither lists the other; success appends each to the other's list and changes nothing else |
| `GraphSpec.ConnectKeepsNoDuplicates` | Vertex.java:35-38 | appending an id that is not listed keeps the list free of repeats |
| `GraphSpec.AddVertexKeepsWellFormed` | AbstractGraph.java:32-40 | addVertex keeps every neighbour registered and every list free of repeats |
| `GraphSpec.AddVertexKeepsSymmetric` | AbstractGraph.java:32-40 | addVertex keeps an undirected graph symmetric |
| `GraphSpec.AddEdgeKeepsWellFormed` | AbstractGraph.java:48-60 | addEdge keeps every neighbour registered and every list free of repeats |
| `GraphSpec.UndirectedAddEdgeKeepsWellFormed` | UndirectedGraph.java:14-17 | the undirected addEdge keeps the invariant, including when the reverse link fails after the forward one |
| `GraphSpec.Search` | AbstractGraph.java:103-120 | one isFound call: the visited set only grows and stays within the registered ids |
| `GraphSpec.SearchFrom` | AbstractGraph.java:107-119 | the neighbour loop from a given position: the visited set only grows and stays within the registered ids |
| `GraphSpec.Path` | AbstractGraph.java:69-92 | null ids, equal ids and unknown endpoints are rejected in the source's order; otherwise the call succeeds |
| `GraphSpec.Reverse` | AbstractGraph.java:87 | the reversed list has the same length and holds element `i` at position `n-1-i` |
| `GraphSpec.SearchSound` | AbstractGraph.java:103-120 | a successful search from a vertex other than the target reports a walk to the target whose intermediates are distinct, newly visited and never the target |
| `GraphSpec.SearchFromSound` | AbstractGraph.java:107-119 | the same soundness for the loop over the remaining neighbours |
| `GraphSpec.SearchComplete` | AbstractGraph.java:103-120 | a failed search leaves the target unvisited, and every neighbour of the start and of every vertex it visited is visited |
| `GraphSpec.SearchFromComplete` | AbstractGraph.java:107-119 | a failed neighbour loop leaves the target unvisited, visits every remaining neighbour, and visits all neighbours of every vertex it visited |
| `GraphSpec.PathSound` | AbstractGraph.java:62-67 | a returned path, framed by its endpoints, is a walk along existing links with no vertex repeated |
| `GraphSpec.PathComplete` | AbstractGraph.java:62-67 | getPath returns null exactly when the target is unreachable |
| `GraphSpec.NoPathWhenEnclosed` | AbstractGraph.java:86-91 | a set holding the source, not the target and all neighbours of its members forces a null answer |
| `GraphSpec.FirstNeighbourGivesEmptyPath` | AbstractGraph.java:104-116 | when the target is the source's first neighbour, the path is empty |
| `AbstractGraphs.AbstractGraph.constructor` | AbstractGraph.java:25 | a new graph has no vertices and satisfies the invariant |
| `AbstractGraphs.AbstractGraph.AddVertex` | AbstractGraph.java:32-40 | acts on the abstract view as `GraphSpec.AddVertex`, keeps the invariant and keeps every existing vertex object |
| `AbstractGraphs.AbstractGraph.AddEdge` | AbstractGraph.java:48-60 | acts on the abstract view as `GraphSpec.AddEdge` and keeps the invariant |
| `AbstractGraphs.AbstractGraph.GetPath` | AbstractGraph.java:69-92 | the argument errors in order; a returned path is a simple walk between the endpoints; null exactly when the target is unreachable |
| `AbstractGraphs.AbstractGraph.IsFound` | AbstractGraph.java:103-120 | the recursive search with its neighbour loop returns what `GraphSpec.Search` specifies: found flag, the visited set, and the path appended target side first |
| `DirectedGraphs.DirectedGraph.constructor` | DirectedGraph.java:4 | a new directed graph is empty and satisfies the invariant |
| `DirectedGraphs.DirectedGraph.AddEdge` | DirectedGraph.java:14-16 | exactly the one-way addEdge of the abstract graph |
| `DirectedGraphs.SelfEdgeAccepted` | AbstractGraph.java:16 | contrary to the class comment, a directed loop is accepted |
| `UndirectedGraphs.UndirectedGraph.constructor` | UndirectedGraph.java:4 | a new undirected graph is empty and satisfies the invariant |
| `UndirectedGraphs.UndirectedGraph.AddEdge` | UndirectedGraph.java:14-17 | acts on the abstract view as `GraphSpec.UndirectedAddEdge`, keeps the invariant, and keeps a symmetric graph symmetric whatever the outcome |
| `UndirectedGraphs.BothLinksKeepSymmetric` | UndirectedGraph.java:14-17 | an undirected addEdge that succeeds adds both links, so a symmetric graph stays symmetric |
| `UndirectedGraphs.AddEdgeKeepsSymmetric` | UndirectedGraph.java:6-17 | every undirected addEdge, whatever its outcome, keeps a symmetric graph symmetric: a failure either changes nothing or adds a loop, which is its own reverse |
| `UndirectedGraphs.PartialFailure` | UndirectedGraph.java:15-16 | when only the reverse link exists already, the forward link is added and the call still fails; such a start graph is not symmetric, so it arises only after a one-way link added through `graph.AddEdge` |
| `UndirectedGraphs.SelfEdge` | UndirectedGraph.java:15-16 | a loop is added once and then rejected as its own reverse link |
| `UndirectedGraphs.ReachableBothWays` | UndirectedGraph.java:6-8 | in a symmetric graph every walk can be reversed |
| `UndirectedGraphs.PathSymmetric` | UndirectedGraph.java:6-17 | in a symmetric graph getPath returns null one way exactly when it does the other way |
| `GraphScenarios.Basic` | GraphTest.java:33-42 | the graph testBasicActions builds, in which every link ends at a registered vertex |
| `GraphScenarios.NoPathDirected` | GraphTest.java:155-163 | the directed graph of testNoPath, in which every link ends at a registered vertex |
| `GraphScenarios.BasicVertices` | GraphTest.java:34-37 | each of the four addVertex calls succeeds, leaving 1, 2, 3 and 1000 with no links |
| `GraphScenarios.BasicLinks` | GraphTest.java:38-42 | each of the five addEdge calls then succeeds, and together they yield `Basic()` |
| `GraphScenarios.NoPathDirectedLinks` | GraphTest.java:160-163 | after the same four addVertex calls (lines 156-159), each of the four addEdge calls succeeds, and together they yield `NoPathDirected()` |
| `GraphScenarios.NoPathUndirectedBuild1` | GraphTest.java:168-171 | the addVertex calls at these lines each succeed, each leaving the map the next call starts from |
| `GraphScenarios.NoPathUndirectedBuild2` | GraphTest.java:172-173 | the addVertex calls at these lines each succeed, each leaving the map the next call starts from |
| `GraphScenarios.NoPathUndirectedBuild3` | GraphTest.java:174-175 | the addEdge calls at these lines each succeed, each leaving the map the next call starts from |
| `GraphScenarios.NoPathUndirectedBuild4` | GraphTest.java:176-177 | the addEdge calls at these lines each succeed, each leaving the map the next call starts from |
| `GraphScenarios.NoPathUndirectedBuild5` | GraphTest.java:178 | the addEdge call at this line succeeds, leaving the map the next call starts from; the whole sequence yields `NoPathUndirected()` |
| `GraphScenarios.NineVerticesBuild1` | GraphTest.java:206-209 | the addVertex calls at these lines each succeed, each leaving the map the next call starts from |
| `GraphScenarios.NineVerticesBuild2` | GraphTest.java:210-213 | the addVertex calls at these lines each succeed, each leaving the map the next call starts from |
| `GraphScenarios.NineVerticesBuild3` | GraphTest.java:214 | the addVertex call at this line succeeds, leaving the map the next call starts from |
| `GraphScenarios.NineVerticesBuild4` | GraphTest.java:215-217 | the addEdge calls at these lines each succeed, each leaving the map the next call starts from |
| `GraphScenarios.NineVerticesBuild5` | GraphTest.java:218-220 | the addEdge calls at these lines each succeed, each leaving the map the next call starts from |
| `GraphScenarios.NineVerticesBuild6` | GraphTest.java:221-223 | the addEdge calls at these lines each succeed, each leaving the map the next call starts from |
| `GraphScenarios.NineVerticesBuild7` | GraphTest.java:224-226 | the addEdge calls at these lines each succeed, each leaving the map the next call starts from |
| `GraphScenarios.NineVerticesBuild8` | GraphTest.java:227 | the addEdge call at this line succeeds, leaving the map the next call starts from; the whole sequence yields `NineVertices()` |
| `GraphScenarios.ElevenVerticesBuild1` | GraphTest.java:261-264 | the addVertex calls at these lines each succeed, each leaving the map the next call starts from |
| `GraphScenarios.ElevenVerticesBuild2` | GraphTest.java:265-268 | the addVertex calls at these lines each succeed, each leaving the map the next call starts from |
| `GraphScenarios.ElevenVerticesBuild3` | GraphTest.java:269-271 | the addVertex calls at these lines each succeed, each leaving the map the next call starts from |
| `GraphScenarios.ElevenVerticesBuild4` | GraphTest.java:272-273 | the addEdge calls at these lines each succeed, each leaving the map the next call starts from |
| `GraphScenarios.ElevenVerticesBuild5` | GraphTest.java:274-275 | the addEdge calls at these lines each succeed, each leaving the map the next call starts from |
| `GraphScenarios.ElevenVerticesBuild6` | GraphTest.java:276-277 | the addEdge calls at these lines each succeed, each leaving the map the next call starts from |
| `GraphScenarios.ElevenVerticesBuild7` | GraphTest.java:278-279 | the addEdge calls at these lines each succeed, each leaving the map the next call starts from |
| `GraphScenarios.ElevenVerticesBuild8` | GraphTest.java:280-281 | the addEdge calls at these lines each succeed, each leaving the map the next call starts from |
| `GraphScenarios.ElevenVerticesBuild9` | GraphTest.java:282 | the addEdge call at this line succeeds, leaving the map the next call starts from; the whole sequence yields `ElevenVertices()` |
| `GraphScenarios.NoPathUndirected` | GraphTest.java:167-178 | the undirected graph of testNoPath, in which every link ends at a registered vertex |
| `GraphScenarios.NineVertices` | GraphTest.java:205-227 | the graph of testDirectedPath, in which every link ends at a registered vertex |
| `GraphScenarios.ElevenVertices` | GraphTest.java:260-282 | the graph of testUndirectedPath, in which every link ends at a registered vertex |
| `GraphScenarios.BasicActionsRejected` | GraphTest.java:44-120 | each rejected call of testBasicActions fails with the expected check and leaves the graph as it was |
| `GraphScenarios.NoPathOneTo1000` | GraphTest.java:164-165 | getPath(1, 1000) is null |
| `GraphScenarios.NoPathAToF` | GraphTest.java:179-180 | getPath("A", "F") is null |
| `GraphScenarios.NoPathFToA` | GraphTest.java:181-182 | getPath("F", "A") is null |
| `GraphScenarios.NoPathThreeToOne` | GraphTest.java:228-229 | getPath(3, 1) is null |
| `GraphScenarios.NoPathSevenToOne` | GraphTest.java:230-231 | getPath(7, 1) is null |
| `GraphScenarios.PathThreeToFour` | GraphTest.java:232-233 | getPath(3, 4) is the empty list |
| `GraphScenarios.PathOneToSeven` | GraphTest.java:234-235 | getPath(1, 7) is exactly [2, 3, 4, 5, 6] |
| `GraphScenarios.PathFiveToThree` | GraphTest.java:236-237 | getPath(5, 3) is exactly [6], one of the two answers the test accepts |
| `GraphScenarios.PathAToG` | GraphTest.java:283-284 | getPath("A", "G") is exactly [C, B, D, F, E] |
| `GraphScenarios.PathGToC` | GraphTest.java:285-286 | getPath("G", "C") is exactly [E, F, D, B] |
| `GraphScenarios.DirectEdgeNotPreferred` | AbstractGraph.java:107-117 | with links 1->2, 1->3 and 2->3, getPath(1, 3) is [2], not the empty list |

## Left out

- `Vertex.hashCode` and the hashing inside `HashMap`/`HashSet`: ids are compared with Dafny equality, so a user id type whose `equals` and `hashCode` disagree is not modelled.
- `Vertex.equals` takes any `Object` in Java. The model takes a possibly-null `Vertex`, so the "not a vertex" case is not modelled.
- `getId` and `getConnectedTo` are reads of the fields `id` and `connectedTo`. That `getConnectedTo` hands out the live mutable list, which a caller could change, is not modelled.
- The exception messages are not modelled, only which check throws.
- The remark on synchronising over `verticesById` in a multithreaded setting: concurrency is not modelled.
- Inheritance from `AbstractGraph` is modelled as composition. Each variant holds an `AbstractGraph` in `graph`, and `addVertex`/`getPath` are called through it. Through `graph`, a caller can also reach the one-way `AbstractGraph.AddEdge` of an undirected graph. In Java the override in `UndirectedGraph.java` (lines 14-17) hides it, so outside code cannot do that.
- `AbstractGraphs.AbstractGraph.IsFound`: the `path` list and the `traversedVertices` set, which the Java recursion shares and mutates, are passed in and returned as values. Aliasing is not modelled.
- A Java stack overflow on very deep recursion is not modelled: recursion depth is unbounded.
- The `Vertex` constructor takes a non-null id. Its null check is modelled by `Create`.
- `GraphTest.main` and its `try`/`catch` harness are not modelled. The scenario graphs are written as the adjacency maps their `addVertex`/`addEdge` calls produce, and lemmas prove, call by call, that those calls succeed and yield those maps.
- The test's `String` ids are modelled as `char` ids. All of them are single letters.
