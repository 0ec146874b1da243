# Necessity-graph engine of msc, in Dafny

This project models the engine behind the ontology similarity measures of
msc. The engine takes an OWL class hierarchy and:

- builds a **necessity graph**: one vertex per named class other than
  `owl:Thing`, and an edge from each class to each named superclass. The edge
  weighs `k`, the number of SubClassOf axioms of the subclass (the inverse of
  the necessity degree `1/k`).
- runs a **single-source search** (`Vertex.DijkstraShortestPath`) from every
  class. It records, for every (class, superclass) pair, the predecessor path
  and the distance in a path table keyed by `KeyShortestPaths`.
- answers **hierarchy queries**: superclasses, roots, common subsumers
  matched across two ontologies by case-insensitive label, the least common
  subsumer (LCS) by summed distance, and the LCS-to-root `distance`.
- **counts** classes.

The model is written in the program's own terms.

- A class is its IRI fragment (`Ontology.ClassId`). `Thing` is the fragment
  of `owl:Thing`.
- An ontology is its classes-in-signature, its SubClassOf axioms (each
  once, in one fixed iteration order), and a label literal for every class.
  A literal is a lexical form, a language tag and a datatype. Label
  equality in `getDifferentClassesNumber` compares all three; `getCS` and
  `distance` compare the lexical forms only, ignoring case.
- The graph is a map from vertex name to `Vertex`. A vertex holds its
  adjacency list and the per-run search state: visited flag, predecessor
  name, and distance. A distance of `None` stands for the `Float.MAX_VALUE`
  sentinel.
- A null vertex reference is a `None` edge target.
- Each Java `NullPointerException` or `NoSuchElementException` of the core is
  a `Failure` of a `Wrappers.Result`:
  - `Thing` with a named superclass makes `setEdges` dereference `Thing`'s
    missing vertex as the start of an edge.
  - `Thing` as an explicit superclass makes `getAllDistances` dereference
    `Thing`'s missing vertex.
  - A missing path-table entry makes `getLCS` or `distance` dereference a
    null entry.
  - A null LCS makes `distance` fail.
  - An empty root-distance map makes `Collections.min` fail.
- `HashSet` and `HashMap` iteration order is a nondeterministic choice (`:|`).
  The priority queue hands out any queued vertex of least distance.

Modules follow the source:
- `Vertices`, `Dijkstra`: Vertex.java.
- `Paths`: KeyShortestPaths.java and ShortestPaths.java.
- `GraphBuilder`, `Hierarchy`, `AllDistances`, `Subsumers`, `Counting`: the
  static methods of App.java.
- `Ontology`, `Text`, `Wrappers`: the input and the parts of Java's `String`
  the code relies on.
- `Scenarios`: small fixed hierarchies worked through the model.

### The search as written

`computeShortestPaths` relaxes **unconditionally** (Vertex.java:143-149). A
polled vertex overwrites the distance and predecessor of every unvisited
neighbour, even when the neighbour already holds a smaller distance. So the
recorded distances are not minimal in general, and the model follows the
code here rather than textbook Dijkstra. `Scenarios.DiamondOverwrite` traces
a search where this happens:
- S has parents A and B. A has parent T. B has parents T and C.
- Both A and B sit at distance 2 after S is polled.
- If A is polled first, T gets 3, along the lightest path S, A, T.
- B then overwrites T with 4.

What the search does guarantee is proved instead:
- the source is at distance 0 and has no predecessor;
- every visited vertex was last relaxed from a visited predecessor, and its
  distance is the predecessor's distance plus the edge weight;
- everything reachable from the source is visited;
- the predecessor path runs from the source to the target, and its weight is
  the recorded distance.

## Model

| member | source | states |
|---|---|---|
| Text.WrapInt32 | KeyShortestPaths.java:15-17 | Java `int` arithmetic: the result is the 32-bit two's-complement value congruent to the input modulo 2^32 |
| Text.StringHash | Vertex.java:74-76 | the hash of a vertex name is a 32-bit `int` (over Unicode scalar values; see Left out) |
| Text.EqualsIgnoreCaseIsEquivalence | App.java:156 | the case-insensitive label comparison is reflexive, symmetric and transitive |
| Text.EqualsIgnoreCaseKeepsNonLetters | App.java:304 | a case-insensitive label match agrees exactly on every non-letter character |
| Ontology.AxiomsFor | App.java:213 | the axioms for a subclass are exactly the listed axioms with that subclass |
| Ontology.NamedSupers | App.java:103-105 | the named superclasses visited for `c` are exactly its direct named superclasses |
| Ontology.ParentCountPositive | App.java:210-217 | a class with a named superclass has a parent count of at least 1 |
| Ontology.ReachesTransitive | App.java:106 | reaching a superclass through superclasses composes |
| Ontology.ReachesFirstStep | App.java:103-107 | every ancestor is reached through some direct named superclass |
| Ontology.ThingReachesNothing | App.java:119 | `Thing` has no ancestors |
| Ontology.AncestorsShrink | App.java:106 | recursing into a direct named superclass strictly shrinks the ancestor set, so the recursions stop on an acyclic hierarchy |
| Ontology.ChainDescends | App.java:126-133 | along a chain of superclass steps, a rank that each axiom lowers falls by at least one per step |
| Ontology.RankedIsAcyclic | App.java:100-111 | a hierarchy ranked so every axiom goes down is acyclic, so the recursive walks terminate on it |
| Ontology.ThingNotReached | App.java:290-294 | without an axiom naming `Thing` as a superclass, `Thing` is no class's ancestor |
| Hierarchy.SupersViaMembers | App.java:103-108 | the loop over named superclasses collects exactly each visited superclass and everything above it |
| Hierarchy.SuperClasses | App.java:100-111 | the collected set holds every direct named superclass and stays within the ontology's classes |
| Hierarchy.SuperClassesAreAncestors | App.java:100-111 | `getSuperClasses` equals the reference set of classes reached by one or more named-superclass steps |
| Hierarchy.SuperClassesClosed | App.java:100-111 | `getSuperClasses` holds every direct named superclass, is closed under direct named superclasses, and never holds the class itself |
| Hierarchy.RecRoot | App.java:126-133 | the root has no named superclass; it is the class itself exactly when the class has none; otherwise it is an ancestor, and it is the root of the last named superclass visited, because each loop pass overwrites `c` |
| Hierarchy.RootWalk | App.java:126-133 | builds the walk from the class along last named superclasses; it ends at the class's root, which has no named superclass |
| Hierarchy.RecRootIsEndOfWalk | App.java:126-133 | the root is the end of a walk from the class that always steps to the last named superclass and stops at a class with none |
| Hierarchy.RecRootIdempotent | App.java:126-133 | walking to the root from a root stays there |
| Hierarchy.RootClassesMembers | App.java:115-123 | a class other than `Thing` is a root exactly when it has no named superclass, and every root has none |
| Hierarchy.RootClasses | App.java:115-123 | every class collected has no named superclass, and every class other than `Thing` without one is collected |
| Vertices.NewVertex | Vertex.java:9-18 | a new vertex has the given name, no edges, is unvisited, has no predecessor and is unreached |
| Vertices.AddNeighbour | Vertex.java:20-22 | the edge is appended at the end and nothing else changes |
| Vertices.VertexEqualsByName | Vertex.java:64-76 | `equals` is an equivalence on names, false for null and non-vertices, and equal vertices hash alike |
| Vertices.VertexEquals | Vertex.java:64-71 | a vertex equals itself, and whatever it equals is a vertex with the same hash |
| Vertices.VertexHash | Vertex.java:73-76 | the hash is a 32-bit `int` |
| Vertices.CompareTo | Vertex.java:83-86 | the sign orders by distance, with an unreached vertex above every reached one, and is zero exactly for equal distances |
| Vertices.CompareToIsPreorder | Vertex.java:83-86 | the queue order is antisymmetric in sign and transitive |
| Vertices.ResetGraph | App.java:270-274 | the same vertices come back, all unvisited, and nothing but the visited flag changes |
| Dijkstra.LastWeightToWitness | Vertex.java:140-148 | the weight that sticks for a neighbour is that of the last edge to it, and there is one exactly when some edge points at it |
| Dijkstra.MinimalExists | Vertex.java:138 | a non-empty queue has a vertex of least distance to poll |
| Dijkstra.RelaxEdge | Vertex.java:142-150 | a non-null unvisited target gets the polled distance plus the weight and the polled vertex as predecessor; every other vertex is unchanged |
| Dijkstra.SkipEdge | Vertex.java:142-143 | a null or visited target leaves the state and the queue as they are |
| Dijkstra.RelaxTarget | Vertex.java:143-150 | relaxing an unvisited target keeps the inner-loop invariant and queues the target |
| Dijkstra.RelaxStep | Vertex.java:140-151 | one pass of the edge loop keeps the inner-loop invariant |
| Dijkstra.RelaxNeighbours | Vertex.java:140-151 | after the edge loop, every queued vertex is relaxed from the polled vertex or an earlier one, every edge target is polled or queued, and nothing else moved |
| Dijkstra.MarkVisited | Vertex.java:152 | marking the polled vertex visited restores the main-loop invariant with it among the polled vertices |
| Dijkstra.MarkedMarks | Vertex.java:152 | after marking, a vertex is visited exactly when it is polled or the source |
| Dijkstra.MarkedFrontier | Vertex.java:140-152 | after marking, every edge out of a polled vertex ends at a polled or queued vertex, and vertices outside both are untouched |
| Dijkstra.RelaxedPending | Vertex.java:143-150 | after relaxing one more edge, every queued vertex, the new target included, is either relaxed from the polled vertex by the last of the edges seen so far that point at it, or still relaxed from an earlier polled vertex |
| Dijkstra.PollVertex | Vertex.java:136-153 | one iteration of the main loop keeps its invariant, and the polled vertex is visited and leaves the queue |
| Dijkstra.ComputeShortestPaths | Vertex.java:128-154 | the source is at distance 0 with no predecessor; every other visited vertex was last relaxed from a visited predecessor; visited vertices are closed under edges; unvisited vertices are untouched |
| Dijkstra.ShortestPathTo | Vertex.java:157-165 | the path ends at the target, starts at a vertex without predecessor, and each element is the predecessor of the next |
| Dijkstra.SearchShapeDescends | Vertex.java:145-148 | after a search, each predecessor is strictly closer than its successor, so the predecessor walk stops |
| Dijkstra.ShortestPathToFromSource | Vertex.java:157-165 | after a search, the path to a visited target starts at the source and its edge weights add up to the target's distance |
| Dijkstra.ReachableIsVisited | Vertex.java:136-153 | every vertex reachable by edges from a visited vertex is visited |
| GraphBuilder.Target | App.java:261-264 | an edge points at the superclass's vertex, and at null exactly for `Thing` |
| GraphBuilder.ParentsNumberOfEachClass | App.java:206-219 | a class is a key exactly when it has a SubClassOf axiom, and its value is the number of such axioms |
| GraphBuilder.SetVertexes | App.java:234-247 | exactly the classes other than `Thing` get a vertex, each new |
| GraphBuilder.AddAxiomEdge | App.java:259-264 | for a named superclass, the subclass's vertex gains one edge at the end of its list, weighted by its parent count, starting at it and pointing at the superclass's vertex or at null when there is none; no other vertex and no other field changes, and the key set is kept |
| GraphBuilder.AddAxiomEdgeStep | App.java:257-265 | one pass over an axiom appends its edge to its subclass's vertex and nothing else |
| GraphBuilder.SetEdges | App.java:250-267 | fails exactly when `Thing` has a named superclass (the null vertex of `Thing`); otherwise every class but `Thing` has a fresh vertex whose adjacency list is the edges of its named-superclass axioms, taken in the one axiom order the model fixes |
| GraphBuilder.EdgesInWeight | App.java:257-265 | in any axiom order, a class has an edge to `v` exactly when `v` is a named superclass other than `Thing`, weighted by the class's parent count |
| GraphBuilder.EdgeWeightIsParentCount | App.java:255-264 | the same for the adjacency lists of the built graph |
| GraphBuilder.EdgesInMembers | App.java:259-264 | every edge starts at its class, weighs the parent count and points at a named superclass |
| GraphBuilder.BuiltIsSearchable | App.java:250-267 | on an acyclic hierarchy every edge weighs at least 1 and points at another vertex or at null |
| Paths.KeyHash | KeyShortestPaths.java:15-17 | `Objects.hash(source, target)` is a 32-bit `int` |
| Paths.KeyEquals | KeyShortestPaths.java:20-26 | keys are equal exactly when the other object is a key with the same source name and the same target name |
| Paths.KeyEqualsIsByName | KeyShortestPaths.java:20-26 | keys are equal exactly when source names and target names are equal, and never equal null or a non-key |
| Paths.KeyEqualsIsEquivalence | KeyShortestPaths.java:15-26 | key equality is an equivalence, and equal keys hash alike |
| Paths.KeyIsDirectional | KeyShortestPaths.java:25 | a key equals its reverse only when both ends have the same name |
| Paths.KeyToString | KeyShortestPaths.java:29-31 | the text is the source name, a comma and a space, then the target name |
| Paths.SetSource | KeyShortestPaths.java:38-40 | the source is replaced and the target kept |
| Paths.SetTarget | KeyShortestPaths.java:46-48 | the target is replaced and the source kept |
| Paths.KeySetterLaws | KeyShortestPaths.java:34-48 | setting an end to its own value changes nothing, and setting both ends builds the key of the new ends |
| Paths.SetPath | ShortestPaths.java:19-21 | the path is replaced and the distance kept |
| Paths.SetDistance | ShortestPaths.java:27-29 | the distance is replaced and the path kept |
| AllDistances.ChainWeightAtLeastLength | App.java:263-264 | each step of a superclass chain weighs at least 1 |
| AllDistances.EntryDistancePositive | App.java:294 | a recorded distance is at least 1 |
| AllDistances.PathWeightIsChainWeight | App.java:294 | along superclass steps, the search's edge weights are the parent counts |
| AllDistances.AncestorReached | App.java:286-292 | a search from a class visits every superclass other than `Thing` |
| AllDistances.RunEntry | App.java:290-296 | the recorded path from a class to a superclass is a chain of direct named superclasses, and the recorded distance is its weight |
| AllDistances.RecordRun | App.java:290-296 | the superclass loop fails exactly when `Thing` is a superclass of the source; otherwise it adds a valid entry for every superclass and keeps the other entries |
| AllDistances.GetAllDistances | App.java:277-299 | fails exactly when `Thing` has a named superclass (in `setEdges`, reported as `Thing`) or some class has `Thing` among its superclasses (reported as that class); otherwise it has an entry for exactly the pairs of a class other than `Thing` and one of its superclasses, each a valid chain with its weight |
| Subsumers.GetCS | App.java:137-161 | `{c1}` if `c1` is a root, else `{c2}` if `c2` is a root, else exactly the ancestors of `c2` whose label's lexical form matches, ignoring case, that of an ancestor of `c1` other than `Thing` |
| Subsumers.CommonSubsumerIsAbove | App.java:150-157 | when labels identify classes, every common subsumer is an ancestor of both classes |
| Subsumers.SumsOfStep | App.java:187-193 | each candidate put in the sum map makes it the last candidate met with that sum |
| Subsumers.MinKey | App.java:196-200 | the scan from `-1` gives `-1` exactly for no sums, and otherwise the least sum |
| Subsumers.LeastIsMinimal | App.java:196-202 | the candidate stored under the least sum is a candidate of least sum, and no later candidate in the iteration order has that sum |
| Subsumers.LeastBySum | App.java:184-202 | fails exactly when a candidate lacks a path, reported at `c1`; otherwise the iteration order lists every candidate once, the result is null exactly for no candidates, and else a candidate of least summed distance after which no candidate has the same sum |
| Subsumers.BothTables | App.java:175-176 | succeeds exactly when both tables can be built, and then both are valid; otherwise the failure is the one that `Thing` causes, as a subclass or as a superclass |
| Subsumers.TableError | App.java:277-294 | a table failure at `Thing` is the `setEdges` failure of `Thing` as a subclass, any other is `Thing` as a superclass of that source |
| Subsumers.MissingPathIsForeignSubsumer | App.java:180-192 | the second table always has the entry from `c2` to a common subsumer; the first has the entry from `c1` exactly when `c1` is a class other than `Thing` and the subsumer is one of its ancestors |
| Subsumers.GetLCS | App.java:165-203 | `c1` if it is a root, else `c2` if it is a root; else fails when a table cannot be built or a candidate lacks a path; else null exactly when there is no common subsumer, and otherwise a common subsumer of least summed distance after which, in the iteration order, no candidate has the same sum |
| Subsumers.RootDistancesIn | App.java:321-340 | `1` for the LCS when it is a root, else the recorded distance to each root, failing at the LCS exactly when one is missing |
| Subsumers.MinValue | App.java:343-345 | a value of the map that no other value undercuts, failing exactly on an empty map |
| Subsumers.RootDistancesPositive | App.java:324-330 | every root distance is at least 1 |
| Subsumers.RootDistance | App.java:308-345 | fails exactly when the root distances of either ontology fail or both are empty; otherwise the least of the merged root distances, at least 1, and exactly 1 when the LCS is a root of either ontology |
| Subsumers.Distance | App.java:302-346 | 1 on a case-insensitive match of lexical forms; otherwise the LCS outcome of `getLCS`, whose failure it passes on; a null LCS fails; for a found LCS, a failure when a table cannot be built and otherwise the least merged root distance, at least 1 |
| Counting.ClassesNumber | App.java:70-77 | the number of classes other than `Thing` |
| Counting.ClassesNumberDifOf | App.java:398-406 | the number of classes other than `Thing` and the given class |
| Counting.DifOfIsOneLess | App.java:398-406 | leaving out a class lowers the count by one exactly when it is a counted class |
| Counting.CountRow | App.java:85-89 | the inner loop counts the classes of the second ontology whose label literal equals the given class's in lexical form, language tag and datatype |
| Counting.DifferentClassesNumber | App.java:80-92 | both class counts minus twice the number of pairs with equal label literals |
| Counting.SelfHasNoDifferentClasses | App.java:80-92 | an ontology with distinct labels compared with itself has no different classes |
| Scenarios.DogToAnimal | App.java:277-299 | in Animal, Mammal, Dog and Cat, the table entry for Dog and Animal is the path Dog, Mammal, Animal at distance 2 |
| Scenarios.ZooDogChain | App.java:290-296 | the only superclass chain from Dog to Animal goes through Mammal |
| Scenarios.ZooHasNoThingSuper | App.java:290-294 | no class of that hierarchy has `Thing` among its superclasses, so no source hits the null vertex |
| Scenarios.ZooTableBuilds | App.java:277-299 | the path table of that hierarchy can be built |
| Scenarios.ZooDogEntry | App.java:290-296 | any valid Dog-to-Animal entry of that hierarchy is that path at that distance |
| Scenarios.TwinEdges | App.java:250-267 | a class with two parents gets two edges, each weighing 2 |
| Scenarios.ThingParentFails | App.java:290-294 | a class declared below `Thing` makes the table fail at that class |
| Scenarios.ThingChildFails | App.java:257-264 | `Thing` declared below a named class makes `setEdges`, and so the table, fail at `Thing` |
| Scenarios.TwinsRootIsLastParent | App.java:126-133 | with the axioms X below P1 and then X below P2, the root walk from X ends at P2 |
| Scenarios.TaggedDogsCompare | App.java:302-305 | two Dogs labelled `"Dog"@en` and `"dog"` are at distance 1 by their lexical forms, yet `getDifferentClassesNumber` counts them as different literals |
| Scenarios.DiamondOverwrite | Vertex.java:140-151 | a later poll overwrites a distance of 3 along the lightest path with 4 |

## Left out

- Ontology loading and saving (App.java:32-47) and `main` (App.java:431-544)
  are file and network I/O and console output.
- `getLabelClass` (App.java:50-67) walks OWL annotations through the OWL API.
  Labels are a total function `labelOf` from classes to literals instead. A
  class without a label makes the Java code throw; that case is not
  modelled.
- `getNecDegOfEachSubClassOfAxiom`, `simNec`, `weightNec` and `simNecOnto`
  (App.java:222-231, 349-427) are floating-point ratio and accumulator
  arithmetic. Edge weights are the integer `k` rather than the `float`
  round trip `1 / (1 / k)`.
- `getParentsNumberOfClass` (App.java:95-97) is a map lookup that no core
  operation calls.
- Getters and setters of `Vertex` and `Edge`, `Vertex.toString`, and the
  getters of `KeyShortestPaths` and `ShortestPaths` are field reads and
  writes, which are datatype selectors and updates here.
- `ShortestPaths.toString` (ShortestPaths.java:31-34) formats a `float`.
- `AllDistances.GetAllDistances`, `Subsumers.Distance`: distances are exact
  naturals, not `float` sums. `float` represents integers exactly only up to
  2^24.
- `Counting.ClassesNumber`, `Counting.DifferentClassesNumber`: counts are
  unbounded, with no 32-bit `int` overflow. `Counting.ClassesNumberDifOf`
  likewise does not model the `float` counter.
- `Hierarchy.SuperClasses`, `Hierarchy.RecRoot` and everything built on them
  require a well-formed, acyclic hierarchy. On a cycle the Java recursion
  overflows the stack.
- `Text.EqualsIgnoreCase` folds ASCII letters only. Java's case folding of
  other characters is not modelled.
- OWL API class identity is reduced to the IRI fragment, which is also how
  the code finds vertices.
- `HashMap`, `HashSet` and `PriorityQueue` internals are nondeterministic
  choices.
- `Subsumers.LeastBySum`, `Subsumers.GetLCS`: the tie rule (the last
  candidate met with the least sum wins) is stated relative to a ghost
  iteration order that lists each candidate once, not a concrete hash order.
- `GraphBuilder.SetEdges`, `Hierarchy.RecRoot`: one axiom sequence stands
  for both the `nec.keySet()` order of `setEdges` and the
  `getSubClassAxiomsForSubClass` order of `recRootClasses`. In Java these
  are two unrelated hash orders. `GraphBuilder.EdgesInWeight` shows the
  edges and weights do not depend on the order; the root that
  `recRootClasses` picks does.
- `Text.StringHash`: hashes the string's Unicode scalar values. Java's
  `String.hashCode` hashes UTF-16 code units; the two differ only on
  characters outside the Basic Multilingual Plane.
- `Dijkstra.ComputeShortestPaths` does not claim minimal distances. The code
  does not compute them.
- The graphs and tables that `getLCS` and `distance` rebuild on each call are
  built once per call here. The rebuilds give the same result.
