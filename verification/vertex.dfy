/** Vertex.java: a graph vertex with its adjacency list and the per-run search
    state (visited flag, predecessor, distance), and the weighted edges between
    vertices. Vertices refer to each other by name. */
module Vertices {
  import opened Wrappers
  import Text

  /** An edge `start -> target`; a `None` target is a null vertex reference. */
  datatype Edge = Edge(weight: nat, start: string, target: Option<string>)

  /** A `None` distance is the `Float.MAX_VALUE` sentinel: not reached. */
  datatype Vertex = Vertex(
    name: string,
    adj: seq<Edge>,
    visited: bool,
    predecessor: Option<string>,
    distance: Option<nat>)

  /** The vertex map built from an ontology, keyed by vertex name. */
  type Graph = map<string, Vertex>

  /** A Java object that `equals` may be handed: null, a vertex, or something
      else. */
  datatype VertexObject = NullRef | VertexRef(vertex: Vertex) | OtherRef

  /** `new Vertex(name)`: no neighbours, not visited, no predecessor, not
      reached. */
  function NewVertex(name: string): (v: Vertex)
    ensures v.name == name && v.adj == []
    ensures !v.visited && v.predecessor.None? && v.distance.None?
  {
    Vertex(name, [], false, None, None)
  }

  /** `addNeighbour`: appends the edge and changes nothing else. */
  function AddNeighbour(v: Vertex, e: Edge): (r: Vertex)
    ensures |r.adj| == |v.adj| + 1 && r.adj[|v.adj|] == e && r.adj[..|v.adj|] == v.adj
    ensures r.(adj := v.adj) == v
  {
    v.(adj := v.adj + [e])
  }

  /** `equals`: true exactly for a vertex of the same name. */
  predicate VertexEquals(v: Vertex, obj: VertexObject)
    ensures VertexEquals(v, obj) ==> obj.VertexRef? && VertexHash(obj.vertex) == VertexHash(v)
    ensures obj == VertexRef(v) ==> VertexEquals(v, obj)
  {
    obj.VertexRef? && obj.vertex.name == v.name
  }

  /** `hashCode`: the hash of the name. */
  function VertexHash(v: Vertex): (h: int)
    ensures -Text.TwoTo31 <= h < Text.TwoTo31
  {
    Text.StringHash(v.name)
  }

  /** `equals` is an equivalence that ignores everything but the name, and
      `hashCode` agrees with it. */
  lemma VertexEqualsByName(a: Vertex, b: Vertex, c: Vertex)
    ensures VertexEquals(a, VertexRef(a))
    ensures VertexEquals(a, VertexRef(b)) <==> VertexEquals(b, VertexRef(a))
    ensures VertexEquals(a, VertexRef(b)) && VertexEquals(b, VertexRef(c)) ==> VertexEquals(a, VertexRef(c))
    ensures VertexEquals(a, VertexRef(b)) ==> VertexHash(a) == VertexHash(b)
    ensures !VertexEquals(a, NullRef) && !VertexEquals(a, OtherRef)
  {
  }

  /** `compareTo`: `Float.compare` of the distances, where an unreached vertex
      carries the largest float. */
  function CompareTo(a: Vertex, b: Vertex): (r: int)
    ensures -1 <= r <= 1
    ensures r == 0 <==> a.distance == b.distance
    ensures r < 0 <==> a.distance.Some? && (b.distance.None? || a.distance.value < b.distance.value)
  {
    match (a.distance, b.distance)
    case (None, None) => 0
    case (None, Some(_)) => 1
    case (Some(_), None) => -1
    case (Some(x), Some(y)) => if x < y then -1 else if x == y then 0 else 1
  }

  /** The queue order is a total preorder: antisymmetric in sign and
      transitive. */
  lemma CompareToIsPreorder(a: Vertex, b: Vertex, c: Vertex)
    ensures CompareTo(a, b) == -CompareTo(b, a)
    ensures CompareTo(a, b) <= 0 && CompareTo(b, c) <= 0 ==> CompareTo(a, c) <= 0
  {
  }

  /** `resetGraph`: clears the visited flag of every vertex and nothing else;
      distances and predecessors of earlier runs stay. */
  function ResetGraph(g: Graph): (r: Graph)
    ensures r.Keys == g.Keys
    ensures forall v :: v in r ==> !r[v].visited && r[v].(visited := g[v].visited) == g[v]
  {
    map v | v in g :: g[v].(visited := false)
  }
}
