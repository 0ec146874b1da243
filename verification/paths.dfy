/** KeyShortestPaths.java and ShortestPaths.java: the keys and entries of the
    path table. A key is a directional (source, target) pair of vertices that
    compares by vertex name; an entry is a vertex path with its distance. */
module Paths {
  import Text
  import opened Vertices

  /** `new KeyShortestPaths(source, target)`. */
  datatype Key = Key(source: Vertex, target: Vertex)

  /** A Java object that `equals` may be handed: null, a key, or something
      else. */
  datatype KeyObject = NullKey | KeyRef(key: Key) | OtherObject

  /** `equals`: the other object is a key whose source and target equal this
      key's source and target as vertices. */
  predicate KeyEquals(k: Key, obj: KeyObject)
    ensures KeyEquals(k, obj) <==>
      obj.KeyRef? && obj.key.source.name == k.source.name && obj.key.target.name == k.target.name
  {
    obj.KeyRef? && VertexEquals(k.source, VertexRef(obj.key.source)) && VertexEquals(k.target, VertexRef(obj.key.target))
  }

  /** `hashCode`: `Objects.hash(source, target)`, that is
      `31 * (31 * 1 + source.hashCode()) + target.hashCode()` in 32-bit
      arithmetic. */
  function KeyHash(k: Key): (h: int)
    ensures -Text.TwoTo31 <= h < Text.TwoTo31
  {
    Text.WrapInt32(31 * Text.WrapInt32(31 + VertexHash(k.source)) + VertexHash(k.target))
  }

  /** Key equality is name equality of both ends, in order. */
  lemma KeyEqualsIsByName(k: Key, l: Key)
    ensures KeyEquals(k, KeyRef(l)) <==> k.source.name == l.source.name && k.target.name == l.target.name
    ensures !KeyEquals(k, NullKey) && !KeyEquals(k, OtherObject)
  {
  }

  /** `equals` is an equivalence relation, and equal keys hash alike. */
  lemma KeyEqualsIsEquivalence(a: Key, b: Key, c: Key)
    ensures KeyEquals(a, KeyRef(a))
    ensures KeyEquals(a, KeyRef(b)) ==> KeyEquals(b, KeyRef(a))
    ensures KeyEquals(a, KeyRef(b)) && KeyEquals(b, KeyRef(c)) ==> KeyEquals(a, KeyRef(c))
    ensures KeyEquals(a, KeyRef(b)) ==> KeyHash(a) == KeyHash(b)
  {
  }

  /** Keys are directional: swapping the ends gives an equal key only when
      both ends have the same name. */
  lemma KeyIsDirectional(s: Vertex, t: Vertex)
    ensures KeyEquals(Key(s, t), KeyRef(Key(t, s))) <==> s.name == t.name
  {
  }

  /** `toString`: the source name, a comma and a space, the target name. */
  function KeyToString(k: Key): (r: string)
    ensures |r| == |k.source.name| + 2 + |k.target.name|
    ensures r[..|k.source.name|] == k.source.name
    ensures r[|k.source.name|..|k.source.name| + 2] == ", "
    ensures r[|k.source.name| + 2..] == k.target.name
  {
    k.source.name + ", " + k.target.name
  }

  /** `setSource` replaces the source and keeps the target. */
  function SetSource(k: Key, s: Vertex): (r: Key)
    ensures r.source == s && r.target == k.target
  {
    k.(source := s)
  }

  /** `setTarget` replaces the target and keeps the source. */
  function SetTarget(k: Key, t: Vertex): (r: Key)
    ensures r.target == t && r.source == k.source
  {
    k.(target := t)
  }

  /** Setting either end back to what it was gives the same key, and setting
      both ends builds the key of the new ends whatever the old ones. */
  lemma KeySetterLaws(k: Key, s: Vertex, t: Vertex)
    ensures SetSource(k, k.source) == k && SetTarget(k, k.target) == k
    ensures SetTarget(SetSource(k, s), t) == Key(s, t) == SetSource(SetTarget(k, t), s)
  {
  }

  /** A path-table entry: the vertex names of the path, source first, and the
      target's distance. */
  datatype ShortestPaths = ShortestPaths(path: seq<string>, distance: nat)

  /** `setPath` replaces the path and keeps the distance. */
  function SetPath(e: ShortestPaths, p: seq<string>): (r: ShortestPaths)
    ensures r.path == p && r.distance == e.distance
  {
    e.(path := p)
  }

  /** `setDistance` replaces the distance and keeps the path. */
  function SetDistance(e: ShortestPaths, d: nat): (r: ShortestPaths)
    ensures r.distance == d && r.path == e.path
  {
    e.(distance := d)
  }
}
