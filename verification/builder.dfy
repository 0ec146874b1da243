/** The construction of the necessity graph (App.java `getParentsNumberOfEachClass`,
    `setVertexes`, `setEdges`): one vertex per named class other than
    `Thing`, and for every axiom `C SubClassOf D` with `D` named an edge
    `C -> D` whose weight is the number of SubClassOf axioms of `C`. The
    necessity degree of such an axiom is `1 / k` for a class with `k` parents,
    and the edge carries its inverse `k`. */
module GraphBuilder {
  import opened Wrappers
  import opened Ontology
  import opened Vertices
  import Dijkstra

  /** The vertex an edge to `s` points at: `Thing` has no vertex, so the
      lookup gives a null reference. */
  function Target(s: ClassId): (t: Option<string>)
    ensures t.None? <==> s == Thing
    ensures t.Some? ==> t.value == s
  {
    if s == Thing then None else Some(s)
  }

  /** The edge the axiom `a` gives the vertex `c`, if any. */
  function AxiomEdge(o: Ontology, a: Axiom, c: ClassId): seq<Edge>
  {
    if a.sub == c && a.sup.Some? then [Edge(ParentCount(o, c), c, Target(a.sup.value))] else []
  }

  /** The edges the axioms `axs` give the vertex `c`, in axiom order. */
  function EdgesIn(o: Ontology, axs: seq<Axiom>, c: ClassId): seq<Edge>
  {
    if |axs| == 0 then []
    else EdgesIn(o, axs[..|axs| - 1], c) + AxiomEdge(o, axs[|axs| - 1], c)
  }

  /** The adjacency list of `c` in the necessity graph of `o`. */
  function EdgesFor(o: Ontology, c: ClassId): seq<Edge>
  {
    EdgesIn(o, o.axioms, c)
  }

  /** `g` is the necessity graph of `o`, before any search: a fresh vertex for
      every class but `Thing`, with the edges of its named superclasses; it
      exists only when no axiom gives `Thing` a named superclass. */
  ghost predicate BuiltFrom(o: Ontology, g: Graph)
  {
    && ThingHasNoNamedSuper(o)
    && g.Keys == o.classes - {Thing}
    && forall c :: c in g ==>
         && g[c].name == c && !g[c].visited && g[c].predecessor.None? && g[c].distance.None?
         && g[c].adj == EdgesFor(o, c)
  }

  /** `getParentsNumberOfEachClass`: every class with at least one SubClassOf
      axiom is mapped to the number of its axioms; classes without one are
      absent. */
  method ParentsNumberOfEachClass(o: Ontology) returns (parents: map<ClassId, nat>)
    ensures forall c :: c in parents <==> c in o.classes && ParentCount(o, c) > 0
    ensures forall c :: c in parents ==> parents[c] == ParentCount(o, c)
  {
    parents := map[];
    var todo := o.classes;
    while todo != {}
      invariant todo <= o.classes
      invariant forall c :: c in parents <==> c in o.classes - todo && ParentCount(o, c) > 0
      invariant forall c :: c in parents ==> parents[c] == ParentCount(o, c)
      decreases todo
    {
      var cls :| cls in todo;
      var axs := AxiomsFor(o.axioms, cls);
      ghost var before := parents;
      var i := 0;
      while i < |axs|
        invariant 0 <= i <= |axs|
        invariant cls in parents <==> i > 0
        invariant cls in parents ==> parents[cls] == i
        invariant forall c :: c != cls ==> (c in parents <==> c in before)
        invariant forall c :: c != cls && c in parents ==> parents[c] == before[c]
      {
        if cls in parents {
          parents := parents[cls := parents[cls] + 1];
        } else {
          parents := parents[cls := 1];
        }
        i := i + 1;
      }
      todo := todo - {cls};
    }
  }

  /** `setVertexes`: a fresh vertex for every class of the signature except
      `Thing`. */
  function SetVertexes(o: Ontology): (g: Graph)
    ensures g.Keys == o.classes - {Thing}
    ensures forall c :: c in g ==> g[c] == NewVertex(c)
  {
    map c | c in o.classes && c != Thing :: NewVertex(c)
  }

  /** Appending one axiom extends the edge list of its subclass by at most one
      edge, and leaves every other list alone. */
  lemma EdgesInSnoc(o: Ontology, axs: seq<Axiom>, a: Axiom, c: ClassId)
    ensures EdgesIn(o, axs + [a], c) == EdgesIn(o, axs, c) + AxiomEdge(o, a, c)
  {
    assert (axs + [a])[..|axs|] == axs;
  }

  /** The graph after the edges of the first `n` axioms were added. */
  ghost predicate PartlyBuilt(o: Ontology, g: Graph, n: nat)
  {
    && n <= |o.axioms|
    && g.Keys == o.classes - {Thing}
    && forall c :: c in g ==>
         && g[c].name == c && !g[c].visited && g[c].predecessor.None? && g[c].distance.None?
         && g[c].adj == EdgesIn(o, o.axioms[..n], c)
  }

  /** One pass of the `setEdges` loop: an axiom with a named superclass adds
      an edge to its subclass's vertex. */
  function AddAxiomEdge(g: Graph, parents: map<ClassId, nat>, ax: Axiom): (r: Graph)
    requires ax.sup.Some? ==> ax.sub in g && ax.sub in parents
    ensures r.Keys == g.Keys
    ensures forall c :: c in g && (ax.sup.None? || c != ax.sub) ==> r[c] == g[c]
    ensures ax.sup.Some? ==>
      var old_adj, new_adj := g[ax.sub].adj, r[ax.sub].adj;
      && r[ax.sub].(adj := old_adj) == g[ax.sub]
      && |new_adj| == |old_adj| + 1 && new_adj[..|old_adj|] == old_adj
      && new_adj[|old_adj|].weight == parents[ax.sub] && new_adj[|old_adj|].start == ax.sub
      && (new_adj[|old_adj|].target.None? <==> ax.sup.value !in g)
      && (new_adj[|old_adj|].target.Some? ==> new_adj[|old_adj|].target.value == ax.sup.value)
  {
    if ax.sup.Some? then
      var target := if ax.sup.value in g then Some(ax.sup.value) else None;
      g[ax.sub := AddNeighbour(g[ax.sub], Edge(parents[ax.sub], ax.sub, target))]
    else g
  }

  /** The subclass of an axiom with a named superclass has a vertex and a
      parent count, so the lookups of one `setEdges` pass succeed. */
  lemma AxiomHasVertex(o: Ontology, g: Graph, parents: map<ClassId, nat>, ax: Axiom)
    requires WellFormed(o) && g.Keys == o.classes - {Thing} && ax in o.axioms && ax.sub != Thing
    requires forall c :: c in parents <==> c in o.classes && ParentCount(o, c) > 0
    ensures ax.sub in g && ax.sub in parents
  {
    assert ax in AxiomsFor(o.axioms, ax.sub);
  }

  /** `c` has a vertex and its parent count in `parents`. */
  predicate HasCount(g: Graph, parents: map<ClassId, nat>, o: Ontology, c: ClassId)
  {
    c in g && c in parents && parents[c] == ParentCount(o, c)
  }

  lemma AddAxiomEdgeStep(o: Ontology, g: Graph, parents: map<ClassId, nat>, i: nat)
    requires PartlyBuilt(o, g, i) && i < |o.axioms|
    requires o.axioms[i].sup.Some? ==> HasCount(g, parents, o, o.axioms[i].sub)
    requires o.axioms[i].sup.Some? ==> (o.axioms[i].sup.value in g <==> o.axioms[i].sup.value != Thing)
    ensures PartlyBuilt(o, AddAxiomEdge(g, parents, o.axioms[i]), i + 1)
  {
    var ax := o.axioms[i];
    assert o.axioms[..i + 1] == o.axioms[..i] + [ax];
    var g' := AddAxiomEdge(g, parents, ax);
    forall c | c in g'
      ensures g'[c].adj == EdgesIn(o, o.axioms[..i + 1], c)
    {
      AddAxiomEdgeAt(o, g, parents, i, c);
    }
  }

  /** The edge list of one vertex after a pass of the `setEdges` loop. */
  lemma AddAxiomEdgeAt(o: Ontology, g: Graph, parents: map<ClassId, nat>, i: nat, c: ClassId)
    requires PartlyBuilt(o, g, i) && i < |o.axioms| && c in g
    requires o.axioms[i].sup.Some? ==> HasCount(g, parents, o, o.axioms[i].sub)
    requires o.axioms[i].sup.Some? ==> (o.axioms[i].sup.value in g <==> o.axioms[i].sup.value != Thing)
    ensures AddAxiomEdge(g, parents, o.axioms[i])[c].adj == EdgesIn(o, o.axioms[..i + 1], c)
  {
    var ax := o.axioms[i];
    assert o.axioms[..i + 1] == o.axioms[..i] + [ax];
    EdgesInSnoc(o, o.axioms[..i], ax, c);
    if ax.sup.Some? && ax.sub == c {
      assert AddAxiomEdge(g, parents, ax)[c] == AddNeighbour(g[c], Edge(ParentCount(o, c), c, Target(ax.sup.value)));
    }
  }

  /** `setEdges`: walks the SubClassOf axioms and, for each one with a named
      superclass, appends to the subclass's vertex an edge weighted by its
      parent count and pointing at the superclass's vertex (null for
      `Thing`). An axiom giving `Thing` a named superclass makes the lookup
      of the subclass's vertex give null, and the append fails; the error is
      `Thing`. */
  method SetEdges(o: Ontology) returns (r: Result<Graph, ClassId>)
    requires WellFormed(o)
    ensures r.Failure? <==> !ThingHasNoNamedSuper(o)
    ensures r.Failure? ==> r.error == Thing
    ensures r.Success? ==> BuiltFrom(o, r.value)
  {
    var g := SetVertexes(o);
    var parents := ParentsNumberOfEachClass(o);
    assert o.axioms[..0] == [];
    var i := 0;
    while i < |o.axioms|
      invariant PartlyBuilt(o, g, i)
      invariant forall k :: 0 <= k < i && o.axioms[k].sup.Some? ==> o.axioms[k].sub != Thing
    {
      var ax := o.axioms[i];
      assert ax in o.axioms;
      if ax.sup.Some? && ax.sub == Thing {
        return Failure(Thing);
      }
      if ax.sup.Some? {
        AxiomHasVertex(o, g, parents, ax);
      }
      AddAxiomEdgeStep(o, g, parents, i);
      g := AddAxiomEdge(g, parents, ax);
      i := i + 1;
    }
    assert o.axioms[..|o.axioms|] == o.axioms;
    return Success(g);
  }

  /** Whatever order the axioms come in, the weight the search reads off the
      edges `c -> v` is the parent count of `c`, and there is such an edge
      exactly when `v` is a direct named superclass of `c` other than
      `Thing`. */
  lemma {:induction false} EdgesInWeight(o: Ontology, axs: seq<Axiom>, c: ClassId, v: string)
    ensures Dijkstra.LastWeightTo(EdgesIn(o, axs, c), v)
      == if v != Thing && SubClassOf(c, Some(v)) in axs then Some(ParentCount(o, c)) else None
  {
    if |axs| > 0 {
      var front, a := axs[..|axs| - 1], axs[|axs| - 1];
      assert axs == front + [a];
      EdgesInWeight(o, front, c, v);
      var es := EdgesIn(o, front, c);
      assert SubClassOf(c, Some(v)) in axs <==> SubClassOf(c, Some(v)) in front || a == SubClassOf(c, Some(v));
      if a.sub == c && a.sup.Some? {
        var e := Edge(ParentCount(o, c), c, Target(a.sup.value));
        assert EdgesIn(o, axs, c) == es + [e];
        assert (es + [e])[..|es|] == es;
        assert e.target == Some(v) <==> v != Thing && a == SubClassOf(c, Some(v));
      } else {
        assert EdgesIn(o, axs, c) == es;
        assert a != SubClassOf(c, Some(v));
      }
    }
  }

  /** The same for the adjacency lists of a built graph. */
  lemma EdgeWeightIsParentCount(o: Ontology, g: Graph, c: ClassId, v: string)
    requires BuiltFrom(o, g) && c in g
    ensures Dijkstra.LastWeightTo(g[c].adj, v)
      == if v != Thing && DirectSuper(o, c, v) then Some(ParentCount(o, c)) else None
  {
    EdgesInWeight(o, o.axioms, c, v);
  }

  /** Every edge of `c` comes from one of its named-superclass axioms. */
  lemma {:induction false} EdgesInMembers(o: Ontology, axs: seq<Axiom>, c: ClassId, e: Edge)
    requires e in EdgesIn(o, axs, c)
    ensures e.weight == ParentCount(o, c) && e.start == c
    ensures exists s :: SubClassOf(c, Some(s)) in axs && e.target == Target(s)
  {
    var front, a := axs[..|axs| - 1], axs[|axs| - 1];
    assert axs == front + [a];
    if e in EdgesIn(o, front, c) {
      EdgesInMembers(o, front, c, e);
      var s :| SubClassOf(c, Some(s)) in front && e.target == Target(s);
      assert SubClassOf(c, Some(s)) in axs;
    } else {
      assert a.sub == c && a.sup.Some? && e == Edge(ParentCount(o, c), c, Target(a.sup.value));
      assert SubClassOf(c, Some(a.sup.value)) == a;
    }
  }

  /** The graph built from a well-formed acyclic ontology suits the search:
      weights are at least 1, and every non-null target is another vertex. */
  lemma BuiltIsSearchable(o: Ontology, g: Graph)
    requires WellFormed(o) && Acyclic(o) && BuiltFrom(o, g)
    ensures Dijkstra.Searchable(g)
  {
    forall c, e | c in g && e in g[c].adj
      ensures e.weight >= 1 && (e.target.Some? ==> e.target.value in g && e.target.value != c)
    {
      EdgesInMembers(o, o.axioms, c, e);
      var s :| SubClassOf(c, Some(s)) in o.axioms && e.target == Target(s);
      assert DirectSuper(o, c, s);
      ParentCountPositive(o, c, s);
      DirectSuperReaches(o, c, s);
    }
  }
}
