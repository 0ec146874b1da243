/** App.java `getAllDistances`: one search per named class other than
    `Thing`, recording for every superclass of the source the predecessor
    path and the distance the search left on it. */
module AllDistances {
  import opened Wrappers
  import opened Ontology
  import opened Vertices
  import opened Dijkstra
  import opened GraphBuilder
  import opened Hierarchy
  import opened Paths

  /** The path table. Keys compare by the names of their two ends, so a key is
      its (source, target) name pair. */
  type PathTable = map<(ClassId, ClassId), ShortestPaths>

  /** The summed edge weights along a chain of named-superclass steps: each
      step out of a class weighs that class's parent count. */
  function ChainWeight(o: Ontology, p: seq<ClassId>): nat
  {
    if |p| < 2 then 0
    else ChainWeight(o, p[..|p| - 1]) + ParentCount(o, p[|p| - 2])
  }

  /** `sp` is a path from `ci` up to `cj` through direct named superclasses,
      and its distance is the weight of that path. */
  ghost predicate ValidEntry(o: Ontology, ci: ClassId, cj: ClassId, sp: ShortestPaths)
  {
    && |sp.path| >= 2 && sp.path[0] == ci && sp.path[|sp.path| - 1] == cj
    && IsChain(o, sp.path)
    && ChainWeight(o, sp.path) == sp.distance
  }

  /** The table holds an entry for exactly the pairs of a non-`Thing` class of
      `sources` and one of its superclasses, and every entry is valid. */
  ghost predicate TableFor(o: Ontology, sources: set<ClassId>, t: PathTable)
    requires WellFormed(o) && Acyclic(o)
  {
    && (forall k :: k in t <==> k.0 in sources && k.0 != Thing && k.1 in SuperClasses(o, k.0))
    && (forall k :: k in t ==> ValidEntry(o, k.0, k.1, t[k]))
  }

  /** A search graph derived from the built graph `built`: same vertices, same
      adjacency lists. */
  ghost predicate SameEdges(built: Graph, h: Graph)
  {
    h.Keys == built.Keys && forall v :: v in h ==> h[v].adj == built[v].adj
  }

  /** Every step of a chain weighs at least 1, so a valid entry's distance is
      at least its number of steps. */
  lemma {:induction false} ChainWeightAtLeastLength(o: Ontology, p: seq<ClassId>)
    requires IsChain(o, p) && |p| >= 1
    ensures ChainWeight(o, p) >= |p| - 1
  {
    if |p| >= 2 {
      var front := p[..|p| - 1];
      assert IsChain(o, front) by {
        forall i | 0 <= i < |front| - 1
          ensures DirectSuper(o, front[i], front[i + 1])
        {
          assert front[i] == p[i] && front[i + 1] == p[i + 1];
        }
      }
      ChainWeightAtLeastLength(o, front);
      assert DirectSuper(o, p[|p| - 2], p[|p| - 1]);
      ParentCountPositive(o, p[|p| - 2], p[|p| - 1]);
    }
  }

  /** A recorded distance is at least 1. */
  lemma EntryDistancePositive(o: Ontology, ci: ClassId, cj: ClassId, sp: ShortestPaths)
    requires ValidEntry(o, ci, cj, sp)
    ensures sp.distance >= 1
  {
    ChainWeightAtLeastLength(o, sp.path);
  }

  /** When every step of `q` is an edge of the built graph, the search's path
      weight is the chain weight. */
  lemma {:induction false} PathWeightIsChainWeight(o: Ontology, h: Graph, q: seq<ClassId>)
    requires forall i :: 0 <= i < |q| - 1 ==>
      q[i] in h && LastWeightTo(h[q[i]].adj, q[i + 1]) == Some(ParentCount(o, q[i]))
    ensures PathWeight(h, q) == ChainWeight(o, q)
  {
    if |q| >= 2 {
      var front := q[..|q| - 1];
      forall i | 0 <= i < |front| - 1
        ensures front[i] in h && LastWeightTo(h[front[i]].adj, front[i + 1]) == Some(ParentCount(o, front[i]))
      {
        assert front[i] == q[i] && front[i + 1] == q[i + 1];
      }
      PathWeightIsChainWeight(o, h, front);
    }
  }

  /** Every class on a chain up from a class is a class of the signature,
      and, when `Thing` has no named superclass, only its last element can be
      `Thing`. */
  lemma ChainClasses(o: Ontology, p: seq<ClassId>)
    requires WellFormed(o) && ThingHasNoNamedSuper(o) && IsChain(o, p) && |p| >= 2
    ensures forall i :: 0 <= i < |p| ==> p[i] in o.classes
    ensures forall i :: 0 <= i < |p| - 1 ==> p[i] != Thing
  {
    forall i | 0 <= i < |p|
      ensures p[i] in o.classes && (i < |p| - 1 ==> p[i] != Thing)
    {
      if i < |p| - 1 {
        assert SubClassOf(p[i], Some(p[i + 1])) in o.axioms;
      } else {
        assert SubClassOf(p[i - 1], Some(p[i])) in o.axioms;
      }
    }
  }

  /** After a search from `ci`, every superclass `cj` other than `Thing` is
      reached. */
  lemma AncestorReached(o: Ontology, built: Graph, h: Graph, ci: ClassId, cj: ClassId)
    requires WellFormed(o) && BuiltFrom(o, built) && SameEdges(built, h)
    requires SearchShape(h, ci) && VisitedClosed(h)
    requires Reaches(o, ci, cj) && cj != Thing
    ensures cj in h && h[cj].visited
  {
    var p :| IsChain(o, p) && |p| >= 2 && p[0] == ci && p[|p| - 1] == cj;
    ChainClasses(o, p);
    forall i | 0 <= i < |p| - 1
      ensures p[i] in h && LastWeightTo(h[p[i]].adj, p[i + 1]).Some?
    {
      assert DirectSuper(o, p[i], p[i + 1]);
      EdgeWeightIsParentCount(o, built, p[i], p[i + 1]);
    }
    assert EdgeChain(h, p);
    ReachableIsVisited(h, p);
  }

  /** The predecessor path a search from `ci` leaves for a reached `cj` is a
      chain of direct named superclasses from `ci` to `cj`, and the recorded
      distance is its weight. */
  lemma RunEntry(o: Ontology, built: Graph, h: Graph, ci: ClassId, cj: ClassId)
    requires WellFormed(o) && Acyclic(o) && BuiltFrom(o, built) && SameEdges(built, h)
    requires SearchShape(h, ci) && VisitedClosed(h)
    requires Reaches(o, ci, cj) && cj != Thing
    ensures cj in h && h[cj].visited && h[cj].distance.Some? && PredecessorsDescend(h)
    ensures ValidEntry(o, ci, cj, ShortestPaths(ShortestPathTo(h, cj), h[cj].distance.value))
  {
    BuiltIsSearchable(o, built);
    SearchableFrame(built, h);
    AncestorReached(o, built, h, ci, cj);
    ShortestPathToFromSource(h, ci, cj);
    var q := ShortestPathTo(h, cj);
    forall i | 0 <= i < |q| - 1
      ensures q[i] in h && LastWeightTo(h[q[i]].adj, q[i + 1]) == Some(ParentCount(o, q[i]))
      ensures DirectSuper(o, q[i], q[i + 1])
    {
      assert h[q[i + 1]].predecessor == Some(q[i]);
      assert RelaxedFrom(h, q[i + 1], q[i]);
      EdgeWeightIsParentCount(o, built, q[i], q[i + 1]);
    }
    PathWeightIsChainWeight(o, h, q);
    assert cj != ci;
  }

  /** `t` is `table` with a valid entry `(ci, cj)` added for every `cj` in
      `added`. */
  ghost predicate Extends(o: Ontology, table: PathTable, t: PathTable, ci: ClassId, added: set<ClassId>)
  {
    && (forall k :: k in t <==> k in table || (k.0 == ci && k.1 in added))
    && (forall k :: k in t ==>
          if k.0 == ci && k.1 in added then ValidEntry(o, ci, k.1, t[k]) else t[k] == table[k])
  }

  lemma ExtendsStep(o: Ontology, table: PathTable, t: PathTable, ci: ClassId, added: set<ClassId>,
                    cj: ClassId, sp: ShortestPaths)
    requires Extends(o, table, t, ci, added) && ValidEntry(o, ci, cj, sp)
    ensures Extends(o, table, t[(ci, cj) := sp], ci, added + {cj})
  {
  }

  /** The inner loop of `getAllDistances` for the source `ci`: an entry for
      every superclass of `ci`, or the null-pointer failure the lookup of
      `Thing`'s (missing) vertex causes. Entries of other sources are kept. */
  method RecordRun(o: Ontology, ghost built: Graph, h: Graph, ci: ClassId, table: PathTable)
    returns (r: Result<PathTable, ClassId>)
    requires WellFormed(o) && Acyclic(o) && BuiltFrom(o, built) && SameEdges(built, h)
    requires ci in o.classes && ci != Thing
    requires SearchShape(h, ci) && VisitedClosed(h)
    ensures r.Failure? <==> Thing in SuperClasses(o, ci)
    ensures r.Failure? ==> r.error == ci
    ensures r.Success? ==> Extends(o, table, r.value, ci, SuperClasses(o, ci))
  {
    var supers := SuperClasses(o, ci);
    SuperClassesAreAncestors(o, ci);
    var t := table;
    var rest := supers;
    while rest != {}
      invariant rest <= supers
      invariant Thing in supers ==> Thing in rest
      invariant Extends(o, table, t, ci, supers - rest)
      decreases rest
    {
      var cj :| cj in rest;
      if cj == Thing {
        return Failure(ci);
      }
      RunEntry(o, built, h, ci, cj);
      var sp := ShortestPaths(ShortestPathTo(h, cj), h[cj].distance.value);
      ExtendsStep(o, table, t, ci, supers - rest, cj, sp);
      assert supers - (rest - {cj}) == (supers - rest) + {cj};
      t := t[(ci, cj) := sp];
      rest := rest - {cj};
    }
    assert supers - rest == supers;
    return Success(t);
  }

  /** The path table of `o` can be built: no axiom gives `Thing` a named
      superclass, and no class other than `Thing` has `Thing` among its
      superclasses. */
  ghost predicate TableBuilds(o: Ontology)
    requires WellFormed(o) && Acyclic(o)
  {
    && ThingHasNoNamedSuper(o)
    && forall c :: c in o.classes && c != Thing ==> Thing !in SuperClasses(o, c)
  }

  /** `getAllDistances`: fails when `setEdges` does (the error is `Thing`),
      and otherwise exactly when some class has `Thing` among its
      superclasses (the error is such a class); on success the table holds a
      valid entry for exactly the pairs of a non-`Thing` class and one of its
      superclasses. */
  method GetAllDistances(o: Ontology) returns (r: Result<PathTable, ClassId>)
    requires WellFormed(o) && Acyclic(o)
    ensures r.Success? <==> TableBuilds(o)
    ensures r.Failure? && !ThingHasNoNamedSuper(o) ==> r.error == Thing
    ensures r.Failure? && ThingHasNoNamedSuper(o) ==>
      r.error in o.classes && r.error != Thing && Thing in SuperClasses(o, r.error)
    ensures r.Success? ==> TableFor(o, o.classes, r.value)
  {
    var edges := SetEdges(o);
    if edges.Failure? {
      return Failure(edges.error);
    }
    var built := edges.value;
    BuiltIsSearchable(o, built);
    var h := built;
    var table: PathTable := map[];
    var todo := o.classes;
    ghost var done: set<ClassId> := {};
    while todo != {}
      invariant todo <= o.classes && done == o.classes - todo
      invariant SameEdges(built, h)
      invariant forall c :: c in done && c != Thing ==> Thing !in SuperClasses(o, c)
      invariant TableFor(o, done, table)
      decreases todo
    {
      var ci :| ci in todo;
      if ci != Thing {
        var g := ResetGraph(h);
        SearchableFrame(built, g);
        h := ComputeShortestPaths(g, ci);
        var run := RecordRun(o, built, h, ci, table);
        if run.Failure? {
          return run;
        }
        table := run.value;
      }
      todo := todo - {ci};
      done := done + {ci};
    }
    return Success(table);
  }
}
