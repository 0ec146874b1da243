/** App.java `getCS`, `getLCS` and `distance`: common subsumers of a class
    `c1` of `o1` and a class `c2` of `o2`, matched across the ontologies by
    case-insensitive label, the least of them by summed path distance, and the
    distance from that subsumer up to the roots. */
module Subsumers {
  import opened Wrappers
  import opened Text
  import opened Ontology
  import opened Hierarchy
  import opened Paths
  import opened AllDistances

  /** The runtime failures the operations can end in. */
  datatype Error =
    | ThingIsSubclass  // `setEdges` appending an edge to `Thing`'s missing vertex
    | ThingIsSuperclass(source: ClassId)  // a superclass lookup of `Thing`'s missing vertex
    | MissingPath(source: ClassId)  // a path-table lookup from `source` that finds nothing
    | NoCommonSubsumer  // `distance` dereferencing the null LCS
    | NoRoots  // `Collections.min` of no distances

  /** The label literals of `a` in `o1` and `b` in `o2` have the same lexical
      form, ignoring case: the comparison `getCS` and `distance` make. */
  predicate LabelsMatch(o1: Ontology, a: ClassId, o2: Ontology, b: ClassId)
  {
    EqualsIgnoreCase(o1.labelOf(a).lexical, o2.labelOf(b).lexical)
  }

  /** `getCS`: `{c1}` when `c1` is a root of `o1`, else `{c2}` when `c2` is a
      root of `o2`; otherwise the superclasses of `c2` whose label equals,
      ignoring case, the label of some superclass of `c1` other than
      `Thing`. */
  function GetCS(o1: Ontology, o2: Ontology, c1: ClassId, c2: ClassId): (cs: set<ClassId>)
    requires WellFormed(o1) && Acyclic(o1) && WellFormed(o2) && Acyclic(o2)
    ensures c1 in RootClasses(o1) ==> cs == {c1}
    ensures c1 !in RootClasses(o1) && c2 in RootClasses(o2) ==> cs == {c2}
    ensures c1 !in RootClasses(o1) && c2 !in RootClasses(o2) ==>
      forall c :: c in cs <==>
        c in Ancestors(o2, c2)
        && exists a :: a in Ancestors(o1, c1) && a != Thing && LabelsMatch(o1, a, o2, c)
  {
    if c1 in RootClasses(o1) then {c1}
    else if c2 in RootClasses(o2) then {c2}
    else
      SuperClassesAreAncestors(o1, c1);
      SuperClassesAreAncestors(o2, c2);
      var supers1 := SuperClasses(o1, c1);
      set cj | cj in SuperClasses(o2, c2)
        && exists ci :: ci in supers1 && ci != Thing && LabelsMatch(o1, ci, o2, cj)
  }

  /** A common subsumer is a superclass of `c2` in `o2`, and, outside the
      root short-circuits, its label matches that of a superclass of `c1` in
      `o1`: with labels naming classes, it sits above both classes. */
  lemma CommonSubsumerIsAbove(o1: Ontology, o2: Ontology, c1: ClassId, c2: ClassId, c: ClassId)
    requires WellFormed(o1) && Acyclic(o1) && WellFormed(o2) && Acyclic(o2)
    requires c1 !in RootClasses(o1) && c2 !in RootClasses(o2) && c in GetCS(o1, o2, c1, c2)
    requires forall a, b :: a in o1.classes && b in o2.classes && LabelsMatch(o1, a, o2, b) ==> a == b
    ensures Reaches(o1, c1, c) && Reaches(o2, c2, c)
  {
    var a :| a in Ancestors(o1, c1) && a != Thing && LabelsMatch(o1, a, o2, c);
  }

  /** The summed distance `c1 -> c` in `o1` plus `c2 -> c` in `o2`. */
  function PairSum(t1: PathTable, t2: PathTable, c1: ClassId, c2: ClassId, c: ClassId): nat
    requires (c1, c) in t1 && (c2, c) in t2
  {
    t1[(c1, c)].distance + t2[(c2, c)].distance
  }

  /** Both path-table lookups for the candidate `c` succeed. */
  predicate HasPaths(t1: PathTable, t2: PathTable, c1: ClassId, c2: ClassId, c: ClassId)
  {
    (c1, c) in t1 && (c2, c) in t2
  }

  /** `order` lists the candidates in iteration order, each once; `lcs` maps
      each summed distance met so far to the last candidate with that sum. */
  ghost predicate SumsOf(t1: PathTable, t2: PathTable, c1: ClassId, c2: ClassId,
                         order: seq<ClassId>, lcs: map<nat, ClassId>)
  {
    && (forall i :: 0 <= i < |order| ==> HasPaths(t1, t2, c1, c2, order[i]))
    && (forall s :: s in lcs <==> exists i :: 0 <= i < |order| && PairSum(t1, t2, c1, c2, order[i]) == s)
    && (forall s :: s in lcs ==>
          exists i :: 0 <= i < |order| && order[i] == lcs[s] && PairSum(t1, t2, c1, c2, order[i]) == s
            && forall k :: i < k < |order| ==> PairSum(t1, t2, c1, c2, order[k]) != s)
  }

  lemma SumsOfStep(t1: PathTable, t2: PathTable, c1: ClassId, c2: ClassId,
                   order: seq<ClassId>, lcs: map<nat, ClassId>, c: ClassId)
    requires SumsOf(t1, t2, c1, c2, order, lcs) && HasPaths(t1, t2, c1, c2, c)
    ensures SumsOf(t1, t2, c1, c2, order + [c], lcs[PairSum(t1, t2, c1, c2, c) := c])
  {
    var order', s' := order + [c], PairSum(t1, t2, c1, c2, c);
    var lcs' := lcs[s' := c];
    forall s | s in lcs'
      ensures exists i :: (0 <= i < |order'| && order'[i] == lcs'[s] && PairSum(t1, t2, c1, c2, order'[i]) == s
                           && forall k :: i < k < |order'| ==> PairSum(t1, t2, c1, c2, order'[k]) != s)
    {
      if s == s' {
        assert order'[|order|] == c;
      } else {
        var i :| 0 <= i < |order| && order[i] == lcs[s] && PairSum(t1, t2, c1, c2, order[i]) == s
          && forall k :: i < k < |order| ==> PairSum(t1, t2, c1, c2, order[k]) != s;
        assert order'[i] == order[i];
        assert forall k :: i < k < |order'| ==> PairSum(t1, t2, c1, c2, order'[k]) != s by {
          forall k | i < k < |order'|
            ensures PairSum(t1, t2, c1, c2, order'[k]) != s
          {
            if k < |order| {
              assert order'[k] == order[k];
            }
          }
        }
      }
    }
    forall s
      ensures s in lcs' <==> exists i :: 0 <= i < |order'| && PairSum(t1, t2, c1, c2, order'[i]) == s
    {
      if s in lcs && s != s' {
        var i :| 0 <= i < |order| && PairSum(t1, t2, c1, c2, order[i]) == s;
        assert order'[i] == order[i];
      }
      if s != s' && exists i :: 0 <= i < |order'| && PairSum(t1, t2, c1, c2, order'[i]) == s {
        var i :| 0 <= i < |order'| && PairSum(t1, t2, c1, c2, order'[i]) == s;
        assert i < |order| && order'[i] == order[i];
      }
    }
  }

  /** The least of the summed distances: Java's scan with `-1` as "none
      yet". */
  method MinKey(keys: set<nat>) returns (m: int)
    ensures m == -1 <==> keys == {}
    ensures m != -1 ==> m in keys && forall k :: k in keys ==> m <= k
  {
    m := -1;
    var rest := keys;
    while rest != {}
      invariant rest <= keys
      invariant m == -1 <==> rest == keys
      invariant m != -1 ==> m in keys && forall k :: k in keys - rest ==> m <= k
      decreases rest
    {
      var d :| d in rest;
      assert keys - (rest - {d}) == (keys - rest) + {d};
      if m < 0 || m > d {
        m := d;
      }
      rest := rest - {d};
    }
    assert keys - rest == keys;
  }

  /** `order` lists every candidate of `cs` exactly once. */
  ghost predicate Enumerates(order: seq<ClassId>, cs: set<ClassId>)
  {
    && (forall c :: c in order <==> c in cs)
    && (forall i, j :: 0 <= i < j < |order| ==> order[i] != order[j])
  }

  /** `l` is a candidate of `cs`, every candidate has both paths, and none has
      a smaller summed distance than `l`. */
  ghost predicate LeastOf(t1: PathTable, t2: PathTable, c1: ClassId, c2: ClassId, cs: set<ClassId>, l: ClassId)
  {
    && l in cs
    && (forall c :: c in cs ==> HasPaths(t1, t2, c1, c2, c))
    && (forall c :: c in cs ==> PairSum(t1, t2, c1, c2, l) <= PairSum(t1, t2, c1, c2, c))
  }

  /** No candidate that `order` lists after `l` has the summed distance of
      `l`: `l` is the last candidate of its sum put in the map. */
  ghost predicate LastWithSum(t1: PathTable, t2: PathTable, c1: ClassId, c2: ClassId, order: seq<ClassId>, l: ClassId)
  {
    && HasPaths(t1, t2, c1, c2, l)
    && exists i :: 0 <= i < |order| && order[i] == l
         && forall k :: i < k < |order| && HasPaths(t1, t2, c1, c2, order[k]) ==>
              PairSum(t1, t2, c1, c2, order[k]) != PairSum(t1, t2, c1, c2, l)
  }

  /** Appending an element not yet listed keeps a list free of repeats. */
  lemma AppendFresh(order: seq<ClassId>, c: ClassId)
    requires forall i, j :: 0 <= i < j < |order| ==> order[i] != order[j]
    requires c !in order
    ensures forall i, j :: 0 <= i < j < |order + [c]| ==> (order + [c])[i] != (order + [c])[j]
  {
  }

  /** The loop of `getLCS` over the common subsumers `cs`: the candidate with
      the least summed distance, the last one met on a tie, or `None` when
      there is no candidate. A candidate without a path from `c1` or `c2`
      makes the lookup fail. `order` is the order the candidates were met. */
  method LeastBySum(cs: set<ClassId>, c1: ClassId, c2: ClassId, t1: PathTable, t2: PathTable)
    returns (r: Result<Option<ClassId>, Error>, ghost order: seq<ClassId>)
    ensures r.Failure? <==> exists c :: c in cs && !HasPaths(t1, t2, c1, c2, c)
    ensures r.Failure? ==> r.error == MissingPath(c1)
    ensures r.Success? ==> Enumerates(order, cs) && (r.value.None? <==> cs == {})
    ensures r.Success? && r.value.Some? ==>
      LeastOf(t1, t2, c1, c2, cs, r.value.value) && LastWithSum(t1, t2, c1, c2, order, r.value.value)
  {
    var lcs: map<nat, ClassId> := map[];
    var rest := cs;
    order := [];
    while rest != {}
      invariant rest <= cs
      invariant forall c :: c in order <==> c in cs - rest
      invariant forall i, j :: 0 <= i < j < |order| ==> order[i] != order[j]
      invariant SumsOf(t1, t2, c1, c2, order, lcs)
      decreases rest
    {
      var c :| c in rest;
      if !HasPaths(t1, t2, c1, c2, c) {
        return Failure(MissingPath(c1)), order;
      }
      SumsOfStep(t1, t2, c1, c2, order, lcs, c);
      lcs := lcs[PairSum(t1, t2, c1, c2, c) := c];
      AppendFresh(order, c);
      order := order + [c];
      rest := rest - {c};
    }
    forall c | c in cs
      ensures HasPaths(t1, t2, c1, c2, c) && PairSum(t1, t2, c1, c2, c) in lcs
    {
      assert c in order;
      var i :| 0 <= i < |order| && order[i] == c;
    }
    var m := MinKey(lcs.Keys);
    if m in lcs {
      var best := lcs[m];
      LeastIsMinimal(t1, t2, c1, c2, cs, order, lcs, m);
      r := Success(Some(best));
    } else {
      r := Success(None);
    }
  }

  lemma LeastIsMinimal(t1: PathTable, t2: PathTable, c1: ClassId, c2: ClassId, cs: set<ClassId>,
                       order: seq<ClassId>, lcs: map<nat, ClassId>, m: nat)
    requires SumsOf(t1, t2, c1, c2, order, lcs)
    requires forall c :: c in order <==> c in cs
    requires m in lcs && forall k :: k in lcs ==> m <= k
    ensures LeastOf(t1, t2, c1, c2, cs, lcs[m]) && PairSum(t1, t2, c1, c2, lcs[m]) == m
    ensures LastWithSum(t1, t2, c1, c2, order, lcs[m])
  {
    forall c | c in cs
      ensures HasPaths(t1, t2, c1, c2, c) && m <= PairSum(t1, t2, c1, c2, c)
    {
      var i :| 0 <= i < |order| && order[i] == c;
      assert PairSum(t1, t2, c1, c2, order[i]) in lcs;
    }
    var i :| 0 <= i < |order| && order[i] == lcs[m] && PairSum(t1, t2, c1, c2, order[i]) == m
      && forall k :: i < k < |order| ==> PairSum(t1, t2, c1, c2, order[k]) != m;
    assert order[i] in order;
  }

  /** The failure of `getAllDistances`, as an error of this module: `Thing`
      stands for `setEdges` failing, any other class for a search from a
      class with `Thing` among its superclasses. */
  function TableError(c: ClassId): (e: Error)
    ensures e.ThingIsSubclass? <==> c == Thing
    ensures e.ThingIsSuperclass? ==> e.source == c
  {
    if c == Thing then ThingIsSubclass else ThingIsSuperclass(c)
  }

  /** The two path tables of a pair of ontologies, or the failure of the first
      one that cannot be built. */
  method BothTables(o1: Ontology, o2: Ontology) returns (r: Result<(PathTable, PathTable), Error>)
    requires WellFormed(o1) && Acyclic(o1) && WellFormed(o2) && Acyclic(o2)
    ensures r.Success? <==> TableBuilds(o1) && TableBuilds(o2)
    ensures r.Success? ==> TableFor(o1, o1.classes, r.value.0) && TableFor(o2, o2.classes, r.value.1)
    ensures r.Failure? ==> r.error.ThingIsSubclass? || r.error.ThingIsSuperclass?
  {
    var p1 := GetAllDistances(o1);
    if p1.Failure? {
      return Failure(TableError(p1.error));
    }
    var p2 := GetAllDistances(o2);
    if p2.Failure? {
      return Failure(TableError(p2.error));
    }
    return Success((p1.value, p2.value));
  }

  /** What `getLCS` answers for `c1` and `c2`, given the path tables `t1`
      and `t2` it consulted and the order `order` in which it met the common
      subsumers: `c1` when it is a root of `o1`, else `c2` when it is a root
      of `o2`; otherwise a failure when a path table cannot be built, and
      with both tables built a failure exactly when some common subsumer
      lacks a path; otherwise `None` exactly when there is no common
      subsumer, and else a common subsumer of least summed distance, the last
      of that sum in `order`. */
  ghost predicate LcsOutcome(o1: Ontology, o2: Ontology, c1: ClassId, c2: ClassId,
                             t1: PathTable, t2: PathTable, order: seq<ClassId>, r: Result<Option<ClassId>, Error>)
    requires WellFormed(o1) && Acyclic(o1) && WellFormed(o2) && Acyclic(o2)
  {
    if c1 in RootClasses(o1) then r == Success(Some(c1))
    else if c2 in RootClasses(o2) then r == Success(Some(c2))
    else if !(TableBuilds(o1) && TableBuilds(o2)) then r.Failure? && (r.error.ThingIsSubclass? || r.error.ThingIsSuperclass?)
    else
      var cs := GetCS(o1, o2, c1, c2);
      && TableFor(o1, o1.classes, t1) && TableFor(o2, o2.classes, t2)
      && (r.Failure? <==> exists c :: c in cs && !HasPaths(t1, t2, c1, c2, c))
      && (r.Failure? ==> r.error == MissingPath(c1))
      && (r.Success? ==> Enumerates(order, cs) && (r.value.None? <==> cs == {}))
      && (r.Success? && r.value.Some? ==>
            LeastOf(t1, t2, c1, c2, cs, r.value.value) && LastWithSum(t1, t2, c1, c2, order, r.value.value))
  }

  /** With both tables built, the lookup of the path from `c2` to a common
      subsumer always succeeds; the one from `c1` succeeds exactly when the
      subsumer is, by name, a superclass of `c1` in `o1`. So `getLCS` fails
      exactly when a label match lands on a class of `o2` that is not an
      ancestor of `c1` in `o1`. */
  lemma MissingPathIsForeignSubsumer(o1: Ontology, o2: Ontology, c1: ClassId, c2: ClassId,
                                     t1: PathTable, t2: PathTable, c: ClassId)
    requires WellFormed(o1) && Acyclic(o1) && WellFormed(o2) && Acyclic(o2)
    requires TableBuilds(o2)
    requires TableFor(o1, o1.classes, t1) && TableFor(o2, o2.classes, t2)
    requires c1 !in RootClasses(o1) && c2 !in RootClasses(o2) && c in GetCS(o1, o2, c1, c2)
    ensures (c2, c) in t2
    ensures HasPaths(t1, t2, c1, c2, c) <==> c1 in o1.classes && c1 != Thing && c in Ancestors(o1, c1)
  {
    SuperClassesAreAncestors(o1, c1);
    SuperClassesAreAncestors(o2, c2);
    ReachesFirstStep(o2, c2, c);
    var s :| DirectSuper(o2, c2, s) && (s == c || Reaches(o2, s, c));
    assert SubClassOf(c2, Some(s)) in o2.axioms;
  }

  /** `getLCS`: `c1` when it is a root of `o1`, else `c2` when it is a root of
      `o2`; otherwise the common subsumer of least summed distance from `c1`
      and `c2`, the later candidate on a tie, and `None` (a null class) when
      there is no common subsumer. `t1` and `t2` are the path tables it
      consulted, `order` the order it met the common subsumers in. */
  method GetLCS(o1: Ontology, o2: Ontology, c1: ClassId, c2: ClassId)
    returns (r: Result<Option<ClassId>, Error>, ghost t1: PathTable, ghost t2: PathTable, ghost order: seq<ClassId>)
    requires WellFormed(o1) && Acyclic(o1) && WellFormed(o2) && Acyclic(o2)
    ensures c1 in RootClasses(o1) ==> r == Success(Some(c1))
    ensures c1 !in RootClasses(o1) && c2 in RootClasses(o2) ==> r == Success(Some(c2))
    ensures c1 !in RootClasses(o1) && c2 !in RootClasses(o2) ==>
      && (r.Success? && r.value.Some? ==> r.value.value in GetCS(o1, o2, c1, c2))
      && (r == Success(None) <==> TableBuilds(o1) && TableBuilds(o2) && GetCS(o1, o2, c1, c2) == {})
    ensures LcsOutcome(o1, o2, c1, c2, t1, t2, order, r)
  {
    t1, t2, order := map[], map[], [];
    if c1 in RootClasses(o1) {
      return Success(Some(c1)), t1, t2, order;
    }
    if c2 in RootClasses(o2) {
      return Success(Some(c2)), t1, t2, order;
    }
    var cs := GetCS(o1, o2, c1, c2);
    var tables := BothTables(o1, o2);
    if tables.Failure? {
      return Failure(tables.error), t1, t2, order;
    }
    var p1, p2 := tables.value.0, tables.value.1;
    t1, t2 := p1, p2;
    r, order := LeastBySum(cs, c1, c2, p1, p2);
  }

  /** The distances from `lcs` to the roots `roots` in one path table: `1`
      for `lcs` itself when it is one of the roots, else the recorded
      distance to every root; a missing entry makes the lookup fail. */
  function RootDistancesIn(t: PathTable, lcs: ClassId, roots: set<ClassId>): (r: Result<map<ClassId, nat>, Error>)
    ensures lcs in roots ==> r == Success(map[lcs := 1])
    ensures lcs !in roots ==> (r.Failure? <==> exists root :: root in roots && (lcs, root) !in t)
    ensures r.Failure? ==> r.error == MissingPath(lcs)
    ensures lcs !in roots && r.Success? ==>
      r.value.Keys == roots && forall root :: root in roots ==> r.value[root] == t[(lcs, root)].distance
  {
    if lcs in roots then Success(map[lcs := 1])
    else if exists root :: root in roots && (lcs, root) !in t then Failure(MissingPath(lcs))
    else Success(map root | root in roots :: t[(lcs, root)].distance)
  }

  /** `v` is the least value of `m`. */
  ghost predicate IsMinOf(v: nat, m: map<ClassId, nat>)
  {
    v in m.Values && forall k :: k in m ==> v <= m[k]
  }

  /** `Collections.min` of the values of `m`, failing on an empty map. */
  method MinValue(m: map<ClassId, nat>) returns (r: Result<nat, Error>)
    ensures r.Failure? <==> m == map[]
    ensures r.Failure? ==> r.error == NoRoots
    ensures r.Success? ==> IsMinOf(r.value, m)
  {
    if m == map[] {
      return Failure(NoRoots);
    }
    var k0 :| k0 in m;
    var best := m[k0];
    var rest := m.Keys - {k0};
    while rest != {}
      invariant rest <= m.Keys
      invariant best in m.Values
      invariant forall k :: k in m && k !in rest ==> best <= m[k]
      decreases rest
    {
      var k :| k in rest;
      if m[k] < best {
        best := m[k];
      }
      rest := rest - {k};
    }
    return Success(best);
  }

  /** Every distance in a valid table is at least 1, so every root distance
      is. */
  lemma RootDistancesPositive(o: Ontology, t: PathTable, lcs: ClassId, roots: set<ClassId>)
    requires WellFormed(o) && Acyclic(o) && TableFor(o, o.classes, t)
    requires RootDistancesIn(t, lcs, roots).Success?
    ensures forall k :: k in RootDistancesIn(t, lcs, roots).value ==> RootDistancesIn(t, lcs, roots).value[k] >= 1
  {
    var m := RootDistancesIn(t, lcs, roots).value;
    forall k | k in m
      ensures m[k] >= 1
    {
      if lcs !in roots {
        EntryDistancePositive(o, lcs, k, t[(lcs, k)]);
      }
    }
  }

  /** The map `distance` fills for the LCS `lcs`: the entries for the roots
      of `o1` first, then those for the roots of `o2`, which replace entries
      of the same class; the first lookup that fails ends it. */
  ghost function MergedRootDistances(o1: Ontology, o2: Ontology, t1: PathTable, t2: PathTable, lcs: ClassId)
    : Result<map<ClassId, nat>, Error>
    requires WellFormed(o1) && Acyclic(o1) && WellFormed(o2) && Acyclic(o2)
  {
    var m1 := RootDistancesIn(t1, lcs, RootClasses(o1));
    var m2 := RootDistancesIn(t2, lcs, RootClasses(o2));
    if m1.Failure? then m1
    else if m2.Failure? then m2
    else Success(m1.value + m2.value)
  }

  /** What `distance` answers once it holds the LCS `lcs` and the tables
      `t1` and `t2`: the least value of the merged root-distance map; the
      failure of a lookup, or `NoRoots` for an empty map. */
  ghost predicate RootDistanceOutcome(o1: Ontology, o2: Ontology, lcs: ClassId, t1: PathTable, t2: PathTable,
                                      r: Result<nat, Error>)
    requires WellFormed(o1) && Acyclic(o1) && WellFormed(o2) && Acyclic(o2)
  {
    var m := MergedRootDistances(o1, o2, t1, t2, lcs);
    && (r.Failure? <==> m.Failure? || m.value == map[])
    && (r.Failure? ==> r.error == if m.Failure? then m.error else NoRoots)
    && (r.Success? ==> IsMinOf(r.value, m.value))
  }

  /** The second half of `distance`, once the LCS `lcs` is known: the least
      of its distances to the roots of `o1` and `o2`. The result is at least
      1, and exactly 1 when `lcs` is itself a root of either ontology. */
  method RootDistance(o1: Ontology, o2: Ontology, lcs: ClassId, t1: PathTable, t2: PathTable)
    returns (r: Result<nat, Error>)
    requires WellFormed(o1) && Acyclic(o1) && WellFormed(o2) && Acyclic(o2)
    requires TableFor(o1, o1.classes, t1) && TableFor(o2, o2.classes, t2)
    ensures RootDistanceOutcome(o1, o2, lcs, t1, t2, r)
    ensures r.Success? ==> r.value >= 1
    ensures r.Success? && (lcs in RootClasses(o1) || lcs in RootClasses(o2)) ==> r.value == 1
  {
    var roots1, roots2 := RootClasses(o1), RootClasses(o2);
    var m1 := RootDistancesIn(t1, lcs, roots1);
    if m1.Failure? {
      return Failure(m1.error);
    }
    var m2 := RootDistancesIn(t2, lcs, roots2);
    if m2.Failure? {
      return Failure(m2.error);
    }
    RootDistancesPositive(o1, t1, lcs, roots1);
    RootDistancesPositive(o2, t2, lcs, roots2);
    var all := m1.value + m2.value;
    MergePositive(m1.value, m2.value);
    r := MinValue(all);
    if r.Success? && (lcs in roots1 || lcs in roots2) {
      assert lcs in all && all[lcs] == 1;
    }
  }

  /** Merging two maps of positive distances gives positive distances. */
  lemma MergePositive(m1: map<ClassId, nat>, m2: map<ClassId, nat>)
    requires forall k :: k in m1 ==> m1[k] >= 1
    requires forall k :: k in m2 ==> m2[k] >= 1
    ensures forall v :: v in (m1 + m2).Values ==> v >= 1
  {
    forall v | v in (m1 + m2).Values
      ensures v >= 1
    {
      var k :| k in m1 + m2 && (m1 + m2)[k] == v;
      if k in m2 {
        assert v == m2[k];
      } else {
        assert v == m1[k];
      }
    }
  }

  /** `distance`: `1` when the labels of `c1` and `c2` match ignoring case.
      Otherwise `found` is what `getLCS` answered: its failure is passed on,
      a null LCS fails, and for an LCS `lcs` the tables `t1` and `t2` are
      built again (which may fail) and the result is the least distance from
      `lcs` to a root of either ontology. */
  method Distance(o1: Ontology, o2: Ontology, c1: ClassId, c2: ClassId)
    returns (r: Result<nat, Error>, ghost found: Result<Option<ClassId>, Error>, ghost t1: PathTable, ghost t2: PathTable)
    requires WellFormed(o1) && Acyclic(o1) && WellFormed(o2) && Acyclic(o2)
    ensures LabelsMatch(o1, c1, o2, c2) ==> r == Success(1)
    ensures r.Success? ==> r.value >= 1
    ensures !LabelsMatch(o1, c1, o2, c2) ==>
      && (exists lt1, lt2, order :: LcsOutcome(o1, o2, c1, c2, lt1, lt2, order, found))
      && (found.Failure? ==> r == Failure(found.error))
      && (found == Success(None) ==> r == Failure(NoCommonSubsumer))
    ensures !LabelsMatch(o1, c1, o2, c2) && found.Success? && found.value.Some? ==>
      if TableBuilds(o1) && TableBuilds(o2) then
        && TableFor(o1, o1.classes, t1) && TableFor(o2, o2.classes, t2)
        && RootDistanceOutcome(o1, o2, found.value.value, t1, t2, r)
      else r.Failure? && (r.error.ThingIsSubclass? || r.error.ThingIsSuperclass?)
  {
    found, t1, t2 := Success(None), map[], map[];
    if LabelsMatch(o1, c1, o2, c2) {
      return Success(1), found, t1, t2;
    }
    var lcs;
    ghost var lt1, lt2, order;
    lcs, lt1, lt2, order := GetLCS(o1, o2, c1, c2);
    found := lcs;
    if lcs.Failure? {
      return Failure(lcs.error), found, t1, t2;
    }
    if lcs.value.None? {
      return Failure(NoCommonSubsumer), found, t1, t2;
    }
    var least := lcs.value.value;
    var tables := BothTables(o1, o2);
    if tables.Failure? {
      return Failure(tables.error), found, t1, t2;
    }
    var p1, p2 := tables.value.0, tables.value.1;
    t1, t2 := p1, p2;
    r := RootDistance(o1, o2, least, p1, p2);
  }
}
