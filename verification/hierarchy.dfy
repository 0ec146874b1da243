/** The hierarchy queries of App.java: ancestors by recursion over the named
    superclasses (`getSuperClasses`) and the single-chain root walk
    (`recRootClasses`, `getRootClasses`). */
module Hierarchy {
  import opened Wrappers
  import opened Ontology

  /** `getSuperClasses`: for every axiom of `c` with a named superclass `s`,
      add the superclasses of `s` and `s` itself. */
  function SuperClasses(o: Ontology, c: ClassId): (r: set<ClassId>)
    requires WellFormed(o) && Acyclic(o)
    ensures forall s :: DirectSuper(o, c, s) ==> s in r
    ensures r <= o.classes
    decreases |Ancestors(o, c)|, 1
  {
    SupersVia(o, c, NamedSupers(o, c))
  }

  /** The part of the loop of `getSuperClasses` that visits the named
      superclasses `ss` of `c`. */
  function SupersVia(o: Ontology, c: ClassId, ss: seq<ClassId>): (r: set<ClassId>)
    requires WellFormed(o) && Acyclic(o)
    requires forall s :: s in ss ==> DirectSuper(o, c, s)
    ensures forall s :: s in ss ==> s in r
    ensures r <= o.classes
    decreases |Ancestors(o, c)|, 0, |ss|
  {
    if |ss| == 0 then {}
    else
      AncestorsShrink(o, c, ss[0]);
      SuperClasses(o, ss[0]) + {ss[0]} + SupersVia(o, c, ss[1..])
  }

  lemma {:induction false} SupersViaMembers(o: Ontology, c: ClassId, ss: seq<ClassId>)
    requires WellFormed(o) && Acyclic(o)
    requires forall s :: s in ss ==> DirectSuper(o, c, s)
    ensures forall d :: d in SupersVia(o, c, ss) <==> exists s :: s in ss && (d == s || Reaches(o, s, d))
    decreases |Ancestors(o, c)|, 0, |ss|
  {
    if |ss| > 0 {
      var s0, tail := ss[0], ss[1..];
      AncestorsShrink(o, c, s0);
      SuperClassesAreAncestors(o, s0);
      SupersViaMembers(o, c, tail);
      assert SupersVia(o, c, ss) == SuperClasses(o, s0) + {s0} + SupersVia(o, c, tail);
      forall d
        ensures d in SupersVia(o, c, ss) <==> exists s :: s in ss && (d == s || Reaches(o, s, d))
      {
        if d in SuperClasses(o, s0) || d == s0 {
          assert s0 in ss;
        } else if d in SupersVia(o, c, tail) {
          var s :| s in tail && (d == s || Reaches(o, s, d));
          assert s in ss;
        }
        if exists s :: s in ss && (d == s || Reaches(o, s, d)) {
          var s :| s in ss && (d == s || Reaches(o, s, d));
          if s == s0 {
            if d != s0 {
              ReachedIsClass(o, s0, d);
            }
          } else {
            assert s in tail;
          }
        }
      }
    }
  }

  /** `getSuperClasses` computes exactly the ancestors: every class reached
      through one or more named-superclass steps. */
  lemma {:induction false} SuperClassesAreAncestors(o: Ontology, c: ClassId)
    requires WellFormed(o) && Acyclic(o)
    ensures SuperClasses(o, c) == Ancestors(o, c)
    decreases |Ancestors(o, c)|, 1
  {
    SupersViaMembers(o, c, NamedSupers(o, c));
    forall d | d in SuperClasses(o, c)
      ensures d in Ancestors(o, c)
    {
      assert d in SupersVia(o, c, NamedSupers(o, c));
      var s :| s in NamedSupers(o, c) && (d == s || Reaches(o, s, d));
      DirectSuperReaches(o, c, s);
      if d != s {
        ReachesTransitive(o, c, s, d);
      }
      ReachedIsClass(o, c, d);
    }
    forall d | d in Ancestors(o, c)
      ensures d in SuperClasses(o, c)
    {
      ReachesFirstStep(o, c, d);
    }
  }

  /** `getSuperClasses` holds every direct named superclass and is closed
      under taking direct named superclasses. */
  lemma SuperClassesClosed(o: Ontology, c: ClassId, d: ClassId, s: ClassId)
    requires WellFormed(o) && Acyclic(o)
    ensures DirectSuper(o, c, s) ==> s in SuperClasses(o, c)
    ensures d in SuperClasses(o, c) && DirectSuper(o, d, s) ==> s in SuperClasses(o, c)
    ensures c !in SuperClasses(o, c)
  {
    SuperClassesAreAncestors(o, c);
    if DirectSuper(o, c, s) {
      DirectSuperReaches(o, c, s);
      ReachedIsClass(o, c, s);
    }
    if d in SuperClasses(o, c) && DirectSuper(o, d, s) {
      DirectSuperReaches(o, d, s);
      ReachesTransitive(o, c, d, s);
      ReachedIsClass(o, c, s);
    }
  }

  /** `recRootClasses`: every axiom of `c` with a named superclass `s`
      overwrites `c` with the root of `s`, so the root reached through the
      last named superclass wins; a class without one is its own root. */
  function RecRoot(o: Ontology, c: ClassId): (r: ClassId)
    requires WellFormed(o) && Acyclic(o)
    ensures NamedSupers(o, r) == []
    ensures r == c <==> NamedSupers(o, c) == []
    ensures r != c ==> Reaches(o, c, r)
    ensures r != c ==> LastSuper(o, c) != c && (AncestorsShrink(o, c, LastSuper(o, c)); r == RecRoot(o, LastSuper(o, c)))
    decreases |Ancestors(o, c)|
  {
    var ss := NamedSupers(o, c);
    if |ss| == 0 then c
    else
      var s := ss[|ss| - 1];
      AncestorsShrink(o, c, s);
      DirectSuperReaches(o, c, s);
      var r := RecRoot(o, s);
      if r != s then ReachesTransitive(o, c, s, r); r else r
  }

  /** The named superclass `recRootClasses` follows from `c`: the one of the
      last axiom it iterates, or `c` itself when there is none. */
  function LastSuper(o: Ontology, c: ClassId): (s: ClassId)
    ensures s != c ==> DirectSuper(o, c, s)
    ensures NamedSupers(o, c) != [] ==> DirectSuper(o, c, s)
  {
    var ss := NamedSupers(o, c);
    if |ss| == 0 then c else ss[|ss| - 1]
  }

  /** `p` steps from each class to its last named superclass. */
  ghost predicate LastSuperWalk(o: Ontology, p: seq<ClassId>)
  {
    forall i :: 0 <= i < |p| - 1 ==> NamedSupers(o, p[i]) != [] && p[i + 1] == LastSuper(o, p[i])
  }

  /** A walk stays a walk when the class whose last named superclass it
      starts from is put in front. */
  lemma WalkPrepend(o: Ontology, c: ClassId, q: seq<ClassId>)
    requires NamedSupers(o, c) != [] && |q| >= 1 && q[0] == LastSuper(o, c) && LastSuperWalk(o, q)
    ensures LastSuperWalk(o, [c] + q) && ([c] + q)[|q|] == q[|q| - 1]
  {
    var p := [c] + q;
    forall i | 0 <= i < |p| - 1
      ensures NamedSupers(o, p[i]) != [] && p[i + 1] == LastSuper(o, p[i])
    {
      if i > 0 {
        assert p[i] == q[i - 1] && p[i + 1] == q[i];
      }
    }
  }

  /** The walk along last named superclasses from `c`, up to the first
      class without a named superclass. */
  lemma {:induction false} RootWalk(o: Ontology, c: ClassId) returns (p: seq<ClassId>)
    requires WellFormed(o) && Acyclic(o)
    ensures |p| >= 1 && p[0] == c && p[|p| - 1] == RecRoot(o, c)
    ensures LastSuperWalk(o, p) && NamedSupers(o, p[|p| - 1]) == []
    decreases |Ancestors(o, c)|
  {
    if NamedSupers(o, c) == [] {
      p := [c];
      assert LastSuperWalk(o, p);
    } else {
      var s := LastSuper(o, c);
      AncestorsShrink(o, c, s);
      var q := RootWalk(o, s);
      WalkPrepend(o, c, q);
      p := [c] + q;
    }
  }

  /** The root of `c` is where the walk along last named superclasses from
      `c` stops: the first class of the walk without a named superclass. */
  lemma RecRootIsEndOfWalk(o: Ontology, c: ClassId)
    requires WellFormed(o) && Acyclic(o)
    ensures exists p :: |p| >= 1 && p[0] == c && p[|p| - 1] == RecRoot(o, c)
                        && LastSuperWalk(o, p) && NamedSupers(o, p[|p| - 1]) == []
  {
    var p := RootWalk(o, c);
  }

  /** Walking from a root stays at the root. */
  lemma RecRootIdempotent(o: Ontology, c: ClassId)
    requires WellFormed(o) && Acyclic(o)
    ensures RecRoot(o, RecRoot(o, c)) == RecRoot(o, c)
  {
  }

  /** `getRootClasses`: the roots of all classes other than `Thing`. */
  function RootClasses(o: Ontology): (r: set<ClassId>)
    requires WellFormed(o) && Acyclic(o)
    ensures forall x :: x in r ==> NamedSupers(o, x) == []
    ensures forall c :: c in o.classes && c != Thing && NamedSupers(o, c) == [] ==> c in r
  {
    set c | c in o.classes && c != Thing :: RecRoot(o, c)
  }

  /** A class of the signature other than `Thing` is a root exactly when it
      has no named superclass; every root has none. */
  lemma RootClassesMembers(o: Ontology, c: ClassId)
    requires WellFormed(o) && Acyclic(o)
    ensures c in RootClasses(o) ==> NamedSupers(o, c) == []
    ensures c in o.classes && c != Thing ==> (c in RootClasses(o) <==> NamedSupers(o, c) == [])
  {
    if c in o.classes && c != Thing && NamedSupers(o, c) == [] {
      assert RecRoot(o, c) == c;
    }
  }
}
