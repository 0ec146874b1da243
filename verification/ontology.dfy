/** The input the engine consumes: the named classes of an ontology, its
    SubClassOf axioms in one fixed iteration order, and a label literal for
    every class.
    A class is identified by the fragment of its IRI. */
module Ontology {
  import opened Wrappers

  type ClassId = string

  /** `owl:Thing`, by its IRI fragment. It never gets a graph vertex. */
  const Thing: ClassId := "Thing"

  /** A SubClassOf axiom whose subclass is a named class. `sup` is `None` when
      the superclass is a class expression rather than a named class. */
  datatype Axiom = SubClassOf(sub: ClassId, sup: Option<ClassId>)

  /** An `OWLLiteral`: its lexical form, its language tag (empty when it has
      none) and the IRI of its datatype. Two literals are `equals` exactly
      when all three agree; `getLiteral` is the lexical form alone. */
  datatype Literal = Literal(lexical: string, lang: string, datatypeIri: string)

  /** `classes` is the classes-in-signature set (it may hold `Thing`);
      `axioms` lists every SubClassOf axiom with a named subclass, once
      each, in the one order the model fixes for every loop over them; `labelOf` is the label literal of each
      class. */
  datatype Ontology = Ontology(classes: set<ClassId>, axioms: seq<Axiom>, labelOf: ClassId -> Literal)

  /** Every axiom mentions classes of the signature, and no axiom is listed
      twice: the axioms of an OWL ontology form a set. */
  ghost predicate WellFormed(o: Ontology)
  {
    && (forall a :: a in o.axioms ==> a.sub in o.classes && (a.sup.Some? ==> a.sup.value in o.classes))
    && (forall i, j :: 0 <= i < j < |o.axioms| ==> o.axioms[i] != o.axioms[j])
  }

  /** No axiom states a named superclass of `Thing`: the condition under
      which `setEdges` never looks up `Thing`'s missing vertex as the start
      of an edge. */
  predicate ThingHasNoNamedSuper(o: Ontology)
  {
    forall a :: a in o.axioms && a.sup.Some? ==> a.sub != Thing
  }

  /** `s` is a direct named superclass of `c`. */
  predicate DirectSuper(o: Ontology, c: ClassId, s: ClassId)
  {
    SubClassOf(c, Some(s)) in o.axioms
  }

  /** The SubClassOf axioms of `axs` whose subclass is `c`, in order. */
  function AxiomsFor(axs: seq<Axiom>, c: ClassId): (r: seq<Axiom>)
    ensures forall a :: a in r <==> a in axs && a.sub == c
    ensures |r| <= |axs|
  {
    if |axs| == 0 then []
    else
      var last := axs[|axs| - 1];
      AxiomsFor(axs[..|axs| - 1], c) + (if last.sub == c then [last] else [])
  }

  /** The named superclasses of `c` in the axioms `axs`, in order. */
  function NamedSupersIn(axs: seq<Axiom>, c: ClassId): (r: seq<ClassId>)
    ensures forall s :: s in r <==> SubClassOf(c, Some(s)) in axs
  {
    if |axs| == 0 then []
    else
      var last := axs[|axs| - 1];
      NamedSupersIn(axs[..|axs| - 1], c) + (if last.sub == c && last.sup.Some? then [last.sup.value] else [])
  }

  /** The named superclasses of `c`, in the order their axioms are iterated. */
  function NamedSupers(o: Ontology, c: ClassId): (r: seq<ClassId>)
    ensures forall s :: s in r <==> DirectSuper(o, c, s)
  {
    NamedSupersIn(o.axioms, c)
  }

  /** The number of SubClassOf axioms of `c`, anonymous superclasses included. */
  function ParentCount(o: Ontology, c: ClassId): nat
  {
    |AxiomsFor(o.axioms, c)|
  }

  /** Every direct named superclass relation counts towards the parent count. */
  lemma ParentCountPositive(o: Ontology, c: ClassId, s: ClassId)
    requires DirectSuper(o, c, s)
    ensures ParentCount(o, c) >= 1
  {
    assert SubClassOf(c, Some(s)) in AxiomsFor(o.axioms, c);
  }

  /** `p` walks from class to direct named superclass at every step. */
  ghost predicate IsChain(o: Ontology, p: seq<ClassId>)
  {
    forall i :: 0 <= i < |p| - 1 ==> DirectSuper(o, p[i], p[i + 1])
  }

  /** `d` is reached from `c` by one or more named-superclass steps. */
  ghost predicate Reaches(o: Ontology, c: ClassId, d: ClassId)
  {
    exists p :: IsChain(o, p) && |p| >= 2 && p[0] == c && p[|p| - 1] == d
  }

  /** The reference definition of the ancestors of `c`. */
  ghost function Ancestors(o: Ontology, c: ClassId): set<ClassId>
  {
    set d | d in o.classes && Reaches(o, c, d)
  }

  /** No class is its own ancestor. */
  ghost predicate Acyclic(o: Ontology)
  {
    forall c :: !Reaches(o, c, c)
  }

  lemma DirectSuperReaches(o: Ontology, c: ClassId, s: ClassId)
    requires DirectSuper(o, c, s)
    ensures Reaches(o, c, s)
  {
    var p := [c, s];
    assert IsChain(o, p);
  }

  lemma ReachesPrepend(o: Ontology, c: ClassId, s: ClassId, d: ClassId)
    requires DirectSuper(o, c, s) && Reaches(o, s, d)
    ensures Reaches(o, c, d)
  {
    var p :| IsChain(o, p) && |p| >= 2 && p[0] == s && p[|p| - 1] == d;
    var q := [c] + p;
    assert forall i :: 1 <= i < |q| ==> q[i] == p[i - 1];
    assert IsChain(o, q);
  }

  lemma ReachesTransitive(o: Ontology, a: ClassId, b: ClassId, c: ClassId)
    requires Reaches(o, a, b) && Reaches(o, b, c)
    ensures Reaches(o, a, c)
  {
    var p :| IsChain(o, p) && |p| >= 2 && p[0] == a && p[|p| - 1] == b;
    var q :| IsChain(o, q) && |q| >= 2 && q[0] == b && q[|q| - 1] == c;
    var r := p + q[1..];
    assert forall i :: |p| <= i < |r| ==> r[i] == q[i - |p| + 1];
    assert IsChain(o, r);
  }

  /** A chain of length at least two starts with a direct named superclass
      step: the first step of every reachability witness. */
  lemma ReachesFirstStep(o: Ontology, c: ClassId, d: ClassId)
    requires Reaches(o, c, d)
    ensures exists s :: DirectSuper(o, c, s) && (s == d || Reaches(o, s, d))
  {
    var p :| IsChain(o, p) && |p| >= 2 && p[0] == c && p[|p| - 1] == d;
    assert DirectSuper(o, c, p[1]);
    if |p| > 2 {
      var q := p[1..];
      assert IsChain(o, q);
      assert Reaches(o, p[1], d);
    }
  }

  /** Every class reached from a class of a well-formed ontology is in its
      signature. */
  lemma ReachedIsClass(o: Ontology, c: ClassId, d: ClassId)
    requires WellFormed(o) && Reaches(o, c, d)
    ensures d in o.classes && d in Ancestors(o, c)
  {
    var p :| IsChain(o, p) && |p| >= 2 && p[0] == c && p[|p| - 1] == d;
    assert DirectSuper(o, p[|p| - 2], p[|p| - 1]);
  }

  /** Without a named superclass of `Thing`, nothing is reached from it. */
  lemma ThingReachesNothing(o: Ontology, d: ClassId)
    requires ThingHasNoNamedSuper(o)
    ensures !Reaches(o, Thing, d)
  {
    if Reaches(o, Thing, d) {
      ReachesFirstStep(o, Thing, d);
    }
  }

  /** Moving to a direct named superclass strictly shrinks the ancestor set:
      the measure that makes the recursive hierarchy walks terminate. */
  lemma AncestorsShrink(o: Ontology, c: ClassId, s: ClassId)
    requires WellFormed(o) && Acyclic(o) && DirectSuper(o, c, s)
    ensures Ancestors(o, s) < Ancestors(o, c)
    ensures |Ancestors(o, s)| < |Ancestors(o, c)|
  {
    DirectSuperReaches(o, c, s);
    ReachedIsClass(o, c, s);
    forall d | d in Ancestors(o, s)
      ensures d in Ancestors(o, c)
    {
      ReachesPrepend(o, c, s, d);
    }
    assert s !in Ancestors(o, s);
    var big, small := Ancestors(o, c), Ancestors(o, s);
    assert big == small + (big - small);
    assert s in big - small;
  }

  /** Along a chain, a rank that every named-superclass step lowers falls by
      at least one per step from the first class to the last. */
  lemma {:induction false} ChainDescends(o: Ontology, rank: ClassId -> nat, p: seq<ClassId>)
    requires forall a :: a in o.axioms && a.sup.Some? ==> rank(a.sup.value) < rank(a.sub)
    requires IsChain(o, p) && |p| >= 2
    ensures rank(p[|p| - 1]) + (|p| - 1) <= rank(p[0])
    decreases |p|
  {
    assert SubClassOf(p[|p| - 2], Some(p[|p| - 1])) in o.axioms;
    if |p| > 2 {
      var front := p[..|p| - 1];
      assert IsChain(o, front) by {
        forall i | 0 <= i < |front| - 1
          ensures DirectSuper(o, front[i], front[i + 1])
        {
          assert front[i] == p[i] && front[i + 1] == p[i + 1];
        }
      }
      ChainDescends(o, rank, front);
    }
  }

  /** An ontology whose axioms all go from a higher to a lower rank is
      acyclic. */
  lemma RankedIsAcyclic(o: Ontology, rank: ClassId -> nat)
    requires forall a :: a in o.axioms && a.sup.Some? ==> rank(a.sup.value) < rank(a.sub)
    ensures Acyclic(o)
  {
    forall c
      ensures !Reaches(o, c, c)
    {
      if Reaches(o, c, c) {
        var p :| IsChain(o, p) && |p| >= 2 && p[0] == c && p[|p| - 1] == c;
        ChainDescends(o, rank, p);
      }
    }
  }

  /** Without an axiom naming `Thing` as a superclass, `Thing` is nobody's
      ancestor. */
  lemma ThingNotReached(o: Ontology, c: ClassId)
    requires forall a :: a in o.axioms ==> a.sup != Some(Thing)
    ensures !Reaches(o, c, Thing)
  {
    forall p | IsChain(o, p) && |p| >= 2 && p[0] == c
      ensures p[|p| - 1] != Thing
    {
      assert DirectSuper(o, p[|p| - 2], p[|p| - 1]);
    }
  }
}
