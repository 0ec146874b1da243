/** Small fixed hierarchies worked through the model: the weights a class
    with two parents gets, the distance table of a three-level hierarchy, the
    failures an explicit `Thing` parent or a named superclass of `Thing`
    cause, and a search order in which the unconditional relaxation of
    `computeShortestPaths` leaves a distance above the lightest path. */
module Scenarios {
  import opened Wrappers
  import opened Ontology
  import opened Vertices
  import opened Dijkstra
  import opened GraphBuilder
  import opened Hierarchy
  import opened Paths
  import opened AllDistances
  import opened Subsumers
  import opened Counting

  /** The label `getLabelClass` makes from an IRI fragment: a plain
      `xsd:string` literal without a language tag. */
  function NameLabel(c: ClassId): Literal
  {
    Literal(c, "", "xsd:string")
  }

  /** Animal is the root; Mammal is below it; Dog and Cat are below Mammal.
      Every class is labelled with its own name. */
  function Zoo(): Ontology
  {
    Ontology({Thing, "Animal", "Mammal", "Dog", "Cat"},
             [SubClassOf("Mammal", Some("Animal")), SubClassOf("Dog", Some("Mammal")), SubClassOf("Cat", Some("Mammal"))],
             NameLabel)
  }

  /** The depth of a class of `Zoo`: every axiom goes one level up. */
  function ZooRank(c: ClassId): nat
  {
    if c == "Dog" || c == "Cat" then 2 else if c == "Mammal" then 1 else 0
  }

  lemma ZooIsWellFormed()
    ensures WellFormed(Zoo()) && Acyclic(Zoo()) && ThingHasNoNamedSuper(Zoo())
  {
    RankedIsAcyclic(Zoo(), ZooRank);
  }

  /** Dog and Mammal each have one parent. */
  lemma ZooParentCounts()
    ensures ParentCount(Zoo(), "Dog") == 1 && ParentCount(Zoo(), "Mammal") == 1
  {
    var axs := Zoo().axioms;
    assert axs[..2] == [axs[0], axs[1]] && axs[..2][..1] == [axs[0]] && axs[..2][..1][..0] == [];
    assert AxiomsFor(axs[..2][..1], "Dog") == [] && AxiomsFor(axs[..2], "Dog") == [axs[1]];
    assert AxiomsFor(axs[..2][..1], "Mammal") == [axs[0]] && AxiomsFor(axs[..2], "Mammal") == [axs[0]];
  }

  /** The only chain from Dog up to Animal goes through Mammal. */
  lemma ZooDogChain(p: seq<ClassId>)
    requires IsChain(Zoo(), p) && |p| >= 2 && p[0] == "Dog" && p[|p| - 1] == "Animal"
    ensures p == ["Dog", "Mammal", "Animal"]
  {
    var o := Zoo();
    assert DirectSuper(o, p[0], p[1]);
    assert p[1] == "Mammal";
    assert |p| >= 3;
    assert DirectSuper(o, p[1], p[2]);
    assert p[2] == "Animal";
    ChainDescends(o, ZooRank, p);
  }

  /** The recorded entry for Dog and Animal can only be that chain, at the
      weight of its two steps. */
  lemma ZooDogEntry(sp: ShortestPaths)
    requires ValidEntry(Zoo(), "Dog", "Animal", sp)
    ensures sp.path == ["Dog", "Mammal", "Animal"] && sp.distance == 2
  {
    var o, p := Zoo(), sp.path;
    ZooDogChain(p);
    ZooParentCounts();
    assert p[..2] == ["Dog", "Mammal"] && p[..2][..1] == ["Dog"];
    assert ChainWeight(o, p[..2]) == ParentCount(o, "Dog");
  }

  /** No class of `Zoo` has `Thing` among its superclasses. */
  lemma ZooHasNoThingSuper()
    ensures WellFormed(Zoo()) && Acyclic(Zoo())
    ensures forall c :: c in Zoo().classes && c != Thing ==> Thing !in SuperClasses(Zoo(), c)
  {
    var o := Zoo();
    ZooIsWellFormed();
    forall c | c in o.classes && c != Thing
      ensures Thing !in SuperClasses(o, c)
    {
      SuperClassesAreAncestors(o, c);
      ThingNotReached(o, c);
    }
  }

  /** The path table of `Zoo` can be built. */
  lemma ZooTableBuilds()
    ensures WellFormed(Zoo()) && Acyclic(Zoo()) && TableBuilds(Zoo())
  {
    ZooIsWellFormed();
    ZooHasNoThingSuper();
  }

  /** Animal is a superclass of Dog. */
  lemma ZooDogBelowAnimal()
    ensures WellFormed(Zoo()) && Acyclic(Zoo())
    ensures "Animal" in SuperClasses(Zoo(), "Dog")
  {
    var o := Zoo();
    ZooIsWellFormed();
    assert IsChain(o, ["Dog", "Mammal", "Animal"]);
    SuperClassesAreAncestors(o, "Dog");
  }

  /** `getAllDistances` on `Zoo` succeeds, and its entry for Dog and Animal is
      the path Dog, Mammal, Animal at distance 2. */
  method DogToAnimal() returns (path: seq<ClassId>, d: nat)
    ensures path == ["Dog", "Mammal", "Animal"] && d == 2
  {
    var o := Zoo();
    ZooTableBuilds();
    ZooDogBelowAnimal();
    var r := GetAllDistances(o);
    var entry := r.value[("Dog", "Animal")];
    ZooDogEntry(entry);
    path, d := entry.path, entry.distance;
  }

  /** X has the two parents P1 and P2. */
  function Twins(): Ontology
  {
    Ontology({Thing, "X", "P1", "P2"}, [SubClassOf("X", Some("P1")), SubClassOf("X", Some("P2"))], NameLabel)
  }

  /** `setEdges` on `Twins` gives X one edge per parent, each weighing 2. */
  method TwinEdges() returns (adj: seq<Edge>)
    ensures adj == [Edge(2, "X", Some("P1")), Edge(2, "X", Some("P2"))]
  {
    var o := Twins();
    var built := SetEdges(o);
    var g := built.value;
    assert "X" in g;
    var axs := o.axioms;
    assert axs[..1] == [axs[0]] && axs[..1][..0] == [];
    assert ParentCount(o, "X") == 2;
    assert EdgesIn(o, axs[..1], "X") == [Edge(2, "X", Some("P1"))];
    adj := g["X"].adj;
  }

  /** A stated its parent to be `Thing`. */
  function ThingParent(): Ontology
  {
    Ontology({Thing, "A"}, [SubClassOf("A", Some(Thing))], NameLabel)
  }

  /** `getAllDistances` on `ThingParent` fails at the source A, whose
      superclass `Thing` has no vertex. */
  method ThingParentFails() returns (r: Result<PathTable, ClassId>)
    ensures r == Failure("A")
  {
    var o := ThingParent();
    RankedIsAcyclic(o, c => if c == "A" then 1 else 0);
    SuperClassesClosed(o, "A", "A", Thing);
    r := GetAllDistances(o);
  }

  /** `Thing` is stated to be a subclass of A. */
  function ThingChild(): Ontology
  {
    Ontology({Thing, "A"}, [SubClassOf(Thing, Some("A"))], NameLabel)
  }

  /** `getAllDistances` on `ThingChild` fails in `setEdges`, which looks up
      the missing vertex of `Thing` to give it an edge. */
  method ThingChildFails() returns (r: Result<PathTable, ClassId>)
    ensures r == Failure(Thing)
  {
    var o := ThingChild();
    RankedIsAcyclic(o, c => if c == Thing then 1 else 0);
    assert !ThingHasNoNamedSuper(o) by {
      assert SubClassOf(Thing, Some("A")) in o.axioms;
    }
    r := GetAllDistances(o);
  }

  /** In `Twins`, X's axioms name P1 and then P2, so the root walk from X
      follows P2. */
  lemma TwinsRootIsLastParent()
    ensures WellFormed(Twins()) && Acyclic(Twins())
    ensures RecRoot(Twins(), "X") == "P2"
  {
    var o := Twins();
    RankedIsAcyclic(o, c => if c == "X" then 1 else 0);
    var axs := o.axioms;
    assert axs[..1] == [axs[0]] && axs[..1][..0] == [];
    assert NamedSupersIn(axs[..1], "X") == ["P1"] && NamedSupersIn(axs[..1], "P2") == [];
    assert NamedSupers(o, "X") == ["P1", "P2"];
    assert NamedSupers(o, "P2") == [];
  }

  /** One class Dog in each of two ontologies, labelled "Dog" with a
      language tag in the first and "dog" without one in the second. */
  function TaggedDogs(): (Ontology, Ontology)
  {
    (Ontology({Thing, "Dog"}, [], c => Literal("Dog", "en", "rdf:langString")),
     Ontology({Thing, "Dog"}, [], c => Literal("dog", "", "xsd:string")))
  }

  /** `getDifferentClassesNumber` compares whole literals and counts the two
      Dogs as different, while `distance` compares lexical forms ignoring
      case and finds them equal. */
  method TaggedDogsCompare() returns (n: int, d: Result<nat, Error>)
    ensures n == 2 && d == Success(1)
  {
    var (o1, o2) := TaggedDogs();
    assert o1.labelOf("Dog") != o2.labelOf("Dog");
    assert MatchingPairs(o1, o2) == {};
    assert Named(o1) == {"Dog"} && Named(o2) == {"Dog"};
    n := DifferentClassesNumber(o1, o2);
    assert WellFormed(o1) && WellFormed(o2);
    RankedIsAcyclic(o1, c => 0);
    RankedIsAcyclic(o2, c => 0);
    ghost var found, t1, t2;
    d, found, t1, t2 := Distance(o1, o2, "Dog", "Dog");
  }

  /** S has the parents A and B; A has the parent T; B has the parents T and
      C. Every edge weighs its start's parent count. */
  function Diamond(): Graph
  {
    map[
      "S" := NewVertex("S").(adj := [Edge(2, "S", Some("A")), Edge(2, "S", Some("B"))]),
      "A" := NewVertex("A").(adj := [Edge(1, "A", Some("T"))]),
      "B" := NewVertex("B").(adj := [Edge(2, "B", Some("T")), Edge(2, "B", Some("C"))]),
      "T" := NewVertex("T"),
      "C" := NewVertex("C")]
  }

  /** A search from S in `Diamond`: S is polled and relaxes A and B, both to
      distance 2; of the two, the queue may hand out A first, which sets T to
      3 along the lightest path S, A, T; B is polled next and, T being
      unvisited, overwrites it with 4 and predecessor B. */
  lemma DiamondOverwrite()
    ensures var g := Diamond();
      var h0 := g["S" := g["S"].(distance := Some(0), visited := true)];
      var h1 := RelaxEdge(RelaxEdge(h0, "S", 0, g["S"].adj[0]), "S", 0, g["S"].adj[1]);
      var h2 := RelaxEdge(h1, "A", 2, g["A"].adj[0]);
      var h3 := RelaxEdge(h2["A" := h2["A"].(visited := true)], "B", 2, g["B"].adj[0]);
      && h1["A"].distance == h1["B"].distance == Some(2)
      && h2["T"].distance == Some(3) && PathWeight(g, ["S", "A", "T"]) == 3
      && h3["T"].distance == Some(4) && h3["T"].predecessor == Some("B")
  {
    var g := Diamond();
    assert LastWeightTo(g["S"].adj, "A") == Some(2);
    assert LastWeightTo(g["A"].adj, "T") == Some(1);
  }
}
