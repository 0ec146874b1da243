/** App.java `getClassesNumber`, `getClassesNumberDifOf` and
    `getDifferentClassesNumber`: counts over the named classes of one or two
    ontologies. */
module Counting {
  import opened Ontology

  /** The classes of the signature other than `Thing`. */
  function Named(o: Ontology): set<ClassId>
  {
    o.classes - {Thing}
  }

  /** The pairs of a named class of `o1` and a named class of `o2` with equal
      label literals (lexical form, language tag and datatype). */
  ghost function MatchingPairs(o1: Ontology, o2: Ontology): set<(ClassId, ClassId)>
  {
    set ci, cj | ci in Named(o1) && cj in Named(o2) && o1.labelOf(ci) == o2.labelOf(cj) :: (ci, cj)
  }

  /** `getClassesNumber`: the number of named classes other than `Thing`. */
  method ClassesNumber(o: Ontology) returns (n: nat)
    ensures n == |Named(o)|
  {
    n := 0;
    var rest := o.classes;
    ghost var counted: set<ClassId> := {};
    while rest != {}
      invariant rest <= o.classes
      invariant counted == Named(o) - rest
      invariant n == |counted|
      decreases rest
    {
      var c := PickClass(rest);
      if c != Thing {
        n := n + 1;
        counted := counted + {c};
      }
      rest := rest - {c};
    }
  }

  /** `getClassesNumberDifOf`: the number of named classes other than `Thing`
      and `cls`. */
  method ClassesNumberDifOf(o: Ontology, cls: ClassId) returns (n: nat)
    ensures n == |Named(o) - {cls}|
  {
    n := 0;
    var rest := o.classes;
    ghost var counted: set<ClassId> := {};
    while rest != {}
      invariant rest <= o.classes
      invariant counted == Named(o) - {cls} - rest
      invariant n == |counted|
      decreases rest
    {
      var c := PickClass(rest);
      if c != Thing && c != cls {
        n := n + 1;
        counted := counted + {c};
      }
      rest := rest - {c};
    }
  }

  /** Some element of a non-empty set: the next class an iteration visits. */
  method PickClass(s: set<ClassId>) returns (c: ClassId)
    requires s != {}
    ensures c in s
  {
    c :| c in s;
  }

  /** Leaving out `cls` lowers the count by one exactly when `cls` is a named
      class other than `Thing`. */
  lemma DifOfIsOneLess(o: Ontology, cls: ClassId)
    ensures |Named(o) - {cls}| == |Named(o)| - (if cls in Named(o) then 1 else 0)
  {
    if cls in Named(o) {
      assert Named(o) == (Named(o) - {cls}) + {cls};
    } else {
      assert Named(o) - {cls} == Named(o);
    }
  }

  /** The pairs with first component `ci` and a matching label among `cjs`. */
  ghost function RowPairs(o1: Ontology, o2: Ontology, ci: ClassId, cjs: set<ClassId>): set<(ClassId, ClassId)>
  {
    set cj | cj in cjs && cj != Thing && o1.labelOf(ci) == o2.labelOf(cj) :: (ci, cj)
  }

  /** The matching pairs whose first class is in `done`. */
  ghost function SeenPairs(o1: Ontology, o2: Ontology, done: set<ClassId>): set<(ClassId, ClassId)>
  {
    set p | p in MatchingPairs(o1, o2) && p.0 in done
  }

  /** The inner loop of `getDifferentClassesNumber`: the number of named
      classes of `o2` whose label equals that of `ci`. */
  method CountRow(o1: Ontology, o2: Ontology, ci: ClassId) returns (k: nat)
    ensures k == |RowPairs(o1, o2, ci, o2.classes)|
  {
    k := 0;
    var rest := o2.classes;
    ghost var row: set<(ClassId, ClassId)> := {};
    while rest != {}
      invariant rest <= o2.classes
      invariant row == RowPairs(o1, o2, ci, o2.classes - rest)
      invariant k == |row|
      decreases rest
    {
      var cj := PickClass(rest);
      assert o2.classes - (rest - {cj}) == (o2.classes - rest) + {cj};
      if cj != Thing && o1.labelOf(ci) == o2.labelOf(cj) {
        k := k + 1;
        assert (ci, cj) !in row;
        row := row + {(ci, cj)};
      }
      rest := rest - {cj};
    }
    assert o2.classes - rest == o2.classes;
  }

  /** Adding the class `ci` to `done` adds its row of matching pairs, which
      is new. */
  lemma SeenPairsStep(o1: Ontology, o2: Ontology, done: set<ClassId>, ci: ClassId)
    requires ci !in done
    ensures ci in Named(o1) ==>
      |SeenPairs(o1, o2, done + {ci})| == |SeenPairs(o1, o2, done)| + |RowPairs(o1, o2, ci, o2.classes)|
    ensures ci !in Named(o1) ==> SeenPairs(o1, o2, done + {ci}) == SeenPairs(o1, o2, done)
  {
    var row := RowPairs(o1, o2, ci, o2.classes);
    if ci in Named(o1) {
      assert SeenPairs(o1, o2, done + {ci}) == SeenPairs(o1, o2, done) + row;
      assert SeenPairs(o1, o2, done) !! row;
    }
  }

  /** `getDifferentClassesNumber`: the named classes of both ontologies minus
      twice the number of label-matching pairs, literals compared whole. */
  method DifferentClassesNumber(o1: Ontology, o2: Ontology) returns (n: int)
    ensures n == |Named(o1)| + |Named(o2)| - 2 * |MatchingPairs(o1, o2)|
  {
    var nb := 0;
    var rest := o1.classes;
    while rest != {}
      invariant rest <= o1.classes
      invariant nb == |SeenPairs(o1, o2, o1.classes - rest)|
      decreases rest
    {
      var ci := PickClass(rest);
      SeenPairsStep(o1, o2, o1.classes - rest, ci);
      assert o1.classes - (rest - {ci}) == (o1.classes - rest) + {ci};
      if ci != Thing {
        var k := CountRow(o1, o2, ci);
        nb := nb + k;
      }
      rest := rest - {ci};
    }
    assert SeenPairs(o1, o2, o1.classes - rest) == MatchingPairs(o1, o2);
    var n1 := ClassesNumber(o1);
    var n2 := ClassesNumber(o2);
    n := n1 as int + n2 as int - 2 * nb;
  }

  lemma {:induction false} DiagonalSize(s: set<ClassId>)
    ensures |set c | c in s :: (c, c)| == |s|
    decreases |s|
  {
    if s != {} {
      var c :| c in s;
      DiagonalSize(s - {c});
      assert (set d | d in s :: (d, d)) == (set d | d in s - {c} :: (d, d)) + {(c, c)};
    }
  }

  /** An ontology compared with itself, its classes labelled apart, has no
      different classes. */
  lemma SelfHasNoDifferentClasses(o: Ontology)
    requires forall a, b :: a in Named(o) && b in Named(o) && o.labelOf(a) == o.labelOf(b) ==> a == b
    ensures |Named(o)| + |Named(o)| - 2 * |MatchingPairs(o, o)| == 0
  {
    assert MatchingPairs(o, o) == set c | c in Named(o) :: (c, c);
    DiagonalSize(Named(o));
  }
}
