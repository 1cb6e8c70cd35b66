/** The default complexity bounds what field collection can collect. */
module ComplexityBound {
  import opened Wrappers
  import opened Query
  import opened Duplicates
  import opened FieldCollection
  import opened Flattening
  import opened ResponseShape
  import opened Complexity
  import opened ComplexityLaws

  /** Number of fields of a response shape, at all depths. */
  ghost function Count(shape: Shape): nat
    decreases shape
  {
    |shape.keys| + CountAll(shape.nested)
  }

  ghost function CountAll(shapes: seq<Shape>): nat
    decreases shapes
  {
    if shapes == [] then 0 else Count(shapes[0]) + CountAll(shapes[1..])
  }

  /** The walker counts this selection and, if it has sub-selections, those too: a field with
      sub-selections is of a type with fields, and a field of an interface has an implementor. */
  ghost predicate CountedOne(schema: Schema, s: Selection)
    decreases s
  {
    match s
    case Field(_, _, _, _, typeName, _, _, subselections) =>
      && (subselections != [] ==> HasFields(KindOf(schema, typeName)))
      && (KindOf(schema, ObjectOf(s)) == Interface ==> ImplementorsOf(schema, ObjectOf(s)) != [])
      && forall i :: 0 <= i < |subselections| ==> CountedOne(schema, subselections[i])
    case InlineFragment(_, _, _, body) =>
      forall i :: 0 <= i < |body| ==> CountedOne(schema, body[i])
    case FragmentSpread(_, _, _) => true
  }

  ghost predicate CountedAll(schema: Schema, selections: seq<Selection>) {
    forall i :: 0 <= i < |selections| ==> CountedOne(schema, selections[i])
  }

  ghost predicate Counted(schema: Schema, op: Operation, selections: seq<Selection>) {
    CountedAll(schema, selections)
    && forall name :: name in op.fragments ==> CountedAll(schema, op.fragments[name].selections)
  }

  /** The document side conditions, for a list of selections. */
  ghost predicate Fine(schema: Schema, op: Operation, selections: seq<Selection>, rank: map<string, nat>, below: nat) {
    Acyclic(op, rank) && SpreadsBelow(op, selections, rank, below) && Counted(schema, op, selections)
  }

  lemma {:induction false} FineAppend(schema: Schema, op: Operation, a: seq<Selection>, b: seq<Selection>,
                                      rank: map<string, nat>, below: nat)
    requires Fine(schema, op, a, rank, below) && Fine(schema, op, b, rank, below)
    ensures Fine(schema, op, a + b, rank, below)
    ensures Exact(schema, op, a + b, rank, below)
         == Exact(schema, op, a, rank, below) + Exact(schema, op, b, rank, below)
  {
    ExactAppend(schema, op, a, b, rank, below);
  }

  // --- A walk meets no more than the walker counts ---

  lemma {:induction false} ExactBelowIrrelevant(schema: Schema, op: Operation, selections: seq<Selection>,
                                                rank: map<string, nat>, below: nat, below': nat)
    requires Acyclic(op, rank) && SpreadsBelow(op, selections, rank, below) &&
             SpreadsBelow(op, selections, rank, below')
    ensures Exact(schema, op, selections, rank, below) == Exact(schema, op, selections, rank, below')
    decreases selections
  {
    if selections != [] {
      var s := selections[0];
      assert SpreadBelow(op, s, rank, below) && SpreadBelow(op, s, rank, below');
      ExactBelowIrrelevant(schema, op, selections[1..], rank, below, below');
      if !s.FragmentSpread? {
        ExactBelowIrrelevant(schema, op, s.selections, rank, below, below');
      }
    }
  }

  lemma {:induction false} FlattenWeighsLess(schema: Schema, op: Operation, selections: seq<Selection>,
                                             types: seq<string>,
                                             visited: set<string>, rank: map<string, nat>, below: nat)
    requires Fine(schema, op, selections, rank, below)
    ensures var met := Flatten(op, selections, types, visited).fields;
            Fine(schema, op, met, rank, below)
            && Exact(schema, op, met, rank, below) <= Exact(schema, op, selections, rank, below)
    decreases op.fragments.Keys - visited, selections, 1
  {
    if selections != [] {
      var w := FlattenOne(op, selections[0], types, visited);
      FlattenOneWeighsLess(schema, op, selections[0], types, visited, rank, below);
      FlattenWeighsLess(schema, op, selections[1..], types, w.visited, rank, below);
      FineAppend(schema, op, w.fields, Flatten(op, selections[1..], types, w.visited).fields, rank, below);
    }
  }

  lemma {:induction false} FlattenOneWeighsLess(schema: Schema, op: Operation, s: Selection, types: seq<string>,
                                                visited: set<string>, rank: map<string, nat>, below: nat)
    requires Fine(schema, op, [s], rank, below) && SpreadBelow(op, s, rank, below) && CountedOne(schema, s)
    ensures var met := FlattenOne(op, s, types, visited).fields;
            Fine(schema, op, met, rank, below)
            && Exact(schema, op, met, rank, below) <= ExactOne(schema, op, s, rank, below)
    decreases op.fragments.Keys - visited, s, 0
  {
    if ShouldInclude(op, s.directives) {
      match s
      case Field(_, _, _, _, _, _, _, _) =>
        assert [s][1..] == [];
      case InlineFragment(_, typeCondition, _, body) =>
        if Satisfies(typeCondition, types) {
          FlattenWeighsLess(schema, op, body, types, visited, rank, below);
        }
      case FragmentSpread(_, name, _) =>
        if name !in visited && Satisfies(op.fragments[name].typeCondition, types) {
          var body := op.fragments[name].selections;
          SpreadsBelowGrows(op, body, rank, rank[name], below);
          ExactBelowIrrelevant(schema, op, body, rank, rank[name], below);
          FlattenWeighsLess(schema, op, body, types, visited + {name}, rank, below);
        }
    }
  }

  // --- Grouping divides the weight among the keys ---

  /** The occurrences with that key. */
  ghost function WithKey(fields: seq<Selection>, key: Key): (r: seq<Selection>)
    ensures forall f :: f in r ==> f in fields
  {
    if fields == [] then []
    else (if KeyOf(fields[0]) == key then [fields[0]] else []) + WithKey(fields[1..], key)
  }

  lemma {:induction false} FineSubset(schema: Schema, op: Operation, a: seq<Selection>, b: seq<Selection>,
                                      rank: map<string, nat>, below: nat)
    requires Fine(schema, op, a, rank, below) && forall s :: s in b ==> s in a
    ensures Fine(schema, op, b, rank, below)
  {
    forall i | 0 <= i < |b| ensures SpreadBelow(op, b[i], rank, below) && CountedOne(schema, b[i]) {
      assert b[i] in a;
      var j :| 0 <= j < |a| && a[j] == b[i];
    }
  }

  lemma {:induction false} FieldWeighs(schema: Schema, op: Operation, f: Selection, rank: map<string, nat>, below: nat)
    requires Fine(schema, op, [f], rank, below) && f.Field?
    ensures Fine(schema, op, f.selections, rank, below)
    ensures Exact(schema, op, [f], rank, below) == 1 + Exact(schema, op, f.selections, rank, below)
  {
    assert SpreadBelow(op, [f][0], rank, below) && CountedOne(schema, [f][0]);
    assert [f][1..] == [];
  }

  /** A present key's sub-selections, and one for the key itself, weigh at most its occurrences. */
  lemma {:induction false} SubSelectionsWeigh(schema: Schema, op: Operation, fields: seq<Selection>, key: Key,
                                              rank: map<string, nat>, below: nat)
    requires Fine(schema, op, fields, rank, below) && forall f :: f in fields ==> f.Field?
    ensures Fine(schema, op, SubSelections(fields, key), rank, below)
    ensures Fine(schema, op, WithKey(fields, key), rank, below)
    ensures Exact(schema, op, SubSelections(fields, key), rank, below)
            + (if key in KeysOf(fields) then 1 else 0)
         <= Exact(schema, op, WithKey(fields, key), rank, below)
    decreases |fields|
  {
    FineSubset(schema, op, fields, WithKey(fields, key), rank, below);
    if fields != [] {
      var f, rest := fields[0], fields[1..];
      FineSubset(schema, op, fields, rest, rank, below);
      FineSubset(schema, op, fields, [f], rank, below);
      SubSelectionsWeigh(schema, op, rest, key, rank, below);
      assert fields == [f] + rest;
      KeysOfAppend([f], rest);
      assert KeysOf([f]) == [KeyOf(f)];
      if KeyOf(f) == key {
        FieldWeighs(schema, op, f, rank, below);
        FineAppend(schema, op, f.selections, SubSelections(rest, key), rank, below);
        FineAppend(schema, op, [f], WithKey(rest, key), rank, below);
      } else {
        assert WithKey(fields, key) == WithKey(rest, key);
      }
    }
  }

  ghost function WeightOfKeys(schema: Schema, op: Operation, fields: seq<Selection>, keys: seq<Key>,
                              rank: map<string, nat>, below: nat): nat
    requires Fine(schema, op, fields, rank, below)
  {
    if keys == [] then 0
    else
      FineSubset(schema, op, fields, WithKey(fields, keys[0]), rank, below);
      Exact(schema, op, WithKey(fields, keys[0]), rank, below)
      + WeightOfKeys(schema, op, fields, keys[1..], rank, below)
  }

  /** Distinct keys claim disjoint occurrences. */
  lemma {:induction false} KeysShareTheWeight(schema: Schema, op: Operation, fields: seq<Selection>, keys: seq<Key>,
                                              rank: map<string, nat>, below: nat)
    requires Fine(schema, op, fields, rank, below) && Distinct(keys)
    ensures WeightOfKeys(schema, op, fields, keys, rank, below) <= Exact(schema, op, fields, rank, below)
    decreases |fields|
  {
    if fields == [] {
      NothingWeighsNothing(schema, op, keys, rank, below);
    } else {
      FineSubset(schema, op, fields, fields[1..], rank, below);
      KeysShareTheWeight(schema, op, fields[1..], keys, rank, below);
      FirstFieldAddsOnce(schema, op, fields, keys, rank, below);
    }
  }

  lemma {:induction false} NothingWeighsNothing(schema: Schema, op: Operation, keys: seq<Key>,
                                                rank: map<string, nat>, below: nat)
    requires Fine(schema, op, [], rank, below)
    ensures WeightOfKeys(schema, op, [], keys, rank, below) == 0
    decreases |keys|
  {
    if keys != [] {
      NothingWeighsNothing(schema, op, keys[1..], rank, below);
    }
  }

  lemma {:induction false} FirstFieldAddsOnce(schema: Schema, op: Operation, fields: seq<Selection>, keys: seq<Key>,
                                              rank: map<string, nat>, below: nat)
    requires Fine(schema, op, fields, rank, below) && fields != [] && Distinct(keys)
    requires Fine(schema, op, fields[1..], rank, below)
    ensures SpreadBelow(op, fields[0], rank, below)
    ensures WeightOfKeys(schema, op, fields, keys, rank, below)
         == WeightOfKeys(schema, op, fields[1..], keys, rank, below)
            + if KeyOf(fields[0]) in keys then ExactOne(schema, op, fields[0], rank, below) else 0
    decreases |keys|
  {
    assert SpreadBelow(op, fields[0], rank, below);
    if keys != [] {
      var f, rest, key := fields[0], fields[1..], keys[0];
      assert keys == [key] + keys[1..];
      FirstFieldAddsOnce(schema, op, fields, keys[1..], rank, below);
      FineSubset(schema, op, fields, WithKey(fields, key), rank, below);
      FineSubset(schema, op, rest, WithKey(rest, key), rank, below);
      if KeyOf(f) == key {
        assert ([f] + WithKey(rest, key))[1..] == WithKey(rest, key);
      } else {
        assert [] + WithKey(rest, key) == WithKey(rest, key);
      }
    }
  }

  // --- The bound ---

  /** The nested shapes of distinct present keys, and one per key, weigh at most the keys' share. */
  lemma {:induction false} NestedShapesWeigh(schema: Schema, op: Operation, met: seq<Selection>, keys: seq<Key>,
                                             typing: Typing, path: seq<Key>, depth: nat,
                                             rank: map<string, nat>, below: nat)
    requires Fine(schema, op, met, rank, below) && forall f :: f in met ==> f.Field?
    requires forall key :: key in keys ==> key in KeysOf(met)
    ensures var nested := seq(|keys|, i requires 0 <= i < |keys| =>
                            SpecifiedShape(op, SubSelections(met, keys[i]), typing, path + [keys[i]], depth));
            |keys| + CountAll(nested) <= WeightOfKeys(schema, op, met, keys, rank, below)
    decreases depth, 1, |keys|
  {
    if keys != [] {
      var key := keys[0];
      var nested := seq(|keys|, i requires 0 <= i < |keys| =>
                      SpecifiedShape(op, SubSelections(met, keys[i]), typing, path + [keys[i]], depth));
      var rest := keys[1..];
      var nestedRest := seq(|rest|, i requires 0 <= i < |rest| =>
                          SpecifiedShape(op, SubSelections(met, rest[i]), typing, path + [rest[i]], depth));
      assert nested[1..] == nestedRest;
      SubSelectionsWeigh(schema, op, met, key, rank, below);
      SpecifiedShapeWeighs(schema, op, SubSelections(met, key), typing, path + [key], depth, rank, below);
      NestedShapesWeigh(schema, op, met, rest, typing, path, depth, rank, below);
    }
  }

  lemma {:induction false} SpecifiedShapeWeighs(schema: Schema, op: Operation, selections: seq<Selection>,
                                                typing: Typing, path: seq<Key>, depth: nat,
                                                rank: map<string, nat>, below: nat)
    requires Fine(schema, op, selections, rank, below)
    ensures Count(SpecifiedShape(op, selections, typing, path, depth)) <= Exact(schema, op, selections, rank, below)
    decreases depth, 0
  {
    if depth > 0 {
      var met, keys := KeysMet(op, selections, typing, path, depth);
      FlattenWeighsLess(schema, op, selections, typing(path), {}, rank, below);
      KeysWeigh(schema, op, met, keys, typing, path, depth - 1, rank, below);
    }
  }

  lemma {:induction false} KeysWeigh(schema: Schema, op: Operation, met: seq<Selection>, keys: seq<Key>,
                                     typing: Typing, path: seq<Key>, depth: nat, rank: map<string, nat>, below: nat)
    requires Fine(schema, op, met, rank, below) && forall f :: f in met ==> f.Field?
    requires Distinct(keys) && forall key :: key in keys ==> key in KeysOf(met)
    ensures var nested := seq(|keys|, i requires 0 <= i < |keys| =>
                            SpecifiedShape(op, SubSelections(met, keys[i]), typing, path + [keys[i]], depth));
            |keys| + CountAll(nested) <= Exact(schema, op, met, rank, below)
    decreases depth, 2
  {
    NestedShapesWeigh(schema, op, met, keys, typing, path, depth, rank, below);
    KeysShareTheWeight(schema, op, met, keys, rank, below);
  }

  /** The occurrences a shape is made of, and its keys; it counts its keys and what they nest. */
  lemma {:induction false} KeysMet(op: Operation, selections: seq<Selection>, typing: Typing, path: seq<Key>,
                                   depth: nat)
    returns (met: seq<Selection>, keys: seq<Key>)
    requires depth > 0
    ensures met == Flatten(op, selections, typing(path), {}).fields
    ensures Distinct(keys) && forall key :: key in keys ==> key in KeysOf(met)
    ensures var nested := seq(|keys|, i requires 0 <= i < |keys| =>
                            SpecifiedShape(op, SubSelections(met, keys[i]), typing, path + [keys[i]], depth - 1));
            Count(SpecifiedShape(op, selections, typing, path, depth)) == |keys| + CountAll(nested)
  {
    met := Flatten(op, selections, typing(path), {}).fields;
    keys := Dedup(KeysOf(met));
    DedupProperties(KeysOf(met));
  }

  /** At all depths and whatever types are found there, no more fields are collected than the
      default complexity counts, as long as that has not saturated. */
  lemma {:induction false} CollectedAtMostComplexity(schema: Schema, costs: Costs, op: Operation,
                                                     selections: seq<Selection>,
                                                     typing: Typing, depth: nat, rank: map<string, nat>, below: nat)
    requires Fine(schema, op, selections, rank, below) && NoCustomCosts(costs)
    ensures Min(Count(ShapeOf(op, selections, typing, [], depth)), MAX_INT)
         <= SelectionSetComplexity(schema, costs, op, selections, rank, below)
  {
    ShapeIsSpecified(op, selections, typing, [], depth);
    SpecifiedShapeWeighs(schema, op, selections, typing, [], depth, rank, below);
    DefaultComplexityIsExact(schema, costs, op, selections, rank, below);
  }
}
