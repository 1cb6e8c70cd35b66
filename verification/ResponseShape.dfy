/** The response shape a selection list stands for, at every depth, and why the repeated
    appending of sub-selections cannot be seen in it. */
module ResponseShape {
  import opened Wrappers
  import opened Query
  import opened Duplicates
  import opened FieldCollection
  import opened Flattening
  import opened Grouping
  import opened Reachability

  // --- Collecting what is covered already adds nothing ---

  lemma {:induction false} RecollectOne(op: Operation, types: seq<string>, s: Selection,
                                        fields: seq<Selection>, visited: set<string>)
    requires CoveredOne(op, types, s, fields, visited)
    ensures var w := FlattenOne(op, s, types, visited);
            w.visited == visited && forall f :: f in w.fields ==> f in fields
    decreases s, 0
  {
    if s.InlineFragment? && ShouldInclude(op, s.directives) && Satisfies(s.typeCondition, types) {
      Recollect(op, types, s.selections, fields, visited);
    }
  }

  lemma {:induction false} Recollect(op: Operation, types: seq<string>, selections: seq<Selection>,
                                     fields: seq<Selection>, visited: set<string>)
    requires Covered(op, types, selections, fields, visited)
    ensures var w := Flatten(op, selections, types, visited);
            w.visited == visited && forall f :: f in w.fields ==> f in fields
    decreases selections, 1
  {
    if selections != [] {
      RecollectOne(op, types, selections[0], fields, visited);
      assert forall i :: 0 <= i < |selections| - 1 ==> selections[1..][i] == selections[i + 1];
      Recollect(op, types, selections[1..], fields, visited);
    }
  }

  // --- Walks that meet the same occurrences, up to later ones ---

  ghost predicate SameWalk(a: Walk, b: Walk) {
    a.visited == b.visited && Same(a.fields, b.fields)
  }

  lemma {:induction false} SameWalkExtends(op: Operation, types: seq<string>, visited: set<string>,
                                           a: seq<Selection>, b: seq<Selection>, rest: seq<Selection>)
    requires SameWalk(Flatten(op, a, types, visited), Flatten(op, b, types, visited))
    ensures SameWalk(Flatten(op, a + rest, types, visited), Flatten(op, b + rest, types, visited))
  {
    FlattenAppend(op, a, rest, types, visited);
    FlattenAppend(op, b, rest, types, visited);
    var wa, wb := Flatten(op, a, types, visited), Flatten(op, b, types, visited);
    var w := Flatten(op, rest, types, wa.visited);
    SameAppend(wa.fields, wb.fields, w.fields, w.fields);
  }

  /** Walking a selection again is unobservable. */
  lemma {:induction false} RepeatedSelection(op: Operation, types: seq<string>, visited: set<string>,
                                             a: seq<Selection>, s: Selection)
    requires s in a
    ensures SameWalk(Flatten(op, a + [s], types, visited), Flatten(op, a, types, visited))
  {
    var w := Flatten(op, a, types, visited);
    FlattenCovers(op, types, a, visited);
    Recollect(op, types, [s], w.fields, w.visited);
    var again := Flatten(op, [s], types, w.visited);
    FlattenAppend(op, a, [s], types, visited);
    SameAbsorb(w.fields, again.fields);
  }

  lemma {:induction false} FlattenOnto(op: Operation, types: seq<string>, visited: set<string>,
                                       a: seq<Selection>, s: seq<Selection>)
    ensures SameWalk(Flatten(op, Onto(a, s), types, visited), Flatten(op, a + s, types, visited))
    decreases |s|
  {
    if s == [] {
      assert a + s == a;
    } else {
      assert a + s == (a + [s[0]]) + s[1..];
      if s[0] in a {
        FlattenOnto(op, types, visited, a, s[1..]);
        RepeatedSelection(op, types, visited, a, s[0]);
        SameWalkExtends(op, types, visited, a + [s[0]], a, s[1..]);
      } else {
        FlattenOnto(op, types, visited, a + [s[0]], s[1..]);
      }
    }
  }

  lemma {:induction false} SameSelectionsSameWalk(op: Operation, types: seq<string>, visited: set<string>,
                                                  a: seq<Selection>, b: seq<Selection>)
    requires Same(a, b)
    ensures SameWalk(Flatten(op, a, types, visited), Flatten(op, b, types, visited))
  {
    FlattenOnto(op, types, visited, [], a);
    FlattenOnto(op, types, visited, [], b);
    assert [] + a == a && [] + b == b;
  }

  // --- Occurrences that agree up to later duplicates group alike ---

  lemma {:induction false} SubSelectionsPresent(fields: seq<Selection>, f: Selection, key: Key)
    requires f in fields && forall x :: x in fields ==> x.Field?
    ensures Same(SubSelections(fields + [f], key), SubSelections(fields, key))
  {
    SubSelectionsAppend(fields, [f], key);
    SubSelectionsElements(fields, key);
    assert [f][1..] == [];
    SameAbsorb(SubSelections(fields, key), SubSelections([f], key));
  }

  lemma {:induction false} SubSelectionsOnto(a: seq<Selection>, s: seq<Selection>, key: Key)
    requires forall x :: x in a || x in s ==> x.Field?
    ensures Same(SubSelections(Onto(a, s), key), SubSelections(a + s, key))
    decreases |s|
  {
    if s == [] {
      assert a + s == a;
    } else {
      assert a + s == (a + [s[0]]) + s[1..];
      if s[0] in a {
        SubSelectionsOnto(a, s[1..], key);
        SubSelectionsPresent(a, s[0], key);
        SubSelectionsAppend(a + [s[0]], s[1..], key);
        SubSelectionsAppend(a, s[1..], key);
        var rest := SubSelections(s[1..], key);
        SameAppend(SubSelections(a + [s[0]], key), SubSelections(a, key), rest, rest);
      } else {
        SubSelectionsOnto(a + [s[0]], s[1..], key);
      }
    }
  }

  lemma {:induction false} SameFieldsSameSubSelections(a: seq<Selection>, b: seq<Selection>, key: Key)
    requires Same(a, b) && forall x :: x in a || x in b ==> x.Field?
    ensures Same(SubSelections(a, key), SubSelections(b, key))
  {
    SubSelectionsOnto([], a, key);
    SubSelectionsOnto([], b, key);
    assert [] + a == a && [] + b == b;
  }

  lemma {:induction false} KeysOfOnto(a: seq<Selection>, s: seq<Selection>)
    ensures Dedup(KeysOf(Onto(a, s))) == Dedup(KeysOf(a + s))
    decreases |s|
  {
    if s == [] {
      assert a + s == a;
    } else {
      assert a + s == (a + [s[0]]) + s[1..];
      if s[0] in a {
        KeysOfOnto(a, s[1..]);
        KeysOfAppend(a, [s[0]]);
        KeysOfAppend(a + [s[0]], s[1..]);
        KeysOfAppend(a, s[1..]);
        var i :| 0 <= i < |a| && a[i] == s[0];
        assert KeysOf(a)[i] == KeyOf(s[0]);
        SameAbsorb(KeysOf(a), KeysOf([s[0]]));
        SameAppend(KeysOf(a + [s[0]]), KeysOf(a), KeysOf(s[1..]), KeysOf(s[1..]));
      } else {
        KeysOfOnto(a + [s[0]], s[1..]);
      }
    }
  }

  /** Selection lists equal up to later duplicates yield the same keys in the same order and,
      group by group, again selection lists equal up to later duplicates. */
  lemma {:induction false} SameSelectionsSameGroups(op: Operation, types: seq<string>,
                                                    a: seq<Selection>, b: seq<Selection>)
    requires Same(a, b)
    ensures var x := CollectFields(op, a, types);
            var y := CollectFields(op, b, types);
            && Keys(x) == Keys(y)
            && forall i :: 0 <= i < |x| ==> Same(x[i].selections, y[i].selections)
  {
    var x := CollectFields(op, a, types);
    var y := CollectFields(op, b, types);
    CollectFieldsGroups(op, a, types);
    CollectFieldsGroups(op, b, types);
    SameSelectionsSameWalk(op, types, {}, a, b);
    var wa, wb := Flatten(op, a, types, {}).fields, Flatten(op, b, types, {}).fields;
    KeysOfOnto([], wa);
    KeysOfOnto([], wb);
    assert [] + wa == wa && [] + wb == wb;
    assert |x| == |Keys(x)| && |y| == |Keys(y)|;
    forall i | 0 <= i < |x| ensures Same(x[i].selections, y[i].selections) {
      assert Keys(x)[i] == KeyOf(x[i].field) && Keys(y)[i] == KeyOf(y[i].field);
      SameFieldsSameSubSelections(wa, wb, KeyOf(x[i].field));
    }
  }

  // --- Shapes ---

  /** The keys of an object and, per key, the shape of what is nested there. */
  datatype Shape = Shape(keys: seq<Key>, nested: seq<Shape>)

  /** The concrete types of the object found at a path of keys. */
  type Typing = seq<Key> -> seq<string>

  /** The shape of the response down to `depth` levels: at each level the collected groups are
      collected again for the type found there, with no visited fragments. */
  function ShapeOf(op: Operation, selections: seq<Selection>, typing: Typing, path: seq<Key>, depth: nat): Shape
    decreases depth
  {
    if depth == 0 then Shape([], [])
    else
      var fields := CollectFields(op, selections, typing(path));
      Shape(Keys(fields),
            seq(|fields|, i requires 0 <= i < |fields| =>
              ShapeOf(op, fields[i].selections, typing, path + [KeyOf(fields[i].field)], depth - 1)))
  }

  /** The shape in the manner of the GraphQL specification (October 2021, sections 6.3.2 and
      6.4.3), with this repository's grouping key: the occurrences grouped by key, each group
      nesting their sub-selections concatenated once. */
  function SpecifiedShape(op: Operation, selections: seq<Selection>, typing: Typing, path: seq<Key>, depth: nat): Shape
    decreases depth
  {
    if depth == 0 then Shape([], [])
    else
      var met := Flatten(op, selections, typing(path), {}).fields;
      var keys := Dedup(KeysOf(met));
      Shape(keys,
            seq(|keys|, i requires 0 <= i < |keys| =>
              SpecifiedShape(op, SubSelections(met, keys[i]), typing, path + [keys[i]], depth - 1)))
  }

  /** The repeated appending is unobservable: equal up to later duplicates, equal shapes. */
  lemma {:induction false} SameSelectionsSameShape(op: Operation, a: seq<Selection>, b: seq<Selection>,
                                                   typing: Typing, path: seq<Key>, depth: nat)
    requires Same(a, b)
    ensures ShapeOf(op, a, typing, path, depth) == ShapeOf(op, b, typing, path, depth)
    decreases depth
  {
    if depth > 0 {
      var x := CollectFields(op, a, typing(path));
      var y := CollectFields(op, b, typing(path));
      SameSelectionsSameGroups(op, typing(path), a, b);
      assert |x| == |Keys(x)| && |y| == |Keys(y)|;
      forall i | 0 <= i < |x|
        ensures ShapeOf(op, x[i].selections, typing, path + [KeyOf(x[i].field)], depth - 1)
             == ShapeOf(op, y[i].selections, typing, path + [KeyOf(y[i].field)], depth - 1)
      {
        assert Keys(x)[i] == KeyOf(x[i].field) && Keys(y)[i] == KeyOf(y[i].field);
        SameSelectionsSameShape(op, x[i].selections, y[i].selections, typing, path + [KeyOf(x[i].field)], depth - 1);
      }
    }
  }

  /** Collection, with its repeated appending, has the specified shape at every depth and for
      every choice of types. */
  lemma {:induction false} ShapeIsSpecified(op: Operation, selections: seq<Selection>,
                                            typing: Typing, path: seq<Key>, depth: nat)
    ensures ShapeOf(op, selections, typing, path, depth) == SpecifiedShape(op, selections, typing, path, depth)
    decreases depth
  {
    if depth > 0 {
      var fields := CollectFields(op, selections, typing(path));
      var met := Flatten(op, selections, typing(path), {}).fields;
      var keys := Dedup(KeysOf(met));
      CollectFieldsGroups(op, selections, typing(path));
      assert |fields| == |Keys(fields)| == |keys|;
      forall i | 0 <= i < |fields|
        ensures ShapeOf(op, fields[i].selections, typing, path + [KeyOf(fields[i].field)], depth - 1)
             == SpecifiedShape(op, SubSelections(met, keys[i]), typing, path + [keys[i]], depth - 1)
      {
        assert Keys(fields)[i] == KeyOf(fields[i].field) == keys[i];
        SameSelectionsSameShape(op, fields[i].selections, SubSelections(met, keys[i]),
                                typing, path + [keys[i]], depth - 1);
        ShapeIsSpecified(op, SubSelections(met, keys[i]), typing, path + [keys[i]], depth - 1);
      }
    }
  }
}
