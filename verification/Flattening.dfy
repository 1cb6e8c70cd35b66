/** An independent account of field collection: the depth-first list of the field occurrences
    a walk meets, each once per meeting and without any grouping. */
module Flattening {
  import opened Wrappers
  import opened Query
  import opened Duplicates
  import opened FieldCollection

  datatype Walk = Walk(fields: seq<Selection>, visited: set<string>)

  function Flatten(op: Operation, selections: seq<Selection>, types: seq<string>, visited: set<string>): (w: Walk)
    ensures visited <= w.visited
    ensures forall f :: f in w.fields ==> f.Field?
    decreases op.fragments.Keys - visited, selections, 1
  {
    if selections == [] then Walk([], visited)
    else
      var w := FlattenOne(op, selections[0], types, visited);
      var rest := Flatten(op, selections[1..], types, w.visited);
      Walk(w.fields + rest.fields, rest.visited)
  }

  function FlattenOne(op: Operation, sel: Selection, types: seq<string>, visited: set<string>): (w: Walk)
    ensures visited <= w.visited
    ensures forall f :: f in w.fields ==> f.Field?
    decreases op.fragments.Keys - visited, sel, 0
  {
    if !ShouldInclude(op, sel.directives) then Walk([], visited)
    else match sel
      case Field(_, _, _, _, _, _, _, _) => Walk([sel], visited)
      case InlineFragment(_, typeCondition, _, body) =>
        if Satisfies(typeCondition, types) then Flatten(op, body, types, visited) else Walk([], visited)
      case FragmentSpread(_, name, _) =>
        if name in visited then Walk([], visited)
        else if name !in op.fragments || !Satisfies(op.fragments[name].typeCondition, types) then
          Walk([], visited + {name})
        else Flatten(op, op.fragments[name].selections, types, visited + {name})
  }

  lemma {:induction false} FlattenAppend(op: Operation, a: seq<Selection>, b: seq<Selection>,
                                         types: seq<string>, visited: set<string>)
    ensures var x := Flatten(op, a, types, visited);
            var y := Flatten(op, b, types, x.visited);
            Flatten(op, a + b, types, visited) == Walk(x.fields + y.fields, y.visited)
    decreases |a|
  {
    if a == [] {
      assert a + b == b;
    } else {
      assert (a + b)[0] == a[0] && (a + b)[1..] == a[1..] + b;
      var w := FlattenOne(op, a[0], types, visited);
      FlattenAppend(op, a[1..], b, types, w.visited);
      assert forall p: seq<Selection>, q: seq<Selection>, r: seq<Selection> :: p + (q + r) == (p + q) + r;
    }
  }

  // --- Grouping a list of occurrences ---

  function KeysOf(fields: seq<Selection>): seq<Key> {
    seq(|fields|, i requires 0 <= i < |fields| => KeyOf(fields[i]))
  }

  /** The sub-selections of the occurrences with that key, in order: MergeSelectionSets,
      section 6.4.3 of the GraphQL specification (October 2021). */
  function SubSelections(fields: seq<Selection>, key: Key): seq<Selection> {
    if fields == [] then []
    else if KeyOf(fields[0]) == key && fields[0].Field? then
      fields[0].selections + SubSelections(fields[1..], key)
    else SubSelections(fields[1..], key)
  }

  lemma {:induction false} SubSelectionsAppend(a: seq<Selection>, b: seq<Selection>, key: Key)
    ensures SubSelections(a + b, key) == SubSelections(a, key) + SubSelections(b, key)
    decreases |a|
  {
    if a == [] {
      assert a + b == b;
    } else {
      assert (a + b)[0] == a[0] && (a + b)[1..] == a[1..] + b;
      SubSelectionsAppend(a[1..], b, key);
    }
  }

  lemma {:induction false} KeysOfAppend(a: seq<Selection>, b: seq<Selection>)
    ensures KeysOf(a + b) == KeysOf(a) + KeysOf(b)
  {
  }

  /** First occurrence with that key. */
  function First(fields: seq<Selection>, key: Key): (f: Option<Selection>)
    ensures f.Some? ==> f.value in fields && KeyOf(f.value) == key
  {
    if fields == [] then None
    else if KeyOf(fields[0]) == key then Some(fields[0])
    else First(fields[1..], key)
  }

  lemma {:induction false} FirstAppend(a: seq<Selection>, b: seq<Selection>, key: Key)
    ensures First(a + b, key) == if key in KeysOf(a) then First(a, key) else First(b, key)
    ensures First(a, key).Some? <==> key in KeysOf(a)
    decreases |a|
  {
    if a == [] {
      assert a + b == b;
    } else {
      assert (a + b)[0] == a[0] && (a + b)[1..] == a[1..] + b;
      FirstAppend(a[1..], b, key);
      assert a == [a[0]] + a[1..];
      KeysOfAppend([a[0]], a[1..]);
      assert KeysOf([a[0]]) == [KeyOf(a[0])];
    }
  }
}
