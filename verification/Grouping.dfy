/** Field collection groups the depth-first occurrences by key. */
module Grouping {
  import opened Wrappers
  import opened Query
  import opened Duplicates
  import opened FieldCollection
  import opened Flattening

  /** The selections of the group with that key; none if there is no such group. */
  function GroupSelections(fields: seq<CollectedField>, key: Key): seq<Selection> {
    var i := IndexOf(fields, key);
    if i < |fields| then fields[i].selections else []
  }

  function GroupField(fields: seq<CollectedField>, key: Key): Option<Selection> {
    var i := IndexOf(fields, key);
    if i < |fields| then Some(fields[i].field) else None
  }

  /** `fields` is the grouping of the occurrences `occurrences`: one group per key, in order of
      first occurrence, led by that occurrence, holding the concatenated sub-selections of all
      occurrences with the key, up to later duplicates. */
  ghost predicate Groups(fields: seq<CollectedField>, occurrences: seq<Selection>) {
    && Keys(fields) == Dedup(KeysOf(occurrences))
    && forall key :: GroupField(fields, key) == First(occurrences, key)
                     && Same(GroupSelections(fields, key), SubSelections(occurrences, key))
  }

  lemma {:induction false} IndexOfKey(fields: seq<CollectedField>, key: Key)
    ensures IndexOf(fields, key) < |fields| <==> key in Keys(fields)
  {
    var i := IndexOf(fields, key);
    if i < |fields| {
      assert Keys(fields)[i] == key;
    }
  }

  /** With distinct keys, the group found is the one at hand. */
  lemma {:induction false} IndexOfUnique(fields: seq<CollectedField>, i: nat)
    requires i < |fields| && Distinct(Keys(fields))
    ensures IndexOf(fields, KeyOf(fields[i].field)) == i
  {
    var k := IndexOf(fields, KeyOf(fields[i].field));
    assert Keys(fields)[k] == Keys(fields)[i];
  }

  lemma {:induction false} AppendEffect(fields: seq<CollectedField>, creator: CollectedField,
                                        extra: seq<Selection>, key: Key)
    ensures var r := GetOrCreateAndAppend(fields, creator, extra);
            var k := KeyOf(creator.field);
            && Keys(r) == Onto(Keys(fields), [k])
            && GroupField(r, key) ==
                 (if key == k && k !in Keys(fields) then Some(creator.field) else GroupField(fields, key))
            && GroupSelections(r, key) ==
                 (if key != k then GroupSelections(fields, key)
                  else if k in Keys(fields) then GroupSelections(fields, k) + extra
                  else creator.selections + extra)
  {
    var r := GetOrCreateAndAppend(fields, creator, extra);
    var k := KeyOf(creator.field);
    IndexOfKey(fields, k);
    assert [k][1..] == [] && [k][0] == k;
    var i := IndexOf(fields, k);
    if i < |fields| {
      assert Keys(r) == Keys(fields);
      IndexOfReplaced(fields, r[i], i, key);
    } else {
      assert Keys(r) == Keys(fields) + [k];
      IndexOfAppended(fields, r[i], key);
    }
  }

  lemma {:induction false} IndexOfReplaced(fields: seq<CollectedField>, g: CollectedField, i: nat, key: Key)
    requires i < |fields| && KeyOf(g.field) == KeyOf(fields[i].field)
    ensures IndexOf(fields[i := g], key) == IndexOf(fields, key)
  {
    var r := fields[i := g];
    var a, b := IndexOf(r, key), IndexOf(fields, key);
    assert forall j :: 0 <= j < |fields| ==> KeyOf(r[j].field) == KeyOf(fields[j].field);
    assert a < |fields| ==> KeyOf(fields[a].field) == key;
    assert b < |fields| ==> KeyOf(r[b].field) == key;
  }

  lemma {:induction false} IndexOfAppended(fields: seq<CollectedField>, g: CollectedField, key: Key)
    ensures IndexOf(fields + [g], key) ==
            if IndexOf(fields, key) < |fields| then IndexOf(fields, key)
            else if KeyOf(g.field) == key then |fields| else |fields| + 1
  {
    if fields == [] {
      assert fields + [g] == [g];
      assert [g][1..] == [];
    } else {
      assert (fields + [g])[1..] == fields[1..] + [g];
      IndexOfAppended(fields[1..], g, key);
    }
  }

  lemma {:induction false} KeysTail(children: seq<CollectedField>)
    requires children != [] && Distinct(Keys(children))
    ensures Keys(children) == [KeyOf(children[0].field)] + Keys(children[1..])
    ensures Distinct(Keys(children[1..]))
    ensures KeyOf(children[0].field) !in Keys(children[1..])
  {
    assert Keys(children) == [KeyOf(children[0].field)] + Keys(children[1..]);
    assert forall i :: 0 <= i < |children| - 1 ==> Keys(children[1..])[i] == Keys(children)[i + 1];
    assert forall j :: 1 <= j < |children| ==> Keys(children)[0] != Keys(children)[j];
  }

  /** Merging a child: a group that is new is created from the child and has the child's selections
      appended to it again, which is, up to later duplicates, appending them once. */
  lemma {:induction false} MergeKey(fields: seq<CollectedField>, child: CollectedField)
    ensures var key := KeyOf(child.field);
            Same(GroupSelections(GetOrCreateAndAppend(fields, child, child.selections), key),
                 GroupSelections(fields, key) + child.selections)
  {
    var key := KeyOf(child.field);
    AppendEffect(fields, child, child.selections, key);
    IndexOfKey(fields, key);
    if key !in Keys(fields) {
      SameAbsorb(child.selections, child.selections);
      assert GroupSelections(fields, key) + child.selections == child.selections;
    }
  }

  lemma {:induction false} MergeEffect(fields: seq<CollectedField>, children: seq<CollectedField>, key: Key)
    requires Distinct(Keys(children))
    ensures var r := Merge(fields, children);
            && Keys(r) == Onto(Keys(fields), Keys(children))
            && GroupField(r, key) ==
                 (if key in Keys(fields) then GroupField(fields, key) else GroupField(children, key))
            && Same(GroupSelections(r, key), GroupSelections(fields, key) + GroupSelections(children, key))
    decreases |children|
  {
    IndexOfKey(fields, key);
    IndexOfKey(children, key);
    if children == [] {
      assert GroupSelections(fields, key) + [] == GroupSelections(fields, key);
    } else {
      var c := children[0];
      var k := KeyOf(c.field);
      var next := GetOrCreateAndAppend(fields, c, c.selections);
      AppendEffect(fields, c, c.selections, key);
      KeysTail(children);
      MergeEffect(next, children[1..], key);
      OntoAppend(Keys(fields), [k], Keys(children[1..]));
      OntoElements(Keys(fields), [k]);
      if key == k {
        IndexOfKey(children[1..], key);
        MergeKey(fields, c);
        assert GroupSelections(children[1..], key) == [];
        assert GroupSelections(next, key) + [] == GroupSelections(next, key);
      }
    }
  }

  lemma {:induction false} GroupsField(fields: seq<CollectedField>, occurrences: seq<Selection>, f: Selection)
    requires f.Field? && Groups(fields, occurrences)
    ensures Groups(GetOrCreateAndAppend(fields, CollectedField(f, []), f.selections), occurrences + [f])
  {
    var r := GetOrCreateAndAppend(fields, CollectedField(f, []), f.selections);
    KeysOfAppend(occurrences, [f]);
    assert KeysOf([f]) == [KeyOf(f)];
    OntoAppend([], KeysOf(occurrences), KeysOf([f]));
    OntoElements([], KeysOf(occurrences));
    AppendEffect(fields, CollectedField(f, []), f.selections, KeyOf(f));
    forall key
      ensures GroupField(r, key) == First(occurrences + [f], key)
      ensures Same(GroupSelections(r, key), SubSelections(occurrences + [f], key))
    {
      AppendEffect(fields, CollectedField(f, []), f.selections, key);
      FirstAppend(occurrences, [f], key);
      SubSelectionsAppend(occurrences, [f], key);
      assert [f][1..] == [];
      var sub := if KeyOf(f) == key then f.selections else [];
      assert SubSelections([f], key) == sub by { assert f.selections + [] == f.selections; }
      SameAppend(GroupSelections(fields, key), SubSelections(occurrences, key), sub, sub);
      IndexOfKey(fields, key);
      assert [] + f.selections == f.selections;
      assert GroupSelections(r, key) == GroupSelections(fields, key) + sub;
    }
  }

  lemma {:induction false} GroupsMerge(fields: seq<CollectedField>, occurrences: seq<Selection>,
                                       children: seq<CollectedField>, more: seq<Selection>)
    requires Groups(fields, occurrences) && Groups(children, more)
    ensures Groups(Merge(fields, children), occurrences + more)
  {
    var r := Merge(fields, children);
    DedupProperties(KeysOf(more));
    OntoAppend([], KeysOf(occurrences), KeysOf(more));
    KeysOfAppend(occurrences, more);
    OntoDedup(Dedup(KeysOf(occurrences)), KeysOf(more));
    MergeEffect(fields, children, Key("", "", None));
    forall key
      ensures GroupField(r, key) == First(occurrences + more, key)
      ensures Same(GroupSelections(r, key), SubSelections(occurrences + more, key))
    {
      MergeEffect(fields, children, key);
      FirstAppend(occurrences, more, key);
      DedupProperties(KeysOf(occurrences));
      SubSelectionsAppend(occurrences, more, key);
      SameAppend(GroupSelections(fields, key), SubSelections(occurrences, key),
                 GroupSelections(children, key), SubSelections(more, key));
    }
  }

  /** The walk, continued from a grouping of earlier occurrences, groups those and its own. */
  lemma {:induction false} CollectGroups(op: Operation, selections: seq<Selection>, types: seq<string>,
                                         visited: set<string>, fields: seq<CollectedField>, earlier: seq<Selection>)
    requires Groups(fields, earlier)
    ensures var c := CollectOnto(op, selections, types, visited, fields);
            var w := Flatten(op, selections, types, visited);
            c.visited == w.visited && Groups(c.fields, earlier + w.fields)
    decreases op.fragments.Keys - visited, selections, 1
  {
    if selections == [] {
      assert earlier + [] == earlier;
    } else {
      CollectOneGroups(op, selections[0], types, visited, fields, earlier);
      var c := CollectOne(op, selections[0], types, visited, fields);
      var w := FlattenOne(op, selections[0], types, visited);
      CollectGroups(op, selections[1..], types, c.visited, c.fields, earlier + w.fields);
      var rest := Flatten(op, selections[1..], types, w.visited);
      assert (earlier + w.fields) + rest.fields == earlier + (w.fields + rest.fields);
    }
  }

  lemma {:induction false} CollectOneGroups(op: Operation, sel: Selection, types: seq<string>,
                                            visited: set<string>, fields: seq<CollectedField>, earlier: seq<Selection>)
    requires Groups(fields, earlier)
    ensures var c := CollectOne(op, sel, types, visited, fields);
            var w := FlattenOne(op, sel, types, visited);
            c.visited == w.visited && Groups(c.fields, earlier + w.fields)
    decreases op.fragments.Keys - visited, sel, 0
  {
    assert earlier + [] == earlier;
    if ShouldInclude(op, sel.directives) {
      match sel
      case Field(_, _, _, _, _, _, _, _) =>
        GroupsField(fields, earlier, sel);
      case InlineFragment(_, typeCondition, _, body) =>
        if Satisfies(typeCondition, types) {
          EmptyGroups();
          CollectGroups(op, body, types, visited, [], []);
          var c, w := CollectOnto(op, body, types, visited, []), Flatten(op, body, types, visited);
          assert [] + w.fields == w.fields;
          GroupsMerge(fields, earlier, c.fields, w.fields);
        }
      case FragmentSpread(_, name, _) =>
        if name !in visited && name in op.fragments && Satisfies(op.fragments[name].typeCondition, types) {
          var body := op.fragments[name].selections;
          EmptyGroups();
          CollectGroups(op, body, types, visited + {name}, [], []);
          var c, w := CollectOnto(op, body, types, visited + {name}, []), Flatten(op, body, types, visited + {name});
          assert [] + w.fields == w.fields;
          GroupsMerge(fields, earlier, c.fields, w.fields);
        }
    }
  }

  lemma {:induction false} EmptyGroups()
    ensures Groups([], [])
  {
    assert Keys([]) == [] && KeysOf([]) == [];
  }

  /** Grouping is right. Keys are pairwise distinct and in first-occurrence order; each group is
      led by its first occurrence; its selections, later duplicates dropped, are those of its
      occurrences in order. */
  lemma {:induction false} CollectFieldsGroups(op: Operation, selections: seq<Selection>, types: seq<string>)
    ensures var fields := CollectFields(op, selections, types);
            var occurrences := Flatten(op, selections, types, {}).fields;
            && Distinct(Keys(fields))
            && Keys(fields) == Dedup(KeysOf(occurrences))
            && forall i :: 0 <= i < |fields| ==>
                 && First(occurrences, KeyOf(fields[i].field)) == Some(fields[i].field)
                 && Dedup(fields[i].selections) == Dedup(SubSelections(occurrences, KeyOf(fields[i].field)))
  {
    EmptyGroups();
    CollectGroups(op, selections, types, {}, [], []);
    var fields := CollectFields(op, selections, types);
    var occurrences := Flatten(op, selections, types, {}).fields;
    assert [] + occurrences == occurrences;
    DedupProperties(KeysOf(occurrences));
    forall i | 0 <= i < |fields|
      ensures First(occurrences, KeyOf(fields[i].field)) == Some(fields[i].field)
      ensures Same(fields[i].selections, SubSelections(occurrences, KeyOf(fields[i].field)))
    {
      IndexOfUnique(fields, i);
      assert GroupField(fields, KeyOf(fields[i].field)) == Some(fields[i].field);
      assert GroupSelections(fields, KeyOf(fields[i].field)) == fields[i].selections;
    }
  }
}
