/** Collection is reachability in the graph of inline fragments and spreads, cyclic or not. */
module Reachability {
  import opened Wrappers
  import opened Query
  import opened Directives
  import opened Duplicates
  import opened FieldCollection
  import opened Flattening
  import opened Grouping

  /** `s` is a fragment that the filter and the directives let through. */
  ghost predicate Enters(op: Operation, types: seq<string>, s: Selection) {
    Kept(op, s.directives) &&
    match s
    case Field(_, _, _, _, _, _, _, _) => false
    case InlineFragment(_, typeCondition, _, _) => LetsThrough(types, typeCondition)
    case FragmentSpread(_, name, _) => name in op.fragments && LetsThrough(types, op.fragments[name].typeCondition)
  }

  /** It is entered exactly if the walk enters it. */
  lemma {:induction false} EntersExactly(op: Operation, types: seq<string>, s: Selection)
    ensures Enters(op, types, s) <==>
              && ShouldInclude(op, s.directives) && !s.Field?
              && (s.InlineFragment? ==> Satisfies(s.typeCondition, types))
              && (s.FragmentSpread? ==>
                    s.name in op.fragments && Satisfies(op.fragments[s.name].typeCondition, types))
  {
    IncludedExactlyIfKept(op, s.directives);
    if s.InlineFragment? {
      SatisfiedExactlyIfLetThrough(s.typeCondition, types);
    } else if s.FragmentSpread? && s.name in op.fragments {
      SatisfiedExactlyIfLetThrough(op.fragments[s.name].typeCondition, types);
    }
  }

  function Body(op: Operation, s: Selection): seq<Selection> {
    match s
    case FragmentSpread(_, name, _) => if name in op.fragments then op.fragments[name].selections else []
    case _ => s.selections
  }

  /** `chain` is a way from `selections`, through fragments that are entered, to the field `f`. */
  ghost predicate Chain(op: Operation, types: seq<string>, selections: seq<Selection>,
                        chain: seq<Selection>, f: Selection)
    decreases |chain|
  {
    if chain == [] then f.Field? && f in selections && Kept(op, f.directives)
    else chain[0] in selections && Enters(op, types, chain[0])
         && Chain(op, types, Body(op, chain[0]), chain[1..], f)
  }

  ghost predicate Reachable(op: Operation, types: seq<string>, selections: seq<Selection>, f: Selection) {
    f.Field? && exists chain :: Chain(op, types, selections, chain, f)
  }

  // --- Soundness: what is met is reachable ---

  lemma {:induction false} ChainWeaken(op: Operation, types: seq<string>, a: seq<Selection>, b: seq<Selection>,
                                       chain: seq<Selection>, f: Selection)
    requires Chain(op, types, a, chain, f)
    requires forall s :: s in a ==> s in b
    ensures Chain(op, types, b, chain, f)
  {
  }

  lemma {:induction false} EnterReachable(op: Operation, types: seq<string>, s: Selection, f: Selection)
    requires Enters(op, types, s) && Reachable(op, types, Body(op, s), f)
    ensures Reachable(op, types, [s], f)
  {
    var chain :| Chain(op, types, Body(op, s), chain, f);
    assert ([s] + chain)[1..] == chain;
    assert Chain(op, types, [s], [s] + chain, f);
  }

  lemma {:induction false} FlattenSound(op: Operation, types: seq<string>, selections: seq<Selection>,
                                        visited: set<string>, f: Selection)
    requires f in Flatten(op, selections, types, visited).fields
    ensures Reachable(op, types, selections, f)
    decreases op.fragments.Keys - visited, selections, 1
  {
    var w := FlattenOne(op, selections[0], types, visited);
    if f in w.fields {
      FlattenOneSound(op, types, selections[0], visited, f);
      var chain :| Chain(op, types, [selections[0]], chain, f);
      ChainWeaken(op, types, [selections[0]], selections, chain, f);
    } else {
      FlattenSound(op, types, selections[1..], w.visited, f);
      var chain :| Chain(op, types, selections[1..], chain, f);
      ChainWeaken(op, types, selections[1..], selections, chain, f);
    }
  }

  lemma {:induction false} FlattenOneSound(op: Operation, types: seq<string>, s: Selection,
                                           visited: set<string>, f: Selection)
    requires f in FlattenOne(op, s, types, visited).fields
    ensures Reachable(op, types, [s], f)
    decreases op.fragments.Keys - visited, s, 0
  {
    IncludedExactlyIfKept(op, s.directives);
    EntersExactly(op, types, s);
    match s
    case Field(_, _, _, _, _, _, _, _) =>
      assert Chain(op, types, [s], [], f);
    case InlineFragment(_, _, _, body) =>
      FlattenSound(op, types, body, visited, f);
      EnterReachable(op, types, s, f);
    case FragmentSpread(_, name, _) =>
      FlattenSound(op, types, op.fragments[name].selections, visited + {name}, f);
      EnterReachable(op, types, s, f);
  }

  // --- Completeness: the walk leaves nothing behind ---

  /** Everything `s` leads to without going through another spread is among `fields`, and the
      spreads met on the way are among `visited`. */
  ghost predicate CoveredOne(op: Operation, types: seq<string>, s: Selection,
                             fields: seq<Selection>, visited: set<string>)
    decreases s
  {
    ShouldInclude(op, s.directives) ==>
      match s
      case Field(_, _, _, _, _, _, _, _) => s in fields
      case InlineFragment(_, typeCondition, _, body) =>
        Satisfies(typeCondition, types) ==>
          forall i :: 0 <= i < |body| ==> CoveredOne(op, types, body[i], fields, visited)
      case FragmentSpread(_, name, _) => name in visited
  }

  ghost predicate Covered(op: Operation, types: seq<string>, selections: seq<Selection>,
                          fields: seq<Selection>, visited: set<string>)
  {
    forall i :: 0 <= i < |selections| ==> CoveredOne(op, types, selections[i], fields, visited)
  }

  /** The fragment's body is covered, if the filter lets the fragment through at all. */
  ghost predicate CoveredFragment(op: Operation, types: seq<string>, name: string,
                                  fields: seq<Selection>, visited: set<string>)
  {
    name in op.fragments && Satisfies(op.fragments[name].typeCondition, types)
    ==> Covered(op, types, op.fragments[name].selections, fields, visited)
  }

  lemma {:induction false} CoveredOneGrows(op: Operation, types: seq<string>, s: Selection,
                                           fields: seq<Selection>, visited: set<string>,
                                           fields': seq<Selection>, visited': set<string>)
    requires CoveredOne(op, types, s, fields, visited)
    requires visited <= visited' && forall f :: f in fields ==> f in fields'
    ensures CoveredOne(op, types, s, fields', visited')
    decreases s
  {
    if s.InlineFragment? && ShouldInclude(op, s.directives) && Satisfies(s.typeCondition, types) {
      forall i | 0 <= i < |s.selections| ensures CoveredOne(op, types, s.selections[i], fields', visited') {
        CoveredOneGrows(op, types, s.selections[i], fields, visited, fields', visited');
      }
    }
  }

  lemma {:induction false} CoveredGrows(op: Operation, types: seq<string>, selections: seq<Selection>,
                                        fields: seq<Selection>, visited: set<string>,
                                        fields': seq<Selection>, visited': set<string>)
    requires Covered(op, types, selections, fields, visited)
    requires visited <= visited' && forall f :: f in fields ==> f in fields'
    ensures Covered(op, types, selections, fields', visited')
  {
    forall i | 0 <= i < |selections| ensures CoveredOne(op, types, selections[i], fields', visited') {
      CoveredOneGrows(op, types, selections[i], fields, visited, fields', visited');
    }
  }

  /** After a walk its selections are covered, and so is every fragment it was first to visit. */
  lemma {:induction false} FlattenCovers(op: Operation, types: seq<string>, selections: seq<Selection>,
                                         visited: set<string>)
    ensures var w := Flatten(op, selections, types, visited);
            && Covered(op, types, selections, w.fields, w.visited)
            && forall name :: name in w.visited && name !in visited ==>
                 CoveredFragment(op, types, name, w.fields, w.visited)
    decreases op.fragments.Keys - visited, selections, 1
  {
    if selections != [] {
      var s := selections[0];
      var w := FlattenOne(op, s, types, visited);
      var rest := Flatten(op, selections[1..], types, w.visited);
      var all := Flatten(op, selections, types, visited);
      FlattenOneCovers(op, types, s, visited);
      FlattenCovers(op, types, selections[1..], w.visited);
      CoveredOneGrows(op, types, s, w.fields, w.visited, all.fields, all.visited);
      CoveredGrows(op, types, selections[1..], rest.fields, rest.visited, all.fields, all.visited);
      forall i | 0 <= i < |selections|
        ensures CoveredOne(op, types, selections[i], all.fields, all.visited)
      {
        if i > 0 { assert selections[i] == selections[1..][i - 1]; }
      }
      forall name | name in all.visited && name !in visited
        ensures CoveredFragment(op, types, name, all.fields, all.visited)
      {
        FragmentGrows(op, types, name, w, rest, all);
      }
    }
  }

  lemma {:induction false} FragmentGrows(op: Operation, types: seq<string>, name: string, w: Walk, rest: Walk,
                                         all: Walk)
    requires w.visited <= all.visited && rest.visited == all.visited && all.fields == w.fields + rest.fields
    requires CoveredFragment(op, types, name, w.fields, w.visited)
          || CoveredFragment(op, types, name, rest.fields, rest.visited)
    ensures CoveredFragment(op, types, name, all.fields, all.visited)
  {
    if name in op.fragments && Satisfies(op.fragments[name].typeCondition, types) {
      var body := op.fragments[name].selections;
      if Covered(op, types, body, w.fields, w.visited) {
        CoveredGrows(op, types, body, w.fields, w.visited, all.fields, all.visited);
      } else {
        CoveredGrows(op, types, body, rest.fields, rest.visited, all.fields, all.visited);
      }
    }
  }

  lemma {:induction false} FlattenOneCovers(op: Operation, types: seq<string>, s: Selection, visited: set<string>)
    ensures var w := FlattenOne(op, s, types, visited);
            && CoveredOne(op, types, s, w.fields, w.visited)
            && forall name :: name in w.visited && name !in visited ==>
                 CoveredFragment(op, types, name, w.fields, w.visited)
    decreases op.fragments.Keys - visited, s, 0
  {
    if ShouldInclude(op, s.directives) {
      match s
      case Field(_, _, _, _, _, _, _, _) =>
      case InlineFragment(_, typeCondition, _, body) =>
        if Satisfies(typeCondition, types) {
          FlattenCovers(op, types, body, visited);
        }
      case FragmentSpread(_, name, _) =>
        if name !in visited && name in op.fragments && Satisfies(op.fragments[name].typeCondition, types) {
          FlattenCovers(op, types, op.fragments[name].selections, visited + {name});
        }
    }
  }

  /** If `selections` and all visited fragments are covered, no chain leads out of `fields`. */
  lemma {:induction false} ChainStays(op: Operation, types: seq<string>, selections: seq<Selection>,
                                      fields: seq<Selection>, visited: set<string>, chain: seq<Selection>, f: Selection)
    requires Covered(op, types, selections, fields, visited)
    requires forall name :: name in visited ==> CoveredFragment(op, types, name, fields, visited)
    requires Chain(op, types, selections, chain, f)
    ensures f in fields
    decreases |chain|
  {
    if chain == [] {
      IncludedExactlyIfKept(op, f.directives);
    } else {
      EntersExactly(op, types, chain[0]);
      var i :| 0 <= i < |selections| && selections[i] == chain[0];
      assert CoveredOne(op, types, selections[i], fields, visited);
      ChainStays(op, types, Body(op, chain[0]), fields, visited, chain[1..], f);
    }
  }

  /** Collection is exact graph reachability: an occurrence is met by the walk from no visited
      fragments if and only if some chain of entered fragments leads to it. */
  lemma {:induction false} FlattenIsReachability(op: Operation, types: seq<string>, selections: seq<Selection>,
                                                 f: Selection)
    ensures f in Flatten(op, selections, types, {}).fields <==> Reachable(op, types, selections, f)
  {
    var w := Flatten(op, selections, types, {});
    if f in w.fields {
      FlattenSound(op, types, selections, {}, f);
    }
    if Reachable(op, types, selections, f) {
      var chain :| Chain(op, types, selections, chain, f);
      FlattenCovers(op, types, selections, {});
      ChainStays(op, types, selections, w.fields, w.visited, chain, f);
    }
  }

  // --- The same for the groups CollectFields returns ---

  lemma {:induction false} SubSelectionsElements(fields: seq<Selection>, key: Key)
    requires forall f :: f in fields ==> f.Field?
    ensures forall s :: s in SubSelections(fields, key)
                        <==> exists f :: f in fields && KeyOf(f) == key && s in f.selections
  {
    if fields != [] {
      SubSelectionsElements(fields[1..], key);
      assert fields == [fields[0]] + fields[1..];
    }
  }

  lemma {:induction false} KeysOfElements(met: seq<Selection>)
    ensures forall key :: key in KeysOf(met) <==> exists f :: f in met && KeyOf(f) == key
  {
    forall key
      ensures key in KeysOf(met) <==> exists f :: f in met && KeyOf(f) == key
    {
      if key in KeysOf(met) {
        var i :| 0 <= i < |KeysOf(met)| && KeysOf(met)[i] == key;
        assert met[i] in met && KeyOf(met[i]) == key;
      }
      if f :| f in met && KeyOf(f) == key {
        var i :| 0 <= i < |met| && met[i] == f;
        assert KeysOf(met)[i] == key;
      }
    }
  }

  /** A group exists for a key iff a reachable occurrence has the key, and holds a sub-selection
      iff a reachable occurrence with the key does. */
  lemma {:induction false} CollectFieldsIsReachability(op: Operation, selections: seq<Selection>, types: seq<string>)
    ensures var fields := CollectFields(op, selections, types);
            && (forall key :: key in Keys(fields)
                  <==> exists f :: Reachable(op, types, selections, f) && KeyOf(f) == key)
            && (forall i, s :: 0 <= i < |fields| ==>
                  (s in fields[i].selections
                   <==> exists f :: Reachable(op, types, selections, f)
                                    && KeyOf(f) == KeyOf(fields[i].field) && s in f.selections))
  {
    var fields := CollectFields(op, selections, types);
    var met := Flatten(op, selections, types, {}).fields;
    CollectFieldsGroups(op, selections, types);
    DedupProperties(KeysOf(met));
    forall f ensures f in met <==> Reachable(op, types, selections, f) {
      FlattenIsReachability(op, types, selections, f);
    }
    KeysOfElements(met);
    forall i | 0 <= i < |fields|
      ensures forall s :: (s in fields[i].selections
                           <==> exists f :: f in met && KeyOf(f) == KeyOf(fields[i].field) && s in f.selections)
    {
      SameElements(fields[i].selections, SubSelections(met, KeyOf(fields[i].field)));
      SubSelectionsElements(met, KeyOf(fields[i].field));
    }
  }

  /** Fields that are collected into one group: of one name, one alias and one object definition. */
  predicate Merged(f: Selection, g: Selection) {
    f.Field? && g.Field? && f.name == g.name && f.alias == g.alias && f.objectDefinition == g.objectDefinition
  }

  lemma {:induction false} MergedExactly(f: Selection, g: Selection)
    requires f.Field? && g.Field?
    ensures KeyOf(f) == KeyOf(g) <==> Merged(f, g)
  {
  }

  /** The groups, said over the fields themselves: each is led by a reachable one, no two are of the
      same name, alias and object definition, every reachable field has one, and a group holds the
      sub-selections of its reachable fields and no others. */
  lemma {:induction false} GroupsAreExact(op: Operation, selections: seq<Selection>, types: seq<string>)
    ensures var fields := CollectFields(op, selections, types);
            && (forall i, j :: 0 <= i < j < |fields| ==> !Merged(fields[i].field, fields[j].field))
            && (forall i :: 0 <= i < |fields| ==> Reachable(op, types, selections, fields[i].field))
            && (forall f :: Reachable(op, types, selections, f) ==>
                  exists i :: 0 <= i < |fields| && Merged(fields[i].field, f))
            && (forall i, s :: 0 <= i < |fields| ==>
                  (s in fields[i].selections
                   <==> exists f :: Reachable(op, types, selections, f)
                                    && Merged(fields[i].field, f) && s in f.selections))
  {
    var fields := CollectFields(op, selections, types);
    CollectFieldsGroups(op, selections, types);
    CollectFieldsIsReachability(op, selections, types);
    forall i | 0 <= i < |fields| ensures Reachable(op, types, selections, fields[i].field) {
      FlattenIsReachability(op, types, selections, fields[i].field);
    }
    forall i, j | 0 <= i < j < |fields| ensures !Merged(fields[i].field, fields[j].field) {
      assert Keys(fields)[i] != Keys(fields)[j];
    }
    forall f | Reachable(op, types, selections, f) ensures exists i :: 0 <= i < |fields| && Merged(fields[i].field, f) {
      assert KeyOf(f) in Keys(fields);
      var i :| 0 <= i < |fields| && Keys(fields)[i] == KeyOf(f);
      MergedExactly(fields[i].field, f);
    }
    forall i, s | 0 <= i < |fields|
      ensures s in fields[i].selections
              <==> exists f :: Reachable(op, types, selections, f) && Merged(fields[i].field, f) && s in f.selections
    {
      HoldsExactly(op, selections, types, fields, i, s);
    }
  }

  lemma {:induction false} HoldsExactly(op: Operation, selections: seq<Selection>, types: seq<string>,
                                        fields: seq<CollectedField>, i: nat, s: Selection)
    requires i < |fields| && fields[i].field.Field?
    requires s in fields[i].selections
             <==> exists f :: Reachable(op, types, selections, f)
                              && KeyOf(f) == KeyOf(fields[i].field) && s in f.selections
    ensures s in fields[i].selections
            <==> exists f :: Reachable(op, types, selections, f) && Merged(fields[i].field, f) && s in f.selections
  {
    if s in fields[i].selections {
      var f :| Reachable(op, types, selections, f) && KeyOf(f) == KeyOf(fields[i].field) && s in f.selections;
      MergedExactly(fields[i].field, f);
    }
    if f :| Reachable(op, types, selections, f) && Merged(fields[i].field, f) && s in f.selections {
      MergedExactly(fields[i].field, f);
    }
  }

  // --- The filter ---

  lemma {:induction false} ChainAnyType(op: Operation, types: seq<string>, selections: seq<Selection>,
                                        chain: seq<Selection>, f: Selection)
    requires Chain(op, types, selections, chain, f)
    ensures Chain(op, [], selections, chain, f)
    decreases |chain|
  {
    if chain != [] {
      ChainAnyType(op, types, Body(op, chain[0]), chain[1..], f);
    }
  }

  /** An empty filter collects a superset of what any filter collects, although visiting more
      fragments earlier may change where an occurrence is met. */
  lemma {:induction false} EmptyFilterCollectsMost(op: Operation, selections: seq<Selection>, types: seq<string>,
                                                   key: Key)
    requires key in Keys(CollectFields(op, selections, types))
    ensures key in Keys(CollectFields(op, selections, []))
    ensures var a := CollectFields(op, selections, types);
            var b := CollectFields(op, selections, []);
            forall s :: s in GroupSelections(a, key) ==> s in GroupSelections(b, key)
  {
    var a := CollectFields(op, selections, types);
    var b := CollectFields(op, selections, []);
    CollectFieldsIsReachability(op, selections, types);
    CollectFieldsIsReachability(op, selections, []);
    forall f | Reachable(op, types, selections, f) ensures Reachable(op, [], selections, f) {
      var chain :| Chain(op, types, selections, chain, f);
      ChainAnyType(op, types, selections, chain, f);
    }
    IndexOfKey(a, key);
    IndexOfKey(b, key);
    forall s | s in GroupSelections(a, key) ensures s in GroupSelections(b, key) {
      assert s in a[IndexOf(a, key)].selections;
      var f :| Reachable(op, types, selections, f) && KeyOf(f) == key && s in f.selections;
      assert Reachable(op, [], selections, f);
      assert s in b[IndexOf(b, key)].selections;
    }
  }
}
