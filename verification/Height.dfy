/** How deep fields nest in a query, fragments included; acyclic documents nest to some depth only. */
module Height {
  import opened Wrappers
  import opened Query
  import opened FieldCollection
  import opened Complexity
  import opened ComplexityLaws
  import opened Reachability

  /** Fields nest at most `h` deep, whatever the types. */
  ghost predicate Low(op: Operation, selections: seq<Selection>, h: nat)
    decreases h
  {
    forall f :: Reachable(op, [], selections, f) ==> h > 0 && Low(op, f.selections, h - 1)
  }

  // --- Reaching a field is reaching it from some selection ---

  lemma {:induction false} ReachedFromOne(op: Operation, selections: seq<Selection>, f: Selection)
    returns (s: Selection)
    requires Reachable(op, [], selections, f)
    ensures s in selections && (f == s || (Enters(op, [], s) && Reachable(op, [], Body(op, s), f)))
    ensures forall other: seq<Selection> :: s in other ==> Reachable(op, [], other, f)
  {
    var chain :| Chain(op, [], selections, chain, f);
    s := if chain == [] then f else chain[0];
    if chain != [] {
      assert Chain(op, [], Body(op, s), chain[1..], f);
    }
    forall other: seq<Selection> | s in other ensures Reachable(op, [], other, f) {
      assert Chain(op, [], other, chain, f);
    }
  }

  /** Selections each of which is in a low list make a low list. */
  lemma {:induction false} LowFromParts(op: Operation, selections: seq<Selection>, parts: Selection -> seq<Selection>,
                                        h: nat)
    requires forall s :: s in selections ==> s in parts(s) && Low(op, parts(s), h)
    ensures Low(op, selections, h)
  {
    forall f | Reachable(op, [], selections, f) ensures h > 0 && Low(op, f.selections, h - 1) {
      var s := ReachedFromOne(op, selections, f);
      assert Reachable(op, [], parts(s), f);
    }
  }

  lemma {:induction false} LowGrows(op: Operation, selections: seq<Selection>, h: nat, h': nat)
    requires Low(op, selections, h) && h <= h'
    ensures Low(op, selections, h')
    decreases h
  {
    forall f | Reachable(op, [], selections, f) ensures h' > 0 && Low(op, f.selections, h' - 1) {
      LowGrows(op, f.selections, h - 1, h' - 1);
    }
  }

  // --- Acyclic documents ---

  lemma {:induction false} LowField(op: Operation, f: Selection, h: nat)
    requires f.Field? && Low(op, f.selections, h)
    ensures Low(op, [f], h + 1)
  {
    forall g | Reachable(op, [], [f], g) ensures Low(op, g.selections, h) {
      var s := ReachedFromOne(op, [f], g);
    }
  }

  lemma {:induction false} LowFragment(op: Operation, s: Selection, h: nat)
    requires !s.Field? && Low(op, Body(op, s), h)
    ensures Low(op, [s], h)
  {
    forall g | Reachable(op, [], [s], g) ensures h > 0 && Low(op, g.selections, h - 1) {
      var t := ReachedFromOne(op, [s], g);
    }
  }

  lemma {:induction false} LowOne(op: Operation, s: Selection, rank: map<string, nat>, below: nat) returns (h: nat)
    requires Acyclic(op, rank) && SpreadBelow(op, s, rank, below)
    ensures Low(op, [s], h)
    decreases below, s, 0
  {
    match s
    case Field(_, _, _, _, _, _, _, inner) =>
      h := LowAll(op, inner, rank, below);
      LowField(op, s, h);
      h := h + 1;
    case InlineFragment(_, _, _, inner) =>
      h := LowAll(op, inner, rank, below);
      LowFragment(op, s, h);
    case FragmentSpread(_, name, _) =>
      h := LowAll(op, op.fragments[name].selections, rank, rank[name]);
      LowFragment(op, s, h);
  }

  /** The fields of an acyclic document nest to some depth only. */
  lemma {:induction false} LowAll(op: Operation, selections: seq<Selection>, rank: map<string, nat>, below: nat)
    returns (h: nat)
    requires Acyclic(op, rank) && SpreadsBelow(op, selections, rank, below)
    ensures Low(op, selections, h)
    decreases below, selections, 1
  {
    h := 0;
    if selections == [] {
      LowFromParts(op, selections, s => [s], 0);
    } else {
      var first := LowOne(op, selections[0], rank, below);
      var rest := LowAll(op, selections[1..], rank, below);
      h := if first < rest then rest else first;
      LowGrows(op, [selections[0]], first, h);
      LowGrows(op, selections[1..], rest, h);
      LowFromParts(op, selections, s => if s == selections[0] then [s] else selections[1..], h);
    }
  }

  // --- Groups ---

  /** What a group nests is one level lower than what was collected. */
  lemma {:induction false} GroupsAreLower(op: Operation, selections: seq<Selection>, types: seq<string>, h: nat, i: nat)
    requires Low(op, selections, h) && i < |CollectFields(op, selections, types)|
    ensures h > 0 && Low(op, CollectFields(op, selections, types)[i].selections, h - 1)
  {
    var fields := CollectFields(op, selections, types);
    var key := KeyOf(fields[i].field);
    CollectFieldsIsReachability(op, selections, types);
    assert Keys(fields)[i] == key && key in Keys(fields);
    var f :| Reachable(op, types, selections, f) && KeyOf(f) == key;
    AnyType(op, types, selections, f);
    forall g | Reachable(op, [], fields[i].selections, g) ensures h - 1 > 0 && Low(op, g.selections, h - 2) {
      var s := ReachedFromOne(op, fields[i].selections, g);
      var lead :| Reachable(op, types, selections, lead) && KeyOf(lead) == key && s in lead.selections;
      AnyType(op, types, selections, lead);
      assert Low(op, lead.selections, h - 1) && Reachable(op, [], lead.selections, g);
    }
  }

  lemma {:induction false} AnyType(op: Operation, types: seq<string>, selections: seq<Selection>, f: Selection)
    requires Reachable(op, types, selections, f)
    ensures Reachable(op, [], selections, f)
  {
    var chain :| Chain(op, types, selections, chain, f);
    ChainAnyType(op, types, selections, chain, f);
  }
}
