/** `CollectFields` as the source runs it: a loop that appends to a list of groups in place and
    shares one mutable set of visited fragments with every recursive call. */
module Collector {
  import opened Wrappers
  import opened Query
  import opened Duplicates
  import opened FieldCollection
  import opened Flattening
  import opened Grouping
  import opened Reachability

  /** The map of fragment names already spread, shared across the recursion. */
  class Visited {
    var names: set<string>

    constructor ()
      ensures names == {}
    {
      names := {};
    }
  }

  /** The list of groups a call builds, updated through a pointer. */
  class GroupedFields {
    var fields: seq<CollectedField>

    constructor ()
      ensures fields == []
    {
      fields := [];
    }

    /** Scan for the group with the creator's key; append the creator if there is none. */
    method GetOrCreateAndAppendField(creator: CollectedField) returns (i: nat)
      modifies this
      ensures i == IndexOf(old(fields), KeyOf(creator.field))
      ensures fields == if i < |old(fields)| then old(fields) else old(fields) + [creator]
    {
      i := 0;
      while i < |fields|
        invariant i <= |fields|
        invariant forall j :: 0 <= j < i ==> KeyOf(fields[j].field) != KeyOf(creator.field)
        invariant fields == old(fields)
      {
        if KeyOf(fields[i].field) == KeyOf(creator.field) {
          return;
        }
        i := i + 1;
      }
      fields := fields + [creator];
    }

    /** `f := getOrCreateAndAppendField(...); f.Selections = append(f.Selections, extra...)` */
    method AppendSelections(creator: CollectedField, extra: seq<Selection>)
      modifies this
      ensures fields == GetOrCreateAndAppend(old(fields), creator, extra)
    {
      var i := GetOrCreateAndAppendField(creator);
      fields := fields[i := fields[i].(selections := fields[i].selections + extra)];
      assert i == |old(fields)| ==>
        fields == old(fields) + [creator.(selections := creator.selections + extra)];
    }

    /** The loop over the groups collected from a fragment. */
    method AppendChildren(children: seq<CollectedField>)
      modifies this
      ensures fields == Merge(old(fields), children)
    {
      var i := 0;
      while i < |children|
        invariant 0 <= i <= |children|
        invariant Merge(fields, children[i..]) == Merge(old(fields), children)
      {
        assert children[i..][0] == children[i] && children[i..][1..] == children[i + 1..];
        AppendSelections(children[i], children[i].selections);
        i := i + 1;
      }
      assert children[i..] == [];
    }
  }

  lemma {:induction false} SelectionsInTurn(op: Operation, s: seq<Selection>, i: nat)
    requires Valid(op, s) && i < |s|
    ensures ValidSelection(op, s[i])
    ensures s[i..] != [] && s[i..][0] == s[i] && s[i..][1..] == s[i + 1..]
    ensures s[i].FragmentSpread? || ValidSelections(op, s[i].selections)
  {
  }

  /** The recursive walk. No step of it can reach the source's "missing fragment" panic. */
  method CollectWith(op: Operation, selSet: seq<Selection>, satisfies_: seq<string>, visited: Visited)
    returns (grouped: seq<CollectedField>)
    requires Valid(op, selSet)
    modifies visited
    ensures Collected(grouped, visited.names) == CollectOnto(op, selSet, satisfies_, old(visited.names), [])
    decreases op.fragments.Keys - visited.names, selSet
  {
    var groupedFields := new GroupedFields();
    var i := 0;
    ghost var v0 := visited.names;
    while i < |selSet|
      invariant 0 <= i <= |selSet|
      invariant v0 <= visited.names
      invariant CollectOnto(op, selSet[i..], satisfies_, visited.names, groupedFields.fields)
             == CollectOnto(op, selSet, satisfies_, v0, [])
    {
      var sel := selSet[i];
      SelectionsInTurn(op, selSet, i);
      i := i + 1;
      if !ShouldInclude(op, sel.directives) {
        continue;
      }
      match sel
      case Field(_, _, _, _, _, _, _, subselections) =>
        groupedFields.AppendSelections(CollectedField(sel, []), subselections);
      case InlineFragment(_, typeCondition, _, body) =>
        if |satisfies_| > 0 && typeCondition !in satisfies_ {
          continue;
        }
        var children := CollectWith(op, body, satisfies_, visited);
        groupedFields.AppendChildren(children);
      case FragmentSpread(_, name, _) =>
        if name in visited.names {
          continue;
        }
        visited.names := visited.names + {name};
        assert name in op.fragments;
        var fragment := op.fragments[name];
        if |satisfies_| > 0 && fragment.typeCondition !in satisfies_ {
          continue;
        }
        var children := CollectWith(op, fragment.selections, satisfies_, visited);
        groupedFields.AppendChildren(children);
    }
    assert selSet[i..] == [];
    grouped := groupedFields.fields;
  }

  method CollectFieldsOf(op: Operation, selSet: seq<Selection>, satisfies_: seq<string>)
    returns (grouped: seq<CollectedField>)
    requires Valid(op, selSet)
    ensures grouped == CollectFields(op, selSet, satisfies_)
  {
    var visited := new Visited();
    grouped := CollectWith(op, selSet, satisfies_, visited);
  }

  // --- CollectAllFields ---

  function Names(fields: seq<CollectedField>): seq<string> {
    seq(|fields|, i requires 0 <= i < |fields| => KeyOf(fields[i].field).name)
  }

  /** The names selected, whatever the type conditions, without duplicates: exactly the names of
      the fields some chain of included fragments leads to. */
  method CollectAllFields(op: Operation, selSet: seq<Selection>) returns (uniq: seq<string>)
    requires Valid(op, selSet)
    ensures uniq == Dedup(Names(CollectFields(op, selSet, []))) && Distinct(uniq)
    ensures forall name :: name in uniq <==> exists f :: Reachable(op, [], selSet, f) && f.name == name
  {
    var collected := CollectFieldsOf(op, selSet, []);
    ghost var names := Names(collected);
    uniq := [];
    var i := 0;
    while i < |collected|
      invariant 0 <= i <= |collected|
      invariant Onto(uniq, names[i..]) == Dedup(names)
    {
      var name := KeyOf(collected[i].field).name;
      assert names[i..][0] == name && names[i..][1..] == names[i + 1..];
      var j := 0;
      while j < |uniq| && uniq[j] != name
        invariant 0 <= j <= |uniq|
        invariant forall k :: 0 <= k < j ==> uniq[k] != name
      {
        j := j + 1;
      }
      if j == |uniq| {
        uniq := uniq + [name];
      }
      i := i + 1;
    }
    assert names[i..] == [];
    DedupProperties(names);
    NamesAreReachable(op, selSet);
  }

  lemma {:induction false} NamesAreReachable(op: Operation, selSet: seq<Selection>)
    ensures forall name :: name in Names(CollectFields(op, selSet, []))
                           <==> exists f :: Reachable(op, [], selSet, f) && f.name == name
  {
    var fields := CollectFields(op, selSet, []);
    var names := Names(fields);
    CollectFieldsIsReachability(op, selSet, []);
    forall name
      ensures name in names <==> exists f :: Reachable(op, [], selSet, f) && f.name == name
    {
      if name in names {
        var i :| 0 <= i < |names| && names[i] == name;
        var key := KeyOf(fields[i].field);
        assert Keys(fields)[i] == key;
        assert key in Keys(fields);
        var f :| Reachable(op, [], selSet, f) && KeyOf(f) == key;
        assert f.name == name;
      }
      if f :| Reachable(op, [], selSet, f) && f.name == name {
        assert KeyOf(f) in Keys(fields);
        var i :| 0 <= i < |fields| && Keys(fields)[i] == KeyOf(f);
        assert names[i] == name;
      }
    }
  }
}
