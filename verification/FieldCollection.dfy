/** `CollectFields` as a computation on values: the walk of graphql/executable_schema.go. */
module FieldCollection {
  import opened Wrappers
  import opened Query

  /** The grouping key: name, alias and object definition, not the response key alone. */
  datatype Key = Key(name: string, alias: string, objectDefinition: Option<string>)

  datatype CollectedField = CollectedField(field: Selection, selections: seq<Selection>)

  function KeyOf(f: Selection): Key {
    if f.Field? then Key(f.name, f.alias, f.objectDefinition) else Key("", "", None)
  }

  function Keys(fields: seq<CollectedField>): seq<Key> {
    seq(|fields|, i requires 0 <= i < |fields| => KeyOf(fields[i].field))
  }

  /** Index of the first group with that key, or the number of groups. */
  function IndexOf(fields: seq<CollectedField>, key: Key): (i: nat)
    ensures i <= |fields|
    ensures i < |fields| ==> KeyOf(fields[i].field) == key
    ensures forall j :: 0 <= j < i ==> KeyOf(fields[j].field) != key
  {
    if fields == [] then 0
    else if KeyOf(fields[0].field) == key then 0
    else 1 + IndexOf(fields[1..], key)
  }

  /** Find the group of `creator`'s key, or append `creator` as a new group; then append `extra`
      to that group's selections. */
  function GetOrCreateAndAppend(fields: seq<CollectedField>, creator: CollectedField, extra: seq<Selection>)
    : seq<CollectedField>
  {
    var i := IndexOf(fields, KeyOf(creator.field));
    if i < |fields| then fields[i := fields[i].(selections := fields[i].selections + extra)]
    else fields + [creator.(selections := creator.selections + extra)]
  }

  /** Merge the groups collected from a fragment. A group that is new here is created from the
      child, selections included, and then has the child's selections appended again. */
  function Merge(fields: seq<CollectedField>, children: seq<CollectedField>): seq<CollectedField>
    decreases |children|
  {
    if children == [] then fields
    else Merge(GetOrCreateAndAppend(fields, children[0], children[0].selections), children[1..])
  }

  datatype Collected = Collected(fields: seq<CollectedField>, visited: set<string>)

  /** Continue the walk over `selections`, with the groups and the visited fragments so far. */
  function CollectOnto(op: Operation, selections: seq<Selection>, types: seq<string>,
                       visited: set<string>, fields: seq<CollectedField>): (c: Collected)
    ensures visited <= c.visited
    decreases op.fragments.Keys - visited, selections, 1
  {
    if selections == [] then Collected(fields, visited)
    else
      var c := CollectOne(op, selections[0], types, visited, fields);
      CollectOnto(op, selections[1..], types, c.visited, c.fields)
  }

  /** One turn of the loop. */
  function CollectOne(op: Operation, sel: Selection, types: seq<string>,
                      visited: set<string>, fields: seq<CollectedField>): (c: Collected)
    ensures visited <= c.visited
    decreases op.fragments.Keys - visited, sel, 0
  {
    if !ShouldInclude(op, sel.directives) then Collected(fields, visited)
    else match sel
      case Field(_, _, _, _, _, _, _, subselections) =>
        Collected(GetOrCreateAndAppend(fields, CollectedField(sel, []), subselections), visited)
      case InlineFragment(_, typeCondition, _, body) =>
        if !Satisfies(typeCondition, types) then Collected(fields, visited)
        else
          var c := CollectOnto(op, body, types, visited, []);
          Collected(Merge(fields, c.fields), c.visited)
      case FragmentSpread(_, name, _) =>
        if name in visited then Collected(fields, visited)
        else if name !in op.fragments || !Satisfies(op.fragments[name].typeCondition, types) then
          Collected(fields, visited + {name})
        else
          var c := CollectOnto(op, op.fragments[name].selections, types, visited + {name}, []);
          Collected(Merge(fields, c.fields), c.visited)
  }

  /** `CollectFields`: a walk from no groups and no visited fragments. */
  function CollectFields(op: Operation, selections: seq<Selection>, types: seq<string>): seq<CollectedField> {
    CollectOnto(op, selections, types, {}, []).fields
  }
}
