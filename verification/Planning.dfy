/** From the query to what is executed: each executor collects the fields of its object before it
    runs them, and hands each its group's selections. */
module Planning {
  import opened Wrappers
  import opened Paths
  import opened Query
  import opened Duplicates
  import opened FieldCollection
  import opened Flattening
  import opened Grouping
  import opened ResponseShape
  import opened Execution
  import opened Interleaving
  import opened InterleavingLaws
  import opened Sequential
  import opened Races
  import opened Aliases
  import Complexity
  import opened Height

  /** A step down the response: into a field's group, or into a list. */
  datatype Step = Of(key: Key) | At(index: nat)

  /** What a resolver finds. An object is known by the types it implements and its place. */
  datatype Found =
    | NilPointer
    | NilInside                                          // an interface value holding a nil pointer
    | Text(text: string)
    | Scalars(scalarsNonNull: bool, scalars: seq<Item>)
    | Items(itemsNonNull: bool, items: seq<Found>)
    | Instance(types: seq<string>)

  datatype Result = Fails(below: Path) | Absent | Finds(found: Found)

  datatype Reply = Reply(nonNull: bool, concurrent: bool, reports: nat, result: Result)

  /** Resolvers are deterministic: the reply depends on the object's place and on the field node
      they are given, that is its name, alias and arguments. */
  type Resolvers = (seq<Step>, Selection) -> Reply

  /** Makes groups of the selections on an object of some types. */
  type Grouper = (seq<Selection>, seq<string>) -> seq<CollectedField>

  /** The executor of an object: collect its fields, then resolve each; down to `depth` objects
      below one another. */
  function PlanOf(group: Grouper, resolvers: Resolvers, selections: seq<Selection>, types: seq<string>,
                  place: seq<Step>, depth: nat): seq<FieldPlan>
    decreases depth, 1
  {
    var fields := group(selections, types);
    seq(|fields|, i requires 0 <= i < |fields| => PlanField(group, resolvers, fields[i], place, depth))
  }

  function PlanField(group: Grouper, resolvers: Resolvers, f: CollectedField, place: seq<Step>, depth: nat): FieldPlan
    decreases depth, 0
  {
    var reply := resolvers(place, f.field);
    var outcome :=
      match reply.result
      case Fails(below) => Failed(below)
      case Absent => Nothing
      case Finds(found) =>
        Answered(AnswerOf(group, resolvers, f.selections, place + [Of(KeyOf(f.field))], found, depth));
    FieldPlan(KeyOf(f.field).alias, reply.nonNull, reply.concurrent, reply.reports, outcome)
  }

  function AnswerOf(group: Grouper, resolvers: Resolvers, selections: seq<Selection>, place: seq<Step>, found: Found,
                    depth: nat): Answer
    decreases depth, 0, found
  {
    match found
    case NilPointer => Nil
    case NilInside => NilImplementor
    case Text(text) => Leaf(text)
    case Scalars(scalarsNonNull, scalars) => ScalarList(scalarsNonNull, scalars)
    case Items(itemsNonNull, items) =>
      List(itemsNonNull, seq(|items|, i requires 0 <= i < |items| =>
                               AnswerOf(group, resolvers, selections, place + [At(i)], items[i], depth)))
    case Instance(types) =>
      Object(if depth == 0 then [] else PlanOf(group, resolvers, selections, types, place, depth - 1))
  }

  // --- The two ways of grouping ---

  /** As the source does it, appending selections repeatedly. */
  function AsCollected(op: Operation): Grouper {
    (selections, types) => CollectFields(op, selections, types)
  }

  /** As sections 6.3.2 and 6.4.3 of the GraphQL specification (October 2021) have it, with this
      repository's key: by key in order of first occurrence, sub-selections concatenated once. */
  function Specified(op: Operation, selections: seq<Selection>, types: seq<string>): seq<CollectedField> {
    var met := Flatten(op, selections, types, {}).fields;
    var keys := Dedup(KeysOf(met));
    seq(|keys|, i requires 0 <= i < |keys| =>
      match First(met, keys[i])
      case Some(f) => CollectedField(f, SubSelections(met, keys[i]))
      case None => CollectedField(FragmentSpread(0, "", []), []))
  }

  function AsSpecified(op: Operation): Grouper {
    (selections, types) => Specified(op, selections, types)
  }

  // --- They agree ---

  lemma {:induction false} FirstOnto(acc: seq<Selection>, s: seq<Selection>, key: Key)
    ensures First(Onto(acc, s), key) == First(acc + s, key)
    decreases |s|
  {
    if s == [] {
      assert acc + s == acc;
    } else {
      var x := s[0];
      assert acc + s == (acc + [x]) + s[1..];
      if x in acc {
        FirstOnto(acc, s[1..], key);
        FirstAppend(acc, s[1..], key);
        FirstAppend(acc + [x], s[1..], key);
        FirstAppend(acc, [x], key);
        KeysOfAppend(acc, [x]);
        var i :| 0 <= i < |acc| && acc[i] == x;
        assert KeysOf(acc)[i] == KeyOf(x) && KeysOf([x]) == [KeyOf(x)];
      } else {
        FirstOnto(acc + [x], s[1..], key);
      }
    }
  }

  /** Selection lists equal up to later duplicates are grouped alike, whichever way. */
  lemma {:induction false} GroupersAgree(op: Operation, a: seq<Selection>, b: seq<Selection>, types: seq<string>)
    requires Same(a, b)
    ensures var x, y := CollectFields(op, a, types), Specified(op, b, types);
            && |x| == |y|
            && forall i :: 0 <= i < |x| ==> x[i].field == y[i].field && Same(x[i].selections, y[i].selections)
  {
    var x, y := CollectFields(op, a, types), Specified(op, b, types);
    var wa, wb := Flatten(op, a, types, {}).fields, Flatten(op, b, types, {}).fields;
    CollectFieldsGroups(op, a, types);
    SameSelectionsSameWalk(op, types, {}, a, b);
    KeysOfOnto([], wa);
    KeysOfOnto([], wb);
    assert [] + wa == wa && [] + wb == wb;
    var keys := Dedup(KeysOf(wb));
    assert |x| == |Keys(x)| == |keys|;
    forall i | 0 <= i < |x| ensures x[i].field == y[i].field && Same(x[i].selections, y[i].selections) {
      assert Keys(x)[i] == KeyOf(x[i].field) == keys[i];
      FirstOnto([], wa, keys[i]);
      FirstOnto([], wb, keys[i]);
      SameFieldsSameSubSelections(wa, wb, keys[i]);
    }
  }

  lemma {:induction false} PlansAgree(op: Operation, resolvers: Resolvers, a: seq<Selection>, b: seq<Selection>,
                                      types: seq<string>, place: seq<Step>, depth: nat)
    requires Same(a, b)
    ensures PlanOf(AsCollected(op), resolvers, a, types, place, depth)
         == PlanOf(AsSpecified(op), resolvers, b, types, place, depth)
    decreases depth, 1
  {
    var x, y := CollectFields(op, a, types), Specified(op, b, types);
    GroupersAgree(op, a, b, types);
    forall i | 0 <= i < |x|
      ensures PlanField(AsCollected(op), resolvers, x[i], place, depth)
           == PlanField(AsSpecified(op), resolvers, y[i], place, depth)
    {
      var reply := resolvers(place, x[i].field);
      if reply.result.Finds? {
        AnswersAgree(op, resolvers, x[i].selections, y[i].selections, place + [Of(KeyOf(x[i].field))],
                     reply.result.found, depth);
      }
    }
  }

  lemma {:induction false} AnswersAgree(op: Operation, resolvers: Resolvers, a: seq<Selection>, b: seq<Selection>,
                                        place: seq<Step>, found: Found, depth: nat)
    requires Same(a, b)
    ensures AnswerOf(AsCollected(op), resolvers, a, place, found, depth)
         == AnswerOf(AsSpecified(op), resolvers, b, place, found, depth)
    decreases depth, 0, found
  {
    match found
    case Items(_, items) =>
      forall i | 0 <= i < |items|
        ensures AnswerOf(AsCollected(op), resolvers, a, place + [At(i)], items[i], depth)
             == AnswerOf(AsSpecified(op), resolvers, b, place + [At(i)], items[i], depth)
      {
        AnswersAgree(op, resolvers, a, b, place + [At(i)], items[i], depth);
      }
    case Instance(types) =>
      if depth > 0 {
        PlansAgree(op, resolvers, a, b, types, place, depth - 1);
      }
    case _ =>
  }

  // --- Nothing is cut ---

  /** Beyond the height of the query, the plan does not change. */
  lemma {:induction false} PlanIsWhole(op: Operation, resolvers: Resolvers, selections: seq<Selection>,
                                       types: seq<string>, place: seq<Step>, h: nat, depth: nat)
    requires Low(op, selections, h) && h <= depth
    ensures PlanOf(AsCollected(op), resolvers, selections, types, place, depth)
         == PlanOf(AsCollected(op), resolvers, selections, types, place, h)
    decreases h, 0
  {
    var fields := CollectFields(op, selections, types);
    forall i | 0 <= i < |fields|
      ensures PlanField(AsCollected(op), resolvers, fields[i], place, depth)
           == PlanField(AsCollected(op), resolvers, fields[i], place, h)
    {
      GroupsAreLower(op, selections, types, h, i);
      var reply := resolvers(place, fields[i].field);
      if reply.result.Finds? {
        AnswerIsWhole(op, resolvers, fields[i].selections, place + [Of(KeyOf(fields[i].field))], reply.result.found,
                      h - 1, depth);
      }
    }
  }

  lemma {:induction false} AnswerIsWhole(op: Operation, resolvers: Resolvers, selections: seq<Selection>,
                                         place: seq<Step>, found: Found, h: nat, depth: nat)
    requires Low(op, selections, h) && h + 1 <= depth
    ensures AnswerOf(AsCollected(op), resolvers, selections, place, found, depth)
         == AnswerOf(AsCollected(op), resolvers, selections, place, found, h + 1)
    decreases h, 1, found
  {
    match found
    case Items(_, items) =>
      forall i | 0 <= i < |items|
        ensures AnswerOf(AsCollected(op), resolvers, selections, place + [At(i)], items[i], depth)
             == AnswerOf(AsCollected(op), resolvers, selections, place + [At(i)], items[i], h + 1)
      {
        AnswerIsWhole(op, resolvers, selections, place + [At(i)], items[i], h, depth);
      }
    case Instance(types) => PlanIsWhole(op, resolvers, selections, types, place, h, depth - 1);
    case _ =>
  }

  // --- The response is the specified one ---

  /** The root object of an operation, planned. */
  function Root(group: Grouper, resolvers: Resolvers, selections: seq<Selection>, types: seq<string>,
                depth: nat): Answer
  {
    Object(PlanOf(group, resolvers, selections, types, [], depth))
  }

  /** An acyclic query has a depth beyond which nothing is cut, however the fields are grouped,
      whatever the resolvers find. */
  lemma {:induction false} NothingIsCut(op: Operation, selections: seq<Selection>, rank: map<string, nat>, below: nat)
    returns (h: nat)
    requires Complexity.Acyclic(op, rank) && Complexity.SpreadsBelow(op, selections, rank, below)
    ensures forall resolvers: Resolvers, types, depth: nat :: h <= depth ==>
              && Root(AsCollected(op), resolvers, selections, types, depth)
                 == Root(AsCollected(op), resolvers, selections, types, h)
              && Root(AsSpecified(op), resolvers, selections, types, depth)
                 == Root(AsSpecified(op), resolvers, selections, types, h)
  {
    h := LowAll(op, selections, rank, below);
    forall resolvers: Resolvers, types, depth: nat | h <= depth
      ensures Root(AsCollected(op), resolvers, selections, types, depth)
           == Root(AsCollected(op), resolvers, selections, types, h)
      ensures Root(AsSpecified(op), resolvers, selections, types, depth)
           == Root(AsSpecified(op), resolvers, selections, types, h)
    {
      PlanIsWhole(op, resolvers, selections, types, [], h, depth);
      PlansAgree(op, resolvers, selections, selections, types, [], h);
      PlansAgree(op, resolvers, selections, selections, types, [], depth);
    }
  }

  /** Whatever the interleaving, executing the fields as the source collects them gives the data of
      executing them as the specification groups them; and, if no object has two concurrent fields of
      one alias, the errors of doing so one after the other. */
  lemma {:induction false} ResponseIsSpecified(op: Operation, resolvers: Resolvers, selections: seq<Selection>,
                                               types: seq<string>, depth: nat, schedule: seq<seq<nat>>)
    requires var s := Start(Root(AsCollected(op), resolvers, selections, types, depth));
             Interleaving.Run(s, [], schedule).Some? && Interleaving.Run(s, [], schedule).value.task.Done?
    ensures var s := Start(Root(AsCollected(op), resolvers, selections, types, depth));
            var e := Interleaving.Run(s, [], schedule).value;
            var a := Root(AsSpecified(op), resolvers, selections, types, depth);
            && e.task.data == DataOf(a)
            && (Ordered(a) ==> multiset(e.errors) == multiset(AfterAnswer([], a, [], false)))
  {
    PlansAgree(op, resolvers, selections, selections, types, [], depth);
    var a := Root(AsCollected(op), resolvers, selections, types, depth);
    EveryInterleaving(a, schedule);
    if Ordered(a) {
      OrderedRunsAgree(a, schedule);
    }
  }
}
