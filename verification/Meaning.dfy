/** What a query means, said of the resolvers' replies, the plan and the data alone: which slots an
    object has, what each is called, and what stands in it. */
module Meaning {
  import opened Wrappers
  import opened Paths
  import opened Query
  import opened Duplicates
  import opened FieldCollection
  import opened Flattening
  import opened Reachability
  import opened Execution
  import opened ExecutionLaws
  import opened Interleaving
  import opened InterleavingLaws
  import opened Planning

  // --- The slots of an object ---

  /** Some field in the list is of the same name, alias and object definition. */
  ghost predicate Before(met: seq<Selection>, f: Selection) {
    exists i :: 0 <= i < |met| && Merged(met[i], f)
  }

  /** The fields that come before all others of their name, alias and object definition, in order. */
  ghost function Leaders(met: seq<Selection>): seq<Selection> {
    if met == [] then []
    else
      var n := |met| - 1;
      Leaders(met[..n]) + if Before(met[..n], met[n]) then [] else [met[n]]
  }

  /** What is selected inside `f` and the fields merged with it, in order. */
  ghost function Inside(met: seq<Selection>, f: Selection): seq<Selection> {
    if met == [] then []
    else
      var n := |met| - 1;
      Inside(met[..n], f) + if Merged(met[n], f) then met[n].selections else []
  }

  // --- The plan ---

  /** `a` is what comes of `found` at `place`, with `selections` made on it. */
  ghost predicate Answers(op: Operation, resolvers: Resolvers, selections: seq<Selection>, place: seq<Step>,
                          found: Found, a: Answer, depth: nat)
    decreases depth, 0, found
  {
    match found
    case NilPointer => a == Nil
    case NilInside => a == NilImplementor
    case Text(text) => a == Leaf(text)
    case Scalars(nonNull, scalars) => a == ScalarList(nonNull, scalars)
    case Items(nonNull, items) =>
      a.List? && a.itemsNonNull == nonNull && AllAnswer(op, resolvers, selections, place, items, a.items, depth)
    case Instance(types) =>
      && a.Object?
      && if depth == 0 then a.fields == []
         else ObjectAnswers(op, resolvers, selections, types, place, a.fields, depth - 1)
  }

  ghost predicate AllAnswer(op: Operation, resolvers: Resolvers, selections: seq<Selection>, place: seq<Step>,
                            items: seq<Found>, answers: seq<Answer>, depth: nat)
    decreases depth, 0, items
  {
    && |answers| == |items|
    && forall i :: 0 <= i < |items| ==> Answers(op, resolvers, selections, place + [At(i)], items[i], answers[i], depth)
  }

  /** One slot per leading field, in order. */
  ghost predicate ObjectAnswers(op: Operation, resolvers: Resolvers, selections: seq<Selection>, types: seq<string>,
                                place: seq<Step>, fields: seq<FieldPlan>, depth: nat)
    decreases depth, 2
  {
    var met := Flatten(op, selections, types, {}).fields;
    var leaders := Leaders(met);
    && |fields| == |leaders|
    && forall k :: 0 <= k < |leaders| ==> FieldAnswers(op, resolvers, met, leaders[k], place, fields[k], depth)
  }

  /** The slot has the field's alias and what the resolver replies; what the resolver finds answers
      the selections inside the field and those merged with it. */
  ghost predicate FieldAnswers(op: Operation, resolvers: Resolvers, met: seq<Selection>, f: Selection,
                               place: seq<Step>, p: FieldPlan, depth: nat)
    decreases depth, 1
  {
    var reply := resolvers(place, f);
    && f.Field? && p.alias == f.alias
    && p.nonNull == reply.nonNull && p.concurrent == reply.concurrent && p.reports == reply.reports
    && match reply.result
       case Fails(below) => p.outcome == Failed(below)
       case Absent => p.outcome == Nothing
       case Finds(found) =>
         p.outcome.Answered?
         && Answers(op, resolvers, Inside(met, f), place + [Of(Key(f.name, f.alias, f.objectDefinition))],
                    found, p.outcome.answer, depth)
  }

  // --- The data ---

  ghost predicate Shows(op: Operation, resolvers: Resolvers, selections: seq<Selection>, place: seq<Step>,
                        found: Found, d: Data, depth: nat)
    decreases depth, 0, found
  {
    match found
    case NilPointer => d == Null
    case NilInside => d == Null
    case Text(text) => d == Execution.Scalar(text)
    case Scalars(_, scalars) => d.Array? && ItemsShown(scalars, d.items)
    case Items(_, items) =>
      d.Array? && AllShow(op, resolvers, selections, place, items, d.items, depth)
    case Instance(types) =>
      if depth == 0 then d == Record([]) else ObjectShows(op, resolvers, selections, types, place, d, depth - 1)
  }

  ghost predicate AllShow(op: Operation, resolvers: Resolvers, selections: seq<Selection>, place: seq<Step>,
                          items: seq<Found>, shown: seq<Data>, depth: nat)
    decreases depth, 0, items
  {
    && |shown| == |items|
    && forall i :: 0 <= i < |items| ==> Shows(op, resolvers, selections, place + [At(i)], items[i], shown[i], depth)
  }

  /** An object is null if a field of non-null type is, and otherwise holds the fields' values, each
      under the field's alias, in order. */
  ghost predicate Holds(resolvers: Resolvers, leaders: seq<Selection>, place: seq<Step>, values: seq<Data>, d: Data)
    requires |values| == |leaders| && forall k :: 0 <= k < |leaders| ==> leaders[k].Field?
  {
    if exists k :: 0 <= k < |leaders| && resolvers(place, leaders[k]).nonNull && values[k] == Null then d == Null
    else
      && d.Record? && |d.slots| == |leaders|
      && forall k :: 0 <= k < |leaders| ==> d.slots[k] == (leaders[k].alias, values[k])
  }

  /** The values are those of the leading fields. */
  ghost predicate ObjectShows(op: Operation, resolvers: Resolvers, selections: seq<Selection>, types: seq<string>,
                              place: seq<Step>, d: Data, depth: nat)
    decreases depth, 2
  {
    var met := Flatten(op, selections, types, {}).fields;
    var leaders := Leaders(met);
    exists values: seq<Data> ::
      && |values| == |leaders|
      && (forall k :: 0 <= k < |leaders| ==> FieldShows(op, resolvers, met, leaders[k], place, values[k], depth))
      && Holds(resolvers, leaders, place, values, d)
  }

  ghost predicate FieldShows(op: Operation, resolvers: Resolvers, met: seq<Selection>, f: Selection,
                             place: seq<Step>, d: Data, depth: nat)
    decreases depth, 1
  {
    f.Field? &&
    match resolvers(place, f).result
    case Fails(_) => d == Null
    case Absent => d == Null
    case Finds(found) =>
      Shows(op, resolvers, Inside(met, f), place + [Of(Key(f.name, f.alias, f.objectDefinition))], found, d, depth)
  }

  // --- Leading fields are the groups ---

  lemma {:induction false} InsideIsSubSelections(met: seq<Selection>, f: Selection)
    requires f.Field? && forall g :: g in met ==> g.Field?
    ensures Inside(met, f) == SubSelections(met, KeyOf(f))
    decreases |met|
  {
    if met != [] {
      var n := |met| - 1;
      InsideIsSubSelections(met[..n], f);
      assert met[..n] + [met[n]] == met;
      SubSelectionsAppend(met[..n], [met[n]], KeyOf(f));
      assert [met[n]][1..] == [] && met[n] in met;
      MergedExactly(met[n], f);
      assert met[n].selections + [] == met[n].selections;
    }
  }

  lemma {:induction false} BeforeExactly(met: seq<Selection>, f: Selection)
    requires f.Field? && forall g :: g in met ==> g.Field?
    ensures Before(met, f) <==> KeyOf(f) in KeysOf(met)
  {
    if KeyOf(f) in KeysOf(met) {
      var i :| 0 <= i < |met| && KeysOf(met)[i] == KeyOf(f);
      assert met[i] in met;
      MergedExactly(met[i], f);
    }
    if i :| 0 <= i < |met| && Merged(met[i], f) {
      assert KeysOf(met)[i] == KeyOf(f);
    }
  }

  lemma {:induction false} DedupOfKeys(before: seq<Selection>, f: Selection)
    ensures Dedup(KeysOf(before + [f]))
         == Dedup(KeysOf(before)) + if KeyOf(f) in KeysOf(before) then [] else [KeyOf(f)]
  {
    KeysOfAppend(before, [f]);
    assert KeysOf([f]) == [KeyOf(f)] && [KeyOf(f)][1..] == [];
    OntoAppend([], KeysOf(before), [KeyOf(f)]);
    OntoElements([], KeysOf(before));
  }

  lemma {:induction false} LeadersKeys(met: seq<Selection>)
    requires forall g :: g in met ==> g.Field?
    ensures KeysOf(Leaders(met)) == Dedup(KeysOf(met))
    decreases |met|
  {
    if met != [] {
      var n := |met| - 1;
      assert met[..n] + [met[n]] == met && met[n] in met;
      LeadersKeys(met[..n]);
      BeforeExactly(met[..n], met[n]);
      DedupOfKeys(met[..n], met[n]);
    }
  }

  lemma {:induction false} LeaderIsFirst(met: seq<Selection>, k: nat)
    requires k < |Leaders(met)| && forall g :: g in met ==> g.Field?
    ensures Leaders(met)[k].Field? && First(met, KeyOf(Leaders(met)[k])) == Some(Leaders(met)[k])
    decreases |met|
  {
    var n := |met| - 1;
    var f := Leaders(met)[k];
    assert met[..n] + [met[n]] == met && met[n] in met;
    FirstAppend(met[..n], [met[n]], KeyOf(f));
    if k < |Leaders(met[..n])| {
      LeaderIsFirst(met[..n], k);
    } else {
      BeforeExactly(met[..n], f);
    }
  }

  /** The specified groups are the leading fields with what is inside them. */
  lemma {:induction false} GroupsAreLeaders(op: Operation, selections: seq<Selection>, types: seq<string>)
    ensures var met := Flatten(op, selections, types, {}).fields;
            var groups := Specified(op, selections, types);
            && |groups| == |Leaders(met)|
            && forall k :: 0 <= k < |groups| ==>
                 && Leaders(met)[k].Field?
                 && groups[k] == CollectedField(Leaders(met)[k], Inside(met, Leaders(met)[k]))
  {
    var met := Flatten(op, selections, types, {}).fields;
    var groups := Specified(op, selections, types);
    LeadersKeys(met);
    assert |groups| == |KeysOf(Leaders(met))|;
    forall k | 0 <= k < |groups|
      ensures Leaders(met)[k].Field? && groups[k] == CollectedField(Leaders(met)[k], Inside(met, Leaders(met)[k]))
    {
      var f := Leaders(met)[k];
      LeaderIsFirst(met, k);
      assert KeysOf(Leaders(met))[k] == KeyOf(f);
      InsideIsSubSelections(met, f);
    }
  }

  // --- The plan is the one meant ---

  lemma {:induction false} ObjectIsAnswered(op: Operation, resolvers: Resolvers, selections: seq<Selection>,
                                            types: seq<string>, place: seq<Step>, fields: seq<FieldPlan>, depth: nat)
    requires fields == PlanOf(AsSpecified(op), resolvers, selections, types, place, depth)
    ensures ObjectAnswers(op, resolvers, selections, types, place, fields, depth)
    decreases depth, 2
  {
    var met := Flatten(op, selections, types, {}).fields;
    var groups := Specified(op, selections, types);
    GroupsAreLeaders(op, selections, types);
    forall k | 0 <= k < |groups| ensures FieldAnswers(op, resolvers, met, Leaders(met)[k], place, fields[k], depth) {
      FieldIsAnswered(op, resolvers, met, Leaders(met)[k], place, fields[k], depth);
    }
  }

  lemma {:induction false} FieldIsAnswered(op: Operation, resolvers: Resolvers, met: seq<Selection>, f: Selection,
                                           place: seq<Step>, p: FieldPlan, depth: nat)
    requires f.Field?
    requires p == PlanField(AsSpecified(op), resolvers, CollectedField(f, Inside(met, f)), place, depth)
    ensures FieldAnswers(op, resolvers, met, f, place, p, depth)
    decreases depth, 1
  {
    var reply := resolvers(place, f);
    if reply.result.Finds? {
      IsAnswered(op, resolvers, Inside(met, f), place + [Of(KeyOf(f))], reply.result.found, p.outcome.answer, depth);
    }
  }

  lemma {:induction false} IsAnswered(op: Operation, resolvers: Resolvers, selections: seq<Selection>,
                                      place: seq<Step>, found: Found, a: Answer, depth: nat)
    requires a == AnswerOf(AsSpecified(op), resolvers, selections, place, found, depth)
    ensures Answers(op, resolvers, selections, place, found, a, depth)
    decreases depth, 0, found
  {
    match found
    case Items(_, items) =>
      forall i | 0 <= i < |items|
        ensures Answers(op, resolvers, selections, place + [At(i)], items[i], a.items[i], depth)
      {
        IsAnswered(op, resolvers, selections, place + [At(i)], items[i], a.items[i], depth);
      }
    case Instance(types) =>
      if depth > 0 {
        ObjectIsAnswered(op, resolvers, selections, types, place, a.fields, depth - 1);
      }
    case _ =>
  }

  /** What is executed is what the query means: at every depth, one slot per field that leads its
      name, alias and object definition, called by its alias, with the resolver's reply in it. */
  lemma {:induction false} PlanIsMeant(op: Operation, resolvers: Resolvers, selections: seq<Selection>,
                                       types: seq<string>, depth: nat)
    ensures var a := Root(AsCollected(op), resolvers, selections, types, depth);
            a.Object? && ObjectAnswers(op, resolvers, selections, types, [], a.fields, depth)
  {
    PlansAgree(op, resolvers, selections, selections, types, [], depth);
    ObjectIsAnswered(op, resolvers, selections, types, [],
                     Root(AsSpecified(op), resolvers, selections, types, depth).fields, depth);
  }

  // --- The data is the one meant ---

  lemma {:induction false} AnswersShow(op: Operation, resolvers: Resolvers, selections: seq<Selection>,
                                       place: seq<Step>, found: Found, a: Answer, depth: nat)
    requires Answers(op, resolvers, selections, place, found, a, depth)
    ensures Shows(op, resolvers, selections, place, found, DataOf(a), depth)
    decreases depth, 0, found
  {
    match found
    case Scalars(_, scalars) => ItemsAreShown(scalars);
    case Items(_, items) =>
      forall i | 0 <= i < |items|
        ensures Shows(op, resolvers, selections, place + [At(i)], items[i], DataOf(a.items[i]), depth)
      {
        AnswersShow(op, resolvers, selections, place + [At(i)], items[i], a.items[i], depth);
      }
    case Instance(types) =>
      if depth > 0 {
        ObjectAnswersShow(op, resolvers, selections, types, place, a.fields, depth - 1);
      }
    case _ =>
  }

  lemma {:induction false} ObjectAnswersShow(op: Operation, resolvers: Resolvers, selections: seq<Selection>,
                                             types: seq<string>, place: seq<Step>, fields: seq<FieldPlan>, depth: nat)
    requires ObjectAnswers(op, resolvers, selections, types, place, fields, depth)
    ensures ObjectShows(op, resolvers, selections, types, place, DataOf(Object(fields)), depth)
    decreases depth, 2
  {
    var met := Flatten(op, selections, types, {}).fields;
    var leaders := Leaders(met);
    var values := seq(|fields|, i requires 0 <= i < |fields| => DataOfField(fields[i]));
    forall k | 0 <= k < |leaders| ensures FieldShows(op, resolvers, met, leaders[k], place, values[k], depth) {
      FieldAnswerShows(op, resolvers, met, leaders[k], place, fields[k], depth);
    }
    AssembledHolds(resolvers, leaders, place, fields, values);
  }

  lemma {:induction false} AssembledHolds(resolvers: Resolvers, leaders: seq<Selection>, place: seq<Step>,
                                          fields: seq<FieldPlan>, values: seq<Data>)
    requires |values| == |leaders| == |fields|
    requires forall k :: 0 <= k < |leaders| ==>
               && leaders[k].Field? && fields[k].alias == leaders[k].alias
               && fields[k].nonNull == resolvers(place, leaders[k]).nonNull
    ensures Holds(resolvers, leaders, place, values, Assemble(fields, values))
  {
    assert forall k :: 0 <= k < |leaders| ==>
        (Invalid(fields[k], values[k]) <==> resolvers(place, leaders[k]).nonNull && values[k] == Null);
  }

  lemma {:induction false} FieldAnswerShows(op: Operation, resolvers: Resolvers, met: seq<Selection>, f: Selection,
                                            place: seq<Step>, p: FieldPlan, depth: nat)
    requires FieldAnswers(op, resolvers, met, f, place, p, depth)
    ensures FieldShows(op, resolvers, met, f, place, DataOfField(p), depth)
    decreases depth, 1
  {
    var reply := resolvers(place, f);
    if reply.result.Finds? {
      AnswersShow(op, resolvers, Inside(met, f), place + [Of(Key(f.name, f.alias, f.objectDefinition))],
                  reply.result.found, p.outcome.answer, depth);
    }
  }

  // --- There is no other ---

  lemma {:induction false} ItemsShownOnce(items: seq<Item>, a: seq<Data>, b: seq<Data>)
    requires ItemsShown(items, a) && ItemsShown(items, b)
    ensures a == b
    decreases items
  {
    forall i | 0 <= i < |items| ensures a[i] == b[i] {
      assert ItemShown(items[i], a[i]) && ItemShown(items[i], b[i]);
      if items[i].ItemList? {
        ItemsShownOnce(items[i].items, a[i].items, b[i].items);
      }
    }
  }

  lemma {:induction false} HeldOnce(resolvers: Resolvers, leaders: seq<Selection>, place: seq<Step>,
                                    values: seq<Data>, d: Data, d': Data)
    requires |values| == |leaders| && forall k :: 0 <= k < |leaders| ==> leaders[k].Field?
    requires Holds(resolvers, leaders, place, values, d) && Holds(resolvers, leaders, place, values, d')
    ensures d == d'
  {
    if d.Record? && d'.Record? {
      assert d.slots == d'.slots;
    }
  }

  lemma {:induction false} ShownOnce(op: Operation, resolvers: Resolvers, selections: seq<Selection>,
                                     place: seq<Step>, found: Found, d: Data, d': Data, depth: nat)
    requires Shows(op, resolvers, selections, place, found, d, depth)
    requires Shows(op, resolvers, selections, place, found, d', depth)
    ensures d == d'
    decreases depth, 0, found
  {
    match found
    case Scalars(_, scalars) => ItemsShownOnce(scalars, d.items, d'.items);
    case Items(_, items) => AllShownOnce(op, resolvers, selections, place, items, d.items, d'.items, depth);
    case Instance(types) =>
      if depth > 0 {
        ObjectShownOnce(op, resolvers, selections, types, place, d, d', depth - 1);
      }
    case _ =>
  }

  lemma {:induction false} AllShownOnce(op: Operation, resolvers: Resolvers, selections: seq<Selection>,
                                        place: seq<Step>, items: seq<Found>, a: seq<Data>, b: seq<Data>, depth: nat)
    requires AllShow(op, resolvers, selections, place, items, a, depth)
    requires AllShow(op, resolvers, selections, place, items, b, depth)
    ensures a == b
    decreases depth, 0, items
  {
    forall i | 0 <= i < |items| ensures a[i] == b[i] {
      ShownOnce(op, resolvers, selections, place + [At(i)], items[i], a[i], b[i], depth);
    }
  }

  lemma {:induction false} ObjectShownOnce(op: Operation, resolvers: Resolvers, selections: seq<Selection>,
                                           types: seq<string>, place: seq<Step>, d: Data, d': Data, depth: nat)
    requires ObjectShows(op, resolvers, selections, types, place, d, depth)
    requires ObjectShows(op, resolvers, selections, types, place, d', depth)
    ensures d == d'
    decreases depth, 2
  {
    var met := Flatten(op, selections, types, {}).fields;
    var leaders := Leaders(met);
    var values: seq<Data> :|
      && |values| == |leaders|
      && (forall k :: 0 <= k < |leaders| ==> FieldShows(op, resolvers, met, leaders[k], place, values[k], depth))
      && Holds(resolvers, leaders, place, values, d);
    var values': seq<Data> :|
      && |values'| == |leaders|
      && (forall k :: 0 <= k < |leaders| ==> FieldShows(op, resolvers, met, leaders[k], place, values'[k], depth))
      && Holds(resolvers, leaders, place, values', d');
    forall k | 0 <= k < |leaders| ensures values[k] == values'[k] {
      FieldShownOnce(op, resolvers, met, leaders[k], place, values[k], values'[k], depth);
    }
    assert values == values';
    HeldOnce(resolvers, leaders, place, values, d, d');
  }

  lemma {:induction false} FieldShownOnce(op: Operation, resolvers: Resolvers, met: seq<Selection>, f: Selection,
                                          place: seq<Step>, d: Data, d': Data, depth: nat)
    requires FieldShows(op, resolvers, met, f, place, d, depth) && FieldShows(op, resolvers, met, f, place, d', depth)
    ensures d == d'
    decreases depth, 1
  {
    var reply := resolvers(place, f);
    if reply.result.Finds? {
      ShownOnce(op, resolvers, Inside(met, f), place + [Of(Key(f.name, f.alias, f.objectDefinition))],
                reply.result.found, d, d', depth);
    }
  }

  /** Whatever the interleaving, the response is the one the query means, and there is just one. */
  lemma {:induction false} ResponseIsMeant(op: Operation, resolvers: Resolvers, selections: seq<Selection>,
                                           types: seq<string>, depth: nat, schedule: seq<seq<nat>>)
    requires var s := Start(Root(AsCollected(op), resolvers, selections, types, depth));
             Interleaving.Run(s, [], schedule).Some? && Interleaving.Run(s, [], schedule).value.task.Done?
    ensures var s := Start(Root(AsCollected(op), resolvers, selections, types, depth));
            var response := Interleaving.Run(s, [], schedule).value.task.data;
            forall d :: ObjectShows(op, resolvers, selections, types, [], d, depth) <==> d == response
  {
    var a := Root(AsCollected(op), resolvers, selections, types, depth);
    var response := Interleaving.Run(Start(a), [], schedule).value.task.data;
    ResponseIsSpecified(op, resolvers, selections, types, depth, schedule);
    PlansAgree(op, resolvers, selections, selections, types, [], depth);
    PlanIsMeant(op, resolvers, selections, types, depth);
    ObjectAnswersShow(op, resolvers, selections, types, [], a.fields, depth);
    forall d | ObjectShows(op, resolvers, selections, types, [], d, depth) ensures d == response {
      ObjectShownOnce(op, resolvers, selections, types, [], d, response, depth);
    }
  }
}
