/** Two fields of one object under one alias: an alias reached through an interface and through a
    concrete type stays two groups. The data of the response is as always, but the errors are not. */
module EqualAliases {
  import opened Paths
  import opened Execution
  import opened Wrappers
  import opened Interleaving
  import opened InterleavingLaws
  import Races
  import Query
  import FieldCollection
  import Planning

  const TWIN := FieldPlan("a", true, true, 0, Nothing)

  /** Two non-null fields under one alias, both resolving to nothing. */
  const TWINS := Object([TWIN, TWIN])

  const COMPLAINT := Error([Name("a")], MustNotBeNull)

  type Schedule = seq<seq<nat>>

  function Twins(a: Slot, b: Slot, invalids: nat, errors: seq<Error>): State {
    State(Dispatching([TWIN, TWIN], [a, b], invalids), errors)
  }

  lemma {:induction false} OneStep(s: State, step: seq<nat>, next: State, rest: Schedule, end: State)
    returns (all: Schedule)
    requires Advance(s.task, [], s.errors, step) == Some(next) && Run(next, [], rest) == Some(end)
    ensures Run(s, [], all) == Some(end)
  {
    all := [step] + rest;
    assert all[1..] == rest;
  }

  lemma {:induction false} Begun(rest: Schedule, end: State) returns (all: Schedule)
    requires Run(Twins(Running(Resolving(TWIN, 0)), Running(Resolving(TWIN, 0)), 0, []), [], rest) == Some(end)
    ensures Run(Start(TWINS), [], all) == Some(end)
  {
    var fields := [TWIN, TWIN];
    assert seq(|fields|, i requires 0 <= i < |fields| => Running(Resolving(fields[i], 0)))
        == [Running(Resolving(TWIN, 0)), Running(Resolving(TWIN, 0))];
    all := OneStep(Start(TWINS), [], Twins(Running(Resolving(TWIN, 0)), Running(Resolving(TWIN, 0)), 0, []), rest, end);
  }

  /** A step of the first twin's task. */
  lemma {:induction false} First(t: Task, b: Slot, errors: seq<Error>, next: Task, errors': seq<Error>,
                                 rest: Schedule, end: State) returns (all: Schedule)
    requires !t.Done? && Advance(t, [Name("a")], errors, []) == Some(State(next, errors'))
    requires Run(Twins(Running(next), b, 0, errors'), [], rest) == Some(end)
    ensures Run(Twins(Running(t), b, 0, errors), [], all) == Some(end)
  {
    var at: seq<nat> := [0];
    assert [] + [Name("a")] == [Name("a")] && at[1..] == [];
    assert [Running(t), b][0 := Running(next)] == [Running(next), b];
    all := OneStep(Twins(Running(t), b, 0, errors), at, Twins(Running(next), b, 0, errors'), rest, end);
  }

  lemma {:induction false} Second(a: Slot, t: Task, errors: seq<Error>, next: Task, errors': seq<Error>,
                                  rest: Schedule, end: State) returns (all: Schedule)
    requires !t.Done? && Advance(t, [Name("a")], errors, []) == Some(State(next, errors'))
    requires Run(Twins(a, Running(next), 0, errors'), [], rest) == Some(end)
    ensures Run(Twins(a, Running(t), 0, errors), [], all) == Some(end)
  {
    var at: seq<nat> := [1];
    assert [] + [Name("a")] == [Name("a")] && at[1..] == [];
    assert [a, Running(t)][1 := Running(next)] == [a, Running(next)];
    all := OneStep(Twins(a, Running(t), 0, errors), at, Twins(a, Running(next), 0, errors'), rest, end);
  }

  /** Both have returned: their results are stored, and the object is null. */
  lemma {:induction false} Finish(errors: seq<Error>) returns (all: Schedule)
    ensures Run(Twins(Running(Done(Null)), Running(Done(Null)), 0, errors), [], all) == Some(State(Done(Null), errors))
  {
    var end := State(Done(Null), errors);
    var done, back, kept := Running(Done(Null)), Returning(Null), Written(Null);
    var first: seq<nat>, second: seq<nat> := [0], [1];
    assert first[1..] == [] && second[1..] == [];
    assert [done, done][0 := back] == [back, done] && [back, done][0 := kept] == [kept, done];
    assert [kept, done][1 := back] == [kept, back] && [kept, back][1 := kept] == [kept, kept];
    all := OneStep(Twins(kept, kept, 2, errors), [], end, [], end);
    all := OneStep(Twins(kept, back, 2, errors), second, Twins(kept, kept, 2, errors), all, end);
    all := OneStep(Twins(kept, done, 1, errors), second, Twins(kept, back, 2, errors), all, end);
    all := OneStep(Twins(back, done, 1, errors), first, Twins(kept, done, 1, errors), all, end);
    all := OneStep(Twins(done, done, 0, errors), first, Twins(back, done, 1, errors), all, end);
  }

  /** One twin asks for errors after the other has complained: one error. */
  lemma {:induction false} InTurn() returns (all: Schedule)
    ensures Run(Start(TWINS), [], all) == Some(State(Done(Null), [COMPLAINT]))
  {
    var end := State(Done(Null), [COMPLAINT]);
    var fresh_, ask, done := Resolving(TWIN, 0), Checking, Done(Null);
    assert [COMPLAINT][0].path == [Name("a")] && [] + [COMPLAINT] == [COMPLAINT];
    all := Finish([COMPLAINT]);
    all := Second(Running(done), ask, [COMPLAINT], done, [COMPLAINT], all, end);
    all := Second(Running(done), fresh_, [COMPLAINT], ask, [COMPLAINT], all, end);
    all := First(Complaining, Running(fresh_), [], done, [COMPLAINT], all, end);
    all := First(ask, Running(fresh_), [], Complaining, [], all, end);
    all := First(fresh_, Running(fresh_), [], ask, [], all, end);
    all := Begun(all, end);
  }

  /** Both ask first: two errors. */
  lemma {:induction false} Together() returns (all: Schedule)
    ensures Run(Start(TWINS), [], all) == Some(State(Done(Null), [COMPLAINT, COMPLAINT]))
  {
    var end := State(Done(Null), [COMPLAINT, COMPLAINT]);
    var fresh_, ask, done := Resolving(TWIN, 0), Checking, Done(Null);
    assert [] + [COMPLAINT] == [COMPLAINT] && [COMPLAINT] + [COMPLAINT] == [COMPLAINT, COMPLAINT];
    all := Finish([COMPLAINT, COMPLAINT]);
    all := Second(Running(done), Complaining, [COMPLAINT], done, [COMPLAINT, COMPLAINT], all, end);
    all := First(Complaining, Running(Complaining), [], done, [COMPLAINT], all, end);
    all := Second(Running(Complaining), ask, [], Complaining, [], all, end);
    all := Second(Running(Complaining), fresh_, [], ask, [], all, end);
    all := First(ask, Running(fresh_), [], Complaining, [], all, end);
    all := First(fresh_, Running(fresh_), [], ask, [], all, end);
    all := Begun(all, end);
  }

  /** With equal aliases the errors depend on the schedule. */
  lemma {:induction false} TwinsRace()
    ensures exists one, two ::
              && Run(Start(TWINS), [], one) == Some(State(Done(Null), [COMPLAINT]))
              && Run(Start(TWINS), [], two) == Some(State(Done(Null), [COMPLAINT, COMPLAINT]))
  {
    var one := InTurn();
    var two := Together();
  }

  // --- A query that has such an object ---

  const ON_NODE := Query.Field(0, "a", "a", Some("Node"), "Thing", map[], [], [])

  const ON_OBJECT := Query.Field(1, "a", "a", Some("Object"), "Thing", map[], [], [])

  /** One alias, on an interface and, within a fragment, on a type that implements it. */
  const QUERY := [ON_NODE, Query.InlineFragment(2, "Object", [], [ON_OBJECT])]

  const TYPES := ["Object", "Node"]

  lemma {:induction false} OneGroup(op: Query.Operation, f: Query.Selection)
    requires f.Field? && f.directives == [] && f.selections == []
    ensures FieldCollection.CollectOnto(op, [f], TYPES, {}, []).fields == [FieldCollection.CollectedField(f, [])]
    ensures FieldCollection.CollectOne(op, f, TYPES, {}, [])
         == FieldCollection.Collected([FieldCollection.CollectedField(f, [])], {})
  {
    var group := FieldCollection.CollectedField(f, []);
    assert Query.ShouldInclude(op, []);
    assert FieldCollection.GetOrCreateAndAppend([], group, []) == [group] by {
      assert [] + [group] == [group] && group.(selections := group.selections + []) == group;
    }
    assert [f][1..] == [];
  }

  lemma {:induction false} TwoGroups(op: Query.Operation)
    ensures FieldCollection.CollectFields(op, QUERY, TYPES)
         == [FieldCollection.CollectedField(ON_NODE, []), FieldCollection.CollectedField(ON_OBJECT, [])]
  {
    var first, second := FieldCollection.CollectedField(ON_NODE, []), FieldCollection.CollectedField(ON_OBJECT, []);
    var rest := [QUERY[1]];
    OneGroup(op, ON_NODE);
    OneGroup(op, ON_OBJECT);
    assert QUERY[1..] == rest && rest[1..] == [];
    assert TYPES[0] == "Object" && Query.ShouldInclude(op, []);
    assert FieldCollection.Merge([first], [second]) == [first, second] by {
      assert [first][1..] == [] && [second][1..] == [] && [first] + [second] == [first, second];
      assert second.(selections := second.selections + []) == second;
    }
    assert FieldCollection.CollectOne(op, QUERY[1], TYPES, {}, [first]).fields == [first, second];
    assert FieldCollection.CollectOnto(op, rest, TYPES, {}, [first]).fields == [first, second];
  }

  /** It is collected as two groups, which differ in the object definition only; if both resolvers,
      which run concurrently, answer nothing where something is expected, the plan is that of the twins. */
  lemma {:induction false} TwinsFromAQuery(op: Query.Operation, resolvers: Planning.Resolvers, depth: nat)
    requires forall place, f :: resolvers(place, f) == Planning.Reply(true, true, 0, Planning.Absent)
    ensures Planning.Root(Planning.AsCollected(op), resolvers, QUERY, TYPES, depth) == TWINS
  {
    TwoGroups(op);
    var fields := FieldCollection.CollectFields(op, QUERY, TYPES);
    var plan := Planning.PlanOf(Planning.AsCollected(op), resolvers, QUERY, TYPES, [], depth);
    forall i | 0 <= i < |fields| ensures plan[i] == TWIN {
      assert plan[i] == Planning.PlanField(Planning.AsCollected(op), resolvers, fields[i], [], depth);
    }
    assert plan == [TWIN, TWIN];
  }

  /** So a query, with resolvers, whose errors depend on the schedule. */
  lemma {:induction false} AQueryRaces(op: Query.Operation, resolvers: Planning.Resolvers, depth: nat)
    requires forall place, f :: resolvers(place, f) == Planning.Reply(true, true, 0, Planning.Absent)
    ensures !Races.Agreeing(Planning.Root(Planning.AsCollected(op), resolvers, QUERY, TYPES, depth))
  {
    TwinsFromAQuery(op, resolvers, depth);
    var one := InTurn();
    var two := Together();
    assert Races.Records(TWINS, one, [COMPLAINT]) && Races.Records(TWINS, two, [COMPLAINT, COMPLAINT]);
    assert |multiset([COMPLAINT])| == 1 && |multiset([COMPLAINT, COMPLAINT])| == 2;
  }
}
