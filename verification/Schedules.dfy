/** Runs put together from runs: one after the other, of a part in the whole, from another list of
    errors. The sequential executor's run is one of the interleavings. */
module Schedules {
  import opened Paths
  import opened Execution
  import opened Wrappers
  import opened Interleaving
  import opened InterleavingData
  import opened InterleavingLaws
  import opened Debts
  import opened Sequential
  import opened SequentialLaws

  type Schedule = seq<seq<nat>>

  lemma {:induction false} RunBoth(s: State, p: Path, a: Schedule, b: Schedule)
    requires Run(s, p, a).Some?
    ensures Run(s, p, a + b) == Run(Run(s, p, a).value, p, b)
    decreases |a|
  {
    if a == [] {
      assert a + b == b;
    } else {
      assert (a + b)[0] == a[0] && (a + b)[1..] == a[1..] + b;
      RunBoth(Advance(s.task, p, s.errors, a[0]).value, p, a[1..], b);
    }
  }

  /** A step, and then a run. */
  lemma {:induction false} OneStep(s: State, p: Path, step: seq<nat>, next: State, rest: Schedule)
    returns (all: Schedule)
    requires Advance(s.task, p, s.errors, step) == Some(next) && Run(next, p, rest).Some?
    ensures Run(s, p, all) == Run(next, p, rest)
  {
    all := [step] + rest;
    assert all[1..] == rest;
  }

  /** A run, and then a run. */
  lemma {:induction false} Both(s: State, p: Path, a: Schedule, b: Schedule) returns (all: Schedule)
    requires Run(s, p, a).Some? && Run(Run(s, p, a).value, p, b).Some?
    ensures Run(s, p, all) == Run(Run(s, p, a).value, p, b)
  {
    RunBoth(s, p, a, b);
    all := a + b;
  }

  // --- Every run can be completed ---

  lemma {:induction false} Completed(s: State, p: Path) returns (all: Schedule)
    requires Tidy(s.task)
    ensures Run(s, p, all).Some? && Run(s, p, all).value.task == Done(Final(s.task))
    decreases Work(s.task)
  {
    all := [];
    if !s.task.Done? {
      var at := NeverStuck(s.task, p, s.errors);
      var next := Advance(s.task, p, s.errors, at).value;
      StepKeepsData(s.task, p, s.errors, at);
      StepWorks(s.task, p, s.errors, at);
      var rest := Completed(next, p);
      all := OneStep(s, p, at, next, rest);
    }
  }

  // --- Steps depend on which paths have errors, and on nothing else in the list ---

  lemma {:induction false} SamePathsStep(t: Task, p: Path, one: seq<Error>, two: seq<Error>, at: seq<nat>)
    returns (x: seq<Error>)
    requires PathsOf(one) == PathsOf(two) && Advance(t, p, one, at).Some?
    ensures var next := Advance(t, p, one, at).value;
            && next.errors == one + x && |x| <= 1
            && Advance(t, p, two, at) == Some(State(next.task, two + x))
    decreases t
  {
    assert HasFieldError(one, p) <==> p in PathsOf(one);
    assert HasFieldError(two, p) <==> p in PathsOf(two);
    assert one + [] == one && two + [] == two;
    x := [];
    match t
    case Joining(children) =>
      if at != [] {
        x := SamePathsStep(children[at[0]], p + [Index(at[0])], one, two, at[1..]);
      }
    case Dispatching(fields, slots, _) =>
      if at != [] {
        x := SamePathsSlot(fields, slots, t.invalids, p, one, two, at);
      }
    case Resolving(f, done) =>
      if done < f.reports {
        x := [Error(p, Reported(done))];
      } else if f.outcome.Failed? {
        x := [Error(p + f.outcome.below, ResolverFailed)];
      }
    case Complaining => x := [Error(p, MustNotBeNull)];
    case Missing(_, _) => x := [Error(p, MustNotBeNull)];
    case _ =>
  }

  lemma {:induction false} SamePathsSlot(fields: seq<FieldPlan>, slots: seq<Slot>, invalids: nat, p: Path,
                                         one: seq<Error>, two: seq<Error>, at: seq<nat>) returns (x: seq<Error>)
    requires PathsOf(one) == PathsOf(two) && at != [] && Advance(Dispatching(fields, slots, invalids), p, one, at).Some?
    ensures var next := Advance(Dispatching(fields, slots, invalids), p, one, at).value;
            && next.errors == one + x && |x| <= 1
            && Advance(Dispatching(fields, slots, invalids), p, two, at) == Some(State(next.task, two + x))
    decreases slots
  {
    assert one + [] == one && two + [] == two;
    x := [];
    var i := at[0];
    if slots[i].Running? && !slots[i].task.Done? {
      x := SamePathsStep(slots[i].task, p + [Name(fields[i].alias)], one, two, at[1..]);
    }
  }

  lemma {:induction false} SamePathsRun(t: Task, p: Path, one: seq<Error>, two: seq<Error>, schedule: Schedule)
    returns (x: seq<Error>)
    requires PathsOf(one) == PathsOf(two) && Run(State(t, one), p, schedule).Some?
    ensures var end := Run(State(t, one), p, schedule).value;
            && end.errors == one + x
            && Run(State(t, two), p, schedule) == Some(State(end.task, two + x))
    decreases |schedule|
  {
    assert one + [] == one && two + [] == two;
    x := [];
    if schedule != [] {
      var next := Advance(t, p, one, schedule[0]).value;
      var first := SamePathsStep(t, p, one, two, schedule[0]);
      StillSamePaths(one, two, first);
      var rest := SamePathsRun(next.task, p, one + first, two + first, schedule[1..]);
      Regrouped(one, first, rest);
      Regrouped(two, first, rest);
      x := first + rest;
    }
  }

  lemma {:induction false} Regrouped(a: seq<Error>, b: seq<Error>, c: seq<Error>)
    ensures (a + b) + c == a + (b + c)
  {
  }

  lemma {:induction false} StillSamePaths(one: seq<Error>, two: seq<Error>, x: seq<Error>)
    requires PathsOf(one) == PathsOf(two) && |x| <= 1
    ensures PathsOf(one + x) == PathsOf(two + x)
  {
    if x == [] {
      assert one + x == one && two + x == two;
    } else {
      assert x == [x[0]];
      OneErrorMore(one, x[0]);
      OneErrorMore(two, x[0]);
    }
  }

  // --- A part's run in the whole ---

  lemma {:induction false} ItemRun(children: seq<Task>, p: Path, errors: seq<Error>, i: nat, schedule: Schedule,
                                   end: State)
    returns (all: Schedule)
    requires i < |children| && Run(State(children[i], errors), p + [Index(i)], schedule) == Some(end)
    ensures Run(State(Joining(children), errors), p, all)
         == Some(State(Joining(children[i := end.task]), end.errors))
    decreases |schedule|
  {
    all := [];
    if schedule == [] {
      assert children[i := end.task] == children;
    } else {
      var next := Advance(children[i], p + [Index(i)], errors, schedule[0]).value;
      var after := children[i := next.task];
      var rest := ItemRun(after, p, next.errors, i, schedule[1..], end);
      assert after[i := end.task] == children[i := end.task];
      assert ([i] + schedule[0])[1..] == schedule[0];
      all := OneStep(State(Joining(children), errors), p, [i] + schedule[0], State(Joining(after), next.errors), rest);
    }
  }

  /** While a slot runs, it may go on. */
  lemma {:induction false} StillMayRun(fields: seq<FieldPlan>, slots: seq<Slot>, i: nat, s: Slot)
    requires |fields| == |slots| && i < |slots| && MayRun(fields, slots, i) && !slots[i].Written? && !s.Written?
    ensures MayRun(fields, slots[i := s], i)
  {
    forall j | 0 <= j < |fields| && !fields[j].concurrent && !slots[i := s][j].Written?
      ensures !fields[i].concurrent && i <= j
    {
      assert !slots[j].Written?;
    }
  }

  lemma {:induction false} SlotRun(fields: seq<FieldPlan>, slots: seq<Slot>, invalids: nat, p: Path, errors: seq<Error>,
                                   i: nat, t: Task, schedule: Schedule, end: State) returns (all: Schedule)
    requires |fields| == |slots| && i < |slots| && MayRun(fields, slots, i) && slots[i] == Running(t)
    requires Run(State(t, errors), p + [Name(fields[i].alias)], schedule) == Some(end)
    ensures Run(State(Dispatching(fields, slots, invalids), errors), p, all)
         == Some(State(Dispatching(fields, slots[i := Running(end.task)], invalids), end.errors))
    decreases |schedule|
  {
    all := [];
    if schedule == [] {
      assert slots[i := Running(end.task)] == slots;
    } else {
      var next := Advance(t, p + [Name(fields[i].alias)], errors, schedule[0]).value;
      var after := slots[i := Running(next.task)];
      StillMayRun(fields, slots, i, Running(next.task));
      var rest := SlotRun(fields, after, invalids, p, next.errors, i, next.task, schedule[1..], end);
      assert after[i := Running(end.task)] == slots[i := Running(end.task)];
      assert ([i] + schedule[0])[1..] == schedule[0];
      all := OneStep(State(Dispatching(fields, slots, invalids), errors), p, [i] + schedule[0],
                     State(Dispatching(fields, after, invalids), next.errors), rest);
    }
  }

  /** A slot whose task is done: its result is counted and stored. */
  lemma {:induction false} SlotStored(fields: seq<FieldPlan>, slots: seq<Slot>, invalids: nat, p: Path,
                                      errors: seq<Error>, i: nat, d: Data) returns (all: Schedule, invalids': nat)
    requires |fields| == |slots| && i < |slots| && MayRun(fields, slots, i) && slots[i] == Running(Done(d))
    ensures Run(State(Dispatching(fields, slots, invalids), errors), p, all)
         == Some(State(Dispatching(fields, slots[i := Written(d)], invalids'), errors))
  {
    invalids' := if Invalid(fields[i], d) then invalids + 1 else invalids;
    var at: seq<nat> := [i];
    assert at[1..] == [];
    var back, kept := slots[i := Returning(d)], slots[i := Written(d)];
    StillMayRun(fields, slots, i, Returning(d));
    assert back[i := Written(d)] == kept;
    var end := State(Dispatching(fields, kept, invalids'), errors);
    all := OneStep(State(Dispatching(fields, back, invalids'), errors), p, at, end, []);
    all := OneStep(State(Dispatching(fields, slots, invalids), errors), p, at,
                   State(Dispatching(fields, back, invalids'), errors), all);
  }

  // --- The sequential run is one of the interleavings ---

  /** The schedule takes a task to its end, with these errors. */
  ghost predicate Ends(t: Task, p: Path, errors: seq<Error>, schedule: Schedule, errors': seq<Error>) {
    Run(State(t, errors), p, schedule) == Some(State(Done(Final(t)), errors'))
  }

  /** A step to a task with the same data to come, and then to the end. */
  lemma {:induction false} StepEnds(t: Task, p: Path, errors: seq<Error>, next: State, rest: Schedule,
                                    errors': seq<Error>)
    returns (all: Schedule)
    requires Advance(t, p, errors, []) == Some(next) && Final(next.task) == Final(t)
    requires Ends(next.task, p, next.errors, rest, errors')
    ensures Ends(t, p, errors, all, errors')
  {
    all := OneStep(State(t, errors), p, [], next, rest);
  }

  lemma {:induction false} NullAlone(p: Path, errors: seq<Error>, nonNull: bool) returns (all: Schedule)
    ensures Ends(Null_(nonNull), p, errors, all, if nonNull then Complained(errors, p) else errors)
  {
    all := [];
    if nonNull {
      var after := Complained(errors, p);
      if after != errors {
        all := StepEnds(Complaining, p, errors, State(Done(Null), after), all, after);
        all := StepEnds(Checking, p, errors, State(Complaining, errors), all, after);
      } else {
        all := StepEnds(Checking, p, errors, State(Done(Null), errors), all, after);
      }
    }
  }

  lemma {:induction false} ScalarsAlone(d: Data, left: nat, p: Path, errors: seq<Error>) returns (all: Schedule)
    ensures Ends(Scanning(d, left), p, errors, all, if left > 0 then Complained(errors, p) else errors)
    decreases left
  {
    all := [];
    if left == 0 {
      all := StepEnds(Scanning(d, left), p, errors, State(Done(d), errors), all, errors);
    } else {
      var after := Complained(errors, p);
      ComplainedTwice(errors, p);
      all := ScalarsAlone(d, left - 1, p, after);
      if after != errors {
        all := StepEnds(Missing(d, left - 1), p, errors, State(Scanning(d, left - 1), after), all, after);
        all := StepEnds(Scanning(d, left), p, errors, State(Missing(d, left - 1), errors), all, after);
      } else {
        all := StepEnds(Scanning(d, left), p, errors, State(Scanning(d, left - 1), errors), all, after);
      }
    }
  }

  lemma {:induction false} AnswerAlone(a: Answer, p: Path, nonNull: bool, errors: seq<Error>) returns (all: Schedule)
    ensures Ends(Marshalling(a, nonNull), p, errors, all, AfterAnswer(errors, a, p, nonNull))
    decreases a, 3
  {
    var next := Advance(Marshalling(a, nonNull), p, errors, []).value;
    var after := AfterAnswer(errors, a, p, nonNull);
    MarshallingKeepsData(a, nonNull, p, errors);
    match a {
      case Nil => all := NullAlone(p, errors, nonNull);
      case NilImplementor => all := [];
      case Leaf(_) => all := [];
      case ScalarList(scalarsNonNull, scalars) =>
        all := ScalarsAlone(next.task.data, MissingAmong(scalars, scalarsNonNull), p, errors);
        assert scalars[..|scalars|] == scalars;
        ScalarsComplainOnce(errors, scalars, p, scalarsNonNull, |scalars|);
      case List(itemsNonNull, items) =>
        all := ListAlone(items, p, itemsNonNull, errors, next.task.children);
      case Object(fields) =>
        all := ObjectAlone(fields, p, errors, next.task.slots);
    }
    all := StepEnds(Marshalling(a, nonNull), p, errors, State(next.task, errors), all, after);
  }

  // --- Lists ---

  lemma {:induction false} ListAlone(items: seq<Answer>, p: Path, itemsNonNull: bool, errors: seq<Error>,
                                     children: seq<Task>)
    returns (all: Schedule)
    requires |children| == |items|
    requires forall i :: 0 <= i < |items| ==> children[i] == Marshalling(items[i], itemsNonNull)
    ensures Ends(Joining(children), p, errors, all, AfterItems(errors, items, p, itemsNonNull, |items|))
    decreases items, 2
  {
    var after := AfterItems(errors, items, p, itemsNonNull, |items|);
    var done;
    all, done := ItemsAlone(items, p, itemsNonNull, errors, children, |items|);
    var last := JoinDone(done, p, after);
    all := Both(State(Joining(children), errors), p, all, last);
    SameItems(children, done);
  }

  lemma {:induction false} SameItems(one: seq<Task>, two: seq<Task>)
    requires |one| == |two| && forall i :: 0 <= i < |one| ==> Final(one[i]) == Final(two[i])
    ensures Final(Joining(one)) == Final(Joining(two))
  {
    assert Final(Joining(one)).items == Final(Joining(two)).items;
  }

  lemma {:induction false} JoinDone(children: seq<Task>, p: Path, errors: seq<Error>) returns (all: Schedule)
    requires AllDone(children)
    ensures Ends(Joining(children), p, errors, all, errors)
  {
    JoinedKeepsData(children, p, errors);
    var next := Advance(Joining(children), p, errors, []).value;
    all := StepEnds(Joining(children), p, errors, next, [], errors);
  }

  /** The first `n` items, one after the other. */
  lemma {:induction false} ItemsAlone(items: seq<Answer>, p: Path, itemsNonNull: bool, errors: seq<Error>,
                                      children: seq<Task>, n: nat) returns (all: Schedule, done: seq<Task>)
    requires |children| == |items| && n <= |items|
    requires forall i :: 0 <= i < |items| ==> children[i] == Marshalling(items[i], itemsNonNull)
    ensures |done| == |items|
    ensures forall i :: 0 <= i < |items| ==> done[i] == if i < n then Done(DataOf(items[i])) else children[i]
    ensures Run(State(Joining(children), errors), p, all)
         == Some(State(Joining(done), AfterItems(errors, items, p, itemsNonNull, n)))
    decreases items, 1, n
  {
    all, done := [], children;
    if n > 0 {
      var k := n - 1;
      var before, mid := ItemsAlone(items, p, itemsNonNull, errors, children, k);
      var errors' := AfterItems(errors, items, p, itemsNonNull, k);
      var item := AnswerAlone(items[k], p + [Index(k)], itemsNonNull, errors');
      var end := State(Done(DataOf(items[k])), AfterItems(errors, items, p, itemsNonNull, n));
      var lifted := ItemRun(mid, p, errors', k, item, end);
      done := mid[k := end.task];
      all := Both(State(Joining(children), errors), p, before, lifted);
    }
  }

  // --- Objects ---

  /** The fields with these numbers are over; the others have not started. */
  ghost predicate Progress(fields: seq<FieldPlan>, slots: seq<Slot>, turns: seq<nat>) {
    && |slots| == |fields|
    && forall j: nat :: j < |fields| ==>
         if j in turns then slots[j].Written? else slots[j] == Running(Resolving(fields[j], 0))
  }

  /** In this order, each field has its turn once all before it have had theirs. */
  ghost predicate InOrder(fields: seq<FieldPlan>, turns: seq<nat>) {
    && (forall k :: 0 <= k < |turns| ==> turns[k] < |fields|)
    && (forall j, k :: 0 <= j < k < |turns| ==> turns[j] != turns[k])
    && forall k, j: nat :: 0 <= k < |turns| && j < |fields| && Precedes(fields, j, turns[k]) ==> j in turns[..k]
  }

  lemma {:induction false} InOrderPrefix(fields: seq<FieldPlan>, turns: seq<nat>, n: nat)
    requires InOrder(fields, turns) && n <= |turns|
    ensures InOrder(fields, turns[..n])
  {
    forall k, j: nat | 0 <= k < n && j < |fields| && Precedes(fields, j, turns[..n][k]) ensures j in turns[..n][..k] {
      assert turns[..n][..k] == turns[..k] && turns[..n][k] == turns[k];
    }
  }

  lemma {:induction false} MayHaveTurn(fields: seq<FieldPlan>, slots: seq<Slot>, turns: seq<nat>, i: nat)
    requires Progress(fields, slots, turns) && i < |fields|
    requires forall j: nat :: j < |fields| && Precedes(fields, j, i) ==> j in turns
    ensures MayRun(fields, slots, i)
  {
    forall j | 0 <= j < |fields| && !fields[j].concurrent && !slots[j].Written?
      ensures !fields[i].concurrent && i <= j
    {
      assert j as nat !in turns;
      assert !Precedes(fields, j, i);
    }
  }

  lemma {:induction false} FieldAlone(f: FieldPlan, p: Path, errors: seq<Error>) returns (all: Schedule)
    ensures Ends(Resolving(f, 0), p, errors, all, AfterField(errors, f, p))
    decreases f, 2
  {
    var first := ReportsAlone(f, p, errors, f.reports);
    var mid := AfterReports(errors, p, f.reports);
    var rest := OutcomeAlone(f, p, mid);
    all := Both(State(Resolving(f, 0), errors), p, first, rest);
  }

  lemma {:induction false} ReportsAlone(f: FieldPlan, p: Path, errors: seq<Error>, n: nat) returns (all: Schedule)
    requires n <= f.reports
    ensures Run(State(Resolving(f, 0), errors), p, all) == Some(State(Resolving(f, n), AfterReports(errors, p, n)))
    decreases n
  {
    all := [];
    if n > 0 {
      var before := ReportsAlone(f, p, errors, n - 1);
      var mid := State(Resolving(f, n - 1), AfterReports(errors, p, n - 1));
      var end := State(Resolving(f, n), AfterReports(errors, p, n));
      var last := OneStep(mid, p, [], end, []);
      all := Both(State(Resolving(f, 0), errors), p, before, last);
    }
  }

  lemma {:induction false} OutcomeAlone(f: FieldPlan, p: Path, errors: seq<Error>) returns (all: Schedule)
    ensures Ends(Resolving(f, f.reports), p, errors, all, AfterOutcome(errors, f, p))
    decreases f, 1
  {
    var t, after := Resolving(f, f.reports), AfterOutcome(errors, f, p);
    match f.outcome {
      case Failed(_) =>
        all := StepEnds(t, p, errors, State(Done(Null), after), [], after);
      case Nothing =>
        all := NullAlone(p, errors, f.nonNull);
        all := StepEnds(t, p, errors, State(Null_(f.nonNull), errors), all, after);
      case Answered(a) =>
        all := AnswerAlone(a, p, f.nonNull, errors);
        all := StepEnds(t, p, errors, State(Marshalling(a, f.nonNull), errors), all, after);
    }
  }

  /** The fields have their turns, one after the other. */
  lemma {:induction false} TurnsAlone(fields: seq<FieldPlan>, p: Path, errors: seq<Error>, slots: seq<Slot>,
                                      turns: seq<nat>) returns (all: Schedule, slots': seq<Slot>, invalids: nat)
    requires Progress(fields, slots, []) && InOrder(fields, turns)
    ensures Progress(fields, slots', turns)
    ensures Run(State(Dispatching(fields, slots, 0), errors), p, all)
         == Some(State(Dispatching(fields, slots', invalids), AfterFields(errors, fields, p, turns)))
    decreases fields, 1, |turns|
  {
    all, slots', invalids := [], slots, 0;
    if turns != [] {
      var n := |turns| - 1;
      var i := turns[n];
      InOrderPrefix(fields, turns, n);
      var before, mid, counted := TurnsAlone(fields, p, errors, slots, turns[..n]);
      var errors' := AfterFields(errors, fields, p, turns[..n]);
      var last;
      last, slots', invalids := TurnAlone(fields, p, errors', mid, counted, turns[..n], i);
      assert turns[..n] + [i] == turns;
      all := Both(State(Dispatching(fields, slots, 0), errors), p, before, last);
    }
  }

  lemma {:induction false} TurnAlone(fields: seq<FieldPlan>, p: Path, errors: seq<Error>, slots: seq<Slot>,
                                     counted: nat, turns: seq<nat>, i: nat)
    returns (all: Schedule, slots': seq<Slot>, invalids: nat)
    requires Progress(fields, slots, turns) && i < |fields| && i !in turns
    requires forall j: nat :: j < |fields| && Precedes(fields, j, i) ==> j in turns
    ensures Progress(fields, slots', turns + [i])
    ensures Run(State(Dispatching(fields, slots, counted), errors), p, all)
         == Some(State(Dispatching(fields, slots', invalids),
                       AfterField(errors, fields[i], p + [Name(fields[i].alias)])))
    decreases fields, 0
  {
    var f, q := fields[i], p + [Name(fields[i].alias)];
    var t, d, after := Resolving(f, 0), DataOfField(f), AfterField(errors, f, q);
    MayHaveTurn(fields, slots, turns, i);
    var own := FieldAlone(f, q, errors);
    var first := SlotRun(fields, slots, counted, p, errors, i, t, own, State(Done(d), after));
    var done := slots[i := Running(Done(d))];
    StillMayRun(fields, slots, i, Running(Done(d)));
    var second;
    second, invalids := SlotStored(fields, done, counted, p, after, i, d);
    slots' := done[i := Written(d)];
    all := Both(State(Dispatching(fields, slots, counted), errors), p, first, second);
  }

  lemma {:induction false} ObjectAlone(fields: seq<FieldPlan>, p: Path, errors: seq<Error>, slots: seq<Slot>)
    returns (all: Schedule)
    requires Progress(fields, slots, [])
    ensures Ends(Dispatching(fields, slots, 0), p, errors, all, AfterFields(errors, fields, p, Turns(fields)))
    decreases fields, 2
  {
    var after := AfterFields(errors, fields, p, Turns(fields));
    var t := Dispatching(fields, slots, 0);
    TurnsInOrder(fields);
    TurnsAreComplete(fields);
    var done, invalids;
    all, done, invalids := TurnsAlone(fields, p, errors, slots, Turns(fields));
    var last := DispatchDone(fields, done, invalids, p, after);
    all := Both(State(t, errors), p, all, last);
    FreshIsTidy(fields, slots);
    RunKeepsData(State(t, errors), p, all);
  }

  lemma {:induction false} FreshIsTidy(fields: seq<FieldPlan>, slots: seq<Slot>)
    requires Progress(fields, slots, [])
    ensures Tidy(Dispatching(fields, slots, 0))
  {
    FreshSlots(fields, slots);
  }

  lemma {:induction false} DispatchDone(fields: seq<FieldPlan>, slots: seq<Slot>, invalids: nat, p: Path,
                                        errors: seq<Error>)
    returns (all: Schedule)
    requires |fields| == |slots| && AllWritten(slots)
    ensures var s := State(Dispatching(fields, slots, invalids), errors);
            && Run(s, p, all).Some? && Run(s, p, all).value.task.Done? && Run(s, p, all).value.errors == errors
  {
    var t := Dispatching(fields, slots, invalids);
    all := OneStep(State(t, errors), p, [], Advance(t, p, errors, []).value, []);
  }

  lemma {:induction false} TurnsInOrder(fields: seq<FieldPlan>)
    ensures InOrder(fields, Turns(fields))
  {
    var n := |fields|;
    var a, b := Chosen(fields, false, n), Chosen(fields, true, n);
    var turns := a + b;
    TurnsAreComplete(fields);
    forall k, j: nat | 0 <= k < |turns| && j < n && Precedes(fields, j, turns[k]) ensures j in turns[..k] {
      ChosenHas(fields, n, j);
      var m :| 0 <= m < |a| && a[m] == j;
      assert turns[m] == j;
      if k < |a| {
        ChosenIs(fields, false, n, k);
        if k < m {
          ChosenInOrder(fields, false, n, k, m);
        }
        assert m < k;
      }
      assert turns[..k][m] == j;
    }
  }

  /** The sequential executor's list of errors is that of one of the interleavings. */
  lemma {:induction false} SequentialIsOne(a: Answer) returns (schedule: Schedule)
    ensures Run(Start(a), [], schedule) == Some(State(Done(DataOf(a)), AfterAnswer([], a, [], false)))
  {
    schedule := AnswerAlone(a, [], false, []);
  }
}
