/** The errors of an execution depend on the schedule unless it is calm. */
module Races {
  import opened Paths
  import opened Execution
  import opened Wrappers
  import opened Interleaving
  import opened InterleavingData
  import opened InterleavingLaws
  import opened Debts
  import opened Sequential
  import opened Schedules

  ghost function Complaint(q: Path): Error {
    Error(q, MustNotBeNull)
  }

  ghost function Count(errors: seq<Error>, q: Path): nat {
    multiset(errors)[Complaint(q)]
  }

  lemma {:induction false} NoneThere(errors: seq<Error>, q: Path)
    requires q !in PathsOf(errors)
    ensures Count(errors, q) == 0
  {
    assert forall i :: 0 <= i < |errors| ==> errors[i].path != q;
  }

  // --- Complaints at `q` that are sure to come: decided on, but not recorded yet ---

  ghost function Pending(t: Task, p: Path, q: Path): nat
    decreases t
  {
    match t
    case Complaining => if p == q then 1 else 0
    case Missing(_, _) => if p == q then 1 else 0
    case Joining(children) => Add(PendingByItems(children, p, q))
    case Dispatching(fields, slots, _) => if |fields| != |slots| then 0 else Add(PendingBySlots(fields, slots, p, q))
    case _ => 0
  }

  ghost function PendingByItems(children: seq<Task>, p: Path, q: Path): (r: seq<nat>)
    ensures |r| == |children|
    decreases children
  {
    seq(|children|, i requires 0 <= i < |children| => Pending(children[i], p + [Index(i)], q))
  }

  ghost function PendingBySlots(fields: seq<FieldPlan>, slots: seq<Slot>, p: Path, q: Path): (r: seq<nat>)
    requires |fields| == |slots|
    ensures |r| == |slots|
    decreases slots
  {
    seq(|slots|, i requires 0 <= i < |slots| => PendingInSlot(slots[i], p + [Name(fields[i].alias)], q))
  }

  ghost function PendingInSlot(s: Slot, p: Path, q: Path): nat
    decreases s
  {
    if s.Running? then Pending(s.task, p, q) else 0
  }

  lemma {:induction false} AddZeros(s: seq<nat>)
    requires forall i :: 0 <= i < |s| ==> s[i] == 0
    ensures Add(s) == 0
    decreases |s|
  {
    if s != [] {
      AddZeros(s[1..]);
    }
  }

  lemma {:induction false} AddAtLeast(s: seq<nat>, i: nat)
    requires i < |s|
    ensures s[i] <= Add(s)
    decreases |s|
  {
    if i > 0 {
      AddAtLeast(s[1..], i - 1);
    }
  }

  /** Once `q` has an error, no more complaints at `q` are decided on. */
  lemma {:induction false} StepPending(t: Task, p: Path, errors: seq<Error>, at: seq<nat>, q: Path)
    requires Advance(t, p, errors, at).Some? && q in PathsOf(Advance(t, p, errors, at).value.errors)
    ensures var next := Advance(t, p, errors, at).value;
            Count(next.errors, q) + Pending(next.task, p, q) == Count(errors, q) + Pending(t, p, q)
    decreases t
  {
    var next := Advance(t, p, errors, at).value;
    match t
    case Joining(children) =>
      if at == [] {
        AddZeros(PendingByItems(children, p, q));
      } else {
        var i := at[0];
        StepPending(children[i], p + [Index(i)], errors, at[1..], q);
        var child := next.task.children[i];
        AddUpdate(PendingByItems(children, p, q), i, Pending(child, p + [Index(i)], q));
        assert PendingByItems(next.task.children, p, q)
            == PendingByItems(children, p, q)[i := Pending(child, p + [Index(i)], q)];
      }
    case Dispatching(fields, slots, _) =>
      if at == [] {
        AddZeros(PendingBySlots(fields, slots, p, q));
      } else {
        var i := at[0];
        SlotStepPending(fields, slots, t.invalids, p, errors, at, q);
        var m := PendingInSlot(next.task.slots[i], p + [Name(fields[i].alias)], q);
        AddUpdate(PendingBySlots(fields, slots, p, q), i, m);
        assert PendingBySlots(fields, next.task.slots, p, q) == PendingBySlots(fields, slots, p, q)[i := m];
      }
    case Marshalling(a, nonNull) => FreshPending(a, nonNull, p, errors, q);
    case _ => NullPending(t, p, errors, q);
  }

  lemma {:induction false} NullPending(t: Task, p: Path, errors: seq<Error>, q: Path)
    requires !t.Joining? && !t.Dispatching? && !t.Marshalling? && Advance(t, p, errors, []).Some?
    requires q in PathsOf(Advance(t, p, errors, []).value.errors)
    ensures var next := Advance(t, p, errors, []).value;
            Count(next.errors, q) + Pending(next.task, p, q) == Count(errors, q) + Pending(t, p, q)
  {
    var next := Advance(t, p, errors, []).value;
    if next.errors != errors {
      assert multiset(next.errors) == multiset(errors) + multiset{next.errors[|errors|]};
    }
  }

  lemma {:induction false} FreshPending(a: Answer, nonNull: bool, p: Path, errors: seq<Error>, q: Path)
    ensures var next := Advance(Marshalling(a, nonNull), p, errors, []).value;
            next.errors == errors && Pending(next.task, p, q) == 0
  {
    var next := Advance(Marshalling(a, nonNull), p, errors, []).value.task;
    match a
    case List(itemsNonNull, items) =>
      forall i | 0 <= i < |items| ensures PendingByItems(next.children, p, q)[i] == 0 {
        assert next.children[i] == Marshalling(items[i], itemsNonNull);
      }
      AddZeros(PendingByItems(next.children, p, q));
    case Object(fields) =>
      forall i | 0 <= i < |fields| ensures PendingBySlots(fields, next.slots, p, q)[i] == 0 {
        assert next.slots[i] == Running(Resolving(fields[i], 0));
        NothingPending(next.slots[i], p + [Name(fields[i].alias)], q);
      }
      AddZeros(PendingBySlots(fields, next.slots, p, q));
    case _ =>
  }

  lemma {:induction false} NothingPending(s: Slot, p: Path, q: Path)
    requires s.Running? ==> s.task.Resolving? || s.task.Done?
    ensures PendingInSlot(s, p, q) == 0
  {
  }

  lemma {:induction false} SlotStepPending(fields: seq<FieldPlan>, slots: seq<Slot>, invalids: nat, p: Path,
                                           errors: seq<Error>, at: seq<nat>, q: Path)
    requires at != [] && Advance(Dispatching(fields, slots, invalids), p, errors, at).Some?
    requires q in PathsOf(Advance(Dispatching(fields, slots, invalids), p, errors, at).value.errors)
    ensures var next := Advance(Dispatching(fields, slots, invalids), p, errors, at).value;
            var i := at[0];
            var r := p + [Name(fields[i].alias)];
            && next.task.slots == slots[i := next.task.slots[i]]
            && Count(next.errors, q) + PendingInSlot(next.task.slots[i], r, q)
               == Count(errors, q) + PendingInSlot(slots[i], r, q)
    decreases slots
  {
    var i := at[0];
    if slots[i].Running? && !slots[i].task.Done? {
      StepPending(slots[i].task, p + [Name(fields[i].alias)], errors, at[1..], q);
    }
  }

  lemma {:induction false} RunPending(s: State, p: Path, schedule: Schedule, q: Path)
    requires Run(s, p, schedule).Some? && q in PathsOf(s.errors)
    ensures var e := Run(s, p, schedule).value;
            Count(e.errors, q) + Pending(e.task, p, q) == Count(s.errors, q) + Pending(s.task, p, q)
    decreases |schedule|
  {
    if schedule != [] {
      var next := Advance(s.task, p, s.errors, schedule[0]).value;
      StepMarks(s.task, p, s.errors, schedule[0]);
      AddsPaths(s.errors, next.errors, Marks(s.task, p));
      StepPending(s.task, p, s.errors, schedule[0], q);
      RunPending(next, p, schedule[1..], q);
    }
  }

  // --- Where there is an error, only pending complaints are owed ---

  lemma {:induction false} SumZeros(parts: seq<multiset<Error>>, e: Error)
    requires forall i :: 0 <= i < |parts| ==> parts[i][e] == 0
    ensures Sum(parts)[e] == 0
    decreases |parts|
  {
    if parts != [] {
      SumZeros(parts[1..], e);
    }
  }

  lemma {:induction false} SumAtMost(parts: seq<multiset<Error>>, bounds: seq<nat>, e: Error)
    requires |parts| == |bounds| && forall i :: 0 <= i < |parts| ==> parts[i][e] <= bounds[i]
    ensures Sum(parts)[e] <= Add(bounds)
    decreases |parts|
  {
    if parts != [] {
      SumAtMost(parts[1..], bounds[1..], e);
    }
  }

  lemma {:induction false} AnswerIsSilentAt(a: Answer, p: Path, nonNull: bool, has: iset<Path>, q: Path)
    requires q in has
    ensures OwesOf(a, p, nonNull, has)[Complaint(q)] == 0
    decreases a
  {
    match a
    case List(itemsNonNull, items) =>
      var parts := OwesOfItems(items, p, itemsNonNull, has);
      forall i | 0 <= i < |items| ensures parts[i][Complaint(q)] == 0 {
        AnswerIsSilentAt(items[i], p + [Index(i)], itemsNonNull, has, q);
      }
      SumZeros(parts, Complaint(q));
    case Object(fields) =>
      var parts, marks := OwesOfFields(fields, p, has), MarksOfFields(fields, p);
      forall i | 0 <= i < |fields| ensures parts[i][Complaint(q)] == 0 {
        FieldIsSilentAt(fields[i], p + [Name(fields[i].alias)], Earlier(fields, marks, has, i), q);
      }
      SumZeros(parts, Complaint(q));
    case _ =>
  }

  lemma {:induction false} FieldIsSilentAt(f: FieldPlan, p: Path, has: iset<Path>, q: Path)
    requires q in has
    ensures OwesOfField(f, p, has)[Complaint(q)] == 0
    decreases f, 1
  {
    ReportsAre(p, 0, f.reports, Complaint(q));
    OutcomeIsSilentAt(f, p, has + Single(f.reports > 0, p), q);
  }

  lemma {:induction false} OutcomeIsSilentAt(f: FieldPlan, p: Path, has: iset<Path>, q: Path)
    requires q in has
    ensures OwesOfOutcome(f, p, has)[Complaint(q)] == 0
    decreases f, 0
  {
    if f.outcome.Answered? {
      AnswerIsSilentAt(f.outcome.answer, p, f.nonNull, has, q);
    }
  }

  lemma {:induction false} OnlyPendingOwed(t: Task, p: Path, has: iset<Path>, q: Path)
    requires q in has
    ensures Owes(t, p, has)[Complaint(q)] <= Pending(t, p, q)
    decreases t
  {
    match t
    case Resolving(f, done) =>
      ReportsAre(p, done, f.reports, Complaint(q));
      OutcomeIsSilentAt(f, p, has + Single(done < f.reports, p), q);
    case Marshalling(a, nonNull) => AnswerIsSilentAt(a, p, nonNull, has, q);
    case Joining(children) =>
      forall i | 0 <= i < |children|
        ensures OwesByItems(children, p, has)[i][Complaint(q)] <= PendingByItems(children, p, q)[i]
      {
        OnlyPendingOwed(children[i], p + [Index(i)], has, q);
      }
      SumAtMost(OwesByItems(children, p, has), PendingByItems(children, p, q), Complaint(q));
    case Dispatching(fields, slots, _) =>
      if |fields| == |slots| {
        var marks := MarksBySlots(fields, slots, p);
        forall i | 0 <= i < |slots|
          ensures OwesBySlots(fields, slots, p, has)[i][Complaint(q)] <= PendingBySlots(fields, slots, p, q)[i]
        {
          OnlyPendingOwedInSlot(slots[i], p + [Name(fields[i].alias)], Earlier(fields, marks, has, i), q);
        }
        SumAtMost(OwesBySlots(fields, slots, p, has), PendingBySlots(fields, slots, p, q), Complaint(q));
      }
    case _ =>
  }

  lemma {:induction false} OnlyPendingOwedInSlot(s: Slot, p: Path, has: iset<Path>, q: Path)
    requires q in has
    ensures OwesOfSlot(s, p, has)[Complaint(q)] <= PendingInSlot(s, p, q)
    decreases s
  {
    if s.Running? {
      OnlyPendingOwed(s.task, p, has, q);
    }
  }

  /** A calm task that owes a complaint can be taken to where it has decided on it. */
  lemma {:induction false} Poised(s: State, p: Path, q: Path) returns (all: Schedule)
    requires Tidy(s.task) && CalmTask(s.task, p, PathsOf(s.errors))
    requires q !in PathsOf(s.errors) && Complaint(q) in Owes(s.task, p, PathsOf(s.errors))
    ensures Run(s, p, all).Some?
    ensures var e := Run(s, p, all).value;
            q !in PathsOf(e.errors) && Pending(e.task, p, q) > 0
    decreases Work(s.task)
  {
    all := [];
    if Pending(s.task, p, q) == 0 {
      var at := NeverStuck(s.task, p, s.errors);
      var next := Advance(s.task, p, s.errors, at).value;
      StepKeepsData(s.task, p, s.errors, at);
      StepWorks(s.task, p, s.errors, at);
      StepKeeps(s.task, p, s.errors, at);
      StillOwed(s, p, at, q);
      var rest := Poised(next, p, q);
      all := OneStep(s, p, at, next, rest);
    }
  }

  lemma {:induction false} StillOwed(s: State, p: Path, at: seq<nat>, q: Path)
    requires Advance(s.task, p, s.errors, at).Some? &&
             Keeps(s.task, p, s.errors, Advance(s.task, p, s.errors, at).value)
    requires q !in PathsOf(s.errors) && Complaint(q) in Owes(s.task, p, PathsOf(s.errors)) && Pending(s.task, p, q) == 0
    ensures var next := Advance(s.task, p, s.errors, at).value;
            q !in PathsOf(next.errors) && Complaint(q) in Owes(next.task, p, PathsOf(next.errors))
  {
    var next := Advance(s.task, p, s.errors, at).value;
    NoneThere(s.errors, q);
    assert (multiset(next.errors) + Owes(next.task, p, PathsOf(next.errors)))[Complaint(q)]
        == (multiset(s.errors) + Owes(s.task, p, PathsOf(s.errors)))[Complaint(q)];
    if q in PathsOf(next.errors) {
      StepPending(s.task, p, s.errors, at, q);
      OnlyPendingOwed(next.task, p, PathsOf(next.errors), q);
      assert false;
    }
    NoneThere(next.errors, q);
  }

  // --- Two runs that differ ---

  /** Both schedules take the task to its end, with different errors. */
  ghost predicate Differ(s: State, p: Path, one: Schedule, two: Schedule) {
    && Run(s, p, one).Some? && Run(s, p, one).value.task.Done?
    && Run(s, p, two).Some? && Run(s, p, two).value.task.Done?
    && multiset(Run(s, p, one).value.errors) != multiset(Run(s, p, two).value.errors)
  }

  /** If they differ after a run, they differ with it. */
  lemma {:induction false} DifferAfter(s: State, p: Path, first: Schedule, one: Schedule, two: Schedule)
    returns (one': Schedule, two': Schedule)
    requires Run(s, p, first).Some? && Differ(Run(s, p, first).value, p, one, two)
    ensures Differ(s, p, one', two')
  {
    one' := Both(s, p, first, one);
    two' := Both(s, p, first, two);
  }

  /** Runs to the same task, with different errors at the same paths, can be completed alike. */
  lemma {:induction false} DifferStill(s: State, p: Path, one: Schedule, two: Schedule)
    returns (one': Schedule, two': Schedule)
    requires Run(s, p, one).Some? && Run(s, p, two).Some? && Tidy(Run(s, p, one).value.task)
    requires var a, b := Run(s, p, one).value, Run(s, p, two).value;
             && a.task == b.task && PathsOf(a.errors) == PathsOf(b.errors)
             && multiset(a.errors) != multiset(b.errors)
    ensures Differ(s, p, one', two')
  {
    var a, b := Run(s, p, one).value, Run(s, p, two).value;
    var rest := Completed(a, p);
    var x := SamePathsRun(a.task, p, a.errors, b.errors, rest);
    one' := Both(s, p, one, rest);
    two' := Both(s, p, two, rest);
    StillUnequal(a.errors, b.errors, x);
  }

  lemma {:induction false} StillUnequal(a: seq<Error>, b: seq<Error>, x: seq<Error>)
    requires multiset(a) != multiset(b)
    ensures multiset(a + x) != multiset(b + x)
  {
    assert multiset(a + x) == multiset(a) + multiset(x) && multiset(b + x) == multiset(b) + multiset(x);
    if multiset(a + x) == multiset(b + x) {
      forall e ensures multiset(a)[e] == multiset(b)[e] {
        assert multiset(a + x)[e] == multiset(a)[e] + multiset(x)[e];
        assert multiset(b + x)[e] == multiset(b)[e] + multiset(x)[e];
      }
    }
  }

  /** Two runs of one task to its end mark the same paths. */
  lemma {:induction false} SameEnd(s: State, p: Path, one: Schedule, two: Schedule)
    requires Tidy(s.task) && Differ(s, p, one, two)
    ensures var a, b := Run(s, p, one).value, Run(s, p, two).value;
            a.task == b.task == Done(Final(s.task)) && PathsOf(a.errors) == PathsOf(b.errors)
  {
    RunKeepsData(s, p, one);
    RunKeepsData(s, p, two);
    RunMarks(s, p, one);
    RunMarks(s, p, two);
  }

  // --- A racing part makes a racing whole ---

  lemma {:induction false} ItemDiffers(children: seq<Task>, p: Path, errors: seq<Error>, i: nat, one: Schedule,
                                       two: Schedule)
    returns (one': Schedule, two': Schedule)
    requires i < |children| && Tidy(Joining(children)) && Differ(State(children[i], errors), p + [Index(i)], one, two)
    ensures Differ(State(Joining(children), errors), p, one', two')
  {
    var s := State(Joining(children), errors);
    var a := Run(State(children[i], errors), p + [Index(i)], one).value;
    var b := Run(State(children[i], errors), p + [Index(i)], two).value;
    SameEnd(State(children[i], errors), p + [Index(i)], one, two);
    var first := ItemRun(children, p, errors, i, one, a);
    var second := ItemRun(children, p, errors, i, two, b);
    RunKeepsData(s, p, first);
    one', two' := DifferStill(s, p, first, second);
  }

  lemma {:induction false} SlotDiffers(fields: seq<FieldPlan>, slots: seq<Slot>, invalids: nat, p: Path,
                                       errors: seq<Error>, i: nat, t: Task, one: Schedule, two: Schedule)
    returns (one': Schedule, two': Schedule)
    requires Tidy(Dispatching(fields, slots, invalids)) && i < |slots| && MayRun(fields, slots, i) &&
             slots[i] == Running(t)
    requires Differ(State(t, errors), p + [Name(fields[i].alias)], one, two)
    ensures Differ(State(Dispatching(fields, slots, invalids), errors), p, one', two')
  {
    var s, q := State(Dispatching(fields, slots, invalids), errors), p + [Name(fields[i].alias)];
    assert TidySlot(slots[i]);
    SameEnd(State(t, errors), q, one, two);
    var first := SlotRun(fields, slots, invalids, p, errors, i, t, one, Run(State(t, errors), q, one).value);
    var second := SlotRun(fields, slots, invalids, p, errors, i, t, two, Run(State(t, errors), q, two).value);
    RunKeepsData(s, p, first);
    one', two' := DifferStill(s, p, first, second);
  }

  // --- Up to where a field starts ---

  /** The fields that precede field `i`, in turn. */
  function Before(fields: seq<FieldPlan>, i: nat): (turns: seq<nat>)
    requires i < |fields|
    ensures forall k :: 0 <= k < |turns| ==> turns[k] < |fields|
  {
    Chosen(fields, false, if fields[i].concurrent then |fields| else i)
  }

  lemma {:induction false} BeforeIs(fields: seq<FieldPlan>, i: nat)
    requires i < |fields|
    ensures InOrder(fields, Before(fields, i)) && i !in Before(fields, i)
    ensures forall j: nat :: j < |fields| ==> (j in Before(fields, i) <==> Precedes(fields, j, i))
  {
    var n := if fields[i].concurrent then |fields| else i;
    var turns := Before(fields, i);
    forall j: nat | j < |fields| ensures j in turns <==> Precedes(fields, j, i) {
      if j in turns {
        var k :| 0 <= k < |turns| && turns[k] == j;
        ChosenIs(fields, false, n, k);
      }
      if Precedes(fields, j, i) {
        ChosenHas(fields, n, j);
      }
    }
    forall j, k | 0 <= j < k < |turns| ensures turns[j] < turns[k] {
      ChosenInOrder(fields, false, n, j, k);
    }
    forall k, j: nat | 0 <= k < |turns| && j < |fields| && Precedes(fields, j, turns[k]) ensures j in turns[..k] {
      ChosenIs(fields, false, n, k);
      assert Precedes(fields, j, i);
      var m :| 0 <= m < |turns| && turns[m] == j;
      assert turns[m] < turns[k];
      assert m < k;
      assert turns[..k][m] == j;
    }
  }

  /** The paths that have errors once some fields have had their turns. */
  lemma {:induction false} AfterTurnsPaths(fields: seq<FieldPlan>, p: Path, errors: seq<Error>, turns: seq<nat>, i: nat)
    requires i < |fields| && (forall k :: 0 <= k < |turns| ==> turns[k] < |fields|)
    requires forall j: nat :: j < |fields| ==> (j in turns <==> Precedes(fields, j, i))
    ensures PathsOf(AfterFields(errors, fields, p, turns))
         == Earlier(fields, MarksOfFields(fields, p), PathsOf(errors), i)
  {
    var marks := MarksOfFields(fields, p);
    TurnsMark(fields, p, errors, turns);
    forall q ensures MarkedBefore(fields, marks, i, q) <==> MarkedIn(marks, turns, q) {
      if MarkedBefore(fields, marks, i, q) {
        var j :| 0 <= j < |fields| && Precedes(fields, j, i) && q in marks[j];
        assert j as nat in turns;
        var k :| 0 <= k < |turns| && turns[k] == j;
        assert q in marks[turns[k]];
      }
      if MarkedIn(marks, turns, q) {
        var k :| 0 <= k < |turns| && q in marks[turns[k]];
        assert turns[k] in turns;
      }
    }
  }

  ghost predicate MarkedIn(marks: seq<iset<Path>>, turns: seq<nat>, q: Path)
    requires forall k :: 0 <= k < |turns| ==> turns[k] < |marks|
  {
    exists k :: 0 <= k < |turns| && q in marks[turns[k]]
  }

  lemma {:induction false} TurnsMark(fields: seq<FieldPlan>, p: Path, errors: seq<Error>, turns: seq<nat>)
    requires forall k :: 0 <= k < |turns| ==> turns[k] < |fields|
    ensures var marks := MarksOfFields(fields, p);
            forall q :: q in PathsOf(AfterFields(errors, fields, p, turns))
                        <==> q in PathsOf(errors) || MarkedIn(marks, turns, q)
    decreases |turns|
  {
    if turns != [] {
      var marks := MarksOfFields(fields, p);
      var n := |turns| - 1;
      var i, mid := turns[n], AfterFields(errors, fields, p, turns[..n]);
      TurnsMark(fields, p, errors, turns[..n]);
      FieldMarks(fields[i], p + [Name(fields[i].alias)], mid);
      assert marks[i] == MarksOfField(fields[i], p + [Name(fields[i].alias)]);
      forall q ensures MarkedIn(marks, turns, q) <==> MarkedIn(marks, turns[..n], q) || q in marks[i] {
        if MarkedIn(marks, turns[..n], q) {
          var k :| 0 <= k < n && q in marks[turns[..n][k]];
          assert turns[k] == turns[..n][k];
        }
        if MarkedIn(marks, turns, q) {
          var k :| 0 <= k < |turns| && q in marks[turns[k]];
          if k < n {
            assert turns[..n][k] == turns[k];
          }
        }
      }
    }
  }

  lemma {:induction false} FieldMarks(f: FieldPlan, p: Path, errors: seq<Error>)
    ensures PathsOf(AfterField(errors, f, p)) == PathsOf(errors) + MarksOfField(f, p)
  {
    var all := FieldAlone(f, p, errors);
    RunMarks(State(Resolving(f, 0), errors), p, all);
  }

  function Fresh(fields: seq<FieldPlan>): (slots: seq<Slot>)
    ensures |slots| == |fields|
  {
    seq(|fields|, i requires 0 <= i < |fields| => Running(Resolving(fields[i], 0)))
  }

  /** The object's executor, taken to where field `i` starts. */
  lemma {:induction false} UpToField(fields: seq<FieldPlan>, p: Path, nonNull: bool, errors: seq<Error>, i: nat)
    returns (all: Schedule, slots: seq<Slot>, invalids: nat)
    requires i < |fields|
    ensures Progress(fields, slots, Before(fields, i)) && MayRun(fields, slots, i)
    ensures slots[i] == Running(Resolving(fields[i], 0)) && Tidy(Dispatching(fields, slots, invalids))
    ensures var s := State(Marshalling(Object(fields), nonNull), errors);
            var after := AfterFields(errors, fields, p, Before(fields, i));
            && Run(s, p, all) == Some(State(Dispatching(fields, slots, invalids), after))
            && PathsOf(after) == Earlier(fields, MarksOfFields(fields, p), PathsOf(errors), i)
  {
    var s, turns := State(Marshalling(Object(fields), nonNull), errors), Before(fields, i);
    BeforeIs(fields, i);
    all, slots, invalids := TurnsAlone(fields, p, errors, Fresh(fields), turns);
    all := OneStep(s, p, [], State(Dispatching(fields, Fresh(fields), 0), errors), all);
    RunKeepsData(s, p, all);
    MayHaveTurn(fields, slots, turns, i);
    AfterTurnsPaths(fields, p, errors, turns, i);
  }

  // --- The races ---

  lemma {:induction false} AnswerRaces(a: Answer, p: Path, nonNull: bool, errors: seq<Error>)
    returns (one: Schedule, two: Schedule)
    requires !Calm(a, p, nonNull, PathsOf(errors))
    ensures Differ(State(Marshalling(a, nonNull), errors), p, one, two)
    decreases a, 3
  {
    match a {
      case List(itemsNonNull, items) =>
        one, two := ListRaces(itemsNonNull, items, p, nonNull, errors);
      case Object(fields) =>
        var marks := MarksOfFields(fields, p);
        if i: nat :| i < |fields|
                     && !CalmField(fields[i], p + [Name(fields[i].alias)], Earlier(fields, marks, PathsOf(errors), i)) {
          one, two := ObjectRaces(fields, p, nonNull, errors, i);
        } else {
          one, two := SiblingsRace(fields, p, nonNull, errors);
        }
    }
  }

  lemma {:induction false} ListRaces(itemsNonNull: bool, items: seq<Answer>, p: Path, nonNull: bool, errors: seq<Error>)
    returns (one: Schedule, two: Schedule)
    requires !Calm(List(itemsNonNull, items), p, nonNull, PathsOf(errors))
    ensures Differ(State(Marshalling(List(itemsNonNull, items), nonNull), errors), p, one, two)
    decreases items, 2
  {
    var s := State(Marshalling(List(itemsNonNull, items), nonNull), errors);
    var i: nat :| i < |items| && !Calm(items[i], p + [Index(i)], itemsNonNull, PathsOf(errors));
    var children := seq(|items|, j requires 0 <= j < |items| => Marshalling(items[j], itemsNonNull));
    var next := State(Joining(children), errors);
    one, two := AnswerRaces(items[i], p + [Index(i)], itemsNonNull, errors);
    one, two := ItemDiffers(children, p, errors, i, one, two);
    var first := OneStep(s, p, [], next, []);
    one, two := DifferAfter(s, p, first, one, two);
  }

  lemma {:induction false} ObjectRaces(fields: seq<FieldPlan>, p: Path, nonNull: bool, errors: seq<Error>, i: nat)
    returns (one: Schedule, two: Schedule)
    requires i < |fields|
    requires !CalmField(fields[i], p + [Name(fields[i].alias)],
                        Earlier(fields, MarksOfFields(fields, p), PathsOf(errors), i))
    ensures Differ(State(Marshalling(Object(fields), nonNull), errors), p, one, two)
    decreases fields, 2
  {
    var first, slots, invalids := UpToField(fields, p, nonNull, errors, i);
    var after := AfterFields(errors, fields, p, Before(fields, i));
    one, two := FieldRaces(fields[i], p + [Name(fields[i].alias)], after);
    one, two := SlotDiffers(fields, slots, invalids, p, after, i, Resolving(fields[i], 0), one, two);
    one, two := DifferAfter(State(Marshalling(Object(fields), nonNull), errors), p, first, one, two);
  }

  lemma {:induction false} FieldRaces(f: FieldPlan, p: Path, errors: seq<Error>) returns (one: Schedule, two: Schedule)
    requires !CalmField(f, p, PathsOf(errors))
    ensures Differ(State(Resolving(f, 0), errors), p, one, two)
    decreases f
  {
    var s, a := State(Resolving(f, 0), errors), f.outcome.answer;
    var first := ReportsAlone(f, p, errors, f.reports);
    var mid := AfterReports(errors, p, f.reports);
    ReportsMark(f, p, errors, first);
    one, two := AnswerRaces(a, p, f.nonNull, mid);
    var step := OneStep(State(Resolving(f, f.reports), mid), p, [], State(Marshalling(a, f.nonNull), mid), []);
    first := Both(s, p, first, step);
    one, two := DifferAfter(s, p, first, one, two);
  }

  lemma {:induction false} ReportsMark(f: FieldPlan, p: Path, errors: seq<Error>, first: Schedule)
    ensures PathsOf(AfterReports(errors, p, f.reports)) == PathsOf(errors) + Single(f.reports > 0, p)
  {
    MoreReportsMark(p, errors, f.reports);
  }

  lemma {:induction false} MoreReportsMark(p: Path, errors: seq<Error>, n: nat)
    ensures PathsOf(AfterReports(errors, p, n)) == PathsOf(errors) + Single(n > 0, p)
    decreases n
  {
    if n > 0 {
      MoreReportsMark(p, errors, n - 1);
      OneErrorMore(AfterReports(errors, p, n - 1), Error(p, Reported(n - 1)));
    }
  }

  // --- Two concurrent fields, one of which complains where the other leaves an error ---

  lemma {:induction false} SiblingsRace(fields: seq<FieldPlan>, p: Path, nonNull: bool, errors: seq<Error>)
    returns (one: Schedule, two: Schedule)
    requires var marks := MarksOfFields(fields, p);
             && (forall i: nat :: i < |fields| ==>
                   CalmField(fields[i], p + [Name(fields[i].alias)], Earlier(fields, marks, PathsOf(errors), i)))
             && !Peaceful(fields, OwesOfFields(fields, p, PathsOf(errors)), marks)
    ensures Differ(State(Marshalling(Object(fields), nonNull), errors), p, one, two)
  {
    var marks, owes := MarksOfFields(fields, p), OwesOfFields(fields, p, PathsOf(errors));
    var i: nat, j: nat :| i < |fields| && j < |fields| && i != j && fields[i].concurrent && fields[j].concurrent
                          && !Apart(owes[i], marks[j]);
    var q :| q in marks[j] && Complaint(q) in owes[i];
    var first, slots, invalids := UpToField(fields, p, nonNull, errors, i);
    var after := AfterFields(errors, fields, p, Before(fields, i));
    SameEarlierFor(fields, marks, PathsOf(errors), i, j);
    BeforeIs(fields, i);
    assert j !in Before(fields, i) && i !in Before(fields, i);
    one, two := TwoOrders(fields, slots, invalids, p, after, Before(fields, i), i, j, q);
    one, two := DifferAfter(State(Marshalling(Object(fields), nonNull), errors), p, first, one, two);
  }

  lemma {:induction false} SameEarlierFor(fields: seq<FieldPlan>, marks: seq<iset<Path>>, has: iset<Path>, i: nat,
                                          j: nat)
    requires |marks| == |fields| && i < |fields| && j < |fields| && fields[i].concurrent && fields[j].concurrent
    ensures Earlier(fields, marks, has, i) == Earlier(fields, marks, has, j)
  {
    forall q ensures MarkedBefore(fields, marks, i, q) <==> MarkedBefore(fields, marks, j, q) {
      if k :| 0 <= k < |fields| && Precedes(fields, k, i) && q in marks[k] {
        assert Precedes(fields, k, j);
      }
      if k :| 0 <= k < |fields| && Precedes(fields, k, j) && q in marks[k] {
        assert Precedes(fields, k, i);
      }
    }
  }

  /** The loop is over, and any concurrent field may go on. */
  ghost predicate LoopOver(fields: seq<FieldPlan>, slots: seq<Slot>) {
    |fields| == |slots| && forall k :: 0 <= k < |fields| && !fields[k].concurrent ==> slots[k].Written?
  }

  /** No complaint at `q` has been decided on when all fields have not started or are over. */
  lemma {:induction false} NoPendingYet(fields: seq<FieldPlan>, slots: seq<Slot>, p: Path, turns: seq<nat>, j: nat,
                                        d: Data, q: Path)
    requires Progress(fields, slots, turns) && j < |fields|
    ensures Add(PendingBySlots(fields, slots[j := Running(Done(d))], p, q)) == 0
  {
    var after := slots[j := Running(Done(d))];
    forall k: nat | k < |fields| ensures PendingBySlots(fields, after, p, q)[k] == 0 {
      assert k != j ==> slots[k].Written? || slots[k] == Running(Resolving(fields[k], 0));
      NothingPending(after[k], p + [Name(fields[k].alias)], q);
    }
    AddZeros(PendingBySlots(fields, after, p, q));
  }

  lemma {:induction false} TwoOrders(fields: seq<FieldPlan>, slots: seq<Slot>, invalids: nat, p: Path,
                                     errors: seq<Error>, turns: seq<nat>, i: nat, j: nat, q: Path)
    returns (one: Schedule, two: Schedule)
    requires Progress(fields, slots, turns) && LoopOver(fields, slots) && Tidy(Dispatching(fields, slots, invalids))
    requires i < |fields| && j < |fields| && i != j && fields[i].concurrent && fields[j].concurrent
    requires i !in turns && j !in turns
    requires CalmField(fields[i], p + [Name(fields[i].alias)], PathsOf(errors))
    requires CalmField(fields[j], p + [Name(fields[j].alias)], PathsOf(errors))
    requires q in MarksOfField(fields[j], p + [Name(fields[j].alias)])
    requires Complaint(q) in OwesOfField(fields[i], p + [Name(fields[i].alias)], PathsOf(errors))
    ensures Differ(State(Dispatching(fields, slots, invalids), errors), p, one, two)
  {
    var s := State(Dispatching(fields, slots, invalids), errors);
    var owed := OwesOfField(fields[j], p + [Name(fields[j].alias)], PathsOf(errors))[Complaint(q)];
    if q in PathsOf(errors) {
      FieldIsSilentAt(fields[i], p + [Name(fields[i].alias)], PathsOf(errors), q);
      assert false;
    }
    one := OtherFirst(fields, slots, invalids, p, errors, turns, j, q);
    two := AskFirst(fields, slots, invalids, p, errors, turns, i, j, q);
    assert Count(Run(s, p, one).value.errors, q) == owed < Count(Run(s, p, two).value.errors, q);
  }

  /** Field `j` alone, from these errors: how many complaints at `q` it adds, and that it marks `q`. */
  lemma {:induction false} AloneCounts(f: FieldPlan, p: Path, errors: seq<Error>, has: iset<Path>, q: Path)
    returns (all: Schedule, after: seq<Error>)
    requires CalmField(f, p, has) && has <= PathsOf(errors) && q !in PathsOf(errors) && q in MarksOfField(f, p)
    ensures Run(State(Resolving(f, 0), errors), p, all) == Some(State(Done(DataOfField(f)), after))
    ensures q in PathsOf(after) && Count(after, q) == OwesOfField(f, p, has)[Complaint(q)]
  {
    var t := Resolving(f, 0);
    all := FieldAlone(f, p, errors);
    after := AfterField(errors, f, p);
    RunMarks(State(t, errors), p, all);
    CalmGrowsField(f, p, has, PathsOf(errors));
    RunKeeps(State(t, errors), p, all);
    NoneThere(errors, q);
    OwesLessField(f, p, has, PathsOf(errors), Complaint(q));
    OwesLessField(f, p, PathsOf(errors), has, Complaint(q));
    assert multiset(after)[Complaint(q)] == (multiset(errors) + OwesOfField(f, p, PathsOf(errors)))[Complaint(q)];
  }

  /** Field `j` runs to its end before any other concurrent field starts. */
  lemma {:induction false} OtherFirst(fields: seq<FieldPlan>, slots: seq<Slot>, invalids: nat, p: Path,
                                      errors: seq<Error>, turns: seq<nat>, j: nat, q: Path) returns (all: Schedule)
    requires Progress(fields, slots, turns) && LoopOver(fields, slots) && Tidy(Dispatching(fields, slots, invalids))
    requires j < |fields| && j !in turns && q !in PathsOf(errors)
    requires CalmField(fields[j], p + [Name(fields[j].alias)], PathsOf(errors))
    requires q in MarksOfField(fields[j], p + [Name(fields[j].alias)])
    ensures var s := State(Dispatching(fields, slots, invalids), errors);
            && Run(s, p, all).Some? && Run(s, p, all).value.task.Done?
            && Count(Run(s, p, all).value.errors, q)
               == OwesOfField(fields[j], p + [Name(fields[j].alias)], PathsOf(errors))[Complaint(q)]
  {
    var s, f, r := State(Dispatching(fields, slots, invalids), errors), fields[j], p + [Name(fields[j].alias)];
    var alone, after := AloneCounts(f, r, errors, PathsOf(errors), q);
    var done := State(Done(DataOfField(f)), after);
    var first := SlotRun(fields, slots, invalids, p, errors, j, Resolving(f, 0), alone, done);
    var mid := State(Dispatching(fields, slots[j := Running(done.task)], invalids), after);
    RunKeepsData(s, p, first);
    var rest := Completed(mid, p);
    RunPending(mid, p, rest, q);
    NoPendingYet(fields, slots, p, turns, j, DataOfField(f), q);
    all := Both(s, p, first, rest);
  }

  /** Field `i` decides to complain at `q`; only then field `j` runs. */
  lemma {:induction false} AskFirst(fields: seq<FieldPlan>, slots: seq<Slot>, invalids: nat, p: Path,
                                    errors: seq<Error>,
                                    turns: seq<nat>, i: nat, j: nat, q: Path) returns (all: Schedule)
    requires Progress(fields, slots, turns) && LoopOver(fields, slots) && Tidy(Dispatching(fields, slots, invalids))
    requires i < |fields| && j < |fields| && i != j && i !in turns && j !in turns && q !in PathsOf(errors)
    requires fields[i].concurrent && fields[j].concurrent
    requires CalmField(fields[i], p + [Name(fields[i].alias)], PathsOf(errors))
    requires CalmField(fields[j], p + [Name(fields[j].alias)], PathsOf(errors))
    requires q in MarksOfField(fields[j], p + [Name(fields[j].alias)])
    requires Complaint(q) in OwesOfField(fields[i], p + [Name(fields[i].alias)], PathsOf(errors))
    ensures var s := State(Dispatching(fields, slots, invalids), errors);
            && Run(s, p, all).Some? && Run(s, p, all).value.task.Done?
            && Count(Run(s, p, all).value.errors, q)
               > OwesOfField(fields[j], p + [Name(fields[j].alias)], PathsOf(errors))[Complaint(q)]
  {
    var s := State(Dispatching(fields, slots, invalids), errors);
    var first, t, mid := Decided(fields, slots, invalids, p, errors, i, q);
    var rest := OtherAfter(fields, slots[i := Running(t)], invalids, p, errors, mid, i, j, q);
    all := Both(s, p, first, rest);
  }

  /** Field `i`, up to its decision to complain at `q`. */
  lemma {:induction false} Decided(fields: seq<FieldPlan>, slots: seq<Slot>, invalids: nat, p: Path, errors: seq<Error>,
                                   i: nat, q: Path) returns (all: Schedule, t: Task, after: seq<Error>)
    requires LoopOver(fields, slots) && Tidy(Dispatching(fields, slots, invalids))
    requires i < |fields| && fields[i].concurrent && slots[i] == Running(Resolving(fields[i], 0)) &&
             q !in PathsOf(errors)
    requires CalmField(fields[i], p + [Name(fields[i].alias)], PathsOf(errors))
    requires Complaint(q) in OwesOfField(fields[i], p + [Name(fields[i].alias)], PathsOf(errors))
    ensures Run(State(Dispatching(fields, slots, invalids), errors), p, all)
         == Some(State(Dispatching(fields, slots[i := Running(t)], invalids), after))
    ensures q !in PathsOf(after) && PathsOf(errors) <= PathsOf(after)
    ensures Pending(t, p + [Name(fields[i].alias)], q) > 0 &&
            Tidy(Dispatching(fields, slots[i := Running(t)], invalids))
  {
    var start, r := State(Resolving(fields[i], 0), errors), p + [Name(fields[i].alias)];
    var own := Poised(start, r, q);
    var poised := Run(start, r, own).value;
    t, after := poised.task, poised.errors;
    RunMarks(start, r, own);
    all := SlotRun(fields, slots, invalids, p, errors, i, start.task, own, poised);
    RunKeepsData(State(Dispatching(fields, slots, invalids), errors), p, all);
  }

  /** Then field `j`, to its end, and then all the rest. */
  lemma {:induction false} OtherAfter(fields: seq<FieldPlan>, slots: seq<Slot>, invalids: nat, p: Path,
                                      before: seq<Error>,
                                      errors: seq<Error>, i: nat, j: nat, q: Path) returns (all: Schedule)
    requires LoopOver(fields, slots) && Tidy(Dispatching(fields, slots, invalids))
    requires i < |fields| && j < |fields| && i != j && fields[j].concurrent
    requires slots[i].Running? && Pending(slots[i].task, p + [Name(fields[i].alias)], q) > 0
    requires slots[j] == Running(Resolving(fields[j], 0))
    requires q !in PathsOf(errors) && PathsOf(before) <= PathsOf(errors)
    requires CalmField(fields[j], p + [Name(fields[j].alias)], PathsOf(before))
    requires q in MarksOfField(fields[j], p + [Name(fields[j].alias)])
    ensures var s := State(Dispatching(fields, slots, invalids), errors);
            && Run(s, p, all).Some? && Run(s, p, all).value.task.Done?
            && Count(Run(s, p, all).value.errors, q)
               > OwesOfField(fields[j], p + [Name(fields[j].alias)], PathsOf(before))[Complaint(q)]
  {
    var s := State(Dispatching(fields, slots, invalids), errors);
    var alone, after := AloneCounts(fields[j], p + [Name(fields[j].alias)], errors, PathsOf(before), q);
    var done := State(Done(DataOfField(fields[j])), after);
    var first := SlotRun(fields, slots, invalids, p, errors, j, Resolving(fields[j], 0), alone, done);
    var slots' := slots[j := Running(done.task)];
    var mid := State(Dispatching(fields, slots', invalids), after);
    RunKeepsData(s, p, first);
    var rest := Completed(mid, p);
    RunPending(mid, p, rest, q);
    StillPending(fields, slots', p, i, q);
    all := Both(s, p, first, rest);
  }

  lemma {:induction false} StillPending(fields: seq<FieldPlan>, slots: seq<Slot>, p: Path, i: nat, q: Path)
    requires |fields| == |slots| && i < |slots|
    ensures PendingInSlot(slots[i], p + [Name(fields[i].alias)], q) <= Add(PendingBySlots(fields, slots, p, q))
  {
    AddAtLeast(PendingBySlots(fields, slots, p, q), i);
  }

  // --- Exactly the calm executions record the same errors in every run ---

  /** The run ends, with these errors. */
  ghost predicate Records(a: Answer, schedule: Schedule, errors: seq<Error>) {
    Run(Start(a), [], schedule).Some? && Run(Start(a), [], schedule).value.task.Done?
    && Run(Start(a), [], schedule).value.errors == errors
  }

  /** All runs that end record the same errors. */
  ghost predicate Agreeing(a: Answer) {
    forall one, two, e1, e2 :: Records(a, one, e1) && Records(a, two, e2) ==> multiset(e1) == multiset(e2)
  }

  lemma {:induction false} NoPathYet()
    ensures PathsOf([]) == iset{}
  {
  }

  /** A calm execution: the errors had and owed in any run, and those of the sequential run. */
  lemma {:induction false} CalmRuns(a: Answer, schedule: Schedule)
    requires Calm(a, [], false, iset{}) && Run(Start(a), [], schedule).Some?
    ensures var e := Run(Start(a), [], schedule).value;
            && multiset(e.errors) + Owes(e.task, [], PathsOf(e.errors)) == OwesOf(a, [], false, iset{})
            && (e.task.Done? ==> multiset(e.errors) == OwesOf(a, [], false, iset{}))
  {
    NoPathYet();
    RunKeeps(Start(a), [], schedule);
    var e := Run(Start(a), [], schedule).value;
    assert multiset([]) + OwesOf(a, [], false, iset{}) == OwesOf(a, [], false, iset{});
    assert multiset(e.errors) + multiset{} == multiset(e.errors);
  }

  /** A calm execution records what it owes. */
  lemma {:induction false} CalmRecords(a: Answer)
    requires Calm(a, [], false, iset{})
    ensures multiset(AfterAnswer([], a, [], false)) == OwesOf(a, [], false, iset{})
  {
    var schedule := SequentialIsOne(a);
    CalmRuns(a, schedule);
  }

  /** Every interleaving that ends, ends with the same data, whatever the plan; and, if it is calm, with
      the errors of the sequential run. While it lasts, the errors recorded are some of those. */
  lemma {:induction false} EveryInterleaving(a: Answer, schedule: Schedule)
    requires Run(Start(a), [], schedule).Some?
    ensures var e, expected := Run(Start(a), [], schedule).value, multiset(AfterAnswer([], a, [], false));
            && (e.task.Done? ==> e.task.data == DataOf(a))
            && (Calm(a, [], false, iset{}) ==> multiset(e.errors) <= expected)
            && (Calm(a, [], false, iset{}) && e.task.Done? ==> multiset(e.errors) == expected)
  {
    RunKeepsData(Start(a), [], schedule);
    if Calm(a, [], false, iset{}) {
      CalmRuns(a, schedule);
      CalmRecords(a);
    }
  }

  /** All runs that end record the same errors, if and only if the execution is calm: at no depth, two
      concurrent fields of one object can be such that one complains about a null at a path where the
      other leaves an error, too. */
  lemma {:induction false} ErrorsAgreeExactlyIfCalm(a: Answer)
    ensures Agreeing(a) <==> Calm(a, [], false, iset{})
  {
    NoPathYet();
    if Calm(a, [], false, iset{}) {
      forall one, two, e1, e2 | Records(a, one, e1) && Records(a, two, e2) ensures multiset(e1) == multiset(e2) {
        EveryInterleaving(a, one);
        EveryInterleaving(a, two);
      }
    } else {
      var one, two := AnswerRaces(a, [], false, []);
      assert Records(a, one, Run(Start(a), [], one).value.errors);
      assert Records(a, two, Run(Start(a), [], two).value.errors);
    }
  }
}
