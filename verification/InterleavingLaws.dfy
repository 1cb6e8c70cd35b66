/** Every interleaving of a calm execution records the same errors. */
module InterleavingLaws {
  import opened Paths
  import opened Execution
  import opened Wrappers
  import opened Interleaving
  import opened InterleavingData
  import opened Debts

  // --- Marks: what a step records, it has marked; what is marked, stays marked or has an error ---

  /** At most one error is added, at a marked path. */
  ghost predicate Adds(before: seq<Error>, after: seq<Error>, marks: iset<Path>) {
    after == before
    || (|after| == |before| + 1 && after == before + [after[|before|]] && after[|before|].path in marks)
  }

  ghost predicate KeepsMarks(marks: iset<Path>, errors: seq<Error>, marks': iset<Path>, errors': seq<Error>) {
    && Adds(errors, errors', marks)
    && marks' <= marks && marks <= marks' + PathsOf(errors')
  }

  lemma {:induction false} OneErrorMore(errors: seq<Error>, e: Error)
    ensures PathsOf(errors + [e]) == PathsOf(errors) + iset{e.path}
  {
    var all := errors + [e];
    assert all[|errors|] == e;
    forall q ensures HasFieldError(all, q) <==> HasFieldError(errors, q) || q == e.path {
      if HasFieldError(errors, q) {
        var i :| 0 <= i < |errors| && errors[i].path == q;
        assert all[i].path == q;
      }
    }
  }

  /** What errors there are, once a step has added one or none. */
  lemma {:induction false} AddsPaths(errors: seq<Error>, errors': seq<Error>, marks: iset<Path>)
    requires Adds(errors, errors', marks)
    ensures PathsOf(errors) <= PathsOf(errors') <= PathsOf(errors) + marks
  {
    if errors' != errors {
      OneErrorMore(errors, errors'[|errors|]);
    }
  }

  lemma {:induction false} FreshMarks(fields: seq<FieldPlan>, slots: seq<Slot>, p: Path)
    requires |slots| == |fields| && forall i :: 0 <= i < |fields| ==> slots[i] == Running(Resolving(fields[i], 0))
    ensures MarksBySlots(fields, slots, p) == MarksOfFields(fields, p)
  {
    forall i | 0 <= i < |fields|
      ensures MarksOfSlot(slots[i], p + [Name(fields[i].alias)]) == MarksOfField(fields[i], p + [Name(fields[i].alias)])
    {
      assert slots[i].task == Resolving(fields[i], 0);
    }
  }

  lemma {:induction false} MarshallingMarks(a: Answer, nonNull: bool, p: Path, errors: seq<Error>)
    ensures var next := Advance(Marshalling(a, nonNull), p, errors, []).value;
            next.errors == errors && Marks(next.task, p) == MarksOf(a, p, nonNull)
  {
    var next := Advance(Marshalling(a, nonNull), p, errors, []).value.task;
    match a
    case List(itemsNonNull, items) =>
      assert MarksByItems(next.children, p) == MarksOfItems(items, p, itemsNonNull);
    case Object(fields) => FreshMarks(fields, next.slots, p);
    case _ =>
  }

  lemma {:induction false} ResolvingMarks(f: FieldPlan, done: nat, p: Path, errors: seq<Error>)
    ensures var t := Resolving(f, done);
            var next := Advance(t, p, errors, []).value;
            KeepsMarks(Marks(t, p), errors, Marks(next.task, p), next.errors)
  {
    if done < f.reports {
      OneErrorMore(errors, Error(p, Reported(done)));
    } else if f.outcome.Failed? {
      OneErrorMore(errors, Error(p + f.outcome.below, ResolverFailed));
    }
  }

  lemma {:induction false} ChildMarks(parts: seq<iset<Path>>, i: nat, m: iset<Path>, errors: seq<Error>,
                                      errors': seq<Error>)
    requires i < |parts| && KeepsMarks(parts[i], errors, m, errors')
    ensures KeepsMarks(Union(parts), errors, Union(parts[i := m]), errors')
  {
    var parts' := parts[i := m];
    forall q | q in Union(parts') ensures q in Union(parts) {
      var j :| 0 <= j < |parts'| && q in parts'[j];
      assert q in parts[j];
    }
    forall q | q in Union(parts) ensures q in Union(parts') + PathsOf(errors') {
      var j :| 0 <= j < |parts| && q in parts[j];
      if q !in PathsOf(errors') {
        assert q in parts'[j];
      }
    }
    if errors' != errors {
      assert errors'[|errors|].path in parts[i];
    }
  }

  lemma {:induction false} NoMarks(parts: seq<iset<Path>>)
    requires forall i :: 0 <= i < |parts| ==> parts[i] == iset{}
    ensures Union(parts) == iset{}
  {
  }

  lemma {:induction false} StepMarks(t: Task, p: Path, errors: seq<Error>, at: seq<nat>)
    requires Advance(t, p, errors, at).Some?
    ensures var next := Advance(t, p, errors, at).value;
            KeepsMarks(Marks(t, p), errors, Marks(next.task, p), next.errors)
    decreases t
  {
    match t
    case Resolving(f, done) => ResolvingMarks(f, done, p, errors);
    case Marshalling(a, nonNull) => MarshallingMarks(a, nonNull, p, errors);
    case Joining(children) =>
      if at == [] {
        NoMarks(MarksByItems(children, p));
      } else {
        var i := at[0];
        StepMarks(children[i], p + [Index(i)], errors, at[1..]);
        var next := Advance(children[i], p + [Index(i)], errors, at[1..]).value;
        ChildMarks(MarksByItems(children, p), i, Marks(next.task, p + [Index(i)]), errors, next.errors);
        assert MarksByItems(children[i := next.task], p)
            == MarksByItems(children, p)[i := Marks(next.task, p + [Index(i)])];
      }
    case Dispatching(fields, slots, _) =>
      if at == [] {
        WrittenMarkNothing(fields, slots, p);
      } else {
        var next := Advance(t, p, errors, at).value;
        SlotStepMarks(fields, slots, t.invalids, p, errors, at);
        SlotMarks(fields, slots, p, errors, at[0], next.task.slots[at[0]], next.errors);
      }
    case Checking => NullMarks(t, p, errors);
    case Complaining => NullMarks(t, p, errors);
    case Scanning(_, _) => NullMarks(t, p, errors);
    case Missing(_, _) => NullMarks(t, p, errors);
    case Done(_) =>
  }

  lemma {:induction false} WrittenMarkNothing(fields: seq<FieldPlan>, slots: seq<Slot>, p: Path)
    requires |fields| == |slots| && AllWritten(slots)
    ensures Union(MarksBySlots(fields, slots, p)) == iset{}
  {
    forall i | 0 <= i < |slots| ensures MarksBySlots(fields, slots, p)[i] == iset{} {
      assert MarksOfSlot(slots[i], p + [Name(fields[i].alias)]) == iset{};
    }
    NoMarks(MarksBySlots(fields, slots, p));
  }

  lemma {:induction false} SlotMarks(fields: seq<FieldPlan>, slots: seq<Slot>, p: Path, errors: seq<Error>, i: nat,
                                     s: Slot, errors': seq<Error>)
    requires |fields| == |slots| && i < |slots|
    requires var q := p + [Name(fields[i].alias)];
             KeepsMarks(MarksOfSlot(slots[i], q), errors, MarksOfSlot(s, q), errors')
    ensures KeepsMarks(Union(MarksBySlots(fields, slots, p)), errors,
                       Union(MarksBySlots(fields, slots[i := s], p)), errors')
  {
    var marks, m := MarksBySlots(fields, slots, p), MarksOfSlot(s, p + [Name(fields[i].alias)]);
    assert marks[i] == MarksOfSlot(slots[i], p + [Name(fields[i].alias)]);
    ChildMarks(marks, i, m, errors, errors');
    assert MarksBySlots(fields, slots[i := s], p) == marks[i := m];
  }

  lemma {:induction false} NullMarks(t: Task, p: Path, errors: seq<Error>)
    requires t.Checking? || t.Complaining? || t.Scanning? || t.Missing?
    ensures var next := Advance(t, p, errors, []).value;
            KeepsMarks(Marks(t, p), errors, Marks(next.task, p), next.errors)
  {
    OneErrorMore(errors, Error(p, MustNotBeNull));
  }

  lemma {:induction false} SlotStepMarks(fields: seq<FieldPlan>, slots: seq<Slot>, invalids: nat, p: Path,
                                         errors: seq<Error>, at: seq<nat>)
    requires at != [] && Advance(Dispatching(fields, slots, invalids), p, errors, at).Some?
    ensures var next := Advance(Dispatching(fields, slots, invalids), p, errors, at).value;
            var i := at[0];
            var q := p + [Name(fields[i].alias)];
            && next.task.slots == slots[i := next.task.slots[i]]
            && KeepsMarks(MarksOfSlot(slots[i], q), errors, MarksOfSlot(next.task.slots[i], q), next.errors)
    decreases slots
  {
    var i := at[0];
    if slots[i].Running? && !slots[i].task.Done? {
      StepMarks(slots[i].task, p + [Name(fields[i].alias)], errors, at[1..]);
    }
  }

  // --- Debts: the errors had and owed stay the same ---

  /** What a step of a calm task keeps: the errors had and owed, and being calm. */
  ghost predicate Keeps(t: Task, p: Path, errors: seq<Error>, next: State) {
    && multiset(next.errors) + Owes(next.task, p, PathsOf(next.errors))
       == multiset(errors) + Owes(t, p, PathsOf(errors))
    && CalmTask(next.task, p, PathsOf(next.errors))
  }

  lemma {:induction false} AddOne(errors: seq<Error>, e: Error, rest: multiset<Error>)
    ensures multiset(errors + [e]) + rest == multiset(errors) + (multiset{e} + rest)
  {
    assert multiset(errors + [e]) == multiset(errors) + multiset{e};
  }

  lemma {:induction false} ReportingKeeps(f: FieldPlan, done: nat, p: Path, errors: seq<Error>)
    requires CalmTask(Resolving(f, done), p, PathsOf(errors)) && done < f.reports
    ensures Keeps(Resolving(f, done), p, errors, State(Resolving(f, done + 1), errors + [Error(p, Reported(done))]))
  {
    var e := Error(p, Reported(done));
    OneErrorMore(errors, e);
    var has, has' := PathsOf(errors), PathsOf(errors + [e]);
    assert has' + Single(done + 1 < f.reports, p) == has + Single(true, p);
    var later := Reports(p, done + 1, f.reports);
    assert Reports(p, done, f.reports) == multiset{e} + later;
    AddOne(errors, e, Owes(Resolving(f, done + 1), p, has'));
  }

  lemma {:induction false} ResolvedKeeps(f: FieldPlan, done: nat, p: Path, errors: seq<Error>)
    requires CalmTask(Resolving(f, done), p, PathsOf(errors)) && done >= f.reports
    ensures Keeps(Resolving(f, done), p, errors, Advance(Resolving(f, done), p, errors, []).value)
  {
    match f.outcome
    case Failed(_) => FailedKeeps(f, done, p, errors);
    case Nothing => NoReportLeft(f, done, p, PathsOf(errors));
    case Answered(_) => AnsweredKeeps(f, done, p, errors);
  }

  lemma {:induction false} FailedKeeps(f: FieldPlan, done: nat, p: Path, errors: seq<Error>)
    requires done >= f.reports && f.outcome.Failed?
    ensures Keeps(Resolving(f, done), p, errors,
                  State(Done(Null), errors + [Error(p + f.outcome.below, ResolverFailed)]))
  {
    NoReportLeft(f, done, p, PathsOf(errors));
    AddOne(errors, Error(p + f.outcome.below, ResolverFailed), multiset{});
  }

  lemma {:induction false} NoReportLeft(f: FieldPlan, done: nat, p: Path, has: iset<Path>)
    requires done >= f.reports
    ensures Owes(Resolving(f, done), p, has) == OwesOfOutcome(f, p, has)
  {
    assert Reports(p, done, f.reports) == multiset{} && has + Single(false, p) == has;
  }

  lemma {:induction false} AnsweredKeeps(f: FieldPlan, done: nat, p: Path, errors: seq<Error>)
    requires CalmTask(Resolving(f, done), p, PathsOf(errors)) && done >= f.reports && f.outcome.Answered?
    ensures Keeps(Resolving(f, done), p, errors, State(Marshalling(f.outcome.answer, f.nonNull), errors))
  {
    NoReportLeft(f, done, p, PathsOf(errors));
    assert PathsOf(errors) + Single(false, p) == PathsOf(errors);
  }

  lemma {:induction false} MarshallingKeeps(a: Answer, nonNull: bool, p: Path, errors: seq<Error>)
    requires Calm(a, p, nonNull, PathsOf(errors))
    ensures Keeps(Marshalling(a, nonNull), p, errors, Advance(Marshalling(a, nonNull), p, errors, []).value)
  {
    var has := PathsOf(errors);
    var next := Advance(Marshalling(a, nonNull), p, errors, []).value.task;
    match a
    case List(itemsNonNull, items) => FreshItemsKeep(itemsNonNull, items, next.children, p, has);
    case Object(fields) => FreshSlotsKeep(fields, next.slots, p, has);
    case _ =>
  }

  lemma {:induction false} FreshItemsKeep(itemsNonNull: bool, items: seq<Answer>, children: seq<Task>, p: Path,
                                          has: iset<Path>)
    requires |children| == |items|
    requires forall i :: 0 <= i < |items| ==> children[i] == Marshalling(items[i], itemsNonNull)
    requires Calm(List(itemsNonNull, items), p, false, has)
    ensures Owes(Joining(children), p, has) == OwesOf(List(itemsNonNull, items), p, false, has)
    ensures CalmTask(Joining(children), p, has)
  {
    assert OwesByItems(children, p, has) == OwesOfItems(items, p, itemsNonNull, has);
  }

  lemma {:induction false} FreshSlotsKeep(fields: seq<FieldPlan>, slots: seq<Slot>, p: Path, has: iset<Path>)
    requires |slots| == |fields| && forall i :: 0 <= i < |fields| ==> slots[i] == Running(Resolving(fields[i], 0))
    requires Calm(Object(fields), p, false, has)
    ensures OwesBySlots(fields, slots, p, has) == OwesOfFields(fields, p, has)
    ensures CalmTask(Dispatching(fields, slots, 0), p, has)
  {
    FreshMarks(fields, slots, p);
    var marks := MarksOfFields(fields, p);
    forall i | 0 <= i < |fields|
      ensures var q, before := p + [Name(fields[i].alias)], Earlier(fields, marks, has, i);
              OwesOfSlot(slots[i], q, before) == OwesOfField(fields[i], q, before) && CalmSlot(slots[i], q, before)
    {
      assert slots[i].task == Resolving(fields[i], 0);
      assert CalmField(fields[i], p + [Name(fields[i].alias)], Earlier(fields, marks, has, i));
    }
  }

  /** One child's step, in the sum over all children. */
  lemma {:induction false} SumKeeps(parts: seq<multiset<Error>>, i: nat, m: multiset<Error>,
                                    before: multiset<Error>, after: multiset<Error>)
    requires i < |parts| && after + m == before + parts[i]
    ensures after + Sum(parts[i := m]) == before + Sum(parts)
  {
    SumUpdate(parts, i, m);
    var new_, old_ := Sum(parts[i := m]), Sum(parts);
    assert new_ + parts[i] == old_ + m;
    forall e ensures (after + new_)[e] == (before + old_)[e] {
      assert (new_ + parts[i])[e] == (old_ + m)[e];
      assert (after + m)[e] == (before + parts[i])[e];
    }
  }

  // --- A list ---

  lemma {:induction false} OtherItemKeeps(t: Task, p: Path, mine: nat, other: nat, errors: seq<Error>,
                                          errors': seq<Error>, marks: iset<Path>)
    requires mine != other && CalmTask(t, p + [Index(mine)], PathsOf(errors)) && Adds(errors, errors', marks)
    requires forall q :: q in marks ==> p + [Index(other)] <= q
    ensures Owes(t, p + [Index(mine)], PathsOf(errors')) == Owes(t, p + [Index(mine)], PathsOf(errors))
    ensures CalmTask(t, p + [Index(mine)], PathsOf(errors'))
  {
    var has, has' := PathsOf(errors), PathsOf(errors');
    AddsPaths(errors, errors', marks);
    forall q | q in has' && q !in has
      ensures Error(q, MustNotBeNull) !in OwesOfSlot(Running(t), p + [Index(mine)], has)
    {
      if Error(q, MustNotBeNull) in OwesOfSlot(Running(t), p + [Index(mine)], has) {
        OwedIsMarked(t, p + [Index(mine)], has, Error(q, MustNotBeNull));
        MarksBeneath(t, p + [Index(mine)], q);
        SiblingsAreApart(p, Index(mine), Index(other), q);
      }
    }
    OwesSame(Running(t), p + [Index(mine)], has, has');
    CalmGrows(t, p + [Index(mine)], has, has');
  }

  lemma {:induction false} JoiningKeeps(children: seq<Task>, p: Path, errors: seq<Error>, i: nat, next: State)
    requires i < |children| && CalmTask(Joining(children), p, PathsOf(errors))
    requires KeepsMarks(Marks(children[i], p + [Index(i)]), errors, Marks(next.task, p + [Index(i)]), next.errors)
    requires Keeps(children[i], p + [Index(i)], errors, next)
    ensures Keeps(Joining(children), p, errors, State(Joining(children[i := next.task]), next.errors))
  {
    var after, marks := children[i := next.task], Marks(children[i], p + [Index(i)]);
    var has, has' := PathsOf(errors), PathsOf(next.errors);
    forall q | q in marks ensures p + [Index(i)] <= q {
      MarksBeneath(children[i], p + [Index(i)], q);
    }
    forall j | 0 <= j < |after|
      ensures CalmTask(after[j], p + [Index(j)], has')
      ensures j != i ==> Owes(after[j], p + [Index(j)], has') == Owes(children[j], p + [Index(j)], has)
    {
      if j != i {
        OtherItemKeeps(children[j], p, j, i, errors, next.errors, marks);
      }
    }
    var m := Owes(next.task, p + [Index(i)], has');
    assert OwesByItems(after, p, has') == OwesByItems(children, p, has)[i := m];
    SumKeeps(OwesByItems(children, p, has), i, m, multiset(errors), multiset(next.errors));
  }

  lemma {:induction false} JoinedKeeps(children: seq<Task>, p: Path, errors: seq<Error>)
    requires AllDone(children)
    ensures Keeps(Joining(children), p, errors, Advance(Joining(children), p, errors, []).value)
  {
    forall i | 0 <= i < |children| ensures OwesByItems(children, p, PathsOf(errors))[i] == multiset{} {
      assert children[i].Done?;
    }
    SumEmpty(OwesByItems(children, p, PathsOf(errors)));
  }

  // --- An object ---

  /** Two slots at which steps can be taken in either order are concurrent, or one is over. */
  lemma {:induction false} Unordered(fields: seq<FieldPlan>, slots: seq<Slot>, i: nat, j: nat)
    requires |fields| == |slots| && i < |slots| && j < |slots| && i != j && MayRun(fields, slots, i)
    ensures slots[j].Written? || Precedes(fields, i, j) || (fields[i].concurrent && fields[j].concurrent)
    ensures Precedes(fields, j, i) ==> slots[j].Written?
  {
  }

  /** When a slot may run, all before it are over. */
  lemma {:induction false} NothingEarlier(fields: seq<FieldPlan>, slots: seq<Slot>, p: Path, i: nat, has: iset<Path>)
    requires |fields| == |slots| && i < |slots| && MayRun(fields, slots, i)
    ensures Earlier(fields, MarksBySlots(fields, slots, p), has, i) == has
  {
    var marks := MarksBySlots(fields, slots, p);
    forall j | 0 <= j < |fields| && Precedes(fields, j, i) ensures marks[j] == iset{} {
      assert slots[j].Written? && marks[j] == MarksOfSlot(slots[j], p + [Name(fields[j].alias)]);
    }
  }

  /** A step of slot `i`, seen from slot `j`. */
  lemma {:induction false} EarlierKept(fields: seq<FieldPlan>, marks: seq<iset<Path>>, errors: seq<Error>, i: nat,
                                       m: iset<Path>, errors': seq<Error>, j: nat)
    requires |marks| == |fields| && i < |fields| && j < |fields| && i != j
    requires KeepsMarks(marks[i], errors, m, errors')
    ensures var before := Earlier(fields, marks, PathsOf(errors), j);
            var after := Earlier(fields, marks[i := m], PathsOf(errors'), j);
            && before <= after <= before + PathsOf(errors')
            && (Precedes(fields, i, j) ==> after == before)
  {
    var has, has' := PathsOf(errors), PathsOf(errors');
    var before, after := Earlier(fields, marks, has, j), Earlier(fields, marks[i := m], has', j);
    AddsPaths(errors, errors', marks[i]);
    forall q | q in before ensures q in after {
      if q !in has' {
        var k :| 0 <= k < |fields| && Precedes(fields, k, j) && q in marks[k];
        assert q in marks[i := m][k];
      }
    }
    forall q | q in after ensures q in before || (q in has' && !Precedes(fields, i, j)) {
      if q in has' {
        if q !in has {
          assert q in marks[i];
        }
      } else {
        var k :| 0 <= k < |fields| && Precedes(fields, k, j) && q in marks[i := m][k];
        assert q in marks[k];
      }
    }
  }

  /** The slot moves on; its marks and debts do as a step's should. */
  ghost predicate SlotMoves(s: Slot, p: Path, errors: seq<Error>, s': Slot, errors': seq<Error>) {
    && KeepsMarks(MarksOfSlot(s, p), errors, MarksOfSlot(s', p), errors')
    && multiset(errors') + OwesOfSlot(s', p, PathsOf(errors')) == multiset(errors) + OwesOfSlot(s, p, PathsOf(errors))
    && CalmSlot(s', p, PathsOf(errors'))
  }

  lemma {:induction false} OtherSlotKeeps(fields: seq<FieldPlan>, slots: seq<Slot>, invalids: nat, p: Path,
                                          errors: seq<Error>, i: nat, s: Slot, errors': seq<Error>, j: nat)
    requires CalmTask(Dispatching(fields, slots, invalids), p, PathsOf(errors)) && i < |slots| &&
             MayRun(fields, slots, i)
    requires SlotMoves(slots[i], p + [Name(fields[i].alias)], errors, s, errors') && j < |slots| && j != i
    ensures var q := p + [Name(fields[j].alias)];
            var marks := MarksBySlots(fields, slots, p);
            var m := MarksOfSlot(s, p + [Name(fields[i].alias)]);
            var before := Earlier(fields, marks, PathsOf(errors), j);
            var after := Earlier(fields, marks[i := m], PathsOf(errors'), j);
            OwesOfSlot(slots[j], q, after) == OwesOfSlot(slots[j], q, before) && CalmSlot(slots[j], q, after)
  {
    var q := p + [Name(fields[j].alias)];
    var marks := MarksBySlots(fields, slots, p);
    var m := MarksOfSlot(s, p + [Name(fields[i].alias)]);
    var before := Earlier(fields, marks, PathsOf(errors), j);
    var after := Earlier(fields, marks[i := m], PathsOf(errors'), j);
    assert CalmSlot(slots[j], q, before);
    EarlierKept(fields, marks, errors, i, m, errors', j);
    Unordered(fields, slots, i, j);
    CalmGrowsSlot(slots[j], q, before, after);
    if fields[i].concurrent && fields[j].concurrent {
      assert Apart(OwesBySlots(fields, slots, p, PathsOf(errors))[j], marks[i]);
      AddsPaths(errors, errors', marks[i]);
      OwesSame(slots[j], q, before, after);
    }
  }

  lemma {:induction false} DispatchingOwes(fields: seq<FieldPlan>, slots: seq<Slot>, invalids: nat, p: Path,
                                           errors: seq<Error>, i: nat, s: Slot, errors': seq<Error>)
    requires CalmTask(Dispatching(fields, slots, invalids), p, PathsOf(errors)) && i < |slots| &&
             MayRun(fields, slots, i)
    requires !slots[i].Written? && SlotMoves(slots[i], p + [Name(fields[i].alias)], errors, s, errors')
    ensures MarksBySlots(fields, slots[i := s], p)
         == MarksBySlots(fields, slots, p)[i := MarksOfSlot(s, p + [Name(fields[i].alias)])]
    ensures var m := OwesOfSlot(s, p + [Name(fields[i].alias)], PathsOf(errors'));
            OwesBySlots(fields, slots[i := s], p, PathsOf(errors'))
            == OwesBySlots(fields, slots, p, PathsOf(errors))[i := m]
    ensures OwesBySlots(fields, slots, p, PathsOf(errors))[i]
         == OwesOfSlot(slots[i], p + [Name(fields[i].alias)], PathsOf(errors))
    ensures forall j :: 0 <= j < |slots| ==>
              CalmSlot(slots[i := s][j], p + [Name(fields[j].alias)],
                       Earlier(fields, MarksBySlots(fields, slots[i := s], p), PathsOf(errors'), j))
  {
    var after := slots[i := s];
    var marks' := MarksBySlots(fields, slots, p)[i := MarksOfSlot(s, p + [Name(fields[i].alias)])];
    assert MarksBySlots(fields, after, p) == marks';
    NothingEarlier(fields, slots, p, i, PathsOf(errors));
    SameEarlier(fields, slots, p, i, s, PathsOf(errors'));
    forall j | 0 <= j < |slots|
      ensures CalmSlot(after[j], p + [Name(fields[j].alias)], Earlier(fields, marks', PathsOf(errors'), j))
      ensures j != i ==>
                OwesBySlots(fields, after, p, PathsOf(errors'))[j] == OwesBySlots(fields, slots, p, PathsOf(errors))[j]
    {
      if j != i {
        OtherSlotKeeps(fields, slots, invalids, p, errors, i, s, errors', j);
      }
    }
  }

  lemma {:induction false} SameEarlier(fields: seq<FieldPlan>, slots: seq<Slot>, p: Path, i: nat, s: Slot,
                                       has: iset<Path>)
    requires |fields| == |slots| && i < |slots| && MayRun(fields, slots, i)
    ensures Earlier(fields, MarksBySlots(fields, slots[i := s], p), has, i) == has
  {
    var after := slots[i := s];
    var marks := MarksBySlots(fields, after, p);
    forall j | 0 <= j < |fields| && Precedes(fields, j, i) ensures marks[j] == iset{} {
      assert slots[j].Written? && j != i && marks[j] == MarksOfSlot(after[j], p + [Name(fields[j].alias)]);
    }
  }

  lemma {:induction false} DispatchingKeeps(fields: seq<FieldPlan>, slots: seq<Slot>, invalids: nat, p: Path,
                                            errors: seq<Error>, i: nat, s: Slot, errors': seq<Error>, invalids': nat)
    requires CalmTask(Dispatching(fields, slots, invalids), p, PathsOf(errors)) && i < |slots| &&
             MayRun(fields, slots, i)
    requires !slots[i].Written? && SlotMoves(slots[i], p + [Name(fields[i].alias)], errors, s, errors')
    ensures Keeps(Dispatching(fields, slots, invalids), p, errors,
                  State(Dispatching(fields, slots[i := s], invalids'), errors'))
  {
    var q := p + [Name(fields[i].alias)];
    var owes, marks := OwesBySlots(fields, slots, p, PathsOf(errors)), MarksBySlots(fields, slots, p);
    DispatchingOwes(fields, slots, invalids, p, errors, i, s, errors');
    StaysPeaceful(fields, owes, marks, errors, i, OwesOfSlot(s, q, PathsOf(errors')), MarksOfSlot(s, q), errors');
    SumKeeps(owes, i, OwesOfSlot(s, q, PathsOf(errors')), multiset(errors), multiset(errors'));
  }

  lemma {:induction false} StaysPeaceful(fields: seq<FieldPlan>, owes: seq<multiset<Error>>, marks: seq<iset<Path>>,
                                         errors: seq<Error>, i: nat, owed: multiset<Error>, marked: iset<Path>,
                                         errors': seq<Error>)
    requires |owes| == |marks| == |fields| && Peaceful(fields, owes, marks) && i < |fields|
    requires KeepsMarks(marks[i], errors, marked, errors')
    requires multiset(errors') + owed == multiset(errors) + owes[i]
    ensures Peaceful(fields, owes[i := owed], marks[i := marked])
  {
    OwesNoMore(errors, errors', owes[i], owed, marks[i]);
    PeacefulGrows(fields, owes, owes[i := owed], marks, marks[i := marked]);
  }

  lemma {:induction false} OwesNoMore(errors: seq<Error>, errors': seq<Error>, owes: multiset<Error>,
                                      owes': multiset<Error>, marks: iset<Path>)
    requires Adds(errors, errors', marks) && multiset(errors') + owes' == multiset(errors) + owes
    ensures forall e :: e in owes' ==> e in owes
  {
    if errors' != errors {
      assert multiset(errors') == multiset(errors) + multiset{errors'[|errors|]};
    }
    forall e | e in owes' ensures e in owes {
      assert (multiset(errors') + owes')[e] == (multiset(errors) + owes)[e];
    }
  }

  lemma {:induction false} DispatchedKeeps(fields: seq<FieldPlan>, slots: seq<Slot>, invalids: nat, p: Path,
                                           errors: seq<Error>)
    requires AllWritten(slots) && |fields| == |slots|
    ensures Keeps(Dispatching(fields, slots, invalids), p, errors,
                  Advance(Dispatching(fields, slots, invalids), p, errors, []).value)
  {
    forall i | 0 <= i < |slots| ensures OwesBySlots(fields, slots, p, PathsOf(errors))[i] == multiset{} {
      assert slots[i].Written?;
    }
    SumEmpty(OwesBySlots(fields, slots, p, PathsOf(errors)));
  }

  /** No step of any goroutine changes the errors had and owed, if the task is calm; and it stays
      calm. */
  lemma {:induction false} StepKeeps(t: Task, p: Path, errors: seq<Error>, at: seq<nat>)
    requires CalmTask(t, p, PathsOf(errors)) && Advance(t, p, errors, at).Some?
    ensures Keeps(t, p, errors, Advance(t, p, errors, at).value)
    decreases t
  {
    match t
    case Joining(children) =>
      if at == [] {
        JoinedKeeps(children, p, errors);
      } else {
        var i := at[0];
        StepMarks(children[i], p + [Index(i)], errors, at[1..]);
        StepKeeps(children[i], p + [Index(i)], errors, at[1..]);
        JoiningKeeps(children, p, errors, i, Advance(children[i], p + [Index(i)], errors, at[1..]).value);
      }
    case Dispatching(fields, slots, invalids) =>
      if at == [] {
        DispatchedKeeps(fields, slots, invalids, p, errors);
      } else {
        SlotKeeps(fields, slots, invalids, p, errors, at);
      }
    case Resolving(f, done) => ResolvingKeeps(f, done, p, errors);
    case Marshalling(a, nonNull) => MarshallingKeeps(a, nonNull, p, errors);
    case _ => NullKeeps(t, p, errors);
  }

  lemma {:induction false} ResolvingKeeps(f: FieldPlan, done: nat, p: Path, errors: seq<Error>)
    requires CalmTask(Resolving(f, done), p, PathsOf(errors))
    ensures Keeps(Resolving(f, done), p, errors, Advance(Resolving(f, done), p, errors, []).value)
  {
    if done < f.reports {
      ReportingKeeps(f, done, p, errors);
    } else {
      ResolvedKeeps(f, done, p, errors);
    }
  }

  lemma {:induction false} NullKeeps(t: Task, p: Path, errors: seq<Error>)
    requires t.Checking? || t.Complaining? || t.Scanning? || t.Missing?
    ensures Keeps(t, p, errors, Advance(t, p, errors, []).value)
  {
    match t
    case Checking => CheckingKeeps(p, errors);
    case Complaining => ComplainingKeeps(p, errors);
    case Scanning(d, left) => ScanningKeeps(d, left, p, errors);
    case Missing(d, left) => MissingKeeps(d, left, p, errors);
  }

  lemma {:induction false} CheckingKeeps(p: Path, errors: seq<Error>)
    ensures Keeps(Checking, p, errors, State(if HasFieldError(errors, p) then Done(Null) else Complaining, errors))
  {
  }

  lemma {:induction false} ComplainingKeeps(p: Path, errors: seq<Error>)
    ensures Keeps(Complaining, p, errors, State(Done(Null), errors + [Error(p, MustNotBeNull)]))
  {
    AddOne(errors, Error(p, MustNotBeNull), multiset{});
  }

  lemma {:induction false} ScanningKeeps(d: Data, left: nat, p: Path, errors: seq<Error>)
    ensures Keeps(Scanning(d, left), p, errors,
                  State(if left == 0 then Done(d) else if HasFieldError(errors, p) then Scanning(d, left - 1)
                        else Missing(d, left - 1), errors))
  {
  }

  /** Once a list of scalars has complained, its other missing items are silent. */
  lemma {:induction false} MissingKeeps(d: Data, left: nat, p: Path, errors: seq<Error>)
    ensures Keeps(Missing(d, left), p, errors, State(Scanning(d, left), errors + [Error(p, MustNotBeNull)]))
  {
    OneErrorMore(errors, Error(p, MustNotBeNull));
    AddOne(errors, Error(p, MustNotBeNull), multiset{});
  }

  lemma {:induction false} SlotKeeps(fields: seq<FieldPlan>, slots: seq<Slot>, invalids: nat, p: Path,
                                     errors: seq<Error>, at: seq<nat>)
    requires at != [] && CalmTask(Dispatching(fields, slots, invalids), p, PathsOf(errors))
    requires Advance(Dispatching(fields, slots, invalids), p, errors, at).Some?
    ensures Keeps(Dispatching(fields, slots, invalids), p, errors,
                  Advance(Dispatching(fields, slots, invalids), p, errors, at).value)
    decreases slots
  {
    var i := at[0];
    var q := p + [Name(fields[i].alias)];
    var next := Advance(Dispatching(fields, slots, invalids), p, errors, at).value;
    NothingEarlier(fields, slots, p, i, PathsOf(errors));
    assert CalmSlot(slots[i], q, PathsOf(errors));
    SlotStepMarks(fields, slots, invalids, p, errors, at);
    if slots[i].Running? && !slots[i].task.Done? {
      StepKeeps(slots[i].task, q, errors, at[1..]);
    }
    DispatchingKeeps(fields, slots, invalids, p, errors, i, next.task.slots[i], next.errors, next.task.invalids);
  }

  // --- Whole runs ---

  lemma {:induction false} RunMarks(s: State, p: Path, schedule: seq<seq<nat>>)
    requires Run(s, p, schedule).Some?
    ensures var e := Run(s, p, schedule).value;
            && PathsOf(e.errors) + Marks(e.task, p) == PathsOf(s.errors) + Marks(s.task, p)
            && PathsOf(s.errors) <= PathsOf(e.errors)
    decreases |schedule|
  {
    if schedule != [] {
      var next := Advance(s.task, p, s.errors, schedule[0]).value;
      StepMarks(s.task, p, s.errors, schedule[0]);
      AddsPaths(s.errors, next.errors, Marks(s.task, p));
      RunMarks(next, p, schedule[1..]);
    }
  }

  lemma {:induction false} RunKeeps(s: State, p: Path, schedule: seq<seq<nat>>)
    requires CalmTask(s.task, p, PathsOf(s.errors)) && Run(s, p, schedule).Some?
    ensures Keeps(s.task, p, s.errors, Run(s, p, schedule).value)
    decreases |schedule|
  {
    if schedule != [] {
      StepKeeps(s.task, p, s.errors, schedule[0]);
      RunKeeps(Advance(s.task, p, s.errors, schedule[0]).value, p, schedule[1..]);
    }
  }

  /** The operation's root object, about to be executed. */
  function Start(a: Answer): State {
    State(Marshalling(a, false), [])
  }
}
