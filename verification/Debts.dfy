/** What an execution still owes to the list of errors. Whether a null is complained about depends on
    the paths that have errors when it is asked; which paths will have errors in the end does not. */
module Debts {
  import opened Paths
  import opened Execution
  import opened Interleaving

  ghost function Single(c: bool, p: Path): iset<Path> {
    if c then iset{p} else iset{}
  }

  ghost predicate InSome(parts: seq<iset<Path>>, q: Path) {
    exists i :: 0 <= i < |parts| && q in parts[i]
  }

  ghost function Union(parts: seq<iset<Path>>): iset<Path> {
    iset q | InSome(parts, q)
  }

  ghost function PathsOf(errors: seq<Error>): iset<Path> {
    iset q | HasFieldError(errors, q)
  }

  // --- The paths that will be marked with an error ---

  /** Paths at which marshalling `a` at `p` leaves an error, whoever records it. */
  ghost function MarksOf(a: Answer, p: Path, nonNull: bool): iset<Path>
    decreases a
  {
    match a
    case Nil => Single(nonNull, p)
    case ScalarList(scalarsNonNull, scalars) => Single(MissingAmong(scalars, scalarsNonNull) > 0, p)
    case List(itemsNonNull, items) => Union(MarksOfItems(items, p, itemsNonNull))
    case Object(fields) => Union(MarksOfFields(fields, p))
    case _ => iset{}
  }

  ghost function MarksOfItems(items: seq<Answer>, p: Path, itemsNonNull: bool): (r: seq<iset<Path>>)
    ensures |r| == |items|
    decreases items
  {
    seq(|items|, i requires 0 <= i < |items| => MarksOf(items[i], p + [Index(i)], itemsNonNull))
  }

  ghost function MarksOfFields(fields: seq<FieldPlan>, p: Path): (r: seq<iset<Path>>)
    ensures |r| == |fields|
    decreases fields
  {
    seq(|fields|, i requires 0 <= i < |fields| => MarksOfField(fields[i], p + [Name(fields[i].alias)]))
  }

  ghost function MarksOfField(f: FieldPlan, p: Path): iset<Path>
    decreases f
  {
    Single(f.reports > 0, p) + MarksOfOutcome(f, p)
  }

  ghost function MarksOfOutcome(f: FieldPlan, p: Path): iset<Path>
    decreases f, 0
  {
    match f.outcome
    case Failed(below) => Single(true, p + below)
    case Nothing => Single(f.nonNull, p)
    case Answered(a) => MarksOf(a, p, f.nonNull)
  }

  ghost function Marks(t: Task, p: Path): iset<Path>
    decreases t
  {
    match t
    case Resolving(f, done) => Single(done < f.reports, p) + MarksOfOutcome(f, p)
    case Marshalling(a, nonNull) => MarksOf(a, p, nonNull)
    case Checking => Single(true, p)
    case Complaining => Single(true, p)
    case Scanning(_, left) => Single(left > 0, p)
    case Missing(_, _) => Single(true, p)
    case Joining(children) => Union(MarksByItems(children, p))
    case Dispatching(fields, slots, _) => Union(MarksBySlots(fields, slots, p))
    case Done(_) => iset{}
  }

  ghost function MarksByItems(children: seq<Task>, p: Path): (r: seq<iset<Path>>)
    ensures |r| == |children|
    decreases children
  {
    seq(|children|, i requires 0 <= i < |children| => Marks(children[i], p + [Index(i)]))
  }

  ghost function MarksBySlots(fields: seq<FieldPlan>, slots: seq<Slot>, p: Path): (r: seq<iset<Path>>)
    ensures |r| == |slots|
    decreases slots
  {
    seq(|slots|, i requires 0 <= i < |slots| =>
      if i < |fields| then MarksOfSlot(slots[i], p + [Name(fields[i].alias)]) else iset{})
  }

  ghost function MarksOfSlot(s: Slot, p: Path): iset<Path>
    decreases s
  {
    if s.Running? then Marks(s.task, p) else iset{}
  }

  // --- The errors owed, given the paths that have errors ---

  /** Field `j` is over before field `i` starts. */
  predicate Precedes(fields: seq<FieldPlan>, j: int, i: int)
    requires 0 <= j < |fields| && 0 <= i < |fields|
  {
    !fields[j].concurrent && (j < i || fields[i].concurrent)
  }

  ghost predicate MarkedBefore(fields: seq<FieldPlan>, marks: seq<iset<Path>>, i: nat, q: Path)
    requires |marks| == |fields| && i < |fields|
  {
    exists j :: 0 <= j < |fields| && Precedes(fields, j, i) && q in marks[j]
  }

  /** The paths that have errors when field `i` starts, for sure. */
  ghost function Earlier(fields: seq<FieldPlan>, marks: seq<iset<Path>>, has: iset<Path>, i: nat): iset<Path>
    requires |marks| == |fields| && i < |fields|
  {
    has + iset q | MarkedBefore(fields, marks, i, q)
  }

  /** The errors of marshalling `a` at `p`, if the paths in `has` have errors. */
  ghost function OwesOf(a: Answer, p: Path, nonNull: bool, has: iset<Path>): multiset<Error>
    decreases a
  {
    match a
    case Nil => NullError(p, nonNull, p in has)
    case ScalarList(scalarsNonNull, scalars) => NullError(p, MissingAmong(scalars, scalarsNonNull) > 0, p in has)
    case List(itemsNonNull, items) => Sum(OwesOfItems(items, p, itemsNonNull, has))
    case Object(fields) => Sum(OwesOfFields(fields, p, has))
    case _ => multiset{}
  }

  ghost function OwesOfItems(items: seq<Answer>, p: Path, itemsNonNull: bool,
                             has: iset<Path>): (r: seq<multiset<Error>>)
    ensures |r| == |items|
    decreases items
  {
    seq(|items|, i requires 0 <= i < |items| => OwesOf(items[i], p + [Index(i)], itemsNonNull, has))
  }

  ghost function OwesOfFields(fields: seq<FieldPlan>, p: Path, has: iset<Path>): (r: seq<multiset<Error>>)
    ensures |r| == |fields|
    decreases fields
  {
    var marks := MarksOfFields(fields, p);
    seq(|fields|, i requires 0 <= i < |fields| =>
      OwesOfField(fields[i], p + [Name(fields[i].alias)], Earlier(fields, marks, has, i)))
  }

  ghost function OwesOfField(f: FieldPlan, p: Path, has: iset<Path>): multiset<Error>
    decreases f
  {
    Reports(p, 0, f.reports) + OwesOfOutcome(f, p, has + Single(f.reports > 0, p))
  }

  ghost function OwesOfOutcome(f: FieldPlan, p: Path, has: iset<Path>): multiset<Error>
    decreases f, 0
  {
    match f.outcome
    case Failed(below) => multiset{Error(p + below, ResolverFailed)}
    case Nothing => NullError(p, f.nonNull, p in has)
    case Answered(a) => OwesOf(a, p, f.nonNull, has)
  }

  /** The errors `t` will still add, if it is left alone. */
  ghost function Owes(t: Task, p: Path, has: iset<Path>): multiset<Error>
    decreases t
  {
    match t
    case Resolving(f, done) =>
      Reports(p, done, f.reports) + OwesOfOutcome(f, p, has + Single(done < f.reports, p))
    case Marshalling(a, nonNull) => OwesOf(a, p, nonNull, has)
    case Checking => NullError(p, true, p in has)
    case Complaining => multiset{Error(p, MustNotBeNull)}
    case Scanning(_, left) => NullError(p, left > 0, p in has)
    case Missing(_, _) => multiset{Error(p, MustNotBeNull)}
    case Joining(children) => Sum(OwesByItems(children, p, has))
    case Dispatching(fields, slots, _) =>
      if |fields| != |slots| then multiset{} else Sum(OwesBySlots(fields, slots, p, has))
    case Done(_) => multiset{}
  }

  ghost function OwesByItems(children: seq<Task>, p: Path, has: iset<Path>): (r: seq<multiset<Error>>)
    ensures |r| == |children|
    decreases children
  {
    seq(|children|, i requires 0 <= i < |children| => Owes(children[i], p + [Index(i)], has))
  }

  ghost function OwesBySlots(fields: seq<FieldPlan>, slots: seq<Slot>, p: Path, has: iset<Path>)
    : (r: seq<multiset<Error>>)
    requires |fields| == |slots|
    ensures |r| == |slots|
    decreases slots
  {
    var marks := MarksBySlots(fields, slots, p);
    seq(|slots|, i requires 0 <= i < |slots| =>
      OwesOfSlot(slots[i], p + [Name(fields[i].alias)], Earlier(fields, marks, has, i)))
  }

  ghost function OwesOfSlot(s: Slot, p: Path, has: iset<Path>): multiset<Error>
    decreases s
  {
    if s.Running? then Owes(s.task, p, has) else multiset{}
  }

  // --- When the order does not matter ---

  /** No complaint owed is at a path marked by the other one. */
  ghost predicate Apart(owes: multiset<Error>, marks: iset<Path>) {
    forall q :: q in marks ==> Error(q, MustNotBeNull) !in owes
  }

  /** No concurrent field complains at a path that another one marks. */
  ghost predicate Peaceful(fields: seq<FieldPlan>, owes: seq<multiset<Error>>, marks: seq<iset<Path>>)
    requires |owes| == |marks| == |fields|
  {
    forall i, j :: 0 <= i < |fields| && 0 <= j < |fields| && i != j && fields[i].concurrent && fields[j].concurrent ==>
      Apart(owes[i], marks[j])
  }

  /** At every depth, given the paths that have errors. */
  ghost predicate Calm(a: Answer, p: Path, nonNull: bool, has: iset<Path>)
    decreases a
  {
    match a
    case List(itemsNonNull, items) =>
      forall i :: 0 <= i < |items| ==> Calm(items[i], p + [Index(i)], itemsNonNull, has)
    case Object(fields) =>
      var marks := MarksOfFields(fields, p);
      && (forall i :: 0 <= i < |fields| ==>
            CalmField(fields[i], p + [Name(fields[i].alias)], Earlier(fields, marks, has, i)))
      && Peaceful(fields, OwesOfFields(fields, p, has), marks)
    case _ => true
  }

  ghost predicate CalmField(f: FieldPlan, p: Path, has: iset<Path>)
    decreases f
  {
    f.outcome.Answered? ==> Calm(f.outcome.answer, p, f.nonNull, has + Single(f.reports > 0, p))
  }

  ghost predicate CalmTask(t: Task, p: Path, has: iset<Path>)
    decreases t
  {
    match t
    case Resolving(f, done) =>
      f.outcome.Answered? ==> Calm(f.outcome.answer, p, f.nonNull, has + Single(done < f.reports, p))
    case Marshalling(a, nonNull) => Calm(a, p, nonNull, has)
    case Joining(children) => forall i :: 0 <= i < |children| ==> CalmTask(children[i], p + [Index(i)], has)
    case Dispatching(fields, slots, _) =>
      && |fields| == |slots|
      && var marks := MarksBySlots(fields, slots, p);
         && (forall i :: 0 <= i < |slots| ==>
               CalmSlot(slots[i], p + [Name(fields[i].alias)], Earlier(fields, marks, has, i)))
         && Peaceful(fields, OwesBySlots(fields, slots, p, has), marks)
    case _ => true
  }

  ghost predicate CalmSlot(s: Slot, p: Path, has: iset<Path>)
    decreases s
  {
    s.Running? ==> CalmTask(s.task, p, has)
  }

  // --- Debts lie at marked paths, and marks at or under one's own ---

  lemma {:induction false} BelowIsPrefix(p: Path, below: Path)
    ensures p <= p + below
  {
  }

  lemma {:induction false} MarksOfBeneath(a: Answer, p: Path, nonNull: bool, q: Path)
    requires q in MarksOf(a, p, nonNull)
    ensures p <= q
    decreases a
  {
    match a
    case List(itemsNonNull, items) =>
      var i :| 0 <= i < |items| && q in MarksOfItems(items, p, itemsNonNull)[i];
      MarksOfBeneath(items[i], p + [Index(i)], itemsNonNull, q);
      BeneathIsPrefix(p, Index(i), q);
    case Object(fields) =>
      var i :| 0 <= i < |fields| && q in MarksOfFields(fields, p)[i];
      var f := fields[i];
      assert q in MarksOfField(f, p + [Name(f.alias)]);
      OutcomeMarksBeneath(f, p + [Name(f.alias)], q);
      BeneathIsPrefix(p, Name(f.alias), q);
    case _ =>
  }

  lemma {:induction false} OutcomeMarksBeneath(f: FieldPlan, p: Path, q: Path)
    requires q == p || q in MarksOfOutcome(f, p)
    ensures p <= q
    decreases f
  {
    if q in MarksOfOutcome(f, p) {
      match f.outcome
      case Failed(below) => BelowIsPrefix(p, below);
      case Nothing =>
      case Answered(a) => MarksOfBeneath(a, p, f.nonNull, q);
    }
  }

  lemma {:induction false} MarksBeneath(t: Task, p: Path, q: Path)
    requires q in Marks(t, p)
    ensures p <= q
    decreases t
  {
    match t
    case Resolving(f, _) => OutcomeMarksBeneath(f, p, q);
    case Marshalling(a, nonNull) => MarksOfBeneath(a, p, nonNull, q);
    case Joining(children) =>
      var i :| 0 <= i < |children| && q in MarksByItems(children, p)[i];
      MarksBeneath(children[i], p + [Index(i)], q);
      BeneathIsPrefix(p, Index(i), q);
    case Dispatching(fields, slots, _) =>
      var i :| 0 <= i < |slots| && q in MarksBySlots(fields, slots, p)[i];
      SlotMarksBeneath(slots[i], p + [Name(fields[i].alias)], q);
      BeneathIsPrefix(p, Name(fields[i].alias), q);
    case _ =>
  }

  lemma {:induction false} SlotMarksBeneath(s: Slot, p: Path, q: Path)
    requires q in MarksOfSlot(s, p)
    ensures p <= q
    decreases s
  {
    MarksBeneath(s.task, p, q);
  }

  lemma {:induction false} OwedIsMarkedOf(a: Answer, p: Path, nonNull: bool, has: iset<Path>, e: Error)
    requires e in OwesOf(a, p, nonNull, has)
    ensures e.path in MarksOf(a, p, nonNull)
    decreases a
  {
    match a
    case List(itemsNonNull, items) =>
      SumContains(OwesOfItems(items, p, itemsNonNull, has), e);
      var i :| 0 <= i < |items| && e in OwesOfItems(items, p, itemsNonNull, has)[i];
      OwedIsMarkedOf(items[i], p + [Index(i)], itemsNonNull, has, e);
      assert e.path in MarksOfItems(items, p, itemsNonNull)[i];
    case Object(fields) =>
      SumContains(OwesOfFields(fields, p, has), e);
      var i :| 0 <= i < |fields| && e in OwesOfFields(fields, p, has)[i];
      var q := p + [Name(fields[i].alias)];
      OwedIsMarkedField(fields[i], q, Earlier(fields, MarksOfFields(fields, p), has, i), e);
      assert e.path in MarksOfFields(fields, p)[i];
    case _ =>
  }

  lemma {:induction false} OwedIsMarkedField(f: FieldPlan, p: Path, has: iset<Path>, e: Error)
    requires e in OwesOfField(f, p, has)
    ensures e.path in MarksOfField(f, p)
    decreases f, 1
  {
    ReportsAre(p, 0, f.reports, e);
    if e in OwesOfOutcome(f, p, has + Single(f.reports > 0, p)) {
      OwedIsMarkedOutcome(f, p, has + Single(f.reports > 0, p), e);
    }
  }

  lemma {:induction false} OwedIsMarkedOutcome(f: FieldPlan, p: Path, has: iset<Path>, e: Error)
    requires e in OwesOfOutcome(f, p, has)
    ensures e.path in MarksOfOutcome(f, p)
    decreases f, 0
  {
    match f.outcome
    case Answered(a) => OwedIsMarkedOf(a, p, f.nonNull, has, e);
    case _ =>
  }

  lemma {:induction false} OwedIsMarked(t: Task, p: Path, has: iset<Path>, e: Error)
    requires e in Owes(t, p, has)
    ensures e.path in Marks(t, p)
    decreases t
  {
    match t
    case Resolving(f, done) =>
      ReportsAre(p, done, f.reports, e);
      if e in OwesOfOutcome(f, p, has + Single(done < f.reports, p)) {
        OwedIsMarkedOutcome(f, p, has + Single(done < f.reports, p), e);
      }
    case Marshalling(a, nonNull) => OwedIsMarkedOf(a, p, nonNull, has, e);
    case Joining(children) =>
      SumContains(OwesByItems(children, p, has), e);
      var i :| 0 <= i < |children| && e in OwesByItems(children, p, has)[i];
      OwedIsMarked(children[i], p + [Index(i)], has, e);
      assert e.path in MarksByItems(children, p)[i];
    case Dispatching(fields, slots, _) =>
      SumContains(OwesBySlots(fields, slots, p, has), e);
      var i :| 0 <= i < |slots| && e in OwesBySlots(fields, slots, p, has)[i];
      SlotOwedIsMarked(slots[i], p + [Name(fields[i].alias)],
                       Earlier(fields, MarksBySlots(fields, slots, p), has, i), e);
      assert e.path in MarksBySlots(fields, slots, p)[i];
    case _ =>
  }

  lemma {:induction false} SlotOwedIsMarked(s: Slot, p: Path, has: iset<Path>, e: Error)
    requires e in OwesOfSlot(s, p, has)
    ensures e.path in MarksOfSlot(s, p)
    decreases s
  {
    OwedIsMarked(s.task, p, has, e);
  }

  // --- More paths with errors, fewer complaints, each for its own path ---

  /** `e` is owed no more often under `has'`, since it is no complaint, or its path has an error
      there if it has one under `has`. */
  ghost predicate NoMore(e: Error, has: iset<Path>, has': iset<Path>) {
    e.reason != MustNotBeNull || (e.path in has ==> e.path in has')
  }

  lemma {:induction false} SumLess(a: seq<multiset<Error>>, b: seq<multiset<Error>>, e: Error)
    requires |a| == |b| && forall i :: 0 <= i < |a| ==> a[i][e] <= b[i][e]
    ensures Sum(a)[e] <= Sum(b)[e]
    decreases |a|
  {
    if a != [] {
      SumLess(a[1..], b[1..], e);
    }
  }

  lemma {:induction false} OwesLessOf(a: Answer, p: Path, nonNull: bool, has: iset<Path>, has': iset<Path>, e: Error)
    requires NoMore(e, has, has')
    ensures OwesOf(a, p, nonNull, has')[e] <= OwesOf(a, p, nonNull, has)[e]
    decreases a
  {
    match a
    case List(itemsNonNull, items) =>
      var now, then_ := OwesOfItems(items, p, itemsNonNull, has'), OwesOfItems(items, p, itemsNonNull, has);
      forall i | 0 <= i < |items| ensures now[i][e] <= then_[i][e] {
        OwesLessOf(items[i], p + [Index(i)], itemsNonNull, has, has', e);
      }
      SumLess(now, then_, e);
    case Object(fields) =>
      var now, then_ := OwesOfFields(fields, p, has'), OwesOfFields(fields, p, has);
      var marks := MarksOfFields(fields, p);
      forall i | 0 <= i < |fields| ensures now[i][e] <= then_[i][e] {
        OwesLessField(fields[i], p + [Name(fields[i].alias)],
                      Earlier(fields, marks, has, i), Earlier(fields, marks, has', i), e);
      }
      SumLess(now, then_, e);
    case _ =>
  }

  lemma {:induction false} OwesLessField(f: FieldPlan, p: Path, has: iset<Path>, has': iset<Path>, e: Error)
    requires NoMore(e, has, has')
    ensures OwesOfField(f, p, has')[e] <= OwesOfField(f, p, has)[e]
    decreases f, 1
  {
    OwesLessOutcome(f, p, has + Single(f.reports > 0, p), has' + Single(f.reports > 0, p), e);
  }

  lemma {:induction false} OwesLessOutcome(f: FieldPlan, p: Path, has: iset<Path>, has': iset<Path>, e: Error)
    requires NoMore(e, has, has')
    ensures OwesOfOutcome(f, p, has')[e] <= OwesOfOutcome(f, p, has)[e]
    decreases f, 0
  {
    match f.outcome
    case Answered(a) => OwesLessOf(a, p, f.nonNull, has, has', e);
    case _ =>
  }

  lemma {:induction false} OwesLess(t: Task, p: Path, has: iset<Path>, has': iset<Path>, e: Error)
    requires NoMore(e, has, has')
    ensures Owes(t, p, has')[e] <= Owes(t, p, has)[e]
    decreases t
  {
    match t
    case Resolving(f, done) =>
      OwesLessOutcome(f, p, has + Single(done < f.reports, p), has' + Single(done < f.reports, p), e);
    case Marshalling(a, nonNull) => OwesLessOf(a, p, nonNull, has, has', e);
    case Joining(children) =>
      var now, then_ := OwesByItems(children, p, has'), OwesByItems(children, p, has);
      forall i | 0 <= i < |children| ensures now[i][e] <= then_[i][e] {
        OwesLess(children[i], p + [Index(i)], has, has', e);
      }
      SumLess(now, then_, e);
    case Dispatching(fields, slots, _) =>
      if |fields| == |slots| {
        var now, then_ := OwesBySlots(fields, slots, p, has'), OwesBySlots(fields, slots, p, has);
        var marks := MarksBySlots(fields, slots, p);
        forall i | 0 <= i < |slots| ensures now[i][e] <= then_[i][e] {
          OwesLessSlot(slots[i], p + [Name(fields[i].alias)],
                       Earlier(fields, marks, has, i), Earlier(fields, marks, has', i), e);
        }
        SumLess(now, then_, e);
      }
    case _ =>
  }

  lemma {:induction false} OwesLessSlot(s: Slot, p: Path, has: iset<Path>, has': iset<Path>, e: Error)
    requires NoMore(e, has, has')
    ensures OwesOfSlot(s, p, has')[e] <= OwesOfSlot(s, p, has)[e]
    decreases s
  {
    if s.Running? {
      OwesLess(s.task, p, has, has', e);
    }
  }

  /** More paths with errors do not matter to a slot that has no complaint at them. */
  lemma {:induction false} OwesSame(s: Slot, p: Path, has: iset<Path>, has': iset<Path>)
    requires has <= has'
    requires forall q :: q in has' && q !in has ==> Error(q, MustNotBeNull) !in OwesOfSlot(s, p, has)
    ensures OwesOfSlot(s, p, has') == OwesOfSlot(s, p, has)
  {
    forall e ensures OwesOfSlot(s, p, has')[e] == OwesOfSlot(s, p, has)[e] {
      OwesLessSlot(s, p, has, has', e);
      if NoMore(e, has', has) {
        OwesLessSlot(s, p, has', has, e);
      } else {
        assert e == Error(e.path, MustNotBeNull);
      }
    }
  }

  // --- Calm stays calm when more paths have errors ---

  lemma {:induction false} PeacefulGrows(fields: seq<FieldPlan>, owes: seq<multiset<Error>>,
                                         owes': seq<multiset<Error>>, marks: seq<iset<Path>>, marks': seq<iset<Path>>)
    requires |owes| == |owes'| == |marks| == |marks'| == |fields| && Peaceful(fields, owes, marks)
    requires forall i :: 0 <= i < |fields| ==> marks'[i] <= marks[i]
    requires forall i, e :: 0 <= i < |fields| && e in owes'[i] && e.reason == MustNotBeNull ==> e in owes[i]
    ensures Peaceful(fields, owes', marks')
  {
    forall i, j | 0 <= i < |fields| && 0 <= j < |fields| && i != j && fields[i].concurrent && fields[j].concurrent
      ensures Apart(owes'[i], marks'[j])
    {
      assert Apart(owes[i], marks[j]);
    }
  }

  lemma {:induction false} CalmGrowsOf(a: Answer, p: Path, nonNull: bool, has: iset<Path>, has': iset<Path>)
    requires Calm(a, p, nonNull, has) && has <= has'
    ensures Calm(a, p, nonNull, has')
    decreases a
  {
    match a
    case List(itemsNonNull, items) =>
      forall i | 0 <= i < |items| ensures Calm(items[i], p + [Index(i)], itemsNonNull, has') {
        CalmGrowsOf(items[i], p + [Index(i)], itemsNonNull, has, has');
      }
    case Object(fields) =>
      var marks := MarksOfFields(fields, p);
      forall i | 0 <= i < |fields|
        ensures CalmField(fields[i], p + [Name(fields[i].alias)], Earlier(fields, marks, has', i))
      {
        CalmGrowsField(fields[i], p + [Name(fields[i].alias)],
                       Earlier(fields, marks, has, i), Earlier(fields, marks, has', i));
      }
      FieldsOweLess(fields, p, has, has');
      PeacefulGrows(fields, OwesOfFields(fields, p, has), OwesOfFields(fields, p, has'), marks, marks);
    case _ =>
  }

  lemma {:induction false} FieldsOweLess(fields: seq<FieldPlan>, p: Path, has: iset<Path>, has': iset<Path>)
    requires has <= has'
    ensures forall i, e :: 0 <= i < |fields| && e in OwesOfFields(fields, p, has')[i] ==>
              e in OwesOfFields(fields, p, has)[i]
  {
    var marks := MarksOfFields(fields, p);
    forall i, e | 0 <= i < |fields| && e in OwesOfFields(fields, p, has')[i]
      ensures e in OwesOfFields(fields, p, has)[i]
    {
      OwesLessField(fields[i], p + [Name(fields[i].alias)],
                    Earlier(fields, marks, has, i), Earlier(fields, marks, has', i), e);
    }
  }

  lemma {:induction false} CalmGrowsField(f: FieldPlan, p: Path, has: iset<Path>, has': iset<Path>)
    requires CalmField(f, p, has) && has <= has'
    ensures CalmField(f, p, has')
    decreases f
  {
    if f.outcome.Answered? {
      CalmGrowsOf(f.outcome.answer, p, f.nonNull, has + Single(f.reports > 0, p), has' + Single(f.reports > 0, p));
    }
  }

  lemma {:induction false} CalmGrows(t: Task, p: Path, has: iset<Path>, has': iset<Path>)
    requires CalmTask(t, p, has) && has <= has'
    ensures CalmTask(t, p, has')
    decreases t
  {
    match t
    case Resolving(f, done) =>
      if f.outcome.Answered? {
        CalmGrowsOf(f.outcome.answer, p, f.nonNull,
                    has + Single(done < f.reports, p), has' + Single(done < f.reports, p));
      }
    case Marshalling(a, nonNull) => CalmGrowsOf(a, p, nonNull, has, has');
    case Joining(children) =>
      forall i | 0 <= i < |children| ensures CalmTask(children[i], p + [Index(i)], has') {
        CalmGrows(children[i], p + [Index(i)], has, has');
      }
    case Dispatching(fields, slots, _) =>
      var marks := MarksBySlots(fields, slots, p);
      forall i | 0 <= i < |slots|
        ensures CalmSlot(slots[i], p + [Name(fields[i].alias)], Earlier(fields, marks, has', i))
      {
        CalmGrowsSlot(slots[i], p + [Name(fields[i].alias)],
                      Earlier(fields, marks, has, i), Earlier(fields, marks, has', i));
      }
      SlotsOweLess(fields, slots, p, has, has');
      PeacefulGrows(fields, OwesBySlots(fields, slots, p, has), OwesBySlots(fields, slots, p, has'), marks, marks);
    case _ =>
  }

  lemma {:induction false} SlotsOweLess(fields: seq<FieldPlan>, slots: seq<Slot>, p: Path, has: iset<Path>,
                                        has': iset<Path>)
    requires |fields| == |slots| && has <= has'
    ensures forall i, e :: 0 <= i < |fields| && e in OwesBySlots(fields, slots, p, has')[i] ==>
              e in OwesBySlots(fields, slots, p, has)[i]
  {
    var marks := MarksBySlots(fields, slots, p);
    forall i, e | 0 <= i < |fields| && e in OwesBySlots(fields, slots, p, has')[i]
      ensures e in OwesBySlots(fields, slots, p, has)[i]
    {
      OwesLessSlot(slots[i], p + [Name(fields[i].alias)],
                   Earlier(fields, marks, has, i), Earlier(fields, marks, has', i), e);
    }
  }

  lemma {:induction false} CalmGrowsSlot(s: Slot, p: Path, has: iset<Path>, has': iset<Path>)
    requires CalmSlot(s, p, has) && has <= has'
    ensures CalmSlot(s, p, has')
    decreases s
  {
    if s.Running? {
      CalmGrows(s.task, p, has, has');
    }
  }
}
