/** What aliases tell about races before anything is executed. */
module Aliases {
  import opened Paths
  import opened Execution
  import opened ExecutionLaws
  import opened Wrappers
  import opened Interleaving
  import opened InterleavingLaws
  import opened Debts
  import opened Sequential
  import opened Schedules
  import opened Races

  // --- No two concurrent fields of one alias ---

  predicate UnlikeConcurrent(fields: seq<FieldPlan>) {
    forall i, j :: 0 <= i < j < |fields| && fields[i].concurrent && fields[j].concurrent ==>
      fields[i].alias != fields[j].alias
  }

  /** At no depth. */
  predicate Ordered(a: Answer)
    decreases a
  {
    match a
    case List(_, items) => forall i :: 0 <= i < |items| ==> Ordered(items[i])
    case Object(fields) => UnlikeConcurrent(fields) && forall i :: 0 <= i < |fields| ==> OrderedField(fields[i])
    case _ => true
  }

  predicate OrderedField(f: FieldPlan)
    decreases f
  {
    f.outcome.Answered? ==> Ordered(f.outcome.answer)
  }

  lemma {:induction false} FieldMarksBeneath(f: FieldPlan, p: Path, q: Path)
    requires q in MarksOfField(f, p)
    ensures p <= q
  {
    OutcomeMarksBeneath(f, p, q);
  }

  lemma {:induction false} UnlikeIsPeaceful(fields: seq<FieldPlan>, p: Path, has: iset<Path>)
    requires UnlikeConcurrent(fields)
    ensures Peaceful(fields, OwesOfFields(fields, p, has), MarksOfFields(fields, p))
  {
    var owes, marks := OwesOfFields(fields, p, has), MarksOfFields(fields, p);
    forall i, j | 0 <= i < |fields| && 0 <= j < |fields| && i != j && fields[i].concurrent && fields[j].concurrent
      ensures Apart(owes[i], marks[j])
    {
      forall q | q in marks[j] ensures Error(q, MustNotBeNull) !in owes[i] {
        FieldMarksBeneath(fields[j], p + [Name(fields[j].alias)], q);
        if Error(q, MustNotBeNull) in owes[i] {
          OwedIsMarkedField(fields[i], p + [Name(fields[i].alias)], Earlier(fields, marks, has, i),
                            Error(q, MustNotBeNull));
          FieldMarksBeneath(fields[i], p + [Name(fields[i].alias)], q);
          SiblingsAreApart(p, Name(fields[i].alias), Name(fields[j].alias), q);
        }
      }
    }
  }

  lemma {:induction false} OrderedIsCalm(a: Answer, p: Path, nonNull: bool, has: iset<Path>)
    requires Ordered(a)
    ensures Calm(a, p, nonNull, has)
    decreases a
  {
    match a
    case List(itemsNonNull, items) =>
      forall i | 0 <= i < |items| ensures Calm(items[i], p + [Index(i)], itemsNonNull, has) {
        OrderedIsCalm(items[i], p + [Index(i)], itemsNonNull, has);
      }
    case Object(fields) =>
      var marks := MarksOfFields(fields, p);
      forall i | 0 <= i < |fields|
        ensures CalmField(fields[i], p + [Name(fields[i].alias)], Earlier(fields, marks, has, i))
      {
        OrderedFieldIsCalm(fields[i], p + [Name(fields[i].alias)], Earlier(fields, marks, has, i));
      }
      UnlikeIsPeaceful(fields, p, has);
    case _ =>
  }

  lemma {:induction false} OrderedFieldIsCalm(f: FieldPlan, p: Path, has: iset<Path>)
    requires OrderedField(f)
    ensures CalmField(f, p, has)
    decreases f
  {
    if f.outcome.Answered? {
      OrderedIsCalm(f.outcome.answer, p, f.nonNull, has + Single(f.reports > 0, p));
    }
  }

  /** If no object has two concurrent fields of one alias, every run that ends records the errors of the
      sequential one, whatever the resolvers do. */
  lemma {:induction false} OrderedRunsAgree(a: Answer, schedule: Schedule)
    requires Ordered(a) && Run(Start(a), [], schedule).Some? && Run(Start(a), [], schedule).value.task.Done?
    ensures multiset(Run(Start(a), [], schedule).value.errors) == multiset(AfterAnswer([], a, [], false))
  {
    OrderedIsCalm(a, [], false, iset{});
    EveryInterleaving(a, schedule);
  }

  // --- Two concurrent fields of one alias can race ---

  /** The same fields with other outcomes. */
  predicate SameHeads(one: seq<FieldPlan>, two: seq<FieldPlan>) {
    |one| == |two| && forall i :: 0 <= i < |one| ==>
      one[i].alias == two[i].alias && one[i].nonNull == two[i].nonNull && one[i].concurrent == two[i].concurrent
  }

  /** Fields `i` and `j` find a list of one null, where items are non-null, and the others a leaf. */
  function Awkward(fields: seq<FieldPlan>, i: nat, j: nat): (r: seq<FieldPlan>)
    ensures |r| == |fields|
  {
    seq(|fields|, k requires 0 <= k < |fields| =>
      FieldPlan(fields[k].alias, fields[k].nonNull, fields[k].concurrent, 0,
                Answered(if k == i || k == j then List(true, [Nil]) else Leaf(""))))
  }

  lemma {:induction false} OneNullItem(p: Path, has: iset<Path>)
    requires p + [Index(0)] !in has
    ensures OwesOf(List(true, [Nil]), p, false, has) == multiset{Error(p + [Index(0)], MustNotBeNull)}
    ensures p + [Index(0)] in MarksOf(List(true, [Nil]), p, false)
  {
    var parts := OwesOfItems([Nil], p, true, has);
    assert parts[0] == NullError(p + [Index(0)], true, false) && parts[1..] == [];
    assert Sum(parts) == parts[0] + Sum(parts[1..]);
    assert p + [Index(0)] in MarksOfItems([Nil], p, true)[0];
  }

  /** Of two concurrent fields that find such lists, one complains where the other does. */
  lemma {:induction false} AwkwardField(f: FieldPlan, p: Path)
    requires f.reports == 0 && f.outcome == Answered(List(true, [Nil]))
    ensures Error(p + [Index(0)], MustNotBeNull) in OwesOfField(f, p, iset{})
    ensures p + [Index(0)] in MarksOfField(f, p)
  {
    OneNullItem(p, iset{});
    assert iset{} + Single(false, p) == iset{};
    assert OwesOf(List(true, [Nil]), p, f.nonNull, iset{}) == OwesOf(List(true, [Nil]), p, false, iset{});
    assert MarksOf(List(true, [Nil]), p, f.nonNull) == MarksOf(List(true, [Nil]), p, false);
  }

  lemma {:induction false} AwkwardIsNotCalm(fields: seq<FieldPlan>, i: nat, j: nat)
    requires i < j < |fields| && fields[i].concurrent && fields[j].concurrent && fields[i].alias == fields[j].alias
    ensures !Calm(Object(Awkward(fields, i, j)), [], false, iset{})
  {
    var r := Awkward(fields, i, j);
    var p := [] + [Name(fields[i].alias)];
    var owes, marks := OwesOfFields(r, [], iset{}), MarksOfFields(r, []);
    NothingBefore(r, marks, i);
    AwkwardField(r[i], p);
    AwkwardField(r[j], p);
    assert owes[i] == OwesOfField(r[i], p, iset{}) && marks[j] == MarksOfField(r[j], p);
    assert !Apart(owes[i], marks[j]);
  }

  lemma {:induction false} NothingBefore(fields: seq<FieldPlan>, marks: seq<iset<Path>>, i: nat)
    requires i < |fields| && marks == MarksOfFields(fields, [])
    requires forall k :: 0 <= k < |fields| && !fields[k].concurrent ==>
               fields[k].reports == 0 && fields[k].outcome == Answered(Leaf(""))
    ensures Earlier(fields, marks, iset{}, i) == iset{}
  {
    forall k | 0 <= k < |fields| && Precedes(fields, k, i) ensures marks[k] == iset{} {
      var q := [] + [Name(fields[k].alias)];
      assert marks[k] == MarksOfField(fields[k], q) && MarksOfOutcome(fields[k], q) == iset{};
    }
  }

  lemma {:induction false} UnlikeAgrees(fields: seq<FieldPlan>, found: seq<FieldPlan>)
    requires UnlikeConcurrent(fields) && SameHeads(fields, found)
    requires forall i :: 0 <= i < |found| ==> OrderedField(found[i])
    ensures Agreeing(Object(found))
  {
    OrderedIsCalm(Object(found), [], false, iset{});
    ErrorsAgreeExactlyIfCalm(Object(found));
  }

  lemma {:induction false} LikeDisagrees(fields: seq<FieldPlan>) returns (found: seq<FieldPlan>)
    requires !UnlikeConcurrent(fields)
    ensures SameHeads(fields, found) && (forall i :: 0 <= i < |found| ==> OrderedField(found[i]))
    ensures !Agreeing(Object(found))
  {
    var i: nat, j: nat :| i < j < |fields| && fields[i].concurrent && fields[j].concurrent
                          && fields[i].alias == fields[j].alias;
    found := Awkward(fields, i, j);
    AwkwardIsNotCalm(fields, i, j);
    ErrorsAgreeExactlyIfCalm(Object(found));
    forall k | 0 <= k < |found| ensures OrderedField(found[k]) {
      AwkwardIsOrdered(fields, i, j, k);
    }
  }

  /** Other outcomes for the same fields, with nothing racing inside. */
  ghost predicate MayBeFound(fields: seq<FieldPlan>, found: seq<FieldPlan>) {
    SameHeads(fields, found) && forall i :: 0 <= i < |found| ==> OrderedField(found[i])
  }

  /** What the collected fields of an object tell: its runs agree on the errors, whatever its resolvers
      find, if and only if no two concurrent fields have one alias. */
  lemma {:induction false} RunsAgreeExactlyIfUnlike(fields: seq<FieldPlan>)
    ensures (forall found :: MayBeFound(fields, found) ==> Agreeing(Object(found))) <==> UnlikeConcurrent(fields)
  {
    if UnlikeConcurrent(fields) {
      forall found | MayBeFound(fields, found) ensures Agreeing(Object(found)) {
        UnlikeAgrees(fields, found);
      }
    } else {
      var found := LikeDisagrees(fields);
      assert MayBeFound(fields, found);
    }
  }

  lemma {:induction false} AwkwardIsOrdered(fields: seq<FieldPlan>, i: nat, j: nat, k: nat)
    requires k < |fields|
    ensures OrderedField(Awkward(fields, i, j)[k])
  {
    assert Ordered([Nil][0]);
  }

  // --- Distinct aliases ---

  lemma {:induction false} ProperIsOrdered(a: Answer)
    requires Proper(a)
    ensures Ordered(a)
    decreases a
  {
    match a
    case List(_, items) =>
      forall i | 0 <= i < |items| ensures Ordered(items[i]) {
        ProperIsOrdered(items[i]);
      }
    case Object(fields) =>
      forall i | 0 <= i < |fields| ensures OrderedField(fields[i]) {
        ProperFieldIsOrdered(fields[i]);
      }
    case _ =>
  }

  lemma {:induction false} ProperFieldIsOrdered(f: FieldPlan)
    requires ProperField(f)
    ensures OrderedField(f)
    decreases f
  {
    if f.outcome.Answered? {
      ProperIsOrdered(f.outcome.answer);
    }
  }

  /** No path strictly under `p` has an error. */
  ghost predicate NoneUnder(has: iset<Path>, p: Path) {
    forall q :: q in has && p <= q ==> q == p
  }

  lemma {:induction false} NoneUnderChild(has: iset<Path>, p: Path, x: Element)
    requires NoneUnder(has, p)
    ensures NoneUnder(has, p + [x]) && p + [x] !in has
  {
    forall q | q in has && p + [x] <= q ensures false {
      BeneathIsPrefix(p, x, q);
    }
  }

  lemma {:induction false} NoneEarlier(fields: seq<FieldPlan>, p: Path, has: iset<Path>, i: nat)
    requires DistinctAliases(fields) && i < |fields| && NoneUnder(has, p)
    ensures var q := p + [Name(fields[i].alias)];
            var before := Earlier(fields, MarksOfFields(fields, p), has, i);
            NoneUnder(before, q) && q !in before
  {
    var q, marks := p + [Name(fields[i].alias)], MarksOfFields(fields, p);
    NoneUnderChild(has, p, Name(fields[i].alias));
    forall r | r in Earlier(fields, marks, has, i) && q <= r ensures false {
      if r !in has {
        var j :| 0 <= j < |fields| && Precedes(fields, j, i) && r in marks[j];
        FieldMarksBeneath(fields[j], p + [Name(fields[j].alias)], r);
        SiblingsAreApart(p, Name(fields[i].alias), Name(fields[j].alias), r);
      }
    }
    assert q <= q;
  }

  /** With distinct aliases each position owes its own errors, whatever the others do. */
  lemma {:induction false} ProperOwes(a: Answer, p: Path, nonNull: bool, has: iset<Path>)
    requires Proper(a) && NoneUnder(has, p)
    ensures OwesOf(a, p, nonNull, has) == ErrorsOf(a, p, nonNull, p in has)
    decreases a
  {
    match a
    case List(itemsNonNull, items) =>
      forall i | 0 <= i < |items|
        ensures OwesOfItems(items, p, itemsNonNull, has)[i] == ErrorsOfItems(items, p, itemsNonNull)[i]
      {
        NoneUnderChild(has, p, Index(i));
        ProperOwes(items[i], p + [Index(i)], itemsNonNull, has);
      }
      assert OwesOfItems(items, p, itemsNonNull, has) == ErrorsOfItems(items, p, itemsNonNull);
    case Object(fields) =>
      var marks := MarksOfFields(fields, p);
      forall i | 0 <= i < |fields| ensures OwesOfFields(fields, p, has)[i] == ErrorsOfFields(fields, p)[i] {
        NoneEarlier(fields, p, has, i);
        ProperFieldOwes(fields[i], p + [Name(fields[i].alias)], Earlier(fields, marks, has, i));
      }
      assert OwesOfFields(fields, p, has) == ErrorsOfFields(fields, p);
    case _ =>
  }

  lemma {:induction false} ProperFieldOwes(f: FieldPlan, p: Path, has: iset<Path>)
    requires ProperField(f) && NoneUnder(has, p) && p !in has
    ensures OwesOfField(f, p, has) == ErrorsOfField(f, p)
    decreases f
  {
    if f.outcome.Answered? {
      ProperOwes(f.outcome.answer, p, f.nonNull, has + Single(f.reports > 0, p));
    }
  }

  /** With distinct aliases, every run that ends, the sequential one included, records the errors each
      position owes by itself. */
  lemma {:induction false} DistinctAliasesRecord(a: Answer, schedule: Schedule)
    requires Proper(a) && Run(Start(a), [], schedule).Some? && Run(Start(a), [], schedule).value.task.Done?
    ensures multiset(Run(Start(a), [], schedule).value.errors) == ErrorsOf(a, [], false, false)
    ensures multiset(AfterAnswer([], a, [], false)) == ErrorsOf(a, [], false, false)
  {
    ProperIsOrdered(a);
    OrderedRunsAgree(a, schedule);
    OrderedIsCalm(a, [], false, iset{});
    CalmRecords(a);
    ProperOwes(a, [], false, iset{});
  }

  /** So many errors are in the response: one for each report, failure and missing value. */
  lemma {:induction false} RecordedCount(a: Answer, schedule: Schedule)
    requires Proper(a) && Run(Start(a), [], schedule).Some? && Run(Start(a), [], schedule).value.task.Done?
    ensures |Run(Start(a), [], schedule).value.errors| == Total(TallyOf(a, false, false))
  {
    DistinctAliasesRecord(a, schedule);
    ErrorCount(a, [], false, false);
    assert |multiset(Run(Start(a), [], schedule).value.errors)| == |Run(Start(a), [], schedule).value.errors|;
  }
}
