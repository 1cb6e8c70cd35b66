/** Which errors a response has, said of each error by itself. */
module OwedErrors {
  import opened Wrappers
  import opened Paths
  import opened Execution
  import opened ExecutionLaws
  import opened Interleaving
  import opened InterleavingLaws
  import opened Aliases

  /** Marshalling `a` at `p` calls for the error: "must not be null" for a missing value at a non-null
      position that has no error yet, and for a list of scalars in which there is one. */
  ghost predicate Owed(a: Answer, p: Path, nonNull: bool, reported: bool, e: Error)
    decreases a
  {
    match a
    case Nil => nonNull && !reported && e == Error(p, MustNotBeNull)
    case ScalarList(scalarsNonNull, scalars) =>
      !reported && e == Error(p, MustNotBeNull) && exists q :: NullAmong(scalars, p, scalarsNonNull, q)
    case List(itemsNonNull, items) =>
      exists i :: 0 <= i < |items| && Owed(items[i], p + [Index(i)], itemsNonNull, false, e)
    case Object(fields) =>
      exists i :: 0 <= i < |fields| && OwedByField(fields[i], p + [Name(fields[i].alias)], e)
    case _ => false
  }

  /** A field calls for what its resolver reports, at its own path; for the failure, at its path or
      beneath; for a complaint if there is no value; or for what its answer calls for. */
  ghost predicate OwedByField(f: FieldPlan, p: Path, e: Error)
    decreases f
  {
    || (exists i :: 0 <= i < f.reports && e == Error(p, Reported(i)))
    || match f.outcome
       case Failed(below) => e == Error(p + below, ResolverFailed)
       case Nothing => f.nonNull && f.reports == 0 && e == Error(p, MustNotBeNull)
       case Answered(a) => Owed(a, p, f.nonNull, f.reports > 0, e)
  }

  lemma {:induction false} ErrorsAreOwed(a: Answer, p: Path, nonNull: bool, reported: bool, e: Error)
    ensures e in ErrorsOf(a, p, nonNull, reported) <==> Owed(a, p, nonNull, reported, e)
    decreases a
  {
    match a
    case ScalarList(scalarsNonNull, scalars) =>
      if MissingAmong(scalars, scalarsNonNull) > 0 {
        var q := MissingIsNull(scalars, p, scalarsNonNull);
      }
      if q :| NullAmong(scalars, p, scalarsNonNull, q) {
        NullIsMissing(scalars, p, scalarsNonNull, q);
      }
    case List(itemsNonNull, items) =>
      var parts := ErrorsOfItems(items, p, itemsNonNull);
      SumContains(parts, e);
      forall i | 0 <= i < |items| ensures e in parts[i] <==> Owed(items[i], p + [Index(i)], itemsNonNull, false, e) {
        ErrorsAreOwed(items[i], p + [Index(i)], itemsNonNull, false, e);
      }
    case Object(fields) =>
      var parts := ErrorsOfFields(fields, p);
      SumContains(parts, e);
      forall i | 0 <= i < |fields|
        ensures e in parts[i] <==> OwedByField(fields[i], p + [Name(fields[i].alias)], e)
      {
        ErrorsAreOwedByField(fields[i], p + [Name(fields[i].alias)], e);
      }
    case _ =>
  }

  lemma {:induction false} ErrorsAreOwedByField(f: FieldPlan, p: Path, e: Error)
    ensures e in ErrorsOfField(f, p) <==> OwedByField(f, p, e)
    decreases f
  {
    ReportsAre(p, 0, f.reports, e);
    if f.outcome.Answered? {
      ErrorsAreOwed(f.outcome.answer, p, f.nonNull, f.reports > 0, e);
    }
  }

  lemma {:induction false} OnceEach(a: Answer, e: Error)
    requires Proper(a)
    ensures ErrorsOf(a, [], false, false)[e] == if Owed(a, [], false, false, e) then 1 else 0
  {
    NoDuplicateErrors(a);
    ErrorsAreOwed(a, [], false, false, e);
  }

  /** With distinct aliases, every interleaving records just the errors called for, each once. */
  lemma {:induction false} JustWhatIsOwed(a: Answer, schedule: seq<seq<nat>>)
    requires Proper(a) && Run(Start(a), [], schedule).Some? && Run(Start(a), [], schedule).value.task.Done?
    ensures var errors := Run(Start(a), [], schedule).value.errors;
            forall e :: multiset(errors)[e] == if Owed(a, [], false, false, e) then 1 else 0
  {
    DistinctAliasesRecord(a, schedule);
    forall e ensures ErrorsOf(a, [], false, false)[e] == if Owed(a, [], false, false, e) then 1 else 0 {
      OnceEach(a, e);
    }
  }
}
