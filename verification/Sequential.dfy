/** The list of errors after a sequential run, as a function of the list before it, whatever the
    aliases. */
module Sequential {
  import opened Paths
  import opened Execution
  import opened Interleaving

  // --- The list of errors afterwards ---

  /** Complain about a null, unless the field has an error already. */
  function Complained(errors: seq<Error>, p: Path): seq<Error> {
    if HasFieldError(errors, p) then errors else errors + [Error(p, MustNotBeNull)]
  }

  /** A resolver has made its first `n` reports. */
  function AfterReports(errors: seq<Error>, p: Path, n: nat): seq<Error> {
    if n == 0 then errors else AfterReports(errors, p, n - 1) + [Error(p, Reported(n - 1))]
  }

  function AfterField(errors: seq<Error>, f: FieldPlan, p: Path): seq<Error>
    decreases f, 2
  {
    AfterOutcome(AfterReports(errors, p, f.reports), f, p)
  }

  function AfterOutcome(errors: seq<Error>, f: FieldPlan, p: Path): seq<Error>
    decreases f, 1
  {
    match f.outcome
    case Failed(below) => errors + [Error(p + below, ResolverFailed)]
    case Nothing => if f.nonNull then Complained(errors, p) else errors
    case Answered(a) => AfterAnswer(errors, a, p, f.nonNull)
  }

  function AfterAnswer(errors: seq<Error>, a: Answer, p: Path, nonNull: bool): seq<Error>
    decreases a, 1
  {
    match a
    case Nil => if nonNull then Complained(errors, p) else errors
    case NilImplementor => errors
    case Leaf(_) => errors
    case ScalarList(scalarsNonNull, scalars) => AfterScalars(errors, scalars, p, scalarsNonNull, |scalars|)
    case List(itemsNonNull, items) => AfterItems(errors, items, p, itemsNonNull, |items|)
    case Object(fields) => AfterFields(errors, fields, p, Turns(fields))
  }

  /** The first `n` items of a list of scalars, all under the path of the list. */
  function AfterScalars(errors: seq<Error>, items: seq<Item>, p: Path, nonNull: bool, n: nat): seq<Error>
    requires n <= |items|
    decreases items, n
  {
    if n == 0 then errors
    else AfterScalar(AfterScalars(errors, items, p, nonNull, n - 1), items[n - 1], p, nonNull)
  }

  function AfterScalar(errors: seq<Error>, s: Item, p: Path, nonNull: bool): seq<Error>
    decreases s
  {
    match s
    case NullItem => if nonNull then Complained(errors, p) else errors
    case TextItem(_) => errors
    case ItemList(itemsNonNull, items) => AfterScalars(errors, items, p, itemsNonNull, |items|)
  }

  /** The first `n` items of a list, each under its index. */
  function AfterItems(errors: seq<Error>, items: seq<Answer>, p: Path, itemsNonNull: bool, n: nat): seq<Error>
    requires n <= |items|
    decreases items, n
  {
    if n == 0 then errors
    else AfterAnswer(AfterItems(errors, items, p, itemsNonNull, n - 1), items[n - 1], p + [Index(n - 1)], itemsNonNull)
  }

  /** The fields with these numbers, in turn. */
  function AfterFields(errors: seq<Error>, fields: seq<FieldPlan>, p: Path, turns: seq<nat>): seq<Error>
    requires forall k :: 0 <= k < |turns| ==> turns[k] < |fields|
    decreases fields, |turns|
  {
    if turns == [] then errors
    else
      var n := |turns| - 1;
      var f := fields[turns[n]];
      AfterField(AfterFields(errors, fields, p, turns[..n]), f, p + [Name(f.alias)])
  }

  /** Of the first `n` fields, those that are concurrent, or those that are not. */
  function Chosen(fields: seq<FieldPlan>, concurrent: bool, n: nat): (r: seq<nat>)
    requires n <= |fields|
    ensures forall k :: 0 <= k < |r| ==> r[k] < n
  {
    if n == 0 then []
    else
      var before := Chosen(fields, concurrent, n - 1);
      if fields[n - 1].concurrent == concurrent then before + [n - 1] else before
  }

  /** Fields that are not concurrent first, then the delayed ones. */
  function Turns(fields: seq<FieldPlan>): (r: seq<nat>)
    ensures forall k :: 0 <= k < |r| ==> r[k] < |fields|
  {
    Chosen(fields, false, |fields|) + Chosen(fields, true, |fields|)
  }

  lemma {:induction false} ChosenIs(fields: seq<FieldPlan>, concurrent: bool, n: nat, k: nat)
    requires n <= |fields| && k < |Chosen(fields, concurrent, n)|
    ensures fields[Chosen(fields, concurrent, n)[k]].concurrent == concurrent
    decreases n
  {
    if k < |Chosen(fields, concurrent, n - 1)| {
      ChosenIs(fields, concurrent, n - 1, k);
    }
  }

  lemma {:induction false} ChosenHas(fields: seq<FieldPlan>, n: nat, i: nat)
    requires i < n <= |fields|
    ensures i in Chosen(fields, fields[i].concurrent, n)
    decreases n
  {
    if i < n - 1 {
      ChosenHas(fields, n - 1, i);
    }
  }

  lemma {:induction false} ChosenInOrder(fields: seq<FieldPlan>, concurrent: bool, n: nat, j: nat, k: nat)
    requires n <= |fields| && j < k < |Chosen(fields, concurrent, n)|
    ensures Chosen(fields, concurrent, n)[j] < Chosen(fields, concurrent, n)[k]
    decreases n
  {
    if k < |Chosen(fields, concurrent, n - 1)| {
      ChosenInOrder(fields, concurrent, n - 1, j, k);
    }
  }

  /** Every field has its turn, once. */
  lemma {:induction false} TurnsAreComplete(fields: seq<FieldPlan>)
    ensures var r := Turns(fields);
            && (forall i: nat :: i < |fields| ==> i in r)
            && (forall j, k :: 0 <= j < k < |r| ==> r[j] != r[k])
  {
    var n := |fields|;
    var a, b := Chosen(fields, false, n), Chosen(fields, true, n);
    forall i: nat | i < n ensures i in a + b {
      ChosenHas(fields, n, i);
    }
    forall j, k | 0 <= j < k < |a + b| ensures (a + b)[j] != (a + b)[k] {
      if k < |a| {
        ChosenInOrder(fields, false, n, j, k);
      } else if |a| <= j {
        ChosenInOrder(fields, true, n, j - |a|, k - |a|);
      } else {
        ChosenIs(fields, false, n, j);
        ChosenIs(fields, true, n, k - |a|);
      }
    }
  }
}
