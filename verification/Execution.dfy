/** What executing an operation yields: the data, and the errors, position by position.

    A `FieldPlan` is one collected field together with what its resolver will answer. One
    generic executor stands for the generated `_Object`, `_Object_field` and `marshal…`
    functions; types only matter to it through non-nullness. */
module Execution {
  import opened Paths

  /** The Go value given to a marshal function. The items of a list have contexts of their own,
      unless the list is one of scalars: those all share the context of the field. */
  datatype Answer =
    | Nil                                        // a nil pointer, or a scalar that marshals to null
    | NilImplementor                             // an interface value holding a nil pointer
    | Leaf(text: string)
    | ScalarList(scalarsNonNull: bool, scalars: seq<Item>)
    | List(itemsNonNull: bool, items: seq<Answer>)
    | Object(fields: seq<FieldPlan>)

  /** An item of a list of scalars. */
  datatype Item = NullItem | TextItem(text: string) | ItemList(itemsNonNull: bool, items: seq<Item>)

  /** A resolver first reports any number of errors itself, then fails, or answers nothing at all
      (a nil interface), or answers a value. A field also fails if an argument cannot be decoded;
      then the error has a path that goes on `below` that of the field, to the place in the input. */
  datatype Outcome = Failed(below: Path) | Nothing | Answered(answer: Answer)

  /** A collected field: whether its type is non-null, whether it is executed concurrently. */
  datatype FieldPlan =
    FieldPlan(alias: string, nonNull: bool, concurrent: bool, reports: nat, outcome: Outcome)

  /** The marshalled data. */
  datatype Data = Null | Scalar(text: string) | Array(items: seq<Data>) | Record(slots: seq<(string, Data)>)

  datatype Reason = Reported(i: nat) | ResolverFailed | MustNotBeNull

  datatype Error = Error(path: Path, reason: Reason)

  // --- Hypothesis: aliases are distinct within each object ---

  predicate DistinctAliases(fields: seq<FieldPlan>) {
    forall i, j :: 0 <= i < j < |fields| ==> fields[i].alias != fields[j].alias
  }

  predicate Proper(a: Answer)
    decreases a
  {
    match a
    case List(_, items) => forall i :: 0 <= i < |items| ==> Proper(items[i])
    case Object(fields) => DistinctAliases(fields) && forall i :: 0 <= i < |fields| ==> ProperField(fields[i])
    case _ => true
  }

  predicate ProperField(f: FieldPlan)
    decreases f
  {
    f.outcome.Answered? ==> Proper(f.outcome.answer)
  }

  // --- The data ---

  function DataOf(a: Answer): Data
    decreases a
  {
    match a
    case Nil => Null
    case NilImplementor => Null
    case Leaf(text) => Scalar(text)
    case ScalarList(_, scalars) => Array(DataOfItems(scalars))
    case List(_, items) => Array(seq(|items|, i requires 0 <= i < |items| => DataOf(items[i])))
    case Object(fields) =>
      Assemble(fields, seq(|fields|, i requires 0 <= i < |fields| => DataOfField(fields[i])))
  }

  function DataOfItem(s: Item): Data
    decreases s
  {
    match s
    case NullItem => Null
    case TextItem(text) => Scalar(text)
    case ItemList(_, items) => Array(DataOfItems(items))
  }

  function DataOfItems(items: seq<Item>): seq<Data>
    decreases items
  {
    seq(|items|, i requires 0 <= i < |items| => DataOfItem(items[i]))
  }

  function DataOfField(f: FieldPlan): Data
    decreases f
  {
    if f.outcome.Answered? then DataOf(f.outcome.answer) else Null
  }

  /** A field counts as invalid if it is declared non-null and came out null. */
  predicate Invalid(f: FieldPlan, d: Data) {
    f.nonNull && d == Null
  }

  /** One invalid field turns the whole object into null. */
  function Assemble(fields: seq<FieldPlan>, values: seq<Data>): Data
    requires |fields| == |values|
  {
    if exists i :: 0 <= i < |fields| && Invalid(fields[i], values[i]) then Null
    else Record(seq(|fields|, i requires 0 <= i < |fields| => (fields[i].alias, values[i])))
  }

  // --- The errors ---

  /** How many nulls there are at non-null places in an item of a list of scalars. */
  function MissingIn(s: Item, nonNull: bool): nat
    decreases s
  {
    match s
    case NullItem => if nonNull then 1 else 0
    case TextItem(_) => 0
    case ItemList(itemsNonNull, items) => MissingAmong(items, itemsNonNull)
  }

  function MissingAmong(items: seq<Item>, nonNull: bool): nat
    decreases items
  {
    if items == [] then 0 else MissingIn(items[0], nonNull) + MissingAmong(items[1..], nonNull)
  }

  function Sum(parts: seq<multiset<Error>>): multiset<Error> {
    if parts == [] then multiset{} else parts[0] + Sum(parts[1..])
  }

  /** The errors a resolver reports itself, from the `from`-th on. */
  function Reports(p: Path, from: nat, to: nat): multiset<Error>
    decreases to - from
  {
    if from >= to then multiset{} else multiset{Error(p, Reported(from))} + Reports(p, from + 1, to)
  }

  lemma {:induction false} ReportsAre(p: Path, from: nat, to: nat, e: Error)
    ensures Reports(p, from, to)[e] == (if e.path == p && e.reason.Reported? && from <= e.reason.i < to then 1 else 0)
    decreases if from < to then to - from else 0
  {
    if from < to {
      ReportsAre(p, from + 1, to, e);
    }
  }

  /** "must not be null", unless the position has an error already. */
  function NullError(p: Path, nonNull: bool, reported: bool): multiset<Error> {
    if nonNull && !reported then multiset{Error(p, MustNotBeNull)} else multiset{}
  }

  /** Errors of marshalling `a` at `p`. However many items of a list of scalars are missing, there
      is one error, at the path of the list: the next item finds that of the first. `reported` tells
      whether an error has that very path already. */
  function ErrorsOf(a: Answer, p: Path, nonNull: bool, reported: bool): multiset<Error>
    decreases a
  {
    match a
    case Nil => NullError(p, nonNull, reported)
    case NilImplementor => multiset{}
    case Leaf(_) => multiset{}
    case ScalarList(scalarsNonNull, scalars) => NullError(p, MissingAmong(scalars, scalarsNonNull) > 0, reported)
    case List(itemsNonNull, items) =>
      Sum(ErrorsOfItems(items, p, itemsNonNull))
    case Object(fields) =>
      Sum(ErrorsOfFields(fields, p))
  }

  function ErrorsOfItems(items: seq<Answer>, p: Path, itemsNonNull: bool): (r: seq<multiset<Error>>)
    ensures |r| == |items|
    decreases items
  {
    seq(|items|, i requires 0 <= i < |items| => ErrorsOf(items[i], p + [Index(i)], itemsNonNull, false))
  }

  function ErrorsOfFields(fields: seq<FieldPlan>, p: Path): (r: seq<multiset<Error>>)
    ensures |r| == |fields|
    decreases fields
  {
    seq(|fields|, i requires 0 <= i < |fields| => ErrorsOfField(fields[i], p + [Name(fields[i].alias)]))
  }

  function ErrorsOfField(f: FieldPlan, p: Path): multiset<Error>
    decreases f
  {
    Reports(p, 0, f.reports) + ErrorsOfOutcome(f, p)
  }

  function ErrorsOfOutcome(f: FieldPlan, p: Path): multiset<Error>
    decreases f, 0
  {
    match f.outcome
    case Failed(below) => multiset{Error(p + below, ResolverFailed)}
    case Nothing => NullError(p, f.nonNull, f.reports > 0)
    case Answered(a) => ErrorsOf(a, p, f.nonNull, f.reports > 0)
  }

  // --- Sums ---

  lemma {:induction false} SumUpdate(parts: seq<multiset<Error>>, i: nat, m: multiset<Error>)
    requires i < |parts|
    ensures Sum(parts[i := m]) + parts[i] == Sum(parts) + m
    decreases |parts|
  {
    if i == 0 {
      assert parts[i := m][1..] == parts[1..];
    } else {
      var rest := parts[1..];
      SumUpdate(rest, i - 1, m);
      assert parts[i := m][1..] == rest[i - 1 := m];
      assert (parts[0] + Sum(rest[i - 1 := m])) + rest[i - 1] == parts[0] + (Sum(rest[i - 1 := m]) + rest[i - 1]);
      assert (parts[0] + Sum(rest)) + m == parts[0] + (Sum(rest) + m);
    }
  }

  lemma {:induction false} SumEmpty(parts: seq<multiset<Error>>)
    requires forall i :: 0 <= i < |parts| ==> parts[i] == multiset{}
    ensures Sum(parts) == multiset{}
    decreases |parts|
  {
    if parts != [] {
      SumEmpty(parts[1..]);
    }
  }

  lemma {:induction false} SumAppend(a: seq<multiset<Error>>, b: seq<multiset<Error>>)
    ensures Sum(a + b) == Sum(a) + Sum(b)
    decreases |a|
  {
    if a == [] {
      assert a + b == b;
    } else {
      assert (a + b)[0] == a[0] && (a + b)[1..] == a[1..] + b;
      SumAppend(a[1..], b);
    }
  }

  lemma {:induction false} SumContains(parts: seq<multiset<Error>>, e: Error)
    ensures e in Sum(parts) <==> exists i :: 0 <= i < |parts| && e in parts[i]
    decreases |parts|
  {
    if parts != [] {
      SumContains(parts[1..], e);
      if e in parts[0] {
      } else if i :| 0 <= i < |parts| && e in parts[i] {
        assert parts[1..][i - 1] == parts[i];
      }
    }
  }
}
