/** Null bubbling, and which errors account for which nulls. */
module ExecutionLaws {
  import opened Paths
  import opened Execution

  // --- Null bubbling ---

  /** `d` is a possible response for `a`: at any depth, an object is null or holds one value per
      field, under its alias and in order, with no null at a field declared non-null. */
  ghost predicate WellNulled(a: Answer, d: Data)
    decreases a
  {
    match a
    case Nil => d == Null
    case NilImplementor => d == Null
    case Leaf(text) => d == Scalar(text)
    case ScalarList(_, scalars) => d.Array? && ItemsShown(scalars, d.items)
    case List(_, items) =>
      d.Array? && |d.items| == |items| && forall i :: 0 <= i < |items| ==> WellNulled(items[i], d.items[i])
    case Object(fields) =>
      d == Null
      || (d.Record? && |d.slots| == |fields|
          && forall i :: 0 <= i < |fields| ==>
               && d.slots[i].0 == fields[i].alias
               && !(fields[i].nonNull && d.slots[i].1 == Null)
               && WellNulledField(fields[i], d.slots[i].1))
  }

  ghost predicate WellNulledField(f: FieldPlan, d: Data)
    decreases f
  {
    if f.outcome.Answered? then WellNulled(f.outcome.answer, d) else d == Null
  }

  /** An item of a list of scalars as it stands in the data: null, the text, or a list of as many. */
  ghost predicate ItemShown(s: Item, d: Data)
    decreases s
  {
    match s
    case NullItem => d == Null
    case TextItem(text) => d == Scalar(text)
    case ItemList(_, items) => d.Array? && ItemsShown(items, d.items)
  }

  ghost predicate ItemsShown(items: seq<Item>, shown: seq<Data>)
    decreases items
  {
    |shown| == |items| && forall i :: 0 <= i < |items| ==> ItemShown(items[i], shown[i])
  }

  lemma {:induction false} ItemsAreShown(items: seq<Item>)
    ensures ItemsShown(items, DataOfItems(items))
    decreases items
  {
    forall i | 0 <= i < |items| ensures ItemShown(items[i], DataOfItem(items[i])) {
      if items[i].ItemList? {
        ItemsAreShown(items[i].items);
      }
    }
  }

  /** No object of the response holds null at a non-null field. (List items may be null whatever
      their type: lists are not nulled.) */
  lemma {:induction false} NoNullAtNonNull(a: Answer)
    ensures WellNulled(a, DataOf(a))
    decreases a
  {
    match a
    case ScalarList(_, scalars) => ItemsAreShown(scalars);
    case List(_, items) =>
      forall i | 0 <= i < |items| ensures WellNulled(items[i], DataOf(items[i])) {
        NoNullAtNonNull(items[i]);
      }
    case Object(fields) =>
      forall i | 0 <= i < |fields| ensures WellNulledField(fields[i], DataOfField(fields[i])) {
        NoNullAtNonNullField(fields[i]);
      }
    case _ =>
  }

  lemma {:induction false} NoNullAtNonNullField(f: FieldPlan)
    ensures WellNulledField(f, DataOfField(f))
    decreases f
  {
    if f.outcome.Answered? {
      NoNullAtNonNull(f.outcome.answer);
    }
  }

  /** Down a way of non-null fields, one after the other, there is a value missing. */
  ghost predicate MissingBelow(a: Answer, way: seq<nat>)
    decreases |way|
  {
    if way == [] then a.Nil? || a.NilImplementor?
    else
      && a.Object? && way[0] < |a.fields| && a.fields[way[0]].nonNull
      && var outcome := a.fields[way[0]].outcome;
         if outcome.Answered? then MissingBelow(outcome.answer, way[1..]) else way[1..] == []
  }

  ghost predicate Missing(a: Answer) {
    exists way :: MissingBelow(a, way)
  }

  lemma {:induction false} MissingMeansNull(a: Answer, way: seq<nat>)
    requires MissingBelow(a, way)
    ensures DataOf(a) == Null
    decreases |way|
  {
    if way != [] {
      var f := a.fields[way[0]];
      if f.outcome.Answered? {
        MissingMeansNull(f.outcome.answer, way[1..]);
      }
      assert Invalid(f, DataOfField(f));
    }
  }

  lemma {:induction false} NullMeansMissing(a: Answer) returns (way: seq<nat>)
    requires DataOf(a) == Null
    ensures MissingBelow(a, way)
    decreases a
  {
    way := [];
    if a.Object? {
      var i :| 0 <= i < |a.fields| && Invalid(a.fields[i], DataOfField(a.fields[i]));
      var rest := [];
      if a.fields[i].outcome.Answered? {
        rest := NullMeansMissing(a.fields[i].outcome.answer);
      }
      way := [i] + rest;
      assert way[1..] == rest;
    }
  }

  /** Nulls are not made up: the data is null if and only if a value is missing at a position
      from which non-null fields lead all the way up. */
  lemma {:induction false} NullExactlyIfMissing(a: Answer)
    ensures DataOf(a) == Null <==> Missing(a)
  {
    if DataOf(a) == Null {
      var way := NullMeansMissing(a);
    }
    if Missing(a) {
      var way :| MissingBelow(a, way);
      MissingMeansNull(a, way);
    }
  }

  // --- Which nulls have errors ---

  /** What path a null item of a list of scalars goes by: its own, or that of the list, where the
      source reports it. */
  datatype Place = Own | OfTheList

  /** Executing `a` at `p` puts a null at the non-null position `q`. */
  ghost predicate NullAt(a: Answer, p: Path, nonNull: bool, q: Path, place: Place)
    decreases a
  {
    || (q == p && nonNull && DataOf(a) == Null)
    || match a
       case ScalarList(scalarsNonNull, scalars) =>
         if place.Own? then NullAmong(scalars, p, scalarsNonNull, q)
         else q == p && exists way :: NullAmong(scalars, p, scalarsNonNull, way)
       case List(itemsNonNull, items) =>
         exists i :: 0 <= i < |items| && NullAt(items[i], p + [Index(i)], itemsNonNull, q, place)
       case Object(fields) =>
         exists i :: 0 <= i < |fields| && NullAtField(fields[i], p + [Name(fields[i].alias)], q, place)
       case _ => false
  }

  ghost predicate NullAtField(f: FieldPlan, p: Path, q: Path, place: Place)
    decreases f
  {
    || (q == p && f.nonNull && DataOfField(f) == Null)
    || (f.outcome.Answered? && NullAt(f.outcome.answer, p, f.nonNull, q, place))
  }

  /** The data of an item of a list of scalars has a null at the non-null place `q`. */
  ghost predicate NullIn(s: Item, p: Path, nonNull: bool, q: Path)
    decreases s
  {
    match s
    case NullItem => nonNull && q == p
    case TextItem(_) => false
    case ItemList(itemsNonNull, items) => NullAmong(items, p, itemsNonNull, q)
  }

  ghost predicate NullAmong(items: seq<Item>, p: Path, nonNull: bool, q: Path)
    decreases items
  {
    exists i :: 0 <= i < |items| && NullIn(items[i], p + [Index(i)], nonNull, q)
  }

  /** Some error lies at or under `q`. */
  ghost predicate Accounted(errors: multiset<Error>, q: Path) {
    exists e :: e in errors && q <= e.path
  }

  /** The ways to a null without an error of its own: an interface value holding a nil pointer, at
      a non-null position that has no error; and a missing item of a list of scalars, if errors are
      looked for at the path of the item. */
  predicate Silent(a: Answer, nonNull: bool, reported: bool, place: Place)
    decreases a
  {
    match a
    case NilImplementor => nonNull && !reported
    case ScalarList(scalarsNonNull, scalars) => place.Own? && MissingAmong(scalars, scalarsNonNull) > 0
    case List(itemsNonNull, items) =>
      exists i :: 0 <= i < |items| && Silent(items[i], itemsNonNull, false, place)
    case Object(fields) => exists i :: 0 <= i < |fields| && SilentField(fields[i], place)
    case _ => false
  }

  predicate SilentField(f: FieldPlan, place: Place)
    decreases f
  {
    f.outcome.Answered? && Silent(f.outcome.answer, f.nonNull, f.reports > 0, place)
  }

  // --- Missing items of lists of scalars ---

  lemma {:induction false} MissingOne(items: seq<Item>, nonNull: bool, i: nat)
    requires i < |items| && MissingIn(items[i], nonNull) > 0
    ensures MissingAmong(items, nonNull) > 0
    decreases |items|
  {
    if i > 0 {
      MissingOne(items[1..], nonNull, i - 1);
    }
  }

  lemma {:induction false} OneMissing(items: seq<Item>, nonNull: bool) returns (i: nat)
    requires MissingAmong(items, nonNull) > 0
    ensures i < |items| && MissingIn(items[i], nonNull) > 0
    decreases |items|
  {
    i := 0;
    if MissingIn(items[0], nonNull) == 0 {
      var j := OneMissing(items[1..], nonNull);
      i := j + 1;
    }
  }

  lemma {:induction false} NullIsMissing(items: seq<Item>, p: Path, nonNull: bool, q: Path)
    requires NullAmong(items, p, nonNull, q)
    ensures MissingAmong(items, nonNull) > 0
    decreases items
  {
    var i :| 0 <= i < |items| && NullIn(items[i], p + [Index(i)], nonNull, q);
    if items[i].ItemList? {
      NullIsMissing(items[i].items, p + [Index(i)], items[i].itemsNonNull, q);
    }
    MissingOne(items, nonNull, i);
  }

  /** A missing item is a null strictly below the list. */
  lemma {:induction false} MissingIsNull(items: seq<Item>, p: Path, nonNull: bool) returns (q: Path)
    requires MissingAmong(items, nonNull) > 0
    ensures NullAmong(items, p, nonNull, q) && p <= q && |p| < |q|
    decreases items
  {
    var i := OneMissing(items, nonNull);
    q := p + [Index(i)];
    if items[i].ItemList? {
      q := MissingIsNull(items[i].items, p + [Index(i)], items[i].itemsNonNull);
    }
    BeneathIsPrefix(p, Index(i), q);
    assert NullIn(items[i], p + [Index(i)], nonNull, q);
  }

  lemma {:induction false} ErrorsBeneath(a: Answer, p: Path, nonNull: bool, reported: bool, e: Error)
    requires e in ErrorsOf(a, p, nonNull, reported)
    ensures p <= e.path
    decreases a
  {
    match a
    case List(itemsNonNull, items) =>
      var parts := ErrorsOfItems(items, p, itemsNonNull);
      SumContains(parts, e);
      var i :| 0 <= i < |parts| && e in parts[i];
      ErrorsBeneath(items[i], p + [Index(i)], itemsNonNull, false, e);
      BeneathIsPrefix(p, Index(i), e.path);
    case Object(fields) =>
      var parts := ErrorsOfFields(fields, p);
      SumContains(parts, e);
      var i :| 0 <= i < |parts| && e in parts[i];
      ErrorsBeneathField(fields[i], p + [Name(fields[i].alias)], e);
      BeneathIsPrefix(p, Name(fields[i].alias), e.path);
    case _ =>
  }

  lemma {:induction false} ErrorsBeneathField(f: FieldPlan, p: Path, e: Error)
    requires e in ErrorsOfField(f, p)
    ensures p <= e.path
    decreases f
  {
    if e in Reports(p, 0, f.reports) {
      ReportsAre(p, 0, f.reports, e);
    } else if f.outcome.Answered? {
      ErrorsBeneath(f.outcome.answer, p, f.nonNull, f.reports > 0, e);
    }
  }

  // --- Every null is accounted for, unless an answer is silent ---

  /** A null of `a` itself, at `p`, has an error under `p` (or had one before). */
  lemma {:induction false} OwnNullAccounted(a: Answer, p: Path, nonNull: bool, reported: bool, place: Place)
    requires !Silent(a, nonNull, reported, place) && nonNull && DataOf(a) == Null
    ensures reported || Accounted(ErrorsOf(a, p, nonNull, reported), p)
    decreases a
  {
    match a
    case Nil =>
      if !reported {
        assert Error(p, MustNotBeNull) in ErrorsOf(a, p, nonNull, reported);
      }
    case Object(fields) =>
      var i :| 0 <= i < |fields| && Invalid(fields[i], DataOfField(fields[i]));
      OwnNullAccountedField(fields[i], p + [Name(fields[i].alias)], place);
      FieldsAccounted(fields, p, i, p + [Name(fields[i].alias)], nonNull, reported);
      AccountedShorter(ErrorsOf(a, p, nonNull, reported), p, Name(fields[i].alias));
    case _ =>
  }

  lemma {:induction false} AccountedShorter(errors: multiset<Error>, p: Path, x: Element)
    requires Accounted(errors, p + [x])
    ensures Accounted(errors, p)
  {
    var e :| e in errors && p + [x] <= e.path;
    BeneathIsPrefix(p, x, e.path);
  }

  lemma {:induction false} FieldsAccounted(fields: seq<FieldPlan>, p: Path, i: nat, q: Path, nonNull: bool,
                                           reported: bool)
    requires i < |fields| && Accounted(ErrorsOfField(fields[i], p + [Name(fields[i].alias)]), q)
    ensures Accounted(ErrorsOf(Object(fields), p, nonNull, reported), q)
  {
    var parts := ErrorsOfFields(fields, p);
    var e: Error :| e in parts[i] && q <= e.path;
    SumContains(parts, e);
  }

  lemma {:induction false} ItemsAccounted(itemsNonNull: bool, items: seq<Answer>, p: Path, i: nat, q: Path,
                                          nonNull: bool, reported: bool)
    requires i < |items| && Accounted(ErrorsOf(items[i], p + [Index(i)], itemsNonNull, false), q)
    ensures Accounted(ErrorsOf(List(itemsNonNull, items), p, nonNull, reported), q)
  {
    var parts := ErrorsOfItems(items, p, itemsNonNull);
    var e: Error :| e in parts[i] && q <= e.path;
    SumContains(parts, e);
  }

  lemma {:induction false} OwnNullAccountedField(f: FieldPlan, p: Path, place: Place)
    requires !SilentField(f, place) && f.nonNull && DataOfField(f) == Null
    ensures Accounted(ErrorsOfField(f, p), p)
    decreases f
  {
    if f.reports > 0 {
      ReportsAre(p, 0, f.reports, Error(p, Reported(0)));
      assert Error(p, Reported(0)) in ErrorsOfField(f, p);
    } else {
      match f.outcome
      case Failed(below) => assert Error(p + below, ResolverFailed) in ErrorsOfField(f, p);
      case Nothing => assert Error(p, MustNotBeNull) in ErrorsOfField(f, p);
      case Answered(a) =>
        OwnNullAccounted(a, p, f.nonNull, false, place);
        var e :| e in ErrorsOf(a, p, f.nonNull, false) && p <= e.path;
        assert e in ErrorsOfField(f, p);
    }
  }

  lemma {:induction false} NullsAccounted(a: Answer, p: Path, nonNull: bool, reported: bool, q: Path, place: Place)
    requires !Silent(a, nonNull, reported, place) && NullAt(a, p, nonNull, q, place)
    ensures (reported && q == p) || Accounted(ErrorsOf(a, p, nonNull, reported), q)
    decreases a
  {
    if q == p && nonNull && DataOf(a) == Null {
      OwnNullAccounted(a, p, nonNull, reported, place);
    } else {
      match a
      case ScalarList(scalarsNonNull, scalars) =>
        var way :| NullAmong(scalars, p, scalarsNonNull, way);
        NullIsMissing(scalars, p, scalarsNonNull, way);
        if !reported {
          assert Error(p, MustNotBeNull) in ErrorsOf(a, p, nonNull, reported);
        }
      case List(itemsNonNull, items) =>
        var i :| 0 <= i < |items| && NullAt(items[i], p + [Index(i)], itemsNonNull, q, place);
        NullsAccounted(items[i], p + [Index(i)], itemsNonNull, false, q, place);
        ItemsAccounted(itemsNonNull, items, p, i, q, nonNull, reported);
      case Object(fields) =>
        var i :| 0 <= i < |fields| && NullAtField(fields[i], p + [Name(fields[i].alias)], q, place);
        NullsAccountedField(fields[i], p + [Name(fields[i].alias)], q, place);
        FieldsAccounted(fields, p, i, q, nonNull, reported);
    }
  }

  lemma {:induction false} NullsAccountedField(f: FieldPlan, p: Path, q: Path, place: Place)
    requires !SilentField(f, place) && NullAtField(f, p, q, place)
    ensures Accounted(ErrorsOfField(f, p), q)
    decreases f
  {
    if q == p && f.nonNull && DataOfField(f) == Null {
      OwnNullAccountedField(f, p, place);
    } else {
      NullsAccounted(f.outcome.answer, p, f.nonNull, f.reports > 0, q, place);
      if f.reports > 0 && q == p {
        ReportsAre(p, 0, f.reports, Error(p, Reported(0)));
        assert Error(p, Reported(0)) in ErrorsOfField(f, p);
      } else {
        var e :| e in ErrorsOf(f.outcome.answer, p, f.nonNull, f.reports > 0) && q <= e.path;
        assert e in ErrorsOfField(f, p);
      }
    }
  }

  /** An error under one child of `p` is not under another. */
  lemma {:induction false} OnlyThatField(fields: seq<FieldPlan>, p: Path, i: nat, q: Path, nonNull: bool,
                                         reported: bool)
    requires i < |fields| && DistinctAliases(fields) && p + [Name(fields[i].alias)] <= q
    requires Accounted(ErrorsOf(Object(fields), p, nonNull, reported), q)
    ensures Accounted(ErrorsOfField(fields[i], p + [Name(fields[i].alias)]), q)
  {
    var parts := ErrorsOfFields(fields, p);
    var e :| e in Sum(parts) && q <= e.path;
    SumContains(parts, e);
    var j :| 0 <= j < |parts| && e in parts[j];
    ErrorsBeneathField(fields[j], p + [Name(fields[j].alias)], e);
    SiblingsAreApart(p, Name(fields[i].alias), Name(fields[j].alias), e.path);
  }

  lemma {:induction false} OnlyThatItem(itemsNonNull: bool, items: seq<Answer>, p: Path, i: nat, q: Path,
                                        nonNull: bool, reported: bool)
    requires i < |items| && p + [Index(i)] <= q
    requires Accounted(ErrorsOf(List(itemsNonNull, items), p, nonNull, reported), q)
    ensures Accounted(ErrorsOf(items[i], p + [Index(i)], itemsNonNull, false), q)
  {
    var parts := ErrorsOfItems(items, p, itemsNonNull);
    var e :| e in Sum(parts) && q <= e.path;
    SumContains(parts, e);
    var j :| 0 <= j < |parts| && e in parts[j];
    ErrorsBeneath(items[j], p + [Index(j)], itemsNonNull, false, e);
    SiblingsAreApart(p, Index(i), Index(j), e.path);
  }

  /** A silent answer leaves a null unaccounted for. */
  lemma {:induction false} SilentNull(a: Answer, p: Path, nonNull: bool, reported: bool, place: Place) returns (q: Path)
    requires Proper(a) && Silent(a, nonNull, reported, place)
    ensures p <= q && NullAt(a, p, nonNull, q, place) && !Accounted(ErrorsOf(a, p, nonNull, reported), q)
    ensures q == p ==> !reported
    decreases a
  {
    match a
    case NilImplementor => q := p;
    case ScalarList(scalarsNonNull, scalars) => q := MissingIsNull(scalars, p, scalarsNonNull);
    case List(itemsNonNull, items) =>
      var i :| 0 <= i < |items| && Silent(items[i], itemsNonNull, false, place);
      q := SilentNull(items[i], p + [Index(i)], itemsNonNull, false, place);
      BeneathIsPrefix(p, Index(i), q);
      if Accounted(ErrorsOf(a, p, nonNull, reported), q) {
        OnlyThatItem(itemsNonNull, items, p, i, q, nonNull, reported);
      }
    case Object(fields) =>
      var i :| 0 <= i < |fields| && SilentField(fields[i], place);
      q := SilentNullField(fields[i], p + [Name(fields[i].alias)], place);
      BeneathIsPrefix(p, Name(fields[i].alias), q);
      if Accounted(ErrorsOf(a, p, nonNull, reported), q) {
        OnlyThatField(fields, p, i, q, nonNull, reported);
      }
  }

  lemma {:induction false} SilentNullField(f: FieldPlan, p: Path, place: Place) returns (q: Path)
    requires ProperField(f) && SilentField(f, place)
    ensures p <= q && NullAtField(f, p, q, place) && !Accounted(ErrorsOfField(f, p), q)
    decreases f
  {
    q := SilentNull(f.outcome.answer, p, f.nonNull, f.reports > 0, place);
    if Accounted(ErrorsOfField(f, p), q) {
      var e :| e in ErrorsOfField(f, p) && q <= e.path;
      ReportsAre(p, 0, f.reports, e);
    }
  }

  lemma {:induction false} AccountedUnlessSilent(a: Answer, place: Place)
    requires Proper(a)
    ensures (forall q :: NullAt(a, [], false, q, place) ==> Accounted(ErrorsOf(a, [], false, false), q))
            <==> !Silent(a, false, false, place)
  {
    if Silent(a, false, false, place) {
      var q := SilentNull(a, [], false, false, place);
    } else {
      forall q | NullAt(a, [], false, q, place) ensures Accounted(ErrorsOf(a, [], false, false), q) {
        NullsAccounted(a, [], false, false, q, place);
      }
    }
  }

  /** Every null at a non-null position, fields and list items alike, has an error at or under its
      path, if and only if no interface value holding a nil pointer is at a non-null position
      without error, and no item of a list of scalars is null at a non-null place. If the items of
      lists of scalars go by the path of the list, the former alone matters. */
  lemma {:induction false} EveryNullHasAnErrorUnlessSilent(a: Answer)
    requires Proper(a)
    ensures (forall q :: NullAt(a, [], false, q, Own) ==> Accounted(ErrorsOf(a, [], false, false), q))
            <==> !Silent(a, false, false, Own)
    ensures (forall q :: NullAt(a, [], false, q, OfTheList) ==> Accounted(ErrorsOf(a, [], false, false), q))
            <==> !Silent(a, false, false, OfTheList)
  {
    AccountedUnlessSilent(a, Own);
    AccountedUnlessSilent(a, OfTheList);
  }

  lemma {:induction false} TooShort(p: Path, reason: Reason, q: Path)
    requires |p| < |q|
    ensures !Accounted(multiset{Error(p, reason)}, q)
  {
  }

  lemma {:induction false} OfOneField(f: FieldPlan)
    ensures ErrorsOf(Object([f]), [], false, false) == ErrorsOfField(f, [Name(f.alias)])
  {
    var parts := ErrorsOfFields([f], []);
    assert [] + [Name(f.alias)] == [Name(f.alias)];
    assert parts[0] == ErrorsOfField(f, [] + [Name(f.alias)]) && parts[1..] == [];
    assert Sum(parts[1..]) == multiset{} && Sum(parts) == parts[0];
    assert ErrorsOf(Object([f]), [], false, false) == Sum(parts);
  }

  /** A list of non-null scalars with two nulls. */
  const TAGS := FieldPlan("tags", true, true, 0, Answered(ScalarList(true, [NullItem, NullItem])))

  lemma {:induction false} TagsErrors()
    ensures ErrorsOf(Object([TAGS]), [], false, false) == multiset{Error([Name("tags")], MustNotBeNull)}
  {
    OfOneField(TAGS);
    MissingOne([NullItem, NullItem], true, 0);
  }

  lemma {:induction false} TagsNulls(i: nat)
    requires i < 2
    ensures NullAt(Object([TAGS]), [], false, [Name("tags"), Index(i)], Own)
  {
    var nulls, p, q := [NullItem, NullItem], [Name("tags")], [Name("tags"), Index(i)];
    assert p + [Index(i)] == q && [] + p == p;
    assert NullIn(nulls[i], p + [Index(i)], true, q);
    assert NullAtField([TAGS][0], [] + p, q, Own);
  }

  /** Two nulls in a list of non-null scalars: one error, at the path of the list, and none at or
      under the path of either null. */
  lemma {:induction false} AListHidesItsNulls()
    ensures Proper(Object([TAGS]))
    ensures DataOf(Object([TAGS])) == Record([("tags", Array([Null, Null]))])
    ensures ErrorsOf(Object([TAGS]), [], false, false) == multiset{Error([Name("tags")], MustNotBeNull)}
    ensures forall i: nat :: i < 2 ==>
              && NullAt(Object([TAGS]), [], false, [Name("tags"), Index(i)], Own)
              && !Accounted(ErrorsOf(Object([TAGS]), [], false, false), [Name("tags"), Index(i)])
  {
    assert DataOfItems([NullItem, NullItem]) == [Null, Null];
    TagsErrors();
    forall i: nat | i < 2
      ensures NullAt(Object([TAGS]), [], false, [Name("tags"), Index(i)], Own)
      ensures !Accounted(multiset{Error([Name("tags")], MustNotBeNull)}, [Name("tags"), Index(i)])
    {
      TagsNulls(i);
      TooShort([Name("tags")], MustNotBeNull, [Name("tags"), Index(i)]);
    }
  }

  // --- No error is recorded twice ---

  /** Each error once; and "must not be null" only where there is no other error. */
  ghost predicate Singular(errors: multiset<Error>) {
    && (forall e :: errors[e] <= 1)
    && (forall e, e' :: e in errors && e' in errors && e.path == e'.path && e.reason == MustNotBeNull ==> e' == e)
  }

  lemma {:induction false} SumSingular(parts: seq<multiset<Error>>, p: Path, xs: seq<Element>)
    requires |parts| == |xs| && forall i, j :: 0 <= i < j < |xs| ==> xs[i] != xs[j]
    requires forall i :: 0 <= i < |parts| ==> Singular(parts[i])
    requires forall i, e :: 0 <= i < |parts| && e in parts[i] ==> p + [xs[i]] <= e.path
    ensures Singular(Sum(parts))
    ensures forall e :: e in Sum(parts) ==> e.path != p
    decreases |parts|
  {
    if parts != [] {
      forall i | 0 <= i < |parts| - 1
        ensures Singular(parts[1..][i]) && parts[1..][i] == parts[i + 1] && xs[1..][i] == xs[i + 1]
      {
      }
      SumSingular(parts[1..], p, xs[1..]);
      forall e, e' | e in parts[0] && e' in Sum(parts[1..]) ensures e.path != e'.path {
        SumContains(parts[1..], e');
        var i :| 0 <= i < |parts| - 1 && e' in parts[1..][i];
        assert e' in parts[i + 1];
        if e.path == e'.path {
          SiblingsAreApart(p, xs[0], xs[i + 1], e.path);
        }
      }
      forall e | e in parts[0] ensures e.path != p {
        BeneathIsPrefix(p, xs[0], e.path);
      }
    }
  }

  lemma {:induction false} ErrorsSingular(a: Answer, p: Path, nonNull: bool, reported: bool)
    requires Proper(a)
    ensures Singular(ErrorsOf(a, p, nonNull, reported))
    ensures reported ==> forall e :: e in ErrorsOf(a, p, nonNull, reported) ==> e.path != p
    ensures forall e :: e in ErrorsOf(a, p, nonNull, reported) && e.path == p ==> e.reason == MustNotBeNull
    decreases a
  {
    match a
    case List(itemsNonNull, items) =>
      var parts := ErrorsOfItems(items, p, itemsNonNull);
      forall i | 0 <= i < |items| ensures Singular(parts[i]) {
        ErrorsSingular(items[i], p + [Index(i)], itemsNonNull, false);
      }
      forall i, e: Error | 0 <= i < |parts| && e in parts[i] ensures p + [Index(i)] <= e.path {
        ErrorsBeneath(items[i], p + [Index(i)], itemsNonNull, false, e);
      }
      SumSingular(parts, p, seq(|items|, i requires 0 <= i < |items| => Index(i)));
    case Object(fields) =>
      var parts := ErrorsOfFields(fields, p);
      forall i | 0 <= i < |fields| ensures Singular(parts[i]) {
        ErrorsSingularField(fields[i], p + [Name(fields[i].alias)]);
      }
      forall i, e: Error | 0 <= i < |parts| && e in parts[i] ensures p + [Name(fields[i].alias)] <= e.path {
        ErrorsBeneathField(fields[i], p + [Name(fields[i].alias)], e);
      }
      SumSingular(parts, p, seq(|fields|, i requires 0 <= i < |fields| => Name(fields[i].alias)));
    case _ =>
  }

  lemma {:induction false} ErrorsSingularField(f: FieldPlan, p: Path)
    requires ProperField(f)
    ensures Singular(ErrorsOfField(f, p))
    decreases f, 1
  {
    forall e: Error ensures Reports(p, 0, f.reports)[e] <= 1
      ensures e in Reports(p, 0, f.reports) ==> e.path == p && e.reason.Reported? && f.reports > 0
    {
      ReportsAre(p, 0, f.reports, e);
    }
    OutcomeSingular(f, p);
    TogetherSingular(Reports(p, 0, f.reports), ErrorsOfOutcome(f, p), p, f.reports > 0);
  }

  lemma {:induction false} OutcomeSingular(f: FieldPlan, p: Path)
    requires ProperField(f)
    ensures Singular(ErrorsOfOutcome(f, p))
    ensures forall e :: e in ErrorsOfOutcome(f, p) && e.path == p ==>
              !e.reason.Reported? && (f.reports > 0 ==> e.reason != MustNotBeNull)
    decreases f, 0
  {
    match f.outcome
    case Answered(a) => ErrorsSingular(a, p, f.nonNull, f.reports > 0);
    case _ =>
  }

  /** A resolver's own reports and the errors of its outcome. */
  lemma {:induction false} TogetherSingular(reports: multiset<Error>, rest: multiset<Error>, p: Path, reported: bool)
    requires Singular(rest)
    requires forall e :: reports[e] <= 1
    requires forall e :: e in reports ==> e.path == p && e.reason.Reported? && reported
    requires forall e :: e in rest && e.path == p ==> !e.reason.Reported? && (reported ==> e.reason != MustNotBeNull)
    ensures Singular(reports + rest)
  {
    forall e ensures (reports + rest)[e] <= 1 {
      assert (reports + rest)[e] == reports[e] + rest[e];
    }
  }

  /** No error of an operation is recorded twice, and "must not be null" never beside another
      error of the same path. */
  lemma {:induction false} NoDuplicateErrors(a: Answer)
    requires Proper(a)
    ensures Singular(ErrorsOf(a, [], false, false))
  {
    ErrorsSingular(a, [], false, false);
  }

  /** A silent null: the one non-null field of the root object resolves to an interface value
      holding a nil pointer. The whole response is null, without any error. */
  lemma {:induction false} ASilentNull()
    ensures var a := Object([FieldPlan("shape", true, true, 0, Answered(NilImplementor))]);
            Proper(a) && DataOf(a) == Null && ErrorsOf(a, [], false, false) == multiset{}
  {
    var f := FieldPlan("shape", true, true, 0, Answered(NilImplementor));
    assert Invalid([f][0], DataOfField([f][0]));
    assert ErrorsOfFields([f], []) == [ErrorsOfField(f, [] + [Name("shape")])];
    SumEmpty(ErrorsOfFields([f], []));
  }

  // --- How many errors there are ---

  /** What is counted of a field: its resolver's own reports, its failure, its missing value. */
  datatype Tally = Tally(reports: nat, failures: nat, missing: nat)

  function Plus(a: Tally, b: Tally): Tally {
    Tally(a.reports + b.reports, a.failures + b.failures, a.missing + b.missing)
  }

  function TallyAll(s: seq<Tally>): Tally {
    if s == [] then Tally(0, 0, 0) else Plus(s[0], TallyAll(s[1..]))
  }

  /** Counted over the plan: errors resolvers report, resolvers that fail, and values missing at
      non-null positions whose resolver has not reported an error, a list of scalars counting once. */
  function TallyOf(a: Answer, nonNull: bool, reported: bool): Tally
    decreases a
  {
    match a
    case Nil => Tally(0, 0, if nonNull && !reported then 1 else 0)
    case NilImplementor => Tally(0, 0, 0)
    case Leaf(_) => Tally(0, 0, 0)
    case ScalarList(scalarsNonNull, scalars) =>
      Tally(0, 0, if MissingAmong(scalars, scalarsNonNull) > 0 && !reported then 1 else 0)
    case List(itemsNonNull, items) =>
      TallyAll(seq(|items|, i requires 0 <= i < |items| => TallyOf(items[i], itemsNonNull, false)))
    case Object(fields) =>
      TallyAll(seq(|fields|, i requires 0 <= i < |fields| => TallyOfField(fields[i])))
  }

  function TallyOfField(f: FieldPlan): Tally
    decreases f, 1
  {
    Plus(Tally(f.reports, 0, 0), TallyOfOutcome(f))
  }

  function TallyOfOutcome(f: FieldPlan): Tally
    decreases f, 0
  {
    match f.outcome
    case Failed(_) => Tally(0, 1, 0)
    case Nothing => Tally(0, 0, if f.nonNull && f.reports == 0 then 1 else 0)
    case Answered(a) => TallyOf(a, f.nonNull, f.reports > 0)
  }

  function Total(t: Tally): nat {
    t.reports + t.failures + t.missing
  }

  lemma {:induction false} SumSize(parts: seq<multiset<Error>>, tallies: seq<Tally>)
    requires |parts| == |tallies| && forall i :: 0 <= i < |parts| ==> |parts[i]| == Total(tallies[i])
    ensures |Sum(parts)| == Total(TallyAll(tallies))
    decreases |parts|
  {
    if parts != [] {
      SumSize(parts[1..], tallies[1..]);
    }
  }

  lemma {:induction false} ReportsSize(p: Path, from: nat, to: nat)
    requires from <= to
    ensures |Reports(p, from, to)| == (to - from) as int
    decreases if from < to then to - from else 0
  {
    if from < to {
      ReportsSize(p, from + 1, to);
    }
  }

  /** The number of errors recorded is the number of reports, failures and missing values: there
      is no "must not be null" beside another error, and none for a null that bubbled up. */
  lemma {:induction false} ErrorCount(a: Answer, p: Path, nonNull: bool, reported: bool)
    ensures |ErrorsOf(a, p, nonNull, reported)| == Total(TallyOf(a, nonNull, reported))
    decreases a
  {
    match a
    case List(itemsNonNull, items) =>
      var tallies := seq(|items|, i requires 0 <= i < |items| => TallyOf(items[i], itemsNonNull, false));
      forall i | 0 <= i < |items| ensures |ErrorsOfItems(items, p, itemsNonNull)[i]| == Total(tallies[i]) {
        ErrorCount(items[i], p + [Index(i)], itemsNonNull, false);
      }
      SumSize(ErrorsOfItems(items, p, itemsNonNull), tallies);
    case Object(fields) =>
      var tallies := seq(|fields|, i requires 0 <= i < |fields| => TallyOfField(fields[i]));
      forall i | 0 <= i < |fields| ensures |ErrorsOfFields(fields, p)[i]| == Total(tallies[i]) {
        ErrorCountField(fields[i], p + [Name(fields[i].alias)]);
      }
      SumSize(ErrorsOfFields(fields, p), tallies);
    case _ =>
  }

  lemma {:induction false} ErrorCountField(f: FieldPlan, p: Path)
    ensures |ErrorsOfField(f, p)| == Total(TallyOfField(f))
    decreases f, 1
  {
    ReportsSize(p, 0, f.reports);
    ErrorCountOutcome(f, p);
    TogetherSize(Reports(p, 0, f.reports), ErrorsOfOutcome(f, p));
  }

  lemma {:induction false} ErrorCountOutcome(f: FieldPlan, p: Path)
    ensures |ErrorsOfOutcome(f, p)| == Total(TallyOfOutcome(f))
    decreases f, 0
  {
    match f.outcome
    case Answered(a) => ErrorCount(a, p, f.nonNull, f.reports > 0);
    case _ =>
  }

  lemma {:induction false} TogetherSize(a: multiset<Error>, b: multiset<Error>)
    ensures |a + b| == |a| + |b|
  {
  }
}
