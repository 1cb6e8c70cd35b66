/** The sequential run: the generated executors as loops over one response context, each position
    with the field context the source gives it. */
module Executor {
  import opened Wrappers
  import opened Paths
  import opened Contexts
  import opened Execution
  import opened Sequential
  import Interleaving
  import SequentialLaws

  // --- The response context ---

  class ResponseContext {
    var errors: seq<Error>

    constructor ()
      ensures errors == []
    {
      errors := [];
    }

    /** An error without a path of its own gets that of the context. (The presenter is the default
        one, which leaves errors as they are.) */
    method AddError(ctx: Context, own: Path, reason: Reason)
      requires ValidContext(ctx)
      modifies this
      ensures ValidContext(ctx) && PathIn(ctx) == old(PathIn(ctx))
      ensures errors == old(errors) + [Error(if own == [] then PathIn(ctx) else own, reason)]
    {
      var err := new GqlError(own);
      ErrorOnPath(ctx, err);
      errors := errors + [Error(err.path, reason)];
    }

    /** True iff an error with exactly the path of the field context has been recorded. */
    method HasFieldError(rctx: FieldContext) returns (found: bool)
      requires rctx.Valid()
      ensures found <==> Interleaving.HasFieldError(errors, rctx.PathOf())
    {
      var path := rctx.Path();
      var i := 0;
      while i < |errors|
        invariant 0 <= i <= |errors|
        invariant forall j :: 0 <= j < i ==> errors[j].path != path
      {
        var equal := EqualPath(errors[i].path, path);
        if equal {
          return true;
        }
        i := i + 1;
      }
      return false;
    }

    /** The errors with exactly that path, in the order recorded. */
    method GetFieldErrors(rctx: FieldContext) returns (found: seq<Error>)
      requires rctx.Valid()
      ensures found == WithPath(errors, rctx.PathOf())
    {
      var path := rctx.Path();
      found := [];
      var i := 0;
      while i < |errors|
        invariant 0 <= i <= |errors|
        invariant found == WithPath(errors[..i], path)
      {
        assert errors[..i + 1][..i] == errors[..i];
        var equal := EqualPath(errors[i].path, path);
        if equal {
          found := found + [errors[i]];
        }
        i := i + 1;
      }
      assert errors[..i] == errors;
    }
  }

  function WithPath(errors: seq<Error>, p: Path): seq<Error> {
    if errors == [] then []
    else
      var n := |errors| - 1;
      WithPath(errors[..n], p) + (if errors[n].path == p then [errors[n]] else [])
  }

  /** Every error with that path, as often as it was recorded, and no other. */
  lemma {:induction false} WithPathIsExact(errors: seq<Error>, p: Path, e: Error)
    ensures multiset(WithPath(errors, p))[e] == if e.path == p then multiset(errors)[e] else 0
    ensures WithPath(errors, p) != [] <==> Interleaving.HasFieldError(errors, p)
    decreases |errors|
  {
    if errors != [] {
      var n := |errors| - 1;
      WithPathIsExact(errors[..n], p, e);
      assert errors == errors[..n] + [errors[n]];
      SequentialLaws.StillHas(errors[..n], errors[n], p);
    }
  }

  method EqualPath(a: Path, b: Path) returns (equal: bool)
    ensures equal <==> a == b
  {
    if |a| != |b| {
      return false;
    }
    var i := 0;
    while i < |a|
      invariant 0 <= i <= |a|
      invariant a[..i] == b[..i]
    {
      if a[i] != b[i] {
        return false;
      }
      i := i + 1;
    }
    assert a[..i] == a && b[..i] == b;
    return true;
  }

  // --- The executors ---

  /** The context of the field or item at `p`. */
  ghost predicate At(fc: FieldContext, p: Path)
    reads fc, fc.chain
  {
    fc.Valid() && fc.PathOf() == p
  }

  /** A resolver error, or a complaint, under the field context. */
  method Report(rc: ResponseContext, fc: FieldContext, ghost p: Path, reason: Reason)
    requires At(fc, p)
    modifies rc
    ensures At(fc, p) && rc.errors == old(rc.errors) + [Error(p, reason)]
  {
    assert p + [] == p;
    rc.AddError(Context(fc, null), [], reason);
  }

  /** The error of a field that failed: that of a resolver gets its path now, that of an argument
      has one already. */
  method Fail(rc: ResponseContext, fc: FieldContext, ghost p: Path, below: Path)
    requires At(fc, p)
    modifies rc
    ensures At(fc, p) && rc.errors == old(rc.errors) + [Error(p + below, ResolverFailed)]
  {
    var own := [];
    if below != [] {
      var path := fc.Path();
      own := path + below;
    }
    assert p + [] == p;
    rc.AddError(Context(fc, null), own, ResolverFailed);
  }

  /** A child's context is linked to that of its parent. */
  method Child(parent: FieldContext, ghost p: Path, alias: Option<string>, index: Option<nat>)
    returns (fc: FieldContext)
    requires At(parent, p)
    ensures fresh(fc) && At(parent, p) && At(fc, p + Own(index, alias))
  {
    fc := new FieldContext(alias, index);
    WithFieldContext(parent, fc);
  }

  /** `_Object_field`: call the resolver, record its error or a missing value, or marshal. */
  method ExecuteField(rc: ResponseContext, parent: FieldContext, ghost p: Path, f: FieldPlan) returns (d: Data)
    requires At(parent, p)
    modifies rc
    ensures At(parent, p) && d == DataOfField(f)
    ensures rc.errors == AfterField(old(rc.errors), f, p + [Name(f.alias)])
    decreases f, 2
  {
    var fc := Child(parent, p, Some(f.alias), None);
    ghost var q := p + [Name(f.alias)];
    CallResolver(rc, fc, q, f);
    match f.outcome {
      case Failed(below) =>
        Fail(rc, fc, q, below);
        d := Null;
      case Nothing =>
        if f.nonNull {
          MustNotBeNullAt(rc, fc, q);
        }
        d := Null;
      case Answered(a) =>
        d := Marshal(rc, fc, q, a, f.nonNull);
    }
  }

  /** The resolver, reporting errors as it goes. */
  method CallResolver(rc: ResponseContext, fc: FieldContext, ghost p: Path, f: FieldPlan)
    requires At(fc, p)
    modifies rc
    ensures At(fc, p) && rc.errors == AfterReports(old(rc.errors), p, f.reports)
  {
    var i := 0;
    while i < f.reports
      invariant 0 <= i <= f.reports && At(fc, p)
      invariant rc.errors == AfterReports(old(rc.errors), p, i)
    {
      Report(rc, fc, p, Reported(i));
      i := i + 1;
    }
  }

  /** Complain about a null, unless the field has an error already. */
  method MustNotBeNullAt(rc: ResponseContext, fc: FieldContext, ghost p: Path)
    requires At(fc, p)
    modifies rc
    ensures At(fc, p) && rc.errors == Complained(old(rc.errors), p)
  {
    var found := rc.HasFieldError(fc);
    if !found {
      Report(rc, fc, p, MustNotBeNull);
    }
  }

  /** The `marshal…` functions. */
  method Marshal(rc: ResponseContext, fc: FieldContext, ghost p: Path, a: Answer, nonNull: bool) returns (d: Data)
    requires At(fc, p)
    modifies rc
    ensures At(fc, p) && d == DataOf(a)
    ensures rc.errors == AfterAnswer(old(rc.errors), a, p, nonNull)
    decreases a, 1
  {
    match a {
      case Nil =>
        if nonNull {
          MustNotBeNullAt(rc, fc, p);
        }
        d := Null;
      case NilImplementor =>
        d := Null;
      case Leaf(text) =>
        d := Scalar(text);
      case ScalarList(scalarsNonNull, scalars) =>
        var ret := MarshalScalars(rc, fc, p, scalars, scalarsNonNull);
        d := Array(ret);
      case List(itemsNonNull, items) =>
        var ret := MarshalItems(rc, fc, p, items, itemsNonNull);
        d := Array(ret);
      case Object(fields) =>
        d := ExecuteObject(rc, fc, p, fields);
    }
  }

  /** A list of scalars: its items have no contexts of their own, and null items stay in the list. */
  method MarshalScalars(rc: ResponseContext, fc: FieldContext, ghost p: Path, items: seq<Item>, nonNull: bool)
    returns (ret: seq<Data>)
    requires At(fc, p)
    modifies rc
    ensures At(fc, p) && ret == DataOfItems(items)
    ensures rc.errors == AfterScalars(old(rc.errors), items, p, nonNull, |items|)
    decreases items, 0
  {
    ret := [];
    var i := 0;
    while i < |items|
      invariant 0 <= i <= |items| && |ret| == i && At(fc, p)
      invariant forall j :: 0 <= j < i ==> ret[j] == DataOfItem(items[j])
      invariant rc.errors == AfterScalars(old(rc.errors), items, p, nonNull, i)
    {
      var d := MarshalScalar(rc, fc, p, items[i], nonNull);
      ret := ret + [d];
      i := i + 1;
    }
  }

  method MarshalScalar(rc: ResponseContext, fc: FieldContext, ghost p: Path, s: Item, nonNull: bool) returns (d: Data)
    requires At(fc, p)
    modifies rc
    ensures At(fc, p) && d == DataOfItem(s)
    ensures rc.errors == AfterScalar(old(rc.errors), s, p, nonNull)
    decreases s
  {
    match s {
      case NullItem =>
        if nonNull {
          MustNotBeNullAt(rc, fc, p);
        }
        d := Null;
      case TextItem(text) =>
        d := Scalar(text);
      case ItemList(itemsNonNull, items) =>
        var ret := MarshalScalars(rc, fc, p, items, itemsNonNull);
        d := Array(ret);
    }
  }

  /** Any other list: each item has a context with its index; null items stay in the list. */
  method MarshalItems(rc: ResponseContext, fc: FieldContext, ghost p: Path, items: seq<Answer>, itemsNonNull: bool)
    returns (ret: seq<Data>)
    requires At(fc, p)
    modifies rc
    ensures At(fc, p) && Array(ret) == DataOf(List(itemsNonNull, items))
    ensures rc.errors == AfterItems(old(rc.errors), items, p, itemsNonNull, |items|)
    decreases items, 0
  {
    ret := [];
    var i := 0;
    while i < |items|
      invariant 0 <= i <= |items| && |ret| == i && At(fc, p)
      invariant forall j :: 0 <= j < i ==> ret[j] == DataOf(items[j])
      invariant rc.errors == AfterItems(old(rc.errors), items, p, itemsNonNull, i)
    {
      var d := MarshalItem(rc, fc, p, i, items[i], itemsNonNull);
      ret := ret + [d];
      i := i + 1;
    }
    AllItems(items, itemsNonNull, ret);
  }

  /** `f`, for one item. */
  method MarshalItem(rc: ResponseContext, fc: FieldContext, ghost p: Path, i: nat, a: Answer, nonNull: bool)
    returns (d: Data)
    requires At(fc, p)
    modifies rc
    ensures At(fc, p) && d == DataOf(a)
    ensures rc.errors == AfterAnswer(old(rc.errors), a, p + [Index(i)], nonNull)
    decreases a, 2
  {
    var item := Child(fc, p, None, Some(i));
    d := Marshal(rc, item, p + [Index(i)], a, nonNull);
  }

  lemma {:induction false} AllItems(items: seq<Answer>, itemsNonNull: bool, ret: seq<Data>)
    requires |ret| == |items| && forall i :: 0 <= i < |items| ==> ret[i] == DataOf(items[i])
    ensures Array(ret) == DataOf(List(itemsNonNull, items))
  {
    assert ret == DataOf(List(itemsNonNull, items)).items;
  }

  // --- Objects ---

  /** How many of the fields with these numbers come out invalid. */
  function InvalidAmong(fields: seq<FieldPlan>, turns: seq<nat>): nat
    requires forall k :: 0 <= k < |turns| ==> turns[k] < |fields|
    decreases |turns|
  {
    if turns == [] then 0
    else
      var n := |turns| - 1;
      var f := fields[turns[n]];
      InvalidAmong(fields, turns[..n]) + (if Invalid(f, DataOfField(f)) then 1 else 0)
  }

  lemma {:induction false} InvalidIsCounted(fields: seq<FieldPlan>, turns: seq<nat>)
    requires forall k :: 0 <= k < |turns| ==> turns[k] < |fields|
    ensures InvalidAmong(fields, turns) > 0
            <==> exists k :: 0 <= k < |turns| && Invalid(fields[turns[k]], DataOfField(fields[turns[k]]))
    decreases |turns|
  {
    if turns != [] {
      InvalidIsCounted(fields, turns[..|turns| - 1]);
    }
  }

  /** Taking more turns. */
  lemma {:induction false} MoreTurns(errors: seq<Error>, fields: seq<FieldPlan>, p: Path, a: seq<nat>, b: seq<nat>)
    requires forall k :: 0 <= k < |a| ==> a[k] < |fields|
    requires forall k :: 0 <= k < |b| ==> b[k] < |fields|
    ensures forall k :: 0 <= k < |a + b| ==> (a + b)[k] < |fields|
    ensures AfterFields(errors, fields, p, a + b) == AfterFields(AfterFields(errors, fields, p, a), fields, p, b)
    ensures InvalidAmong(fields, a + b) == InvalidAmong(fields, a) + InvalidAmong(fields, b)
    decreases |b|
  {
    if b == [] {
      assert a + b == a;
    } else {
      var n := |b| - 1;
      assert (a + b)[..|a + b| - 1] == a + b[..n];
      MoreTurns(errors, fields, p, a, b[..n]);
    }
  }

  lemma {:induction false} OneTurnMore(errors: seq<Error>, fields: seq<FieldPlan>, p: Path, turns: seq<nat>, i: nat)
    requires i < |fields| && forall k :: 0 <= k < |turns| ==> turns[k] < |fields|
    ensures var f := fields[i];
            && AfterFields(errors, fields, p, turns + [i])
               == AfterField(AfterFields(errors, fields, p, turns), f, p + [Name(f.alias)])
            && InvalidAmong(fields, turns + [i])
               == InvalidAmong(fields, turns) + (if Invalid(f, DataOfField(f)) then 1 else 0)
  {
    assert (turns + [i])[..|turns|] == turns;
  }

  /** The values of the fields with these numbers have been stored, and no others. */
  ghost predicate Stored(fields: seq<FieldPlan>, was: seq<Data>, values: seq<Data>, turns: seq<nat>) {
    && |was| == |values| == |fields|
    && forall i: nat :: i < |fields| ==> values[i] == if i in turns then DataOfField(fields[i]) else was[i]
  }

  lemma {:induction false} OneStoredMore(fields: seq<FieldPlan>, was: seq<Data>, values: seq<Data>, turns: seq<nat>,
                                         i: nat)
    requires i < |fields| && Stored(fields, was, values, turns)
    ensures Stored(fields, was, values[i := DataOfField(fields[i])], turns + [i])
  {
  }

  /** From these values, this counter and these errors to those, if the fields with these numbers
      have their turns. */
  ghost predicate Had(fields: seq<FieldPlan>, was: seq<Data>, counter: nat, before: seq<Error>, p: Path,
                      turns: seq<nat>, values: seq<Data>, invalids: nat, errors: seq<Error>)
  {
    && (forall k :: 0 <= k < |turns| ==> turns[k] < |fields|)
    && Stored(fields, was, values, turns)
    && invalids == counter + InvalidAmong(fields, turns)
    && errors == AfterFields(before, fields, p, turns)
  }

  lemma {:induction false} OneHadMore(fields: seq<FieldPlan>, was: seq<Data>, counter: nat, before: seq<Error>, p: Path,
                                      turns: seq<nat>, values: seq<Data>, invalids: nat, errors: seq<Error>, i: nat)
    requires i < |fields| && Had(fields, was, counter, before, p, turns, values, invalids, errors)
    ensures var f := fields[i];
            Had(fields, was, counter, before, p, turns + [i], values[i := DataOfField(f)],
                invalids + (if Invalid(f, DataOfField(f)) then 1 else 0),
                AfterField(errors, f, p + [Name(f.alias)]))
  {
    OneTurnMore(before, fields, p, turns, i);
    OneStoredMore(fields, was, values, turns, i);
  }

  /** A field set: the values of the fields, the fields put off until `Dispatch`, and the counter
      of invalid ones. */
  class FieldSet {
    const fields: seq<FieldPlan>
    var values: seq<Data>
    var delayed: seq<nat>
    var invalids: nat

    constructor (fields: seq<FieldPlan>)
      ensures this.fields == fields && |values| == |fields| && delayed == [] && invalids == 0
    {
      this.fields := fields;
      values := seq(|fields|, _ => Null);
      delayed := [];
      invalids := 0;
    }

    /** Execute one field, store its value, and count it if it is invalid. */
    method Execute(rc: ResponseContext, fc: FieldContext, ghost p: Path, i: nat)
      requires At(fc, p) && i < |fields| == |values|
      modifies this`values, this`invalids, rc
      ensures At(fc, p) && values == old(values)[i := DataOfField(fields[i])]
      ensures invalids == old(invalids) + if Invalid(fields[i], DataOfField(fields[i])) then 1 else 0
      ensures rc.errors == AfterField(old(rc.errors), fields[i], p + [Name(fields[i].alias)])
      decreases fields, 3
    {
      var v := ExecuteField(rc, fc, p, fields[i]);
      values := values[i := v];
      if fields[i].nonNull && v == Null {
        invalids := invalids + 1;
      }
    }

    /** The loop has dealt with the first `n` fields. */
    ghost predicate Halfway(n: nat, p: Path, before: seq<Error>, errors: seq<Error>)
      reads this
    {
      && n <= |fields| == |values|
      && delayed == Chosen(fields, true, n)
      && (forall i: nat :: i < n && !fields[i].concurrent ==> values[i] == DataOfField(fields[i]))
      && invalids == InvalidAmong(fields, Chosen(fields, false, n))
      && errors == AfterFields(before, fields, p, Chosen(fields, false, n))
    }

    /** Execute a field, or put it off if it is concurrent. */
    method Turn(rc: ResponseContext, fc: FieldContext, ghost p: Path, i: nat, ghost before: seq<Error>)
      requires At(fc, p) && i < |fields| && Halfway(i, p, before, rc.errors)
      modifies this`values, this`delayed, this`invalids, rc
      ensures At(fc, p) && Halfway(i + 1, p, before, rc.errors)
      decreases fields, 4
    {
      OneTurnMore(before, fields, p, Chosen(fields, false, i), i);
      if fields[i].concurrent {
        delayed := delayed + [i];
      } else {
        Execute(rc, fc, p, i);
      }
    }

    method Loop(rc: ResponseContext, fc: FieldContext, ghost p: Path)
      requires At(fc, p) && Halfway(0, p, rc.errors, rc.errors)
      modifies this`values, this`delayed, this`invalids, rc
      ensures At(fc, p) && Halfway(|fields|, p, old(rc.errors), rc.errors)
      decreases fields, 5
    {
      var i := 0;
      while i < |fields|
        invariant 0 <= i <= |fields| && At(fc, p) && Halfway(i, p, old(rc.errors), rc.errors)
      {
        Turn(rc, fc, p, i, old(rc.errors));
        i := i + 1;
      }
    }

    /** Since these values, this counter and these errors, the fields with these numbers have been
        executed. */
    ghost predicate Since(was: seq<Data>, counter: nat, before: seq<Error>, p: Path, turns: seq<nat>,
                          errors: seq<Error>)
      reads this
    {
      Had(fields, was, counter, before, p, turns, values, invalids, errors)
    }

    method ExecuteNext(rc: ResponseContext, fc: FieldContext, ghost p: Path, i: nat, ghost was: seq<Data>,
                       ghost counter: nat, ghost before: seq<Error>, ghost turns: seq<nat>)
      requires At(fc, p) && i < |fields| && Since(was, counter, before, p, turns, rc.errors)
      modifies this`values, this`invalids, rc
      ensures At(fc, p) && Since(was, counter, before, p, turns + [i], rc.errors)
      decreases fields, 4
    {
      OneHadMore(fields, was, counter, before, p, turns, values, invalids, rc.errors, i);
      Execute(rc, fc, p, i);
    }

    /** Execute the delayed fields, one after the other. */
    method Dispatch(rc: ResponseContext, fc: FieldContext, ghost p: Path)
      requires At(fc, p) && |fields| == |values|
      requires forall k :: 0 <= k < |delayed| ==> delayed[k] < |fields|
      modifies this`values, this`invalids, rc
      ensures At(fc, p) && Since(old(values), old(invalids), old(rc.errors), p, delayed, rc.errors)
      decreases fields, 5
    {
      var k := 0;
      assert delayed[..k] == [];
      while k < |delayed|
        invariant 0 <= k <= |delayed| && At(fc, p)
        invariant Since(old(values), old(invalids), old(rc.errors), p, delayed[..k], rc.errors)
      {
        assert delayed[..k + 1] == delayed[..k] + [delayed[k]];
        ExecuteNext(rc, fc, p, delayed[k], old(values), old(invalids), old(rc.errors), delayed[..k]);
        k := k + 1;
      }
      assert delayed[..k] == delayed;
    }
  }

  /** The counter is positive just if the object is null. */
  lemma {:induction false} CounterDecides(fields: seq<FieldPlan>)
    ensures InvalidAmong(fields, Turns(fields)) > 0
            <==> exists i :: 0 <= i < |fields| && Invalid(fields[i], DataOfField(fields[i]))
  {
    var turns := Turns(fields);
    InvalidIsCounted(fields, turns);
    TurnsAreComplete(fields);
    if i :| 0 <= i < |fields| && Invalid(fields[i], DataOfField(fields[i])) {
      assert i as nat in turns;
      var k :| 0 <= k < |turns| && turns[k] == i;
    }
  }

  /** After the loop and `Dispatch`, all values are in place. */
  lemma {:induction false} Assembled(fields: seq<FieldPlan>, half: seq<Data>, values: seq<Data>, invalids: nat)
    requires Stored(fields, half, values, Chosen(fields, true, |fields|))
    requires forall i: nat :: i < |fields| && !fields[i].concurrent ==> half[i] == DataOfField(fields[i])
    requires invalids == InvalidAmong(fields, Turns(fields))
    ensures DataOf(Object(fields)) == if invalids > 0 then Null else Record(Pairs(fields, values))
  {
    forall i: nat | i < |fields| && fields[i].concurrent ensures i in Chosen(fields, true, |fields|) {
      ChosenHas(fields, |fields|, i);
    }
    CounterDecides(fields);
    assert values == seq(|fields|, j requires 0 <= j < |fields| => DataOfField(fields[j]));
  }

  /** `_Object`: fields that are not concurrent in the loop itself, the others in `Dispatch`;
      null if any field came out invalid. */
  method ExecuteObject(rc: ResponseContext, fc: FieldContext, ghost p: Path, fields: seq<FieldPlan>) returns (d: Data)
    requires At(fc, p)
    modifies rc
    ensures At(fc, p) && d == DataOf(Object(fields))
    ensures rc.errors == AfterFields(old(rc.errors), fields, p, Turns(fields))
    decreases fields, 6
  {
    var out := new FieldSet(fields);
    out.Loop(rc, fc, p);
    ghost var half := out.values;
    out.Dispatch(rc, fc, p);
    MoreTurns(old(rc.errors), fields, p, Chosen(fields, false, |fields|), Chosen(fields, true, |fields|));
    Assembled(fields, half, out.values, out.invalids);
    if out.invalids > 0 {
      d := Null;
    } else {
      d := Record(Pairs(fields, out.values));
    }
  }

  function Pairs(fields: seq<FieldPlan>, values: seq<Data>): seq<(string, Data)>
    requires |fields| == |values|
  {
    seq(|fields|, i requires 0 <= i < |fields| => (fields[i].alias, values[i]))
  }

  /** An operation, executed under a root context without a name. */
  method ExecuteOperation(fields: seq<FieldPlan>) returns (d: Data, errors: seq<Error>)
    ensures d == DataOf(Object(fields))
    ensures errors == AfterAnswer([], Object(fields), [], false)
  {
    var rc := new ResponseContext();
    var fc := new FieldContext(None, None);
    assert fc.PathOf() == [];
    d := Marshal(rc, fc, [], Object(fields), false);
    errors := rc.errors;
  }
}
