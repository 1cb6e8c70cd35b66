/** The decoders as the source runs them: loops over slices and maps, and one error object whose
    path is set in place by the first wrapper it passes. */
module InputDecoder {
  import opened Wrappers
  import opened Paths
  import opened Contexts
  import opened InputDecoding
  import opened DecodedInput

  /** The context under which the value at `p` is decoded. */
  ghost predicate Under(ctx: Context, p: Path)
    reads ctx.field, if ctx.field == null then [] else ctx.field.chain
    reads ctx.path, if ctx.path == null then [] else ctx.path.chain
  {
    ValidContext(ctx) && PathIn(ctx) == p
  }

  /** `ErrorOnPath`; no error stays no error. */
  method WrapError(ctx: Context, ghost p: Path, err: GqlError?)
    requires Under(ctx, p)
    modifies err
    ensures Under(ctx, p)
    ensures err != null ==> err.path == if old(err.path) == [] then p else old(err.path)
  {
    if err != null {
      ErrorOnPath(ctx, err);
    }
  }

  /** `WithPathContext(ctx, NewPathWithIndex(i))` and `WithPathContext(ctx, NewPathWithField(name))`. */
  method Inside(ctx: Context, ghost p: Path, field: Option<string>, index: Option<nat>) returns (r: Context)
    requires Under(ctx, p)
    ensures Under(ctx, p) && Under(r, p + Own(index, field))
  {
    var fic := new PathContext(field, index);
    r := WithPathContext(ctx, fic);
  }

  ghost function WithItems(done: seq<Value>, r: Decoded): Decoded {
    if r.Ok? && r.value.ListValue? then Ok(ListValue(done + r.value.items)) else r
  }

  ghost function WithEntries(done: seq<Entry>, r: Decoded): Decoded {
    if r.Ok? && r.value.MapValue? then Ok(MapValue(done + r.value.entries)) else r
  }

  /** `unmarshalN…` and `unmarshalO…`. */
  method UnmarshalInput(schema: Schema, decode: Decoder, ctx: Context, ghost p: Path, t: Type, v: Value)
    returns (res: Value, err: GqlError?)
    requires Under(ctx, p) && Typed(schema, t, v)
    ensures Under(ctx, p)
    ensures err == null ==> Unmarshal(schema, decode, t, v, p) == Ok(res)
    ensures err != null ==> fresh(err) && Unmarshal(schema, decode, t, v, p) == Failed(err.path)
    decreases v, t, 2
  {
    res, err := Nil, null;
    if TakesNil(t, v) {
      return;
    }
    match t {
      case LeafType(kind, _) =>
        var x := decode(kind, v);
        if x.Some? {
          res := x.value;
        } else {
          err := new GqlError([]);
        }
        WrapError(ctx, p, err);
      case ListType(elem, _) =>
        res, err := UnmarshalList(schema, decode, ctx, p, t, v);
      case ObjectType(name, _) =>
        res, err := UnmarshalObject(schema, decode, ctx, p, name, v.entries);
        WrapError(ctx, p, err);
    }
  }

  /** The list decoders: stop at the first item that fails, and return its error as it is. */
  method UnmarshalList(schema: Schema, decode: Decoder, ctx: Context, ghost p: Path, t: Type, v: Value)
    returns (res: Value, err: GqlError?)
    requires Under(ctx, p) && t.ListType? && Typed(schema, t, v) && !TakesNil(t, v)
    ensures Under(ctx, p)
    ensures err == null ==> Unmarshal(schema, decode, t, v, p) == Ok(res)
    ensures err != null ==> fresh(err) && Unmarshal(schema, decode, t, v, p) == Failed(err.path)
    decreases v, t, 1
  {
    res, err := Nil, null;
    match v {
      case Nil =>
        res := ListValue([]);
      case ListValue(items) =>
        res, err := UnmarshalSlice(schema, decode, ctx, p, t.elem, items);
      case _ =>
        var x;
        x, err := UnmarshalItem(schema, decode, ctx, p, 0, t.elem, v);
        res := ListValue([x]);
    }
  }

  /** An item of a list, under a context with its index. */
  method UnmarshalItem(schema: Schema, decode: Decoder, ctx: Context, ghost p: Path, i: nat, t: Type, v: Value)
    returns (res: Value, err: GqlError?)
    requires Under(ctx, p) && Typed(schema, t, v)
    ensures Under(ctx, p)
    ensures err == null ==> Unmarshal(schema, decode, t, v, p + [Index(i)]) == Ok(res)
    ensures err != null ==> fresh(err) && Unmarshal(schema, decode, t, v, p + [Index(i)]) == Failed(err.path)
    decreases v, t, 3
  {
    var c := Inside(ctx, p, None, Some(i));
    res, err := UnmarshalInput(schema, decode, c, p + [Index(i)], t, v);
  }

  lemma {:induction false} ItemStep(schema: Schema, decode: Decoder, elem: Type, vSlice: seq<Value>, p: Path, i: nat,
                                    done: seq<Value>)
    requires i < |vSlice|
    ensures var r := Unmarshal(schema, decode, elem, vSlice[i], p + [Index(i)]);
            WithItems(done, UnmarshalItems(schema, decode, elem, vSlice[i..], p, i))
            == if r.Ok? then
                 WithItems(done + [r.value], UnmarshalItems(schema, decode, elem, vSlice[i + 1..], p, i + 1))
               else r
  {
    assert vSlice[i..][0] == vSlice[i] && vSlice[i..][1..] == vSlice[i + 1..];
    var r := Unmarshal(schema, decode, elem, vSlice[i], p + [Index(i)]);
    var rest := UnmarshalItems(schema, decode, elem, vSlice[i + 1..], p, i + 1);
    if r.Ok? && rest.Ok? {
      assert done + ([r.value] + rest.value.items) == (done + [r.value]) + rest.value.items;
    }
  }

  method UnmarshalSlice(schema: Schema, decode: Decoder, ctx: Context, ghost p: Path, elem: Type, vSlice: seq<Value>)
    returns (res: Value, err: GqlError?)
    requires Under(ctx, p)
    requires forall i :: 0 <= i < |vSlice| ==> Typed(schema, elem, vSlice[i])
    ensures Under(ctx, p)
    ensures err == null ==> UnmarshalItems(schema, decode, elem, vSlice, p, 0) == Ok(res)
    ensures err != null ==> fresh(err) && UnmarshalItems(schema, decode, elem, vSlice, p, 0) == Failed(err.path)
    decreases vSlice, 0
  {
    var items := [];
    res, err := Nil, null;
    var i := 0;
    while i < |vSlice|
      invariant 0 <= i <= |vSlice| && err == null && Under(ctx, p)
      invariant UnmarshalItems(schema, decode, elem, vSlice, p, 0)
             == WithItems(items, UnmarshalItems(schema, decode, elem, vSlice[i..], p, i))
    {
      ItemStep(schema, decode, elem, vSlice, p, i, items);
      var x;
      x, err := UnmarshalItem(schema, decode, ctx, p, i, elem, vSlice[i]);
      if err != null {
        return;
      }
      items := items + [x];
      i := i + 1;
    }
    assert vSlice[i..] == [];
    res := ListValue(items);
  }

  /** A field of an input object, under a context with its name. */
  method UnmarshalField(schema: Schema, decode: Decoder, ctx: Context, ghost p: Path, key: string, t: Type, v: Value)
    returns (res: Value, err: GqlError?)
    requires Under(ctx, p) && Typed(schema, t, v)
    ensures Under(ctx, p)
    ensures err == null ==> Unmarshal(schema, decode, t, v, p + [Name(key)]) == Ok(res)
    ensures err != null ==> fresh(err) && Unmarshal(schema, decode, t, v, p + [Name(key)]) == Failed(err.path)
    decreases v, t, 3
  {
    var c := Inside(ctx, p, Some(key), None);
    res, err := UnmarshalInput(schema, decode, c, p + [Name(key)], t, v);
  }

  lemma {:induction false} EntryStep(schema: Schema, decode: Decoder, name: string, entries: seq<Entry>, p: Path,
                                     i: nat, done: seq<Entry>)
    requires i < |entries|
    ensures var k := entries[i].key;
            var rest := UnmarshalEntries(schema, decode, name, entries[i + 1..], p);
            WithEntries(done, UnmarshalEntries(schema, decode, name, entries[i..], p))
            == if k !in FieldsOf(schema, name) then WithEntries(done, rest)
               else
                 var r := Unmarshal(schema, decode, FieldsOf(schema, name)[k], entries[i].value, p + [Name(k)]);
                 if r.Ok? then WithEntries(done + [Entry(k, r.value)], rest) else r
  {
    var k := entries[i].key;
    var rest := UnmarshalEntries(schema, decode, name, entries[i + 1..], p);
    assert entries[i..][0] == entries[i] && entries[i..][1..] == entries[i + 1..];
    if k in FieldsOf(schema, name) {
      var r := Unmarshal(schema, decode, FieldsOf(schema, name)[k], entries[i].value, p + [Name(k)]);
      if r.Ok? && rest.Ok? {
        assert done + ([Entry(k, r.value)] + rest.value.entries) == (done + [Entry(k, r.value)]) + rest.value.entries;
      }
    }
  }

  /** `unmarshalInputX`: range over the map, decoding the fields the type has. */
  method UnmarshalObject(schema: Schema, decode: Decoder, ctx: Context, ghost p: Path, name: string,
                         entries: seq<Entry>)
    returns (res: Value, err: GqlError?)
    requires Under(ctx, p)
    requires forall i :: 0 <= i < |entries| && entries[i].key in FieldsOf(schema, name) ==>
               Typed(schema, FieldsOf(schema, name)[entries[i].key], entries[i].value)
    ensures Under(ctx, p)
    ensures err == null ==> UnmarshalEntries(schema, decode, name, entries, p) == Ok(res)
    ensures err != null ==> fresh(err) && UnmarshalEntries(schema, decode, name, entries, p) == Failed(err.path)
    decreases entries, 0
  {
    var it := [];
    res, err := Nil, null;
    var i := 0;
    while i < |entries|
      invariant 0 <= i <= |entries| && err == null && Under(ctx, p)
      invariant UnmarshalEntries(schema, decode, name, entries, p)
             == WithEntries(it, UnmarshalEntries(schema, decode, name, entries[i..], p))
    {
      var entry := entries[i];
      EntryStep(schema, decode, name, entries, p, i, it);
      if entry.key in FieldsOf(schema, name) {
        var x;
        x, err := UnmarshalField(schema, decode, ctx, p, entry.key, FieldsOf(schema, name)[entry.key], entry.value);
        if err != null {
          return;
        }
        it := it + [Entry(entry.key, x)];
      }
      i := i + 1;
    }
    assert entries[i..] == [];
    res := MapValue(it);
  }

  /** An argument of a field: it is decoded to the value it stands for, unless a leaf is rejected;
      then the error has the path of the field, the name of the argument, and the way to the first
      such leaf. */
  method UnmarshalArgument(schema: Schema, decode: Decoder, fc: FieldContext, name: string, t: Type, v: Value)
    returns (res: Value, err: GqlError?)
    requires fc.Valid() && Typed(schema, t, v)
    ensures fc.Valid() && fc.PathOf() == old(fc.PathOf())
    ensures err == null <==> Accepted(schema, decode, t, v)
    ensures err == null ==> Decodes(schema, decode, t, v, res)
    ensures err != null ==>
              && fc.PathOf() + [Name(name)] <= err.path
              && RejectedAt(schema, decode, t, v, err.path[|fc.PathOf()| + 1..])
  {
    ghost var p := fc.PathOf();
    assert p + [] == p;
    res, err := UnmarshalField(schema, decode, Context(fc, null), p, name, t, v);
    UnmarshalExact(schema, decode, t, v, p + [Name(name)]);
    UnmarshalDecodes(schema, decode, t, v, p + [Name(name)], res);
  }
}
