/** What input is decoded to, said of the type, the input and the decoded value alone. */
module DecodedInput {
  import opened Wrappers
  import opened Paths
  import opened InputDecoding

  /** `x` is what `v` stands for at type `t`: where the type is nullable nil is itself; a leaf is what
      its decoder makes of it; a list has an item for every item given, and a single one for anything
      else but nil; an object has the known entries. */
  ghost predicate Decodes(schema: Schema, decode: Decoder, t: Type, v: Value, x: Value)
    decreases v, t
  {
    if t.nullable && v == Nil then x == Nil
    else match t
      case LeafType(kind, _) => decode(kind, v) == Some(x)
      case ListType(elem, _) =>
        x.ListValue? &&
        (match v
         case Nil => x.items == []
         case ListValue(items) => ItemsDecode(schema, decode, elem, items, x.items)
         case _ => |x.items| == 1 && Decodes(schema, decode, elem, v, x.items[0]))
      case ObjectType(name, _) =>
        v.MapValue? && x.MapValue? && EntriesDecode(schema, decode, name, v.entries, x.entries)
  }

  ghost predicate ItemsDecode(schema: Schema, decode: Decoder, elem: Type, items: seq<Value>, decoded: seq<Value>)
    decreases items
  {
    |decoded| == |items| && forall i :: 0 <= i < |items| ==> Decodes(schema, decode, elem, items[i], decoded[i])
  }

  /** One entry for each that the type knows, under the same key and in order; the others leave none. */
  ghost predicate EntriesDecode(schema: Schema, decode: Decoder, name: string, entries: seq<Entry>,
                                decoded: seq<Entry>)
    decreases entries
  {
    if entries == [] then decoded == []
    else if name in schema && entries[0].key in schema[name] then
      && decoded != [] && decoded[0].key == entries[0].key
      && Decodes(schema, decode, schema[name][entries[0].key], entries[0].value, decoded[0].value)
      && EntriesDecode(schema, decode, name, entries[1..], decoded[1..])
    else EntriesDecode(schema, decode, name, entries[1..], decoded)
  }

  /** Input is decoded to that value and to no other. */
  lemma {:induction false} UnmarshalDecodes(schema: Schema, decode: Decoder, t: Type, v: Value, p: Path, x: Value)
    requires Typed(schema, t, v)
    ensures Unmarshal(schema, decode, t, v, p) == Ok(x) <==> Decodes(schema, decode, t, v, x)
    decreases v, t, 1
  {
    if !TakesNil(t, v) {
      match t
      case LeafType(_, _) =>
      case ListType(_, _) => ListDecodes(schema, decode, t, v, p, x);
      case ObjectType(name, _) =>
        if x.MapValue? {
          EntriesAreDecoded(schema, decode, name, v.entries, p, x.entries);
        }
    }
  }

  lemma {:induction false} ListDecodes(schema: Schema, decode: Decoder, t: Type, v: Value, p: Path, x: Value)
    requires t.ListType? && !TakesNil(t, v) && Typed(schema, t, v)
    ensures Unmarshal(schema, decode, t, v, p) == Ok(x) <==> Decodes(schema, decode, t, v, x)
    decreases v, t, 0
  {
    match v
    case Nil =>
    case ListValue(items) =>
      if x.ListValue? {
        ItemsAreDecoded(schema, decode, t.elem, items, p, 0, x.items);
      }
    case _ =>
      if x.ListValue? && |x.items| == 1 {
        UnmarshalDecodes(schema, decode, t.elem, v, p + [Index(0)], x.items[0]);
        assert x.items == [x.items[0]];
      }
  }

  lemma {:induction false} ItemsAreDecoded(schema: Schema, decode: Decoder, elem: Type, items: seq<Value>, p: Path,
                                           i: nat, decoded: seq<Value>)
    requires forall j :: 0 <= j < |items| ==> Typed(schema, elem, items[j])
    ensures UnmarshalItems(schema, decode, elem, items, p, i) == Ok(ListValue(decoded))
            <==> ItemsDecode(schema, decode, elem, items, decoded)
    decreases items, 0
  {
    if items == [] {
    } else if decoded != [] {
      var rest := decoded[1..];
      assert decoded == [decoded[0]] + rest;
      UnmarshalDecodes(schema, decode, elem, items[0], p + [Index(i)], decoded[0]);
      ItemsAreDecoded(schema, decode, elem, items[1..], p, i + 1, rest);
      ItemsDecodeOneByOne(schema, decode, elem, items, decoded);
    }
  }

  lemma {:induction false} ItemsDecodeOneByOne(schema: Schema, decode: Decoder, elem: Type, items: seq<Value>,
                                               decoded: seq<Value>)
    requires items != [] && decoded != []
    ensures ItemsDecode(schema, decode, elem, items, decoded)
            <==> Decodes(schema, decode, elem, items[0], decoded[0])
                 && ItemsDecode(schema, decode, elem, items[1..], decoded[1..])
  {
    if Decodes(schema, decode, elem, items[0], decoded[0])
       && ItemsDecode(schema, decode, elem, items[1..], decoded[1..]) {
      forall i | 0 <= i < |items| ensures Decodes(schema, decode, elem, items[i], decoded[i]) {
        if i > 0 { assert items[1..][i - 1] == items[i] && decoded[1..][i - 1] == decoded[i]; }
      }
    }
    if ItemsDecode(schema, decode, elem, items, decoded) {
      assert forall i :: 0 <= i < |items| - 1 ==> items[1..][i] == items[i + 1] && decoded[1..][i] == decoded[i + 1];
    }
  }

  lemma {:induction false} EntriesAreDecoded(schema: Schema, decode: Decoder, name: string, entries: seq<Entry>,
                                             p: Path, decoded: seq<Entry>)
    requires forall i :: 0 <= i < |entries| && entries[i].key in FieldsOf(schema, name) ==>
               Typed(schema, FieldsOf(schema, name)[entries[i].key], entries[i].value)
    ensures UnmarshalEntries(schema, decode, name, entries, p) == Ok(MapValue(decoded))
            <==> EntriesDecode(schema, decode, name, entries, decoded)
    decreases entries, 0
  {
    if entries != [] {
      var entry := entries[0];
      assert forall i :: 1 <= i < |entries| ==> entries[1..][i - 1] == entries[i];
      if entry.key !in FieldsOf(schema, name) {
        EntriesAreDecoded(schema, decode, name, entries[1..], p, decoded);
      } else if decoded != [] {
        assert decoded == [decoded[0]] + decoded[1..];
        UnmarshalDecodes(schema, decode, FieldsOf(schema, name)[entry.key], entry.value, p + [Name(entry.key)],
                         decoded[0].value);
        EntriesAreDecoded(schema, decode, name, entries[1..], p, decoded[1..]);
      }
    }
  }
}
