/** Decoding nested input: the generated `unmarshal…` functions and the path of their errors. */
module InputDecoding {
  import opened Wrappers
  import opened Paths
  import opened Contexts

  /** An input value; the entries of a map in the order Go's iteration yields them. */
  datatype Value = Nil | Scalar(text: string) | ListValue(items: seq<Value>) | MapValue(entries: seq<Entry>)

  datatype Entry = Entry(key: string, value: Value)

  datatype Type =
    | LeafType(kind: string, nullable: bool)
    | ListType(elem: Type, nullable: bool)
    | ObjectType(name: string, nullable: bool)

  /** Input object types may be recursive, so they are looked up by name. */
  type Schema = map<string, map<string, Type>>

  /** The leaf decoders: what a leaf kind makes of a value, or nothing if it rejects it. */
  type Decoder = (string, Value) -> Option<Value>

  datatype Decoded = Ok(value: Value) | Failed(path: Path)

  function FieldsOf(schema: Schema, name: string): map<string, Type> {
    if name in schema then schema[name] else map[]
  }

  /** A nullable type takes nil as it is. */
  predicate TakesNil(t: Type, v: Value) {
    t.nullable && v == Nil
  }

  /** List coercion: nil is no item, a list its items, and anything else a single item. */
  function Slice(v: Value): seq<Value> {
    match v
    case Nil => []
    case ListValue(items) => items
    case _ => [v]
  }

  /** What validation guarantees: an input object is given as a map. */
  predicate Typed(schema: Schema, t: Type, v: Value)
    decreases v, t
  {
    TakesNil(t, v)
    || match t
       case LeafType(_, _) => true
       case ListType(elem, _) =>
         (match v
          case ListValue(items) => forall i :: 0 <= i < |items| ==> Typed(schema, elem, items[i])
          case Nil => true
          case _ => Typed(schema, elem, v))
       case ObjectType(name, _) =>
         v.MapValue? && forall i :: 0 <= i < |v.entries| && v.entries[i].key in FieldsOf(schema, name) ==>
                          Typed(schema, FieldsOf(schema, name)[v.entries[i].key], v.entries[i].value)
  }

  // --- Which input is accepted, and where it is rejected ---

  /** Every leaf of the list-coerced input is accepted by its decoder. */
  predicate Accepted(schema: Schema, decode: Decoder, t: Type, v: Value)
    decreases v, t
  {
    TakesNil(t, v)
    || match t
       case LeafType(kind, _) => decode(kind, v).Some?
       case ListType(elem, _) =>
         (match v
          case ListValue(items) => forall i :: 0 <= i < |items| ==> Accepted(schema, decode, elem, items[i])
          case Nil => true
          case _ => Accepted(schema, decode, elem, v))
       case ObjectType(name, _) =>
         v.MapValue? ==> forall i :: 0 <= i < |v.entries| ==> AcceptedEntry(schema, decode, name, v.entries[i])
  }

  predicate AcceptedEntry(schema: Schema, decode: Decoder, name: string, entry: Entry)
    decreases entry
  {
    entry.key in FieldsOf(schema, name) ==> Accepted(schema, decode, FieldsOf(schema, name)[entry.key], entry.value)
  }

  /** `q` leads through the list-coerced input to a leaf its decoder rejects; earlier items of
      each list on the way, and earlier entries of each map, are accepted. */
  ghost predicate RejectedAt(schema: Schema, decode: Decoder, t: Type, v: Value, q: Path)
    decreases |q|
  {
    !TakesNil(t, v) &&
    match t
    case LeafType(kind, _) => q == [] && decode(kind, v).None?
    case ListType(elem, _) =>
      && q != [] && q[0].Index? && q[0].index < |Slice(v)|
      && (forall j :: 0 <= j < q[0].index ==> Accepted(schema, decode, elem, Slice(v)[j]))
      && RejectedAt(schema, decode, elem, Slice(v)[q[0].index], q[1..])
    case ObjectType(name, _) =>
      && q != [] && q[0].Name? && v.MapValue? && q[0].name in FieldsOf(schema, name)
      && exists i :: 0 <= i < |v.entries| && v.entries[i].key == q[0].name
           && (forall j :: 0 <= j < i ==> AcceptedEntry(schema, decode, name, v.entries[j]))
           && RejectedAt(schema, decode, FieldsOf(schema, name)[q[0].name], v.entries[i].value, q[1..])
  }

  // --- The decoder ---

  /** `ErrorOnPath` on the result of a nested call: a path once there is kept. */
  function OnPath(r: Decoded, p: Path): Decoded {
    if r.Failed? && r.path == [] then Failed(p) else r
  }

  function Unmarshal(schema: Schema, decode: Decoder, t: Type, v: Value, p: Path): Decoded
    decreases v, t, 1
  {
    if TakesNil(t, v) then Ok(Nil)
    else match t
      case LeafType(kind, _) =>
        (match decode(kind, v)
         case Some(x) => Ok(x)
         case None => OnPath(Failed([]), p))
      case ListType(elem, _) =>
        (match v
         case Nil => Ok(ListValue([]))
         case ListValue(items) => UnmarshalItems(schema, decode, elem, items, p, 0)
         case _ =>
           (match Unmarshal(schema, decode, elem, v, p + [Index(0)])
            case Ok(x) => Ok(ListValue([x]))
            case Failed(q) => Failed(q)))
      case ObjectType(name, _) =>
        if v.MapValue? then OnPath(UnmarshalEntries(schema, decode, name, v.entries, p), p) else Ok(Nil)
  }

  /** The items from the i-th on. */
  function UnmarshalItems(schema: Schema, decode: Decoder, elem: Type, items: seq<Value>, p: Path, i: nat): (r: Decoded)
    ensures r.Ok? ==> r.value.ListValue?
    decreases items, 0
  {
    if items == [] then Ok(ListValue([]))
    else
      match Unmarshal(schema, decode, elem, items[0], p + [Index(i)])
      case Failed(q) => Failed(q)
      case Ok(x) =>
        match UnmarshalItems(schema, decode, elem, items[1..], p, i + 1)
        case Failed(q) => Failed(q)
        case Ok(rest) => Ok(ListValue([x] + rest.items))
  }

  /** Entries of unknown fields are passed over. */
  function UnmarshalEntries(schema: Schema, decode: Decoder, name: string, entries: seq<Entry>, p: Path)
    : (r: Decoded)
    ensures r.Ok? ==> r.value.MapValue?
    decreases entries, 0
  {
    if entries == [] then Ok(MapValue([]))
    else
      var entry := entries[0];
      var k := entry.key;
      if k !in FieldsOf(schema, name) then UnmarshalEntries(schema, decode, name, entries[1..], p)
      else
        match Unmarshal(schema, decode, FieldsOf(schema, name)[k], entry.value, p + [Name(k)])
        case Failed(q) => Failed(q)
        case Ok(x) =>
          match UnmarshalEntries(schema, decode, name, entries[1..], p)
          case Failed(q) => Failed(q)
          case Ok(rest) => Ok(MapValue([Entry(k, x)] + rest.entries))
  }

  // --- The path of the error is exact ---

  /** `path` is `p` followed by a way to a rejected leaf. */
  ghost predicate Exact(schema: Schema, decode: Decoder, t: Type, v: Value, p: Path, r: Decoded) {
    if Accepted(schema, decode, t, v) then r.Ok?
    else r.Failed? && p <= r.path && RejectedAt(schema, decode, t, v, r.path[|p|..])
  }

  lemma {:induction false} UnmarshalExact(schema: Schema, decode: Decoder, t: Type, v: Value, p: Path)
    requires Typed(schema, t, v)
    ensures Exact(schema, decode, t, v, p, Unmarshal(schema, decode, t, v, p))
    decreases v, t, 1
  {
    if !TakesNil(t, v) {
      match t
      case LeafType(kind, _) =>
        assert p[|p|..] == [];
      case ListType(elem, _) =>
        ListExact(schema, decode, t, v, p);
      case ObjectType(name, _) =>
        ObjectExact(schema, decode, t, v, p);
    }
  }

  lemma {:induction false} Deeper(p: Path, x: Element, path: Path)
    requires p + [x] <= path
    ensures p <= path && path[|p|..] != [] && path[|p|..][0] == x && path[|p|..][1..] == path[|p + [x]|..]
  {
    assert (p + [x])[|p|] == x;
    assert p <= p + [x];
  }

  lemma {:induction false} ListExact(schema: Schema, decode: Decoder, t: Type, v: Value, p: Path)
    requires t.ListType? && !TakesNil(t, v) && Typed(schema, t, v)
    ensures Exact(schema, decode, t, v, p, Unmarshal(schema, decode, t, v, p))
    decreases v, t, 0
  {
    var r := Unmarshal(schema, decode, t, v, p);
    match v
    case Nil =>
    case ListValue(items) =>
      ItemsExact(schema, decode, t.elem, items, p, 0);
      if !Accepted(schema, decode, t, v) {
        var i: nat :| FirstRejected(schema, decode, t.elem, items, p, 0, r, i);
        Deeper(p, Index(i), r.path);
      }
    case _ =>
      UnmarshalExact(schema, decode, t.elem, v, p + [Index(0)]);
      if !Accepted(schema, decode, t, v) {
        Deeper(p, Index(0), r.path);
      }
  }

  /** The i-th item is the first one rejected, and the error is in it. */
  ghost predicate FirstRejected(schema: Schema, decode: Decoder, elem: Type, items: seq<Value>, p: Path, offset: nat,
                                r: Decoded, i: nat)
  {
    && i < |items| && r.Failed? && p + [Index(offset + i)] <= r.path
    && (forall j :: 0 <= j < i ==> Accepted(schema, decode, elem, items[j]))
    && RejectedAt(schema, decode, elem, items[i], r.path[|p + [Index(offset + i)]|..])
  }

  ghost predicate FailsAtAnItem(schema: Schema, decode: Decoder, elem: Type, items: seq<Value>, p: Path, offset: nat,
                                r: Decoded)
  {
    exists i: nat :: FirstRejected(schema, decode, elem, items, p, offset, r, i)
  }

  ghost predicate AllItemsAccepted(schema: Schema, decode: Decoder, elem: Type, items: seq<Value>) {
    forall i :: 0 <= i < |items| ==> Accepted(schema, decode, elem, items[i])
  }

  lemma {:induction false} ItemsExact(schema: Schema, decode: Decoder, elem: Type, items: seq<Value>, p: Path,
                                      offset: nat)
    requires forall i :: 0 <= i < |items| ==> Typed(schema, elem, items[i])
    ensures var r := UnmarshalItems(schema, decode, elem, items, p, offset);
            && (AllItemsAccepted(schema, decode, elem, items) ==> r.Ok?)
            && (!AllItemsAccepted(schema, decode, elem, items) ==>
                  FailsAtAnItem(schema, decode, elem, items, p, offset, r))
    decreases items, 0
  {
    if items != [] {
      var r := UnmarshalItems(schema, decode, elem, items, p, offset);
      UnmarshalExact(schema, decode, elem, items[0], p + [Index(offset)]);
      assert forall i :: 1 <= i < |items| ==> items[1..][i - 1] == items[i];
      ItemsExact(schema, decode, elem, items[1..], p, offset + 1);
      if !Accepted(schema, decode, elem, items[0]) {
        assert FirstRejected(schema, decode, elem, items, p, offset, r, 0);
      } else if !AllItemsAccepted(schema, decode, elem, items[1..]) {
        var i: nat :| FirstRejected(schema, decode, elem, items[1..], p, offset + 1,
                               UnmarshalItems(schema, decode, elem, items[1..], p, offset + 1), i);
        RejectedOneLater(schema, decode, elem, items, p, offset, r, i);
      } else {
        AcceptedOneMore(schema, decode, elem, items);
      }
    }
  }

  lemma {:induction false} AcceptedOneMore(schema: Schema, decode: Decoder, elem: Type, items: seq<Value>)
    requires items != [] && Accepted(schema, decode, elem, items[0]) &&
             AllItemsAccepted(schema, decode, elem, items[1..])
    ensures AllItemsAccepted(schema, decode, elem, items)
  {
    forall i | 0 <= i < |items| ensures Accepted(schema, decode, elem, items[i]) {
      if i > 0 { assert items[1..][i - 1] == items[i]; }
    }
  }

  lemma {:induction false} RejectedOneLater(schema: Schema, decode: Decoder, elem: Type, items: seq<Value>, p: Path,
                                            offset: nat, r: Decoded, i: nat)
    requires items != [] && Accepted(schema, decode, elem, items[0])
    requires FirstRejected(schema, decode, elem, items[1..], p, offset + 1, r, i)
    ensures FirstRejected(schema, decode, elem, items, p, offset, r, i + 1)
  {
    forall j | 0 <= j < i + 1 ensures Accepted(schema, decode, elem, items[j]) {
      if j > 0 { assert items[1..][j - 1] == items[j]; }
    }
  }

  lemma {:induction false} ObjectExact(schema: Schema, decode: Decoder, t: Type, v: Value, p: Path)
    requires t.ObjectType? && !TakesNil(t, v) && Typed(schema, t, v)
    ensures Exact(schema, decode, t, v, p, Unmarshal(schema, decode, t, v, p))
    decreases v, t, 0
  {
    var r := UnmarshalEntries(schema, decode, t.name, v.entries, p);
    EntriesExact(schema, decode, t.name, v.entries, p);
    if !Accepted(schema, decode, t, v) {
      var i: nat :| FirstRejectedEntry(schema, decode, t.name, v.entries, p, r, i);
      Deeper(p, Name(v.entries[i].key), r.path);
    }
  }

  ghost predicate FirstRejectedEntry(schema: Schema, decode: Decoder, name: string, entries: seq<Entry>, p: Path,
                                     r: Decoded, i: nat)
  {
    && i < |entries| && entries[i].key in FieldsOf(schema, name)
    && r.Failed? && p + [Name(entries[i].key)] <= r.path
    && (forall j :: 0 <= j < i ==> AcceptedEntry(schema, decode, name, entries[j]))
    && RejectedAt(schema, decode, FieldsOf(schema, name)[entries[i].key], entries[i].value,
                  r.path[|p + [Name(entries[i].key)]|..])
  }

  ghost predicate FailsAtAnEntry(schema: Schema, decode: Decoder, name: string, entries: seq<Entry>, p: Path,
                                 r: Decoded)
  {
    exists i: nat :: FirstRejectedEntry(schema, decode, name, entries, p, r, i)
  }

  ghost predicate AllAccepted(schema: Schema, decode: Decoder, name: string, entries: seq<Entry>) {
    forall i :: 0 <= i < |entries| ==> AcceptedEntry(schema, decode, name, entries[i])
  }

  lemma {:induction false} EntriesExact(schema: Schema, decode: Decoder, name: string, entries: seq<Entry>, p: Path)
    requires forall i :: 0 <= i < |entries| && entries[i].key in FieldsOf(schema, name) ==>
               Typed(schema, FieldsOf(schema, name)[entries[i].key], entries[i].value)
    ensures var r := UnmarshalEntries(schema, decode, name, entries, p);
            && (AllAccepted(schema, decode, name, entries) ==> r.Ok?)
            && (!AllAccepted(schema, decode, name, entries) ==>
                  FailsAtAnEntry(schema, decode, name, entries, p, r))
    decreases entries, 0
  {
    if entries != [] {
      var r := UnmarshalEntries(schema, decode, name, entries, p);
      var entry := entries[0];
      var k := entry.key;
      assert forall i :: 1 <= i < |entries| ==> entries[1..][i - 1] == entries[i];
      EntriesExact(schema, decode, name, entries[1..], p);
      if k in FieldsOf(schema, name) {
        UnmarshalExact(schema, decode, FieldsOf(schema, name)[k], entry.value, p + [Name(k)]);
      }
      if !AcceptedEntry(schema, decode, name, entries[0]) {
        assert FirstRejectedEntry(schema, decode, name, entries, p, r, 0);
      } else if !AllAccepted(schema, decode, name, entries[1..]) {
        var i: nat :| FirstRejectedEntry(schema, decode, name, entries[1..], p,
                                    UnmarshalEntries(schema, decode, name, entries[1..], p), i);
        RejectedOneEntryLater(schema, decode, name, entries, p, r, i);
      } else {
        AcceptedOneEntryMore(schema, decode, name, entries);
      }
    }
  }

  lemma {:induction false} AcceptedOneEntryMore(schema: Schema, decode: Decoder, name: string, entries: seq<Entry>)
    requires entries != [] && AcceptedEntry(schema, decode, name, entries[0]) &&
             AllAccepted(schema, decode, name, entries[1..])
    ensures AllAccepted(schema, decode, name, entries)
  {
    forall i | 0 <= i < |entries| ensures AcceptedEntry(schema, decode, name, entries[i]) {
      if i > 0 { assert entries[1..][i - 1] == entries[i]; }
    }
  }

  lemma {:induction false} RejectedOneEntryLater(schema: Schema, decode: Decoder, name: string, entries: seq<Entry>,
                                                 p: Path, r: Decoded, i: nat)
    requires entries != [] && AcceptedEntry(schema, decode, name, entries[0])
    requires FirstRejectedEntry(schema, decode, name, entries[1..], p, r, i)
    ensures FirstRejectedEntry(schema, decode, name, entries, p, r, i + 1)
  {
    forall j | 0 <= j < i + 1 ensures AcceptedEntry(schema, decode, name, entries[j]) {
      if j > 0 { assert entries[1..][j - 1] == entries[j]; }
    }
  }

  /** Decoding fails exactly if some leaf is rejected, and then with the path of the field
      followed by the way to the first rejected leaf; no outer wrapper changes that. */
  lemma {:induction false} ErrorPathIsExact(schema: Schema, decode: Decoder, t: Type, v: Value, p: Path)
    requires Typed(schema, t, v)
    ensures Unmarshal(schema, decode, t, v, p).Ok? <==> Accepted(schema, decode, t, v)
    ensures forall q :: Unmarshal(schema, decode, t, v, p) == Failed(p + q) <==> RejectedAt(schema, decode, t, v, q)
  {
    UnmarshalExact(schema, decode, t, v, p);
    forall q
      ensures Unmarshal(schema, decode, t, v, p) == Failed(p + q) <==> RejectedAt(schema, decode, t, v, q)
    {
      var r := Unmarshal(schema, decode, t, v, p);
      if r == Failed(p + q) {
        assert (p + q)[|p|..] == q;
      }
      if RejectedAt(schema, decode, t, v, q) {
        RejectedNotAccepted(schema, decode, t, v, q);
        RejectedOnce(schema, decode, t, v, q, r.path[|p|..]);
      }
    }
  }

  lemma {:induction false} RejectedNotAccepted(schema: Schema, decode: Decoder, t: Type, v: Value, q: Path)
    requires RejectedAt(schema, decode, t, v, q)
    ensures !Accepted(schema, decode, t, v)
    decreases |q|
  {
    match t
    case LeafType(_, _) =>
    case ListType(elem, _) =>
      RejectedNotAccepted(schema, decode, elem, Slice(v)[q[0].index], q[1..]);
    case ObjectType(name, _) =>
      var i :| 0 <= i < |v.entries| && v.entries[i].key == q[0].name
               && RejectedAt(schema, decode, FieldsOf(schema, name)[q[0].name], v.entries[i].value, q[1..]);
      RejectedNotAccepted(schema, decode, FieldsOf(schema, name)[q[0].name], v.entries[i].value, q[1..]);
      assert !AcceptedEntry(schema, decode, name, v.entries[i]);
  }

  lemma {:induction false} RejectedOnce(schema: Schema, decode: Decoder, t: Type, v: Value, q: Path, q': Path)
    requires RejectedAt(schema, decode, t, v, q) && RejectedAt(schema, decode, t, v, q')
    ensures q == q'
    decreases |q|
  {
    match t
    case LeafType(_, _) =>
    case ListType(elem, _) =>
      RejectedNotAccepted(schema, decode, elem, Slice(v)[q[0].index], q[1..]);
      RejectedNotAccepted(schema, decode, elem, Slice(v)[q'[0].index], q'[1..]);
      RejectedOnce(schema, decode, elem, Slice(v)[q[0].index], q[1..], q'[1..]);
      assert q == [q[0]] + q[1..] && q' == [q'[0]] + q'[1..];
    case ObjectType(name, _) =>
      var fields := FieldsOf(schema, name);
      var i :| 0 <= i < |v.entries| && v.entries[i].key == q[0].name
               && (forall j :: 0 <= j < i ==> AcceptedEntry(schema, decode, name, v.entries[j]))
               && RejectedAt(schema, decode, fields[q[0].name], v.entries[i].value, q[1..]);
      var i' :| 0 <= i' < |v.entries| && v.entries[i'].key == q'[0].name
                && (forall j :: 0 <= j < i' ==> AcceptedEntry(schema, decode, name, v.entries[j]))
                && RejectedAt(schema, decode, fields[q'[0].name], v.entries[i'].value, q'[1..]);
      RejectedNotAccepted(schema, decode, fields[q[0].name], v.entries[i].value, q[1..]);
      RejectedNotAccepted(schema, decode, fields[q'[0].name], v.entries[i'].value, q'[1..]);
      assert !AcceptedEntry(schema, decode, name, v.entries[i]) && !AcceptedEntry(schema, decode, name, v.entries[i']);
      assert i == i';
      RejectedOnce(schema, decode, fields[q[0].name], v.entries[i].value, q[1..], q'[1..]);
      assert q == [q[0]] + q[1..] && q' == [q'[0]] + q'[1..];
  }
}
