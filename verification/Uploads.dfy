/** `AddUpload` as the source runs it: a pointer moved along the path through maps and slices, and
    one write in place at its end. */
module Uploads {
  import opened Wrappers
  import opened Variables
  import Json

  /** A Go interface value: nil, a scalar, an upload, or a reference to a map or a slice. */
  datatype Ref = NilRef | PlainRef(text: string) | UploadRef(name: string) | At(address: nat)

  datatype Cell = Slice(items: seq<Ref>) | Map(entries: map<string, Ref>)

  /** The maps and slices there are, by address. */
  type Store = map<nat, Cell>

  /** What a cell holds at that part; a missing key gives nil. */
  function Place(cell: Cell, part: Part): Option<Ref> {
    match part
    case Idx(i) => if cell.Slice? && 0 <= i < |cell.items| then Some(cell.items[i]) else None
    case Key(k) => if cell.Map? then Some(if k in cell.entries then cell.entries[k] else NilRef) else None
  }

  function Assign(cell: Cell, part: Part, r: Ref): Cell
    requires Place(cell, part).Some?
  {
    match part
    case Idx(i) => Slice(cell.items[i := r])
    case Key(k) => Map(cell.entries[k := r])
  }

  /** The reference `a` holds at that part, if `a` is an address in the store and has that part. */
  function PlaceIn(store: Store, a: nat, part: Part): Option<Ref> {
    if a in store then Place(store[a], part) else None
  }

  /** Tree-shaped: references lead to lower ranks, so there are no cycles, and no map or slice is
      held in two places. */
  ghost predicate Tree(store: Store, rank: map<nat, nat>) {
    && (forall a :: a in store ==> a in rank)
    && (forall a, p :: PlaceIn(store, a, p).Some? && PlaceIn(store, a, p).value.At? ==>
          PlaceIn(store, a, p).value.address in store && rank[PlaceIn(store, a, p).value.address] < rank[a])
    && (forall a, p, b, q ::
          PlaceIn(store, a, p).Some? && PlaceIn(store, a, p).value.At? && PlaceIn(store, a, p) == PlaceIn(store, b, q)
          ==> a == b && p == q)
  }

  ghost predicate ValidRef(store: Store, r: Ref) {
    r.At? ==> r.address in store
  }

  /** The value a reference stands for. */
  ghost function Value(store: Store, rank: map<nat, nat>, r: Ref): Var
    requires Tree(store, rank) && ValidRef(store, r)
    decreases if r.At? then rank[r.address] + 1 else 0, 1
  {
    match r
    case NilRef => Nil
    case PlainRef(text) => Plain(text)
    case UploadRef(name) => Upload(name)
    case At(a) =>
      match store[a]
      case Slice(items) => List(seq(|items|, i requires 0 <= i < |items| => ValueAt(store, rank, a, Idx(i))))
      case Map(entries) => Object(map k | k in entries :: ValueAt(store, rank, a, Key(k)))
  }

  ghost function ValueAt(store: Store, rank: map<nat, nat>, a: nat, part: Part): Var
    requires Tree(store, rank) && a in store
    decreases rank[a] + 1, 0
  {
    match PlaceIn(store, a, part)
    case None => Nil
    case Some(r) => Value(store, rank, r)
  }

  lemma {:induction false} ChildOfValue(store: Store, rank: map<nat, nat>, a: nat, part: Part)
    requires Tree(store, rank) && a in store
    ensures Child(Value(store, rank, At(a)), part)
         == if PlaceIn(store, a, part).Some? then Some(ValueAt(store, rank, a, part)) else None
  {
  }

  // --- Where references lead ---

  function Follow(store: Store, a: nat, path: seq<Part>): Option<nat>
    decreases |path|
  {
    if path == [] then Some(a)
    else
      match PlaceIn(store, a, path[0])
      case Some(At(b)) => Follow(store, b, path[1..])
      case _ => None
  }

  lemma {:induction false} FollowLast(store: Store, a: nat, path: seq<Part>, part: Part)
    ensures Follow(store, a, path + [part]) ==
            match Follow(store, a, path)
            case Some(b) => (match PlaceIn(store, b, part) case Some(At(c)) => Some(c) case _ => None)
            case None => None
    decreases |path|
  {
    if path == [] {
      assert ([] + [part])[1..] == [];
    } else {
      assert (path + [part])[1..] == path[1..] + [part];
      if PlaceIn(store, a, path[0]).Some? && PlaceIn(store, a, path[0]).value.At? {
        FollowLast(store, PlaceIn(store, a, path[0]).value.address, path[1..], part);
      }
    }
  }

  lemma {:induction false} FollowGoesDown(store: Store, rank: map<nat, nat>, a: nat, path: seq<Part>)
    requires Tree(store, rank) && a in store && Follow(store, a, path).Some?
    ensures Follow(store, a, path).value in store
    ensures path != [] ==> rank[Follow(store, a, path).value] < rank[a]
    decreases |path|
  {
    if path != [] {
      FollowGoesDown(store, rank, PlaceIn(store, a, path[0]).value.address, path[1..]);
    }
  }

  /** Two ways to the same cell: one of them comes through the other's start. */
  lemma {:induction false} WaysMeet(store: Store, rank: map<nat, nat>, x: nat, p: seq<Part>, y: nat, q: seq<Part>)
    returns (way: seq<Part>)
    requires Tree(store, rank)
    requires Follow(store, x, p).Some? && Follow(store, x, p) == Follow(store, y, q)
    ensures Follow(store, x, way) == Some(y) || Follow(store, y, way) == Some(x)
    decreases |p|
  {
    if p == [] {
      way := q;
    } else if q == [] {
      way := p;
    } else {
      var p', q' := p[..|p| - 1], q[..|q| - 1];
      assert p == p' + [p[|p| - 1]] && q == q' + [q[|q| - 1]];
      FollowLast(store, x, p', p[|p| - 1]);
      FollowLast(store, y, q', q[|q| - 1]);
      var a, b := Follow(store, x, p').value, Follow(store, y, q').value;
      assert PlaceIn(store, a, p[|p| - 1]) == PlaceIn(store, b, q[|q| - 1]);
      way := WaysMeet(store, rank, x, p', y, q');
    }
  }

  /** A cell below one place of `a` is not below another. */
  lemma {:induction false} SiblingsApart(store: Store, rank: map<nat, nat>, a: nat, p: Part, x: nat, q: Part, y: nat,
                                         down: seq<Part>, other: seq<Part>)
    requires Tree(store, rank) && a in store && p != q
    requires PlaceIn(store, a, p) == Some(At(x)) && PlaceIn(store, a, q) == Some(At(y))
    requires Follow(store, x, down).Some?
    ensures Follow(store, y, other) != Follow(store, x, down)
  {
    if Follow(store, y, other) == Follow(store, x, down) {
      var way := WaysMeet(store, rank, x, down, y, other);
      if Follow(store, x, way) == Some(y) {
        ChildIsNotBelow(store, rank, a, q, y, x, way, p);
      } else {
        ChildIsNotBelow(store, rank, a, p, x, y, way, q);
      }
    }
  }

  /** A child of `a` is reached only through `a`, so not from another child. */
  lemma {:induction false} ChildIsNotBelow(store: Store, rank: map<nat, nat>, a: nat, q: Part, y: nat,
                                           x: nat, way: seq<Part>, p: Part)
    requires Tree(store, rank) && a in store && p != q
    requires PlaceIn(store, a, q) == Some(At(y)) && PlaceIn(store, a, p) == Some(At(x))
    ensures Follow(store, x, way) != Some(y)
  {
    if Follow(store, x, way) == Some(y) {
      if way != [] {
        var up := way[..|way| - 1];
        assert way == up + [way[|way| - 1]];
        FollowLast(store, x, up, way[|way| - 1]);
        var b := Follow(store, x, up).value;
        assert PlaceIn(store, b, way[|way| - 1]) == PlaceIn(store, a, q);
        FollowGoesDown(store, rank, x, up);
      }
    }
  }

  // --- The effect of one write ---

  function Write(store: Store, b: nat, part: Part, upload: string): Store
    requires PlaceIn(store, b, part).Some?
  {
    store[b := Assign(store[b], part, UploadRef(upload))]
  }

  lemma {:induction false} WriteOnePlace(store: Store, b: nat, part: Part, upload: string, a: nat, p: Part)
    requires PlaceIn(store, b, part).Some?
    ensures PlaceIn(Write(store, b, part, upload), a, p)
         == if a == b && p == part then Some(UploadRef(upload)) else PlaceIn(store, a, p)
  {
  }

  /** A write of something that is not a reference keeps the shape. */
  lemma {:induction false} WriteKeepsTree(store: Store, rank: map<nat, nat>, b: nat, part: Part, upload: string)
    requires Tree(store, rank) && PlaceIn(store, b, part).Some?
    ensures Tree(Write(store, b, part, upload), rank)
  {
    forall a, p
      ensures PlaceIn(Write(store, b, part, upload), a, p)
           == if a == b && p == part then Some(UploadRef(upload)) else PlaceIn(store, a, p)
    {
      WriteOnePlace(store, b, part, upload, a, p);
    }
  }

  /** Cells from which the written one cannot be reached keep their value. */
  lemma {:induction false} ValueKept(store: Store, rank: map<nat, nat>, b: nat, part: Part, upload: string, r: Ref)
    requires Tree(store, rank) && PlaceIn(store, b, part).Some? && Tree(Write(store, b, part, upload), rank)
    requires ValidRef(store, r) && (r.At? ==> forall way :: Follow(store, r.address, way) != Some(b))
    ensures Value(Write(store, b, part, upload), rank, r) == Value(store, rank, r)
    decreases if r.At? then rank[r.address] + 1 else 0
  {
    var after := Write(store, b, part, upload);
    if r.At? {
      var a := r.address;
      assert Follow(store, a, []) == Some(a);
      assert after[a] == store[a];
      forall p | PlaceIn(store, a, p).Some?
        ensures ValueAt(after, rank, a, p) == ValueAt(store, rank, a, p)
      {
        var s := PlaceIn(store, a, p).value;
        if s.At? {
          forall way ensures Follow(store, s.address, way) != Some(b) {
            assert ([p] + way)[1..] == way;
            assert Follow(store, a, [p] + way) == Follow(store, s.address, way);
          }
        }
        ValueKept(store, rank, b, part, upload, s);
      }
      SameCell(store, after, rank, a);
    }
  }

  /** A cell whose places are and hold the same has the same value. */
  lemma {:induction false} SameCell(store: Store, after: Store, rank: map<nat, nat>, a: nat)
    requires Tree(store, rank) && Tree(after, rank) && a in store && a in after && after[a] == store[a]
    requires forall p :: PlaceIn(store, a, p).Some? ==> ValueAt(after, rank, a, p) == ValueAt(store, rank, a, p)
    ensures Value(after, rank, At(a)) == Value(store, rank, At(a))
  {
    match store[a]
    case Slice(items) =>
      forall i | 0 <= i < |items| ensures ValueAt(after, rank, a, Idx(i)) == ValueAt(store, rank, a, Idx(i)) {
        assert PlaceIn(store, a, Idx(i)).Some?;
      }
    case Map(entries) =>
      forall k | k in entries ensures ValueAt(after, rank, a, Key(k)) == ValueAt(store, rank, a, Key(k)) {
        assert PlaceIn(store, a, Key(k)).Some?;
      }
  }

  /** A cell whose place `p` has a new value, its other places the old. */
  lemma {:induction false} OnePlaceChanged(store: Store, after: Store, rank: map<nat, nat>, a: nat, p: Part, v: Var)
    requires Tree(store, rank) && Tree(after, rank) && a in store && a in after && PlaceIn(store, a, p).Some?
    requires (after[a] == store[a] && PlaceIn(store, a, p).value != NilRef)
          || exists upload :: after[a] == Assign(store[a], p, UploadRef(upload))
    requires ValueAt(after, rank, a, p) == v
    requires forall q :: PlaceIn(store, a, q).Some? && q != p ==>
               ValueAt(after, rank, a, q) == ValueAt(store, rank, a, q)
    ensures Child(Value(store, rank, At(a)), p).Some?
    ensures Value(after, rank, At(a)) == WithChild(Value(store, rank, At(a)), p, v)
  {
    match store[a]
    case Slice(_) => OneItemChanged(store, after, rank, a, p, v);
    case Map(_) => OneEntryChanged(store, after, rank, a, p, v);
  }

  lemma {:induction false} OneItemChanged(store: Store, after: Store, rank: map<nat, nat>, a: nat, p: Part, v: Var)
    requires Tree(store, rank) && Tree(after, rank) && a in store && a in after && PlaceIn(store, a, p).Some?
    requires store[a].Slice? && after[a].Slice? && |after[a].items| == |store[a].items|
    requires ValueAt(after, rank, a, p) == v
    requires forall q :: PlaceIn(store, a, q).Some? && q != p ==>
               ValueAt(after, rank, a, q) == ValueAt(store, rank, a, q)
    ensures Child(Value(store, rank, At(a)), p).Some?
    ensures Value(after, rank, At(a)) == WithChild(Value(store, rank, At(a)), p, v)
  {
    var before_, after_ := Value(store, rank, At(a)), Value(after, rank, At(a));
    forall i | 0 <= i < |store[a].items| ensures after_.items[i] == if Idx(i) == p then v else before_.items[i] {
      assert PlaceIn(store, a, Idx(i)).Some?;
    }
    assert after_.items == before_.items[p.i := v];
  }

  lemma {:induction false} OneEntryChanged(store: Store, after: Store, rank: map<nat, nat>, a: nat, p: Part, v: Var)
    requires Tree(store, rank) && Tree(after, rank) && a in store && a in after && PlaceIn(store, a, p).Some?
    requires store[a].Map? && after[a].Map? && p.key in after[a].entries.Keys
    requires after[a].entries.Keys == store[a].entries.Keys + {p.key}
    requires ValueAt(after, rank, a, p) == v
    requires forall q :: PlaceIn(store, a, q).Some? && q != p ==>
               ValueAt(after, rank, a, q) == ValueAt(store, rank, a, q)
    ensures Child(Value(store, rank, At(a)), p).Some?
    ensures Value(after, rank, At(a)) == WithChild(Value(store, rank, At(a)), p, v)
  {
    var before_, after_ := Value(store, rank, At(a)), Value(after, rank, At(a));
    forall k | k in after_.entries
      ensures (k in before_.entries || Key(k) == p)
           && after_.entries[k] == if Key(k) == p then v else before_.entries[k]
    {
      assert PlaceIn(store, a, Key(k)).Some?;
    }
    assert after_.entries == before_.entries[p.key := v];
  }

  /** Writing at the end of a path writes into the value of where the path starts. */
  lemma {:induction false} WriteThrough(store: Store, rank: map<nat, nat>, a: nat, path: seq<Part>, upload: string)
    requires Tree(store, rank) && a in store && path != []
    requires var b := Follow(store, a, path[..|path| - 1]);
             b.Some? && PlaceIn(store, b.value, path[|path| - 1]).Some?
    ensures var after := Write(store, Follow(store, a, path[..|path| - 1]).value, path[|path| - 1], upload);
            Tree(after, rank)
            && Put(Value(store, rank, At(a)), path, upload) == Ok(Value(after, rank, At(a)))
    decreases |path|
  {
    var n := |path| - 1;
    var b := Follow(store, a, path[..n]).value;
    var after := Write(store, b, path[n], upload);
    WriteKeepsTree(store, rank, b, path[n], upload);
    ChildOfValue(store, rank, a, path[0]);
    if n == 0 {
      assert path[1..] == [] && path[..0] == [] && b == a;
      OthersKept(store, rank, a, path[0], upload);
      WriteOnePlace(store, a, path[0], upload, a, path[0]);
      OnePlaceChanged(store, after, rank, a, path[0], Upload(upload));
    } else {
      var c := PlaceIn(store, a, path[0]).value.address;
      assert path[..n][0] == path[0] && path[..n][1..] == path[1..][..n - 1] && path[1..][n - 1] == path[n];
      WriteThrough(store, rank, c, path[1..], upload);
      OffPathKept(store, rank, a, path, upload);
      FollowGoesDown(store, rank, c, path[1..][..n - 1]);
      assert b != a;
      OnePlaceChanged(store, after, rank, a, path[0], Value(after, rank, At(c)));
    }
  }

  /** Other places of the written cell keep their values. */
  lemma {:induction false} OthersKept(store: Store, rank: map<nat, nat>, a: nat, part: Part, upload: string)
    requires Tree(store, rank) && a in store && PlaceIn(store, a, part).Some?
    requires Tree(Write(store, a, part, upload), rank)
    ensures forall q :: PlaceIn(store, a, q).Some? && q != part ==>
              ValueAt(Write(store, a, part, upload), rank, a, q) == ValueAt(store, rank, a, q)
  {
    forall q | PlaceIn(store, a, q).Some? && q != part
      ensures ValueAt(Write(store, a, part, upload), rank, a, q) == ValueAt(store, rank, a, q)
    {
      var s := PlaceIn(store, a, q).value;
      WriteOnePlace(store, a, part, upload, a, q);
      if s.At? {
        forall way ensures Follow(store, s.address, way) != Some(a) {
          if Follow(store, s.address, way) == Some(a) {
            FollowGoesDown(store, rank, s.address, way);
          }
        }
      }
      ValueKept(store, rank, a, part, upload, s);
    }
  }

  /** Places off the path keep their values when the write is further down. */
  lemma {:induction false} OffPathKept(store: Store, rank: map<nat, nat>, a: nat, path: seq<Part>, upload: string)
    requires Tree(store, rank) && a in store && |path| > 1
    requires var b := Follow(store, a, path[..|path| - 1]);
             b.Some? && PlaceIn(store, b.value, path[|path| - 1]).Some?
    requires Tree(Write(store, Follow(store, a, path[..|path| - 1]).value, path[|path| - 1], upload), rank)
    ensures var after := Write(store, Follow(store, a, path[..|path| - 1]).value, path[|path| - 1], upload);
            forall q :: PlaceIn(store, a, q).Some? && q != path[0] ==>
              ValueAt(after, rank, a, q) == ValueAt(store, rank, a, q)
  {
    var n := |path| - 1;
    var b := Follow(store, a, path[..n]).value;
    var after := Write(store, b, path[n], upload);
    var x := PlaceIn(store, a, path[..n][0]).value.address;
    var down := path[..n][1..];
    FollowGoesDown(store, rank, x, down);
    assert a != b;
    forall q | PlaceIn(store, a, q).Some? && q != path[0]
      ensures ValueAt(after, rank, a, q) == ValueAt(store, rank, a, q)
    {
      var s := PlaceIn(store, a, q).value;
      if s.At? {
        forall way ensures Follow(store, s.address, way) != Some(b) {
          SiblingsApart(store, rank, a, path[0], x, q, s.address, down, way);
        }
      }
      ValueKept(store, rank, b, path[n], upload, s);
    }
  }

  // --- AddUpload ---

  /** `strconv.Atoi`: an optional sign and digits, within 64 bits. */
  function Atoi(s: string): Option<int> {
    var digits := if s != "" && (s[0] == '-' || s[0] == '+') then s[1..] else s;
    if digits == "" || Json.DigitPrefix(digits) != |digits| then None
    else
      var n := Json.ValueOf(digits);
      var v: int := if s[0] == '-' then 0 - n else n;
      if -0x8000_0000_0000_0000 <= v <= 0x7FFF_FFFF_FFFF_FFFF then Some(v) else None
  }

  function PartOf(s: string): Part {
    match Atoi(s)
    case Some(i) => Idx(i)
    case None => Key(s)
  }

  function PartsOf(parts: seq<string>): (r: seq<Part>)
    ensures |r| == |parts|
  {
    seq(|parts|, i requires 0 <= i < |parts| => PartOf(parts[i]))
  }

  // --- Dotted paths ---

  const PREFIX := "variables."

  /** `strings.Split(path, ".")` */
  function Split(s: string): (parts: seq<string>)
    ensures parts != []
  {
    if s == "" then [""]
    else if s[0] == '.' then [""] + Split(s[1..])
    else
      var rest := Split(s[1..]);
      [[s[0]] + rest[0]] + rest[1..]
  }

  function Joined(parts: seq<string>): string {
    if parts == [] then ""
    else if |parts| == 1 then parts[0]
    else parts[0] + "." + Joined(parts[1..])
  }

  /** The parts have no dots, and make up the path again. */
  lemma {:induction false} SplitJoined(s: string)
    ensures Joined(Split(s)) == s
    ensures forall i :: 0 <= i < |Split(s)| ==> '.' !in Split(s)[i]
    decreases |s|
  {
    if s != "" {
      var rest := Split(s[1..]);
      SplitJoined(s[1..]);
      if s[0] == '.' {
        assert ([""] + rest)[1..] == rest;
        assert "" + "." + s[1..] == s;
      } else {
        JoinedLonger(s[0], rest);
        assert [s[0]] + s[1..] == s;
      }
    }
  }

  lemma {:induction false} JoinedLonger(c: char, parts: seq<string>)
    requires parts != []
    ensures Joined([[c] + parts[0]] + parts[1..]) == [c] + Joined(parts)
  {
    if |parts| > 1 {
      var more := Joined(parts[1..]);
      assert ([[c] + parts[0]] + parts[1..])[1..] == parts[1..];
      assert ([c] + parts[0]) + "." + more == [c] + (parts[0] + "." + more);
    }
  }

  /** A dot-free part, a dot, and the rest. */
  lemma {:induction false} SplitFirst(a: string, rest: string)
    requires '.' !in a
    ensures Split(a + ("." + rest)) == [a] + Split(rest)
    decreases |a|
  {
    var s := a + ("." + rest);
    if a == "" {
      assert s == "." + rest && s[1..] == rest;
    } else {
      assert s[0] == a[0] && s[1..] == a[1..] + ("." + rest);
      SplitFirst(a[1..], rest);
      assert ([a[1..]] + Split(rest))[1..] == Split(rest);
      assert [a[0]] + a[1..] == a;
    }
  }

  lemma {:induction false} SplitPrefix(path: string)
    requires PREFIX <= path
    ensures |Split(path)| >= 2 && Split(path)[0] == "variables" && Split(path)[1..] == Split(path[|PREFIX|..])
  {
    var rest := path[|PREFIX|..];
    assert path == PREFIX + rest && PREFIX == "variables" + ".";
    assert path == "variables" + ("." + rest);
    SplitFirst("variables", rest);
    assert ([("variables")] + Split(rest))[1..] == Split(rest);
  }

  datatype Outcome = Added | InvalidPath | MissingOnTheWay

  /** The request's parameters: the variables are a map, at address `variables`. */
  class RawParams {
    var store: Store
    const variables: nat

    constructor (store: Store, variables: nat)
      ensures this.store == store && this.variables == variables
    {
      this.store := store;
      this.variables := variables;
    }

    method AddUpload(upload: string, path: string, ghost rank: map<nat, nat>) returns (outcome: Outcome)
      requires Tree(store, rank) && variables in store
      requires PREFIX <= path ==> Fits(Value(store, rank, At(variables)), PartsOf(Split(path[|PREFIX|..])))
      modifies this`store
      ensures outcome == InvalidPath <==> !(PREFIX <= path)
      ensures outcome != Added ==> store == old(store)
      ensures Tree(store, rank) && variables in store
      ensures outcome != InvalidPath ==>
                Put(old(Value(store, rank, At(variables))), PartsOf(Split(path[|PREFIX|..])), upload)
                == if outcome == Added then Ok(Value(store, rank, At(variables))) else NotFound
    {
      if !(PREFIX <= path) {
        return InvalidPath;
      }
      var parts := Split(path);
      SplitPrefix(path);
      outcome := WriteAt(upload, PartsOf(parts[1..]), rank);
    }

    /** The loop over the parts: move the pointer down, and write at the last one. */
    method WriteAt(upload: string, path: seq<Part>, ghost rank: map<nat, nat>) returns (outcome: Outcome)
      requires Tree(store, rank) && variables in store && path != []
      requires Fits(Value(store, rank, At(variables)), path)
      modifies this`store
      ensures outcome != InvalidPath && (outcome != Added ==> store == old(store))
      ensures Tree(store, rank) && variables in store
      ensures Put(old(Value(store, rank, At(variables))), path, upload)
              == if outcome == Added then Ok(Value(store, rank, At(variables))) else NotFound
    {
      var ptr := At(variables);
      ghost var before := store;
      ghost var value := Value(store, rank, At(variables));
      var i := 0;
      while i < |path| - 1
        invariant 0 <= i <= |path| - 1 && store == before
        invariant ValidRef(store, ptr)
        invariant ptr.At? ==> Follow(store, variables, path[..i]) == Some(ptr.address)
        invariant Fits(Value(store, rank, ptr), path[i..])
        invariant Put(value, path, upload) == NotFound <==> Put(Value(store, rank, ptr), path[i..], upload) == NotFound
      {
        if ptr == NilRef {
          PutFailsOnNil(value, path, upload);
          return MissingOnTheWay;
        }
        OneStepDown(store, rank, variables, ptr, path, i, upload);
        ptr := PlaceIn(store, ptr.address, path[i]).value;
        i := i + 1;
      }
      assert path[i..] == [path[i]];
      if ptr == NilRef {
        return MissingOnTheWay;
      }
      ChildOfValue(store, rank, ptr.address, path[i]);
      WriteThrough(store, rank, variables, path, upload);
      store := Write(store, ptr.address, path[i], upload);
      outcome := Added;
    }
  }

  lemma {:induction false} OneStepDown(store: Store, rank: map<nat, nat>, root: nat, ptr: Ref, path: seq<Part>,
                                       i: nat, upload: string)
    requires Tree(store, rank) && ValidRef(store, ptr) && ptr != NilRef && i < |path|
    requires Fits(Value(store, rank, ptr), path[i..])
    requires ptr.At? ==> Follow(store, root, path[..i]) == Some(ptr.address)
    ensures ptr.At? && PlaceIn(store, ptr.address, path[i]).Some?
    ensures var next := PlaceIn(store, ptr.address, path[i]).value;
            && ValidRef(store, next) && Fits(Value(store, rank, next), path[i + 1..])
            && (next.At? ==> Follow(store, root, path[..i + 1]) == Some(next.address))
            && (Put(Value(store, rank, ptr), path[i..], upload) == NotFound
                <==> Put(Value(store, rank, next), path[i + 1..], upload) == NotFound)
  {
    assert path[i..][0] == path[i] && path[i..][1..] == path[i + 1..];
    if ptr.At? {
      ChildOfValue(store, rank, ptr.address, path[i]);
      assert path[..i + 1] == path[..i] + [path[i]];
      FollowLast(store, root, path[..i], path[i]);
    }
  }
}
