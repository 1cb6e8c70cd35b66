/** Writing an upload into nested variables, on values: what `AddUpload` is to do. */
module Variables {
  import opened Wrappers

  datatype Var =
    | Nil
    | Plain(text: string)
    | Upload(name: string)
    | List(items: seq<Var>)
    | Object(entries: map<string, Var>)

  /** A part of a dotted path: an index if it parses as a number, else a key. */
  datatype Part = Idx(i: int) | Key(key: string)

  datatype Written = Ok(value: Var) | MissingPrefix | NotFound

  /** The child at that part; a missing key is nil. */
  function Child(v: Var, part: Part): Option<Var> {
    match part
    case Idx(i) => if v.List? && 0 <= i < |v.items| then Some(v.items[i]) else None
    case Key(k) => if v.Object? then Some(if k in v.entries then v.entries[k] else Nil) else None
  }

  function WithChild(v: Var, part: Part, child: Var): Var
    requires Child(v, part).Some?
  {
    match part
    case Idx(i) => List(v.items[i := child])
    case Key(k) => Object(v.entries[k := child])
  }

  /** The variables have the shape of the path, as far as they reach: lists where it has indices,
      in range, and objects where it has keys. The source panics otherwise. */
  predicate Fits(v: Var, path: seq<Part>)
    decreases |path|
  {
    path != [] && v != Nil ==>
      Child(v, path[0]).Some? && Fits(Child(v, path[0]).value, path[1..])
  }

  /** Write `upload` at the path; a nil on the way there is an error. */
  function Put(v: Var, path: seq<Part>, upload: string): Written
    decreases |path|
  {
    if path == [] then Ok(Upload(upload))
    else if v == Nil || Child(v, path[0]).None? then NotFound
    else
      match Put(Child(v, path[0]).value, path[1..], upload)
      case Ok(w) => Ok(WithChild(v, path[0], w))
      case e => e
  }

  /** Read at the path. */
  function Get(v: Var, path: seq<Part>): Option<Var>
    decreases |path|
  {
    if path == [] then Some(v)
    else if Child(v, path[0]).None? then None
    else Get(Child(v, path[0]).value, path[1..])
  }

  // --- Laws ---

  lemma {:induction false} ChildOfWithChild(v: Var, part: Part, child: Var, other: Part)
    requires Child(v, part).Some?
    ensures Child(WithChild(v, part, child), other) == if other == part then Some(child) else Child(v, other)
  {
  }

  lemma {:induction false} TwoChildren(v: Var, p: Part, x: Var, q: Part, y: Var)
    requires Child(v, p).Some? && Child(v, q).Some?
    ensures Child(WithChild(v, p, x), q).Some? && Child(WithChild(v, q, y), p).Some?
    ensures p == q ==> WithChild(WithChild(v, p, x), q, y) == WithChild(v, q, y)
    ensures p != q ==> WithChild(WithChild(v, p, x), q, y) == WithChild(WithChild(v, q, y), p, x)
  {
    ChildOfWithChild(v, p, x, q);
    ChildOfWithChild(v, q, y, p);
    if p.Key? && q.Key? && p != q {
      assert v.entries[p.key := x][q.key := y] == v.entries[q.key := y][p.key := x];
    }
  }

  /** Reading the path afterwards gives the upload. */
  lemma {:induction false} PutGet(v: Var, path: seq<Part>, upload: string)
    requires Put(v, path, upload).Ok?
    ensures Get(Put(v, path, upload).value, path) == Some(Upload(upload))
    decreases |path|
  {
    if path != [] {
      var child := Child(v, path[0]).value;
      PutGet(child, path[1..], upload);
      ChildOfWithChild(v, path[0], Put(child, path[1..], upload).value, path[0]);
    }
  }

  /** Neither of the paths goes through the other. */
  predicate Apart(p: seq<Part>, q: seq<Part>) {
    !(p <= q) && !(q <= p)
  }

  lemma {:induction false} ApartTails(p: seq<Part>, q: seq<Part>)
    requires Apart(p, q)
    ensures p != [] && q != [] && (p[0] == q[0] ==> Apart(p[1..], q[1..]))
  {
    if p[0] == q[0] {
      assert p == [p[0]] + p[1..] && q == [q[0]] + q[1..];
    }
  }

  /** Every path apart from the written one reads as before. */
  lemma {:induction false} PutKeeps(v: Var, path: seq<Part>, upload: string, other: seq<Part>)
    requires Put(v, path, upload).Ok? && Apart(path, other)
    ensures Get(Put(v, path, upload).value, other) == Get(v, other)
    decreases |path|
  {
    ApartTails(path, other);
    var child := Child(v, path[0]).value;
    ChildOfWithChild(v, path[0], Put(child, path[1..], upload).value, other[0]);
    if other[0] == path[0] {
      PutKeeps(child, path[1..], upload, other[1..]);
    }
  }

  /** Above the written position one reads the old value with the upload written into it. */
  lemma {:induction false} PutAbove(v: Var, above: seq<Part>, below: seq<Part>, upload: string)
    requires Put(v, above + below, upload).Ok?
    ensures Get(v, above).Some?
    ensures Put(Get(v, above).value, below, upload).Ok?
    ensures Get(Put(v, above + below, upload).value, above) == Some(Put(Get(v, above).value, below, upload).value)
    decreases |above|
  {
    if above == [] {
      assert above + below == below;
    } else {
      assert (above + below)[0] == above[0] && (above + below)[1..] == above[1..] + below;
      var child := Child(v, above[0]).value;
      PutAbove(child, above[1..], below, upload);
      ChildOfWithChild(v, above[0], Put(child, above[1..] + below, upload).value, above[0]);
    }
  }

  /** Uploads at paths apart can be added in either order. */
  lemma {:induction false} PutsCommute(v: Var, p: seq<Part>, a: string, q: seq<Part>, b: string)
    requires Put(v, p, a).Ok? && Put(v, q, b).Ok? && Apart(p, q)
    ensures Put(Put(v, p, a).value, q, b) == Put(Put(v, q, b).value, p, a)
    ensures Put(Put(v, p, a).value, q, b).Ok?
    decreases |p|
  {
    ApartTails(p, q);
    var x, y := Child(v, p[0]).value, Child(v, q[0]).value;
    var vp, vq := Put(v, p, a).value, Put(v, q, b).value;
    ChildOfWithChild(v, p[0], Put(x, p[1..], a).value, q[0]);
    ChildOfWithChild(v, q[0], Put(y, q[1..], b).value, p[0]);
    if p[0] == q[0] {
      PutsCommute(x, p[1..], a, q[1..], b);
      var both := Put(Put(x, p[1..], a).value, q[1..], b).value;
      TwoChildren(v, p[0], Put(x, p[1..], a).value, q[0], both);
      TwoChildren(v, q[0], Put(y, q[1..], b).value, p[0], both);
    } else {
      TwoChildren(v, p[0], Put(x, p[1..], a).value, q[0], Put(y, q[1..], b).value);
    }
  }

  /** It fails exactly if a proper prefix of the path leads to nil. */
  lemma {:induction false} PutFailsOnNil(v: Var, path: seq<Part>, upload: string)
    requires Fits(v, path)
    ensures Put(v, path, upload).Ok? || Put(v, path, upload) == NotFound
    ensures Put(v, path, upload).Ok? <==> forall k :: 0 <= k < |path| ==> Get(v, path[..k]) != Some(Nil)
    decreases |path|
  {
    if path != [] {
      assert Get(v, path[..0]) == Some(v) by { assert path[..0] == []; }
      if v != Nil {
        var child := Child(v, path[0]).value;
        PutFailsOnNil(child, path[1..], upload);
        forall k | 0 < k < |path| ensures Get(v, path[..k]) == Get(child, path[1..][..k - 1]) {
          assert path[..k][0] == path[0] && path[..k][1..] == path[1..][..k - 1];
        }
        if k :| 0 <= k < |path| - 1 && Get(child, path[1..][..k]) == Some(Nil) {
          assert Get(v, path[..k + 1]) == Some(Nil);
        }
      }
    }
  }
}
