/** Field and path contexts: linked through parent pointers, read off by walking up and flipping. */
module Contexts {
  import opened Wrappers
  import opened Paths

  function Reversed(p: Path): Path
    decreases |p|
  {
    if p == [] then [] else Reversed(p[1..]) + [p[0]]
  }

  lemma {:induction false} ReversedAt(p: Path, k: nat)
    requires k < |p|
    ensures |Reversed(p)| == |p| && Reversed(p)[k] == p[|p| - 1 - k]
    decreases |p|
  {
    if |p| > 1 {
      ReversedAt(p[1..], if k < |p| - 1 then k else 0);
    }
  }

  lemma {:induction false} ReversedAppend(p: Path, q: Path)
    ensures Reversed(p + q) == Reversed(q) + Reversed(p)
    decreases |p|
  {
    if p == [] {
      assert p + q == q && Reversed(q) + [] == Reversed(q);
    } else {
      assert (p + q)[0] == p[0] && (p + q)[1..] == p[1..] + q;
      ReversedAppend(p[1..], q);
    }
  }

  /** Flip in place, swapping from the middle outwards. */
  method Flip(path: array<Element>)
    modifies path
    ensures path[..] == Reversed(old(path[..]))
  {
    ghost var was := path[..];
    var n := path.Length;
    var i := n / 2 - 1;
    while i >= 0
      invariant -1 <= i <= n / 2 - 1
      invariant forall k :: i < k < n - 1 - i ==> path[k] == was[n - 1 - k]
      invariant forall k :: 0 <= k <= i || n - 1 - i <= k < n ==> path[k] == was[k]
    {
      var opp := n - 1 - i;
      path[i], path[opp] := path[opp], path[i];
      i := i - 1;
    }
    assert n == 0 ==> was == [];
    forall k | 0 <= k < n ensures |Reversed(was)| == n && path[..][k] == Reversed(was)[k] {
      ReversedAt(was, k);
    }
  }

  /** A slice built by appending, flipped in place. */
  method Flipped(path: Path) returns (r: Path)
    ensures r == Reversed(path)
  {
    var buffer := new Element[|path|](i requires 0 <= i < |path| => path[i]);
    assert buffer[..] == path;
    Flip(buffer);
    r := buffer[..];
  }

  /** An element as a path of its own. */
  function Own(index: Option<nat>, name: Option<string>): Path {
    if index.Some? then [Index(index.value)]
    else if name.Some? then [Name(name.value)]
    else []
  }

  lemma {:induction false} OwnReversed(index: Option<nat>, name: Option<string>, above: Path)
    ensures Reversed(Own(index, name) + above) == Reversed(above) + Own(index, name)
  {
    var own := Own(index, name);
    ReversedAppend(own, above);
    if own != [] {
      assert own[1..] == [] && Reversed(own[1..]) == [];
    }
  }

  // --- Field contexts ---

  lemma {:induction false} Moved(path: Path, own: Path, above: Path, left: Path, all: Path)
    requires path + left == all && left == own + above
    ensures (path + own) + above == all
  {
    assert path + (own + above) == (path + own) + above;
  }

  class FieldContext {
    var parent: FieldContext?
    var alias: Option<string>   // of the field, if there is one: the root object has none
    var index: Option<nat>
    ghost var chain: seq<FieldContext>   // this context, its parent, and so on

    constructor (alias: Option<string>, index: Option<nat>)
      ensures Valid() && parent == null && this.alias == alias && this.index == index && chain == [this]
    {
      parent := null;
      this.alias := alias;
      this.index := index;
      chain := [this];
    }

    ghost predicate Valid()
      reads this, chain
      decreases |chain|
    {
      && chain != [] && chain[0] == this
      && (if parent == null then chain == [this]
          else |chain| > 1 && chain[1] == parent && parent.chain == chain[1..] && parent.Valid())
    }

    /** The path of the parent, followed by one's own element, if there is one. */
    ghost function PathOf(): Path
      requires Valid()
      reads this, chain
      decreases |chain|
    {
      (if parent == null then [] else parent.PathOf()) + Own(index, alias)
    }

    ghost function WalkUp(): Path
      requires Valid()
      reads this, chain
      decreases |chain|
    {
      Own(index, alias) + (if parent == null then [] else parent.WalkUp())
    }

    /** Walking up and flipping is reading from the root to the leaf. */
    lemma {:induction false} FlippedWalk()
      requires Valid()
      ensures Reversed(WalkUp()) == PathOf()
      decreases |chain|
    {
      if parent == null {
        OwnReversed(index, alias, []);
      } else {
        parent.FlippedWalk();
        OwnReversed(index, alias, parent.WalkUp());
      }
    }

    /** From this context up to the root. */
    method Walked() returns (path: Path)
      requires Valid()
      ensures path == WalkUp()
    {
      path := [];
      var it: FieldContext? := this;
      ghost var all, left := WalkUp(), WalkUp();
      while it != null
        invariant it != null ==> it.Valid() && left == it.WalkUp()
        invariant it == null ==> left == []
        invariant path + left == all
        decreases if it == null then 0 else |it.chain|
      {
        ghost var own := Own(it.index, it.alias);
        ghost var above := if it.parent == null then [] else it.parent.WalkUp();
        Moved(path, own, above, left, all);
        if it.index.Some? {
          path := path + [Index(it.index.value)];
        } else if it.alias.Some? {
          path := path + [Name(it.alias.value)];
        } else {
          assert path + own == path;
        }
        it, left := it.parent, above;
      }
      assert path + [] == path;
    }

    method Path() returns (path: Path)
      requires Valid()
      ensures path == PathOf()
    {
      path := Walked();
      FlippedWalk();
      path := Flipped(path);
    }
  }

  /** `WithFieldContext`: link a new context to the current one. Its path is the current path
      followed by its own element. */
  method WithFieldContext(current: FieldContext?, rc: FieldContext)
    requires rc.Valid() && rc.parent == null
    requires current != null ==> current.Valid() && rc !in current.chain
    modifies rc
    ensures rc.Valid() && rc.parent == current && unchanged(rc`alias) && unchanged(rc`index)
    ensures current != null ==> current.Valid() && current.PathOf() == old(current.PathOf())
    ensures rc.PathOf() == (if current == null then [] else current.PathOf()) + Own(rc.index, rc.alias)
  {
    rc.parent := current;
    rc.chain := [rc] + (if current == null then [] else current.chain);
  }

  // --- Path contexts, used while decoding input ---

  class PathContext {
    var parentField: FieldContext?
    var parent: PathContext?
    var field: Option<string>
    var index: Option<nat>
    ghost var chain: seq<PathContext>

    /** `NewPathWithField` and `NewPathWithIndex`. */
    constructor (field: Option<string>, index: Option<nat>)
      ensures Valid() && parentField == null && parent == null && chain == [this]
      ensures this.field == field && this.index == index
    {
      parentField := null;
      parent := null;
      this.field := field;
      this.index := index;
      chain := [this];
    }

    ghost predicate Valid()
      reads this, chain
      decreases |chain|
    {
      && chain != [] && chain[0] == this
      && (if parent == null then chain == [this]
          else |chain| > 1 && chain[1] == parent && parent.chain == chain[1..] && parent.Valid())
    }

    ghost function InputPath(): Path
      requires Valid()
      reads this, chain
      decreases |chain|
    {
      (if parent == null then [] else parent.InputPath()) + Own(index, field)
    }

    ghost function WalkUp(): Path
      requires Valid()
      reads this, chain
      decreases |chain|
    {
      Own(index, field) + (if parent == null then [] else parent.WalkUp())
    }

    lemma {:induction false} FlippedWalk()
      requires Valid()
      ensures Reversed(WalkUp()) == InputPath()
      decreases |chain|
    {
      if parent == null {
        OwnReversed(index, field, []);
      } else {
        parent.FlippedWalk();
        OwnReversed(index, field, parent.WalkUp());
      }
    }

    /** From this context up to the root. */
    method Walked() returns (path: Path)
      requires Valid()
      ensures path == WalkUp()
    {
      path := [];
      var it: PathContext? := this;
      ghost var all, left := WalkUp(), WalkUp();
      while it != null
        invariant it != null ==> it.Valid() && left == it.WalkUp()
        invariant it == null ==> left == []
        invariant path + left == all
        decreases if it == null then 0 else |it.chain|
      {
        ghost var own := Own(it.index, it.field);
        ghost var above := if it.parent == null then [] else it.parent.WalkUp();
        Moved(path, own, above, left, all);
        if it.index.Some? {
          path := path + [Index(it.index.value)];
        } else if it.field.Some? {
          path := path + [Name(it.field.value)];
        } else {
          assert path + own == path;
        }
        it, left := it.parent, above;
      }
      assert path + [] == path;
    }

    /** The path of the field whose arguments are decoded, then the elements of the input. */
    method Path() returns (path: Path)
      requires Valid() && (parentField != null ==> parentField.Valid())
      ensures path == (if parentField == null then [] else parentField.PathOf()) + InputPath()
    {
      path := Walked();
      FlippedWalk();
      path := Flipped(path);
      if parentField != null {
        var fieldPath := parentField.Path();
        path := fieldPath + path;
      }
    }
  }

  /** The two contexts a Go context carries. */
  datatype Context = Context(field: FieldContext?, path: PathContext?)

  ghost predicate ValidContext(ctx: Context)
    reads ctx.field, if ctx.field == null then [] else ctx.field.chain
    reads ctx.path, if ctx.path == null then [] else ctx.path.chain
  {
    && (ctx.field != null ==> ctx.field.Valid())
    && (ctx.path != null ==> ctx.path.Valid() && ctx.path.parentField == ctx.field)
  }

  /** Where an error raised under this context is reported. */
  ghost function PathIn(ctx: Context): Path
    requires ValidContext(ctx)
    reads ctx.field, if ctx.field == null then [] else ctx.field.chain
    reads ctx.path, if ctx.path == null then [] else ctx.path.chain
  {
    (if ctx.field == null then [] else ctx.field.PathOf()) + (if ctx.path == null then [] else ctx.path.InputPath())
  }

  /** `WithPathContext`: the path grows by the new context's element. */
  method WithPathContext(ctx: Context, fic: PathContext) returns (r: Context)
    requires ValidContext(ctx) && fic.Valid() && fic.chain == [fic] && fic.parentField == null
    requires ctx.path != null ==> fic !in ctx.path.chain
    modifies fic
    ensures r == Context(ctx.field, fic) && ValidContext(ctx) && ValidContext(r)
    ensures unchanged(fic`field) && unchanged(fic`index)
    ensures PathIn(ctx) == old(PathIn(ctx)) && PathIn(r) == PathIn(ctx) + Own(fic.index, fic.field)
  {
    if ctx.field != null {
      fic.parentField := ctx.field;
    }
    if ctx.path != null {
      fic.parent := ctx.path;
      fic.chain := [fic] + ctx.path.chain;
    }
    r := Context(ctx.field, fic);
  }

  method GetPath(ctx: Context) returns (path: Path)
    requires ValidContext(ctx)
    ensures path == PathIn(ctx)
  {
    if ctx.path != null {
      path := ctx.path.Path();
    } else if ctx.field != null {
      path := ctx.field.Path();
    } else {
      path := [];
    }
  }

  // --- Errors get their path once ---

  /** An error; the empty path stands for no path. */
  class GqlError {
    var path: Path

    constructor (path: Path)
      ensures this.path == path
    {
      this.path := path;
    }
  }

  /** `ErrorOnPath`: the first wrapper under a context with a path fixes the path. */
  method ErrorOnPath(ctx: Context, err: GqlError)
    requires ValidContext(ctx)
    modifies err
    ensures err.path == if old(err.path) == [] then old(PathIn(ctx)) else old(err.path)
  {
    if err.path == [] {
      var path := GetPath(ctx);
      err.path := path;
    }
  }

  /** However many wrappers an error passes on its way out, the innermost one's path stays. */
  method ErrorOnPaths(wrappers: seq<Context>, err: GqlError)
    requires wrappers != [] && forall i :: 0 <= i < |wrappers| ==> ValidContext(wrappers[i])
    requires err.path == [] && PathIn(wrappers[0]) != []
    modifies err
    ensures err.path == old(PathIn(wrappers[0]))
  {
    ErrorOnPath(wrappers[0], err);
    var i := 1;
    while i < |wrappers|
      invariant 1 <= i <= |wrappers|
      invariant err.path == old(PathIn(wrappers[0]))
    {
      ErrorOnPath(wrappers[i], err);
      i := i + 1;
    }
  }
}
