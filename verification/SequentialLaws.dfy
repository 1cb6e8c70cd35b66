/** Lists of scalars complain once. */
module SequentialLaws {
  import opened Paths
  import opened Execution
  import opened Interleaving
  import opened Sequential

  lemma {:induction false} StillHas(errors: seq<Error>, e: Error, p: Path)
    ensures HasFieldError(errors + [e], p) <==> HasFieldError(errors, p) || e.path == p
  {
    var all := errors + [e];
    if HasFieldError(errors, p) {
      var i :| 0 <= i < |errors| && errors[i].path == p;
      assert all[i].path == p;
    }
    assert all[|errors|] == e;
  }

  lemma {:induction false} ComplainedTwice(errors: seq<Error>, p: Path)
    ensures Complained(Complained(errors, p), p) == Complained(errors, p)
  {
    StillHas(errors, Error(p, MustNotBeNull), p);
  }

  lemma {:induction false} MissingLast(items: seq<Item>, s: Item, nonNull: bool)
    ensures MissingAmong(items + [s], nonNull) == MissingAmong(items, nonNull) + MissingIn(s, nonNull)
    decreases |items|
  {
    if items == [] {
      assert [] + [s] == [s] && [s][1..] == [];
    } else {
      assert (items + [s])[1..] == items[1..] + [s];
      MissingLast(items[1..], s, nonNull);
    }
  }

  /** However many items are missing, a list of scalars complains once. */
  lemma {:induction false} ScalarsComplainOnce(errors: seq<Error>, items: seq<Item>, p: Path, nonNull: bool, n: nat)
    requires n <= |items|
    ensures AfterScalars(errors, items, p, nonNull, n)
         == if MissingAmong(items[..n], nonNull) > 0 then Complained(errors, p) else errors
    decreases items, n
  {
    if n > 0 {
      var s := items[n - 1];
      assert items[..n] == items[..n - 1] + [s];
      MissingLast(items[..n - 1], s, nonNull);
      ScalarsComplainOnce(errors, items, p, nonNull, n - 1);
      if s.ItemList? {
        assert s.items[..|s.items|] == s.items;
        ScalarsComplainOnce(AfterScalars(errors, items, p, nonNull, n - 1), s.items, p, s.itemsNonNull, |s.items|);
      }
      ComplainedTwice(errors, p);
    }
  }
}
