/** Lists up to the removal of later duplicates.

    Field collection appends the same sub-selections to a group more than once, so the
    groups it builds are only determined up to `Dedup`. */
module Duplicates {

  /** `acc`, followed by the elements of `s` that are not there yet, in order. */
  function Onto<T(==)>(acc: seq<T>, s: seq<T>): seq<T>
    decreases |s|
  {
    if s == [] then acc
    else Onto(if s[0] in acc then acc else acc + [s[0]], s[1..])
  }

  /** `s` without the later occurrences of each element. */
  function Dedup<T(==)>(s: seq<T>): seq<T> {
    Onto([], s)
  }

  ghost predicate Distinct<T>(s: seq<T>) {
    forall i, j :: 0 <= i < j < |s| ==> s[i] != s[j]
  }

  /** Equal once later duplicates are dropped. */
  ghost predicate Same<T>(a: seq<T>, b: seq<T>) {
    Dedup(a) == Dedup(b)
  }

  lemma {:induction false} OntoElements<T>(acc: seq<T>, s: seq<T>)
    ensures forall x :: x in Onto(acc, s) <==> x in acc || x in s
    ensures acc <= Onto(acc, s)
    decreases |s|
  {
    if s != [] {
      assert s == [s[0]] + s[1..];
      OntoElements(if s[0] in acc then acc else acc + [s[0]], s[1..]);
    }
  }

  lemma {:induction false} OntoDistinct<T>(acc: seq<T>, s: seq<T>)
    requires Distinct(acc)
    ensures Distinct(Onto(acc, s))
    decreases |s|
  {
    if s != [] {
      OntoDistinct(if s[0] in acc then acc else acc + [s[0]], s[1..]);
    }
  }

  lemma {:induction false} OntoAppend<T>(acc: seq<T>, a: seq<T>, b: seq<T>)
    ensures Onto(acc, a + b) == Onto(Onto(acc, a), b)
    decreases |a|
  {
    if a == [] {
      assert a + b == b;
    } else {
      assert (a + b)[1..] == a[1..] + b;
      OntoAppend(if a[0] in acc then acc else acc + [a[0]], a[1..], b);
    }
  }

  lemma {:induction false} OntoPresent<T>(acc: seq<T>, s: seq<T>)
    requires forall x :: x in s ==> x in acc
    ensures Onto(acc, s) == acc
    decreases |s|
  {
    if s != [] {
      assert s[0] in s;
      OntoPresent(acc, s[1..]);
    }
  }

  /** Adding to `acc` what is left of `b + s` is adding `b` and then `s`. */
  lemma {:induction false} OntoOnto<T>(acc: seq<T>, b: seq<T>, s: seq<T>)
    ensures Onto(acc, Onto(b, s)) == Onto(Onto(acc, b), s)
    decreases |s|
  {
    if s != [] {
      var x := s[0];
      OntoElements(acc, b);
      if x in b {
        OntoOnto(acc, b, s[1..]);
      } else {
        OntoOnto(acc, b + [x], s[1..]);
        OntoAppend(acc, b, [x]);
        assert [x][1..] == [];
      }
    }
  }

  lemma {:induction false} OntoDedup<T>(acc: seq<T>, s: seq<T>)
    ensures Onto(acc, Dedup(s)) == Onto(acc, s)
  {
    OntoOnto(acc, [], s);
    assert Onto(acc, []) == acc;
  }

  /** `Dedup` keeps the elements, is duplicate-free, and applying it again changes nothing. */
  lemma {:induction false} DedupProperties<T>(s: seq<T>)
    ensures forall x :: x in Dedup(s) <==> x in s
    ensures Distinct(Dedup(s))
    ensures Dedup(Dedup(s)) == Dedup(s)
  {
    OntoElements([], s);
    OntoDistinct([], s);
    OntoDedup([], s);
  }

  /** A duplicate-free list is its own `Dedup`. */
  lemma {:induction false} OntoOfDistinct<T>(acc: seq<T>, s: seq<T>)
    requires Distinct(acc + s)
    ensures Onto(acc, s) == acc + s
    decreases |s|
  {
    if s == [] {
      assert acc + s == acc;
    } else {
      forall i | 0 <= i < |acc| ensures acc[i] != s[0] {
        assert (acc + s)[i] == acc[i] && (acc + s)[|acc|] == s[0];
      }
      assert (acc + [s[0]]) + s[1..] == acc + s;
      OntoOfDistinct(acc + [s[0]], s[1..]);
    }
  }

  lemma {:induction false} SameAppend<T>(a: seq<T>, a': seq<T>, b: seq<T>, b': seq<T>)
    requires Same(a, a') && Same(b, b')
    ensures Same(a + b, a' + b')
  {
    OntoAppend([], a, b);
    OntoAppend([], a', b');
    OntoDedup(Dedup(a), b);
    OntoDedup(Dedup(a), b');
  }

  /** Appending what is already there is unobservable. */
  lemma {:induction false} SameAbsorb<T>(a: seq<T>, b: seq<T>)
    requires forall x :: x in b ==> x in a
    ensures Same(a + b, a)
  {
    OntoAppend([], a, b);
    OntoElements([], a);
    OntoPresent(Dedup(a), b);
  }

  lemma {:induction false} SameElements<T>(a: seq<T>, b: seq<T>)
    requires Same(a, b)
    ensures forall x :: x in a <==> x in b
  {
    OntoElements([], a);
    OntoElements([], b);
  }
}
