/** Response paths. */
module Paths {
  datatype Element = Name(name: string) | Index(index: nat)

  type Path = seq<Element>

  lemma {:induction false} SiblingsAreApart(p: Path, a: Element, b: Element, q: Path)
    requires p + [a] <= q && p + [b] <= q
    ensures a == b
  {
    assert (p + [a])[|p|] == a && (p + [b])[|p|] == b;
  }

  lemma {:induction false} BeneathIsPrefix(p: Path, a: Element, q: Path)
    requires p + [a] <= q
    ensures p <= q && p != q
  {
    assert p <= p + [a];
  }
}
