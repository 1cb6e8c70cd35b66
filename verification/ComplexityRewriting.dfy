/** Rewritings of a query, at any depth, that leave its complexity alone. */
module ComplexityRewriting {
  import opened Wrappers
  import opened Query
  import opened Complexity
  import opened ComplexityLaws

  /** Fields that differ in their sub-selections only, or inline fragments. */
  predicate SameHead(s: Selection, t: Selection) {
    match t
    case Field(pos, name, alias, owner, type_, arguments, directives, _) =>
      s.Field? && s == Field(pos, name, alias, owner, type_, arguments, directives, s.selections)
    case InlineFragment(_, _, _, _) => s.InlineFragment?
    case FragmentSpread(_, _, _) => false
  }

  /** `t` is `s`, but at any depth selections may be rearranged, and spreads replaced by inline
      fragments with the body of their fragment. */
  ghost predicate Alike(op: Operation, s: Selection, t: Selection)
    decreases t
  {
    match t
    case Field(_, _, _, _, _, _, _, inner) => SameHead(s, t) && AlikeAll(op, s.selections, inner)
    case InlineFragment(_, _, _, inner) =>
      || (SameHead(s, t) && AlikeAll(op, s.selections, inner))
      || (s.FragmentSpread? && s.name in op.fragments && AlikeAll(op, op.fragments[s.name].selections, inner))
    case FragmentSpread(_, _, _) => s == t
  }

  ghost predicate AlikeAll(op: Operation, a: seq<Selection>, b: seq<Selection>)
    decreases b
  {
    if b == [] then a == []
    else exists i :: 0 <= i < |a| && Alike(op, a[i], b[0]) && AlikeAll(op, a[..i] + a[i + 1..], b[1..])
  }

  /** The same fragments, with bodies rewritten. */
  ghost predicate AlikeDocuments(op: Operation, op': Operation) {
    && op.fragments.Keys == op'.fragments.Keys
    && forall name :: name in op.fragments ==>
         AlikeAll(op, op.fragments[name].selections, op'.fragments[name].selections)
  }

  /** The selection that became the first one of `b`, and the rest. */
  lemma {:induction false} FirstAlike(op: Operation, a: seq<Selection>, b: seq<Selection>)
    returns (i: nat, rest: seq<Selection>)
    requires b != [] && AlikeAll(op, a, b)
    ensures i < |a| && rest == a[..i] + a[i + 1..] && Alike(op, a[i], b[0]) && AlikeAll(op, rest, b[1..])
  {
    i :| 0 <= i < |a| && Alike(op, a[i], b[0]) && AlikeAll(op, a[..i] + a[i + 1..], b[1..]);
    rest := a[..i] + a[i + 1..];
  }

  // --- A rewritten document is acyclic, too ---

  lemma {:induction false} AlikeBelow(op: Operation, op': Operation, s: Selection, t: Selection,
                                      rank: map<string, nat>, below: nat)
    requires Acyclic(op, rank) && AlikeDocuments(op, op') && Alike(op, s, t) && SpreadBelow(op, s, rank, below)
    ensures SpreadBelow(op', t, rank, below)
    decreases t, 0
  {
    if s.FragmentSpread? && t.InlineFragment? {
      SpreadsBelowGrows(op, op.fragments[s.name].selections, rank, rank[s.name], below);
      AlikeAllBelow(op, op', op.fragments[s.name].selections, t.selections, rank, below);
    } else if !t.FragmentSpread? {
      AlikeAllBelow(op, op', s.selections, t.selections, rank, below);
    }
  }

  lemma {:induction false} RestBelow(op: Operation, a: seq<Selection>, i: nat, rest: seq<Selection>,
                                     rank: map<string, nat>, below: nat)
    requires SpreadsBelow(op, a, rank, below) && i < |a| && rest == a[..i] + a[i + 1..]
    ensures SpreadsBelow(op, rest, rank, below)
  {
    forall j | 0 <= j < |rest| ensures SpreadBelow(op, rest[j], rank, below) {
      assert rest[j] == a[if j < i then j else j + 1];
    }
  }

  lemma {:induction false} AlikeAllBelow(op: Operation, op': Operation, a: seq<Selection>, b: seq<Selection>,
                                         rank: map<string, nat>, below: nat)
    requires Acyclic(op, rank) && AlikeDocuments(op, op') && AlikeAll(op, a, b) && SpreadsBelow(op, a, rank, below)
    ensures SpreadsBelow(op', b, rank, below)
    decreases b
  {
    if b != [] {
      var i, rest := FirstAlike(op, a, b);
      RestBelow(op, a, i, rest, rank, below);
      AlikeBelow(op, op', a[i], b[0], rank, below);
      AlikeAllBelow(op, op', rest, b[1..], rank, below);
      assert b == [b[0]] + b[1..];
    }
  }

  lemma {:induction false} AlikeAcyclic(op: Operation, op': Operation, rank: map<string, nat>)
    requires Acyclic(op, rank) && AlikeDocuments(op, op')
    ensures Acyclic(op', rank)
  {
    forall name | name in op'.fragments
      ensures name in rank && SpreadsBelow(op', op'.fragments[name].selections, rank, rank[name])
    {
      assert name in op.fragments;
      AlikeAllBelow(op, op', op.fragments[name].selections, op'.fragments[name].selections, rank, rank[name]);
    }
  }

  // --- And costs the same ---

  lemma {:induction false} AlikeCosts(schema: Schema, costs: Costs, op: Operation, op': Operation, s: Selection,
                                      t: Selection, rank: map<string, nat>, below: nat)
    requires Acyclic(op, rank) && Acyclic(op', rank) && AlikeDocuments(op, op') && Alike(op, s, t)
    requires SpreadBelow(op, s, rank, below) && SpreadBelow(op', t, rank, below)
    ensures SelectionComplexity(schema, costs, op, s, rank, below)
         == SelectionComplexity(schema, costs, op', t, rank, below)
    decreases below, t, 0
  {
    if t.FragmentSpread? {
      AlikeSetCosts(schema, costs, op, op', op.fragments[s.name].selections, op'.fragments[s.name].selections,
                    rank, rank[s.name]);
    } else if s.FragmentSpread? {
      InlinedCosts(schema, costs, op, op', s, t, rank, below);
    } else {
      AlikeSetCosts(schema, costs, op, op', s.selections, t.selections, rank, below);
      InnerDecides(schema, costs, op, op', s, t, rank, below);
    }
  }

  /** The cost of a field or an inline fragment is that of what is inside, and of nothing else. */
  lemma {:induction false} InnerDecides(schema: Schema, costs: Costs, op: Operation, op': Operation, s: Selection,
                                        t: Selection, rank: map<string, nat>, below: nat)
    requires Acyclic(op, rank) && Acyclic(op', rank)
    requires SpreadBelow(op, s, rank, below) && SpreadBelow(op', t, rank, below)
    requires SameHead(s, t)
    requires SelectionSetComplexity(schema, costs, op, s.selections, rank, below)
          == SelectionSetComplexity(schema, costs, op', t.selections, rank, below)
    ensures SelectionComplexity(schema, costs, op, s, rank, below)
         == SelectionComplexity(schema, costs, op', t, rank, below)
  {
  }

  lemma {:induction false} InlinedCosts(schema: Schema, costs: Costs, op: Operation, op': Operation, s: Selection,
                                        t: Selection, rank: map<string, nat>, below: nat)
    requires Acyclic(op, rank) && Acyclic(op', rank) && AlikeDocuments(op, op') && Alike(op, s, t)
    requires SpreadBelow(op, s, rank, below) && SpreadBelow(op', t, rank, below)
    requires s.FragmentSpread? && t.InlineFragment?
    ensures SelectionComplexity(schema, costs, op, s, rank, below)
         == SelectionComplexity(schema, costs, op', t, rank, below)
    decreases below, t.selections, 2
  {
    var body := op.fragments[s.name].selections;
    SpreadsBelowGrows(op, body, rank, rank[s.name], below);
    BelowIrrelevant(schema, costs, op, body, rank, rank[s.name], below);
    AlikeSetCosts(schema, costs, op, op', body, t.selections, rank, below);
  }

  lemma {:induction false} AlikeSetCosts(schema: Schema, costs: Costs, op: Operation, op': Operation,
                                         a: seq<Selection>, b: seq<Selection>, rank: map<string, nat>, below: nat)
    requires Acyclic(op, rank) && Acyclic(op', rank) && AlikeDocuments(op, op') && AlikeAll(op, a, b)
    requires SpreadsBelow(op, a, rank, below) && SpreadsBelow(op', b, rank, below)
    ensures SelectionSetComplexity(schema, costs, op, a, rank, below)
         == SelectionSetComplexity(schema, costs, op', b, rank, below)
    decreases below, b, 1
  {
    AlikeTotals(schema, costs, op, op', a, b, rank, below);
    ComplexityIsSaturatedTotal(schema, costs, op, a, rank, below);
    ComplexityIsSaturatedTotal(schema, costs, op', b, rank, below);
  }

  lemma {:induction false} AlikeTotals(schema: Schema, costs: Costs, op: Operation, op': Operation,
                                       a: seq<Selection>, b: seq<Selection>, rank: map<string, nat>, below: nat)
    requires Acyclic(op, rank) && Acyclic(op', rank) && AlikeDocuments(op, op') && AlikeAll(op, a, b)
    requires SpreadsBelow(op, a, rank, below) && SpreadsBelow(op', b, rank, below)
    ensures Total(schema, costs, op, a, rank, below) == Total(schema, costs, op', b, rank, below)
    decreases below, b, 0
  {
    if b != [] {
      var i, rest := FirstAlike(op, a, b);
      RestBelow(op, a, i, rest, rank, below);
      assert SpreadBelow(op, a[i], rank, below) && SpreadBelow(op', b[0], rank, below);
      assert SpreadsBelow(op', b[1..], rank, below);
      AlikeCosts(schema, costs, op, op', a[i], b[0], rank, below);
      AlikeTotals(schema, costs, op, op', rest, b[1..], rank, below);
      TotalsFrom(schema, costs, op, op', a, b, i, rest, rank, below);
    }
  }

  lemma {:induction false} TotalsFrom(schema: Schema, costs: Costs, op: Operation, op': Operation,
                                      a: seq<Selection>, b: seq<Selection>, i: nat, rest: seq<Selection>,
                                      rank: map<string, nat>, below: nat)
    requires Acyclic(op, rank) && Acyclic(op', rank) && b != [] && i < |a| && rest == a[..i] + a[i + 1..]
    requires SpreadsBelow(op, a, rank, below) && SpreadsBelow(op', b, rank, below) &&
             SpreadsBelow(op, rest, rank, below)
    requires SelectionComplexity(schema, costs, op, a[i], rank, below)
          == SelectionComplexity(schema, costs, op', b[0], rank, below)
    requires Total(schema, costs, op, rest, rank, below) == Total(schema, costs, op', b[1..], rank, below)
    ensures Total(schema, costs, op, a, rank, below) == Total(schema, costs, op', b, rank, below)
  {
    TotalWithout(schema, costs, op, a, i, rest, rank, below);
  }

  lemma {:induction false} TotalWithout(schema: Schema, costs: Costs, op: Operation, a: seq<Selection>, i: nat,
                                        rest: seq<Selection>, rank: map<string, nat>, below: nat)
    requires Acyclic(op, rank) && SpreadsBelow(op, a, rank, below) && i < |a| && rest == a[..i] + a[i + 1..]
    ensures SpreadsBelow(op, rest, rank, below)
    ensures Total(schema, costs, op, a, rank, below)
         == SelectionComplexity(schema, costs, op, a[i], rank, below) + Total(schema, costs, op, rest, rank, below)
  {
    TotalAppend(schema, costs, op, a[..i], a[i + 1..], rank, below);
    TotalAppend(schema, costs, op, a[..i], a[i..], rank, below);
    assert a == a[..i] + a[i..] && a[i..][0] == a[i] && a[i..][1..] == a[i + 1..];
  }

  /** Rearranging selections and inlining spreads, anywhere in the query and in its fragments and
      at any depth, does not change the complexity, whatever the custom costs. */
  lemma {:induction false} RewritingIrrelevant(schema: Schema, costs: Costs, op: Operation, op': Operation,
                                               a: seq<Selection>, b: seq<Selection>, rank: map<string, nat>, below: nat)
    requires Acyclic(op, rank) && SpreadsBelow(op, a, rank, below)
    requires AlikeDocuments(op, op') && AlikeAll(op, a, b)
    ensures Acyclic(op', rank) && SpreadsBelow(op', b, rank, below)
    ensures SelectionSetComplexity(schema, costs, op, a, rank, below)
         == SelectionSetComplexity(schema, costs, op', b, rank, below)
  {
    AlikeAcyclic(op, op', rank);
    AlikeAllBelow(op, op', a, b, rank, below);
    AlikeSetCosts(schema, costs, op, op', a, b, rank, below);
  }

  // --- Instances: one rearrangement, one spread ---

  lemma {:induction false} SelfAlike(op: Operation, s: Selection)
    ensures Alike(op, s, s)
    decreases s
  {
    if !s.FragmentSpread? {
      forall i | 0 <= i < |s.selections| ensures Alike(op, s.selections[i], s.selections[i]) {
        SelfAlike(op, s.selections[i]);
      }
      Pointwise(op, s.selections, s.selections);
    }
  }

  lemma {:induction false} Pointwise(op: Operation, a: seq<Selection>, b: seq<Selection>)
    requires |a| == |b| && forall i :: 0 <= i < |a| ==> Alike(op, a[i], b[i])
    ensures AlikeAll(op, a, b)
    decreases |b|
  {
    if b != [] {
      Pointwise(op, a[1..], b[1..]);
      assert a[..0] + a[0 + 1..] == a[1..];
    }
  }

  lemma {:induction false} SelfAlikeDocument(op: Operation)
    ensures AlikeDocuments(op, op)
  {
    forall name | name in op.fragments
      ensures AlikeAll(op, op.fragments[name].selections, op.fragments[name].selections)
    {
      var body := op.fragments[name].selections;
      forall i | 0 <= i < |body| ensures Alike(op, body[i], body[i]) {
        SelfAlike(op, body[i]);
      }
      Pointwise(op, body, body);
    }
  }

  lemma {:induction false} Rearranged(op: Operation, a: seq<Selection>, b: seq<Selection>)
    requires multiset(a) == multiset(b)
    ensures AlikeAll(op, a, b)
    decreases |b|
  {
    if b == [] {
      assert |multiset(a)| == |multiset(b)|;
    } else {
      var i := Matching(b, a);
      SelfAlike(op, b[0]);
      Rearranged(op, a[..i] + a[i + 1..], b[1..]);
    }
  }

  /** Where in a rearrangement of `a` its first element went. */
  lemma {:induction false} Matching<T>(a: seq<T>, b: seq<T>) returns (i: nat)
    requires a != [] && multiset(a) == multiset(b)
    ensures i < |b| && b[i] == a[0] && multiset(a[1..]) == multiset(b[..i] + b[i + 1..])
  {
    assert a[0] in multiset(b);
    i :| 0 <= i < |b| && b[i] == a[0];
    assert a[..0] + a[0 + 1..] == a[1..] by { assert a[..0] == []; }
    Without(a, 0);
    Without(b, i);
  }

  lemma {:induction false} Without<T>(b: seq<T>, i: nat)
    requires i < |b|
    ensures multiset(b[..i] + b[i + 1..]) == multiset(b) - multiset{b[i]}
  {
    assert b == b[..i] + ([b[i]] + b[i + 1..]);
    assert multiset(b) == multiset(b[..i]) + (multiset{b[i]} + multiset(b[i + 1..]));
  }

  /** The complexity does not depend on the order of the selections. */
  lemma {:induction false} OrderIrrelevant(schema: Schema, costs: Costs, op: Operation,
                                           a: seq<Selection>, b: seq<Selection>, rank: map<string, nat>, below: nat)
    requires Acyclic(op, rank) && SpreadsBelow(op, a, rank, below) && SpreadsBelow(op, b, rank, below)
    requires multiset(a) == multiset(b)
    ensures SelectionSetComplexity(schema, costs, op, a, rank, below)
         == SelectionSetComplexity(schema, costs, op, b, rank, below)
  {
    SelfAlikeDocument(op);
    Rearranged(op, a, b);
    RewritingIrrelevant(schema, costs, op, op, a, b, rank, below);
  }

  /** A spread costs what an inline fragment with the same body costs, anywhere in a list. */
  lemma {:induction false} SpreadIsInline(schema: Schema, costs: Costs, op: Operation,
                                          a: seq<Selection>, spread: Selection, b: seq<Selection>,
                                          pos: nat, condition: string, directives: seq<Directive>,
                                          rank: map<string, nat>, below: nat)
    requires Acyclic(op, rank) && spread.FragmentSpread?
    requires SpreadsBelow(op, a, rank, below) && SpreadBelow(op, spread, rank, below) &&
             SpreadsBelow(op, b, rank, below)
    ensures var inline := InlineFragment(pos, condition, directives, op.fragments[spread.name].selections);
            && SpreadsBelow(op, a + [spread] + b, rank, below) && SpreadsBelow(op, a + [inline] + b, rank, below)
            && SelectionSetComplexity(schema, costs, op, a + [spread] + b, rank, below)
            == SelectionSetComplexity(schema, costs, op, a + [inline] + b, rank, below)
  {
    var body := op.fragments[spread.name].selections;
    var inline := InlineFragment(pos, condition, directives, body);
    forall s ensures Alike(op, s, s) {
      SelfAlike(op, s);
    }
    Pointwise(op, body, body);
    Pointwise(op, a + [spread] + b, a + [inline] + b);
    SelfAlikeDocument(op);
    RewritingIrrelevant(schema, costs, op, op, a + [spread] + b, a + [inline] + b, rank, below);
  }
}
