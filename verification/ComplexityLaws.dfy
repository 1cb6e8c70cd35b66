/** What the computed complexity means. */
module ComplexityLaws {
  import opened Wrappers
  import opened Query
  import opened Complexity
  import opened Reachability

  // --- The computed value is a saturated sum ---

  /** The costs of the selections, added up without bound. */
  ghost function Total(schema: Schema, costs: Costs, op: Operation, selections: seq<Selection>,
                       rank: map<string, nat>, below: nat): nat
    requires Acyclic(op, rank) && SpreadsBelow(op, selections, rank, below)
    decreases |selections|
  {
    if selections == [] then 0
    else SelectionComplexity(schema, costs, op, selections[0], rank, below)
         + Total(schema, costs, op, selections[1..], rank, below)
  }

  lemma {:induction false} TotalAppend(schema: Schema, costs: Costs, op: Operation,
                                       a: seq<Selection>, b: seq<Selection>, rank: map<string, nat>, below: nat)
    requires Acyclic(op, rank) && SpreadsBelow(op, a, rank, below) && SpreadsBelow(op, b, rank, below)
    ensures SpreadsBelow(op, a + b, rank, below)
    ensures Total(schema, costs, op, a + b, rank, below)
         == Total(schema, costs, op, a, rank, below) + Total(schema, costs, op, b, rank, below)
    decreases |a|
  {
    if a == [] {
      assert a + b == b;
    } else {
      assert (a + b)[0] == a[0] && (a + b)[1..] == a[1..] + b;
      TotalAppend(schema, costs, op, a[1..], b, rank, below);
    }
  }

  /** Saturating step by step is saturating once. */
  lemma {:induction false} ComplexityIsSaturatedTotal(schema: Schema, costs: Costs, op: Operation,
                                                      selections: seq<Selection>, rank: map<string, nat>, below: nat)
    requires Acyclic(op, rank) && SpreadsBelow(op, selections, rank, below)
    ensures SelectionSetComplexity(schema, costs, op, selections, rank, below)
         == Min(Total(schema, costs, op, selections, rank, below), MAX_INT)
    decreases |selections|
  {
    if selections != [] {
      var n := |selections| - 1;
      ComplexityIsSaturatedTotal(schema, costs, op, selections[..n], rank, below);
      TotalAppend(schema, costs, op, selections[..n], [selections[n]], rank, below);
      assert selections[..n] + [selections[n]] == selections;
      assert [selections[n]][1..] == [];
    }
  }

  // --- The witness of acyclicity does not matter ---

  lemma {:induction false} BelowIrrelevant(schema: Schema, costs: Costs, op: Operation, selections: seq<Selection>,
                                           rank: map<string, nat>, below: nat, below': nat)
    requires Acyclic(op, rank) && SpreadsBelow(op, selections, rank, below) &&
             SpreadsBelow(op, selections, rank, below')
    ensures SelectionSetComplexity(schema, costs, op, selections, rank, below)
         == SelectionSetComplexity(schema, costs, op, selections, rank, below')
    decreases selections
  {
    if selections != [] {
      var n := |selections| - 1;
      BelowIrrelevant(schema, costs, op, selections[..n], rank, below, below');
      BelowIrrelevantOne(schema, costs, op, selections[n], rank, below, below');
    }
  }

  lemma {:induction false} BelowIrrelevantOne(schema: Schema, costs: Costs, op: Operation, s: Selection,
                                              rank: map<string, nat>, below: nat, below': nat)
    requires Acyclic(op, rank) && SpreadBelow(op, s, rank, below) && SpreadBelow(op, s, rank, below')
    ensures SelectionComplexity(schema, costs, op, s, rank, below)
         == SelectionComplexity(schema, costs, op, s, rank, below')
    decreases s
  {
    if !s.FragmentSpread? {
      BelowIrrelevant(schema, costs, op, s.selections, rank, below, below');
    }
  }

  lemma {:induction false} SpreadsBelowGrows(op: Operation, selections: seq<Selection>,
                                             rank: map<string, nat>, below: nat, below': nat)
    requires SpreadsBelow(op, selections, rank, below) && below <= below'
    ensures SpreadsBelow(op, selections, rank, below')
    decreases selections
  {
    forall i | 0 <= i < |selections| ensures SpreadBelow(op, selections[i], rank, below') {
      assert SpreadBelow(op, selections[i], rank, below);
      if !selections[i].FragmentSpread? {
        SpreadsBelowGrows(op, selections[i].selections, rank, below, below');
      }
    }
  }

  // --- Nested selection sets ---

  function ObjectOf(s: Selection): string {
    if s.Field? && s.objectDefinition.Some? then s.objectDefinition.value else ""
  }

  /** The walker looks inside this selection: a field must be of a type with fields of its own
      and, if declared on an interface, the interface must have an implementor. */
  predicate LooksInside(schema: Schema, s: Selection) {
    s.Field? ==>
      && HasFields(KindOf(schema, s.typeName))
      && (KindOf(schema, ObjectOf(s)) == Interface ==> ImplementorsOf(schema, ObjectOf(s)) != [])
  }

  /** `inner` is the selection set reached from `selections` by going through `chain`. */
  ghost predicate Nested(schema: Schema, op: Operation, selections: seq<Selection>,
                         chain: seq<Selection>, inner: seq<Selection>)
    decreases |chain|
  {
    if chain == [] then inner == selections
    else chain[0] in selections && LooksInside(schema, chain[0])
         && Nested(schema, op, Body(op, chain[0]), chain[1..], inner)
  }

  /** What a field of an object costs: what the cost function says, if it says something and that is
      no less than what is inside, and otherwise one more than what is inside, up to MAX_INT. */
  ghost function CostOf(costs: Costs, owner: string, field: string, child: Int, arguments: map<string, string>)
    : (c: Int)
    requires child >= 0
    ensures c >= child
  {
    match costs(owner, field, child, arguments)
    case None => Min(1 + child, MAX_INT)
    case Some(c) => if c < child then Min(1 + child, MAX_INT) else c
  }

  lemma {:induction false} FieldCosts(costs: Costs, owner: string, field: string, child: Int,
                                      arguments: map<string, string>)
    requires child >= 0
    ensures FieldComplexity(costs, owner, field, child, arguments) == CostOf(costs, owner, field, child, arguments)
  {
  }

  /** An interface field costs what its most expensive implementor's field costs. */
  lemma {:induction false} InterfaceTakesTheWorst(costs: Costs, implementors: seq<string>, field: string,
                                                  child: Int, arguments: map<string, string>)
    requires child >= 0 && implementors != []
    ensures var c := InterfaceFieldComplexity(costs, implementors, field, child, arguments);
            && (forall t :: t in implementors ==> CostOf(costs, t, field, child, arguments) <= c)
            && (exists t :: t in implementors && CostOf(costs, t, field, child, arguments) == c)
  {
    var k := TheWorst(costs, implementors, field, child, arguments);
    forall t | t in implementors
      ensures CostOf(costs, t, field, child, arguments)
           <= InterfaceFieldComplexity(costs, implementors, field, child, arguments)
    {
      FieldCosts(costs, t, field, child, arguments);
    }
    FieldCosts(costs, implementors[k], field, child, arguments);
    assert implementors[k] in implementors;
  }

  lemma {:induction false} TheWorst(costs: Costs, implementors: seq<string>, field: string, child: Int,
                                    arguments: map<string, string>) returns (k: nat)
    requires child >= 0 && implementors != []
    ensures k < |implementors|
    ensures FieldComplexity(costs, implementors[k], field, child, arguments)
         == InterfaceFieldComplexity(costs, implementors, field, child, arguments)
    ensures forall j :: 0 <= j < |implementors| ==>
              FieldComplexity(costs, implementors[j], field, child, arguments)
              <= InterfaceFieldComplexity(costs, implementors, field, child, arguments)
    decreases |implementors|
  {
    var n := |implementors| - 1;
    k := n;
    if n > 0 {
      var before := TheWorst(costs, implementors[..n], field, child, arguments);
      assert forall j :: 0 <= j < n ==> implementors[j] == implementors[..n][j];
      if FieldComplexity(costs, implementors[before], field, child, arguments)
         >= FieldComplexity(costs, implementors[n], field, child, arguments) {
        k := before;
      }
    }
  }

  /** A selection costs at least what is inside it; for a field of an interface, exactly if there
      is an implementor or nothing inside costs anything. */
  lemma {:induction false} FieldCostsItsChildren(schema: Schema, costs: Costs, op: Operation, f: Selection,
                                                 rank: map<string, nat>, below: nat)
    requires Acyclic(op, rank) && SpreadBelow(op, f, rank, below)
    requires f.Field? && HasFields(KindOf(schema, f.typeName))
    ensures var children := SelectionSetComplexity(schema, costs, op, f.selections, rank, below);
            SelectionComplexity(schema, costs, op, f, rank, below) >= children
            <==> (KindOf(schema, ObjectOf(f)) != Interface || ImplementorsOf(schema, ObjectOf(f)) != []
                  || children == 0)
  {
  }

  lemma {:induction false} SelectionIsCounted(schema: Schema, costs: Costs, op: Operation, selections: seq<Selection>,
                                              i: nat, rank: map<string, nat>, below: nat)
    requires Acyclic(op, rank) && SpreadsBelow(op, selections, rank, below) && i < |selections|
    ensures SelectionSetComplexity(schema, costs, op, selections, rank, below)
         >= SelectionComplexity(schema, costs, op, selections[i], rank, below)
    decreases |selections|
  {
    var n := |selections| - 1;
    if i < n {
      SelectionIsCounted(schema, costs, op, selections[..n], i, rank, below);
    }
  }

  /** Whatever the custom costs, the result lies in 0..MAX_INT and is at least the complexity of
      every selection set nested in the query. */
  lemma {:induction false} NestedCostsAtMost(schema: Schema, costs: Costs, op: Operation, selections: seq<Selection>,
                                             chain: seq<Selection>, inner: seq<Selection>,
                                             rank: map<string, nat>, below: nat, innerBelow: nat)
    requires Acyclic(op, rank) && SpreadsBelow(op, selections, rank, below)
    requires Nested(schema, op, selections, chain, inner) && SpreadsBelow(op, inner, rank, innerBelow)
    ensures 0 <= SelectionSetComplexity(schema, costs, op, inner, rank, innerBelow)
              <= SelectionSetComplexity(schema, costs, op, selections, rank, below)
              <= MAX_INT
    decreases |chain|
  {
    if chain == [] {
      BelowIrrelevant(schema, costs, op, selections, rank, below, innerBelow);
    } else {
      var s := chain[0];
      var i :| 0 <= i < |selections| && selections[i] == s;
      assert SpreadBelow(op, s, rank, below);
      SelectionIsCounted(schema, costs, op, selections, i, rank, below);
      var bodyBelow := if s.FragmentSpread? then rank[s.name] else below;
      NestedCostsAtMost(schema, costs, op, Body(op, s), chain[1..], inner, rank, bodyBelow, innerBelow);
      if s.Field? {
        FieldCostsItsChildren(schema, costs, op, s, rank, below);
      }
    }
  }

  // --- The exact complexity ---

  /** Fields counted without bound, as the default cost counts them. */
  ghost function Exact(schema: Schema, op: Operation, selections: seq<Selection>,
                       rank: map<string, nat>, below: nat): nat
    requires Acyclic(op, rank) && SpreadsBelow(op, selections, rank, below)
    decreases below, selections, 1
  {
    if selections == [] then 0
    else ExactOne(schema, op, selections[0], rank, below) + Exact(schema, op, selections[1..], rank, below)
  }

  ghost function ExactOne(schema: Schema, op: Operation, s: Selection, rank: map<string, nat>, below: nat): nat
    requires Acyclic(op, rank) && SpreadBelow(op, s, rank, below)
    decreases below, s, 0
  {
    match s
    case Field(_, _, _, _, typeName, _, _, subselections) =>
      if KindOf(schema, ObjectOf(s)) == Interface && ImplementorsOf(schema, ObjectOf(s)) == [] then 0
      else 1 + if HasFields(KindOf(schema, typeName))
               then Exact(schema, op, subselections, rank, below) else 0
    case FragmentSpread(_, name, _) => Exact(schema, op, op.fragments[name].selections, rank, rank[name])
    case InlineFragment(_, _, _, body) => Exact(schema, op, body, rank, below)
  }

  lemma {:induction false} ExactAppend(schema: Schema, op: Operation, a: seq<Selection>, b: seq<Selection>,
                                       rank: map<string, nat>, below: nat)
    requires Acyclic(op, rank) && SpreadsBelow(op, a, rank, below) && SpreadsBelow(op, b, rank, below)
    ensures SpreadsBelow(op, a + b, rank, below)
    ensures Exact(schema, op, a + b, rank, below)
         == Exact(schema, op, a, rank, below) + Exact(schema, op, b, rank, below)
    decreases |a|
  {
    if a == [] {
      assert a + b == b;
    } else {
      assert (a + b)[0] == a[0] && (a + b)[1..] == a[1..] + b;
      ExactAppend(schema, op, a[1..], b, rank, below);
    }
  }

  lemma {:induction false} ExactLast(schema: Schema, op: Operation, selections: seq<Selection>,
                                     rank: map<string, nat>, below: nat)
    requires Acyclic(op, rank) && SpreadsBelow(op, selections, rank, below) && selections != []
    ensures var n := |selections| - 1;
            Exact(schema, op, selections, rank, below)
            == Exact(schema, op, selections[..n], rank, below) + ExactOne(schema, op, selections[n], rank, below)
  {
    var n := |selections| - 1;
    ExactAppend(schema, op, selections[..n], [selections[n]], rank, below);
    assert selections[..n] + [selections[n]] == selections;
    assert [selections[n]][1..] == [];
  }

  ghost predicate NoCustomCosts(costs: Costs) {
    forall owner, field, child: Int, arguments :: costs(owner, field, child, arguments) == None
  }

  /** Without custom costs, wrapping additions compute the exact complexity cut off at MAX_INT. */
  lemma {:induction false} DefaultComplexityIsExact(schema: Schema, costs: Costs, op: Operation,
                                                    selections: seq<Selection>, rank: map<string, nat>, below: nat)
    requires Acyclic(op, rank) && SpreadsBelow(op, selections, rank, below) && NoCustomCosts(costs)
    ensures SelectionSetComplexity(schema, costs, op, selections, rank, below)
         == Min(Exact(schema, op, selections, rank, below), MAX_INT)
    decreases below, selections, 1
  {
    if selections != [] {
      var n := |selections| - 1;
      DefaultComplexityIsExact(schema, costs, op, selections[..n], rank, below);
      DefaultCostIsExact(schema, costs, op, selections[n], rank, below);
      ExactLast(schema, op, selections, rank, below);
    }
  }

  lemma {:induction false} DefaultCostIsExact(schema: Schema, costs: Costs, op: Operation, s: Selection,
                                              rank: map<string, nat>, below: nat)
    requires Acyclic(op, rank) && SpreadBelow(op, s, rank, below) && NoCustomCosts(costs)
    ensures SelectionComplexity(schema, costs, op, s, rank, below)
         == Min(ExactOne(schema, op, s, rank, below), MAX_INT)
    decreases below, s, 0
  {
    match s
    case Field(_, name, _, _, typeName, arguments, _, subselections) =>
      DefaultComplexityIsExact(schema, costs, op, subselections, rank, below);
      var child := if HasFields(KindOf(schema, typeName)) then
                     SelectionSetComplexity(schema, costs, op, subselections, rank, below) else 0;
      DefaultFieldCost(costs, ObjectOf(s), ImplementorsOf(schema, ObjectOf(s)), name, child, arguments);
    case FragmentSpread(_, name, _) =>
      DefaultComplexityIsExact(schema, costs, op, op.fragments[name].selections, rank, rank[name]);
    case InlineFragment(_, _, _, body) =>
      DefaultComplexityIsExact(schema, costs, op, body, rank, below);
  }

  lemma {:induction false} DefaultFieldCost(costs: Costs, owner: string, implementors: seq<string>, field: string,
                                            child: Int, arguments: map<string, string>)
    requires NoCustomCosts(costs) && child >= 0
    ensures FieldComplexity(costs, owner, field, child, arguments) == Min(1 + child, MAX_INT)
    ensures InterfaceFieldComplexity(costs, implementors, field, child, arguments)
         == if implementors == [] then 0 else Min(1 + child, MAX_INT)
    decreases |implementors|
  {
    assert costs(owner, field, child, arguments) == None;
    if implementors != [] {
      var n := |implementors| - 1;
      DefaultFieldCost(costs, implementors[n], implementors[..n], field, child, arguments);
    }
  }

  /** A field of an interface that nothing implements costs nothing, however much is inside it. */
  lemma {:induction false} NoImplementorNoCost(f: Selection, inner: Selection)
    requires inner == Field(1, "name", "name", Some("Object"), "String", map[], [], [])
    requires f == Field(0, "node", "node", Some("Node"), "Object", map[], [], [inner])
    ensures var schema := Schema(map["Node" := Interface, "Object" := Object, "String" := Scalar], map["Node" := []]);
            var op := Operation(map[], map[]);
            && SelectionSetComplexity(schema, (_, _, _, _) => None, op, f.selections, map[], 0) == 1
            && SelectionComplexity(schema, (_, _, _, _) => None, op, f, map[], 0) == 0
  {
    assert [inner][..0] == [] && [inner][0] == inner;
  }
}
