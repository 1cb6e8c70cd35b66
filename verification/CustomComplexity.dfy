/** The complexity of whole queries for arbitrary custom costs, without a bound on the sums and
    without the walker. */
module CustomComplexity {
  import opened Wrappers
  import opened Query
  import opened Complexity
  import opened ComplexityLaws

  /** The type is one that fields are selected from. */
  ghost predicate Composite(schema: Schema, typeName: string) {
    && typeName in schema.kinds
    && (schema.kinds[typeName] == Object || schema.kinds[typeName] == Interface || schema.kinds[typeName] == Union)
  }

  /** The highest of the costs on the implementors; nothing if there are none. */
  ghost function HighestCost(costs: Costs, implementors: seq<string>, field: string, child: Int,
                             arguments: map<string, string>): (c: Int)
    requires child >= 0
    ensures c >= 0
  {
    if implementors == [] then 0
    else
      var first := CostOf(costs, implementors[0], field, child, arguments);
      var rest := HighestCost(costs, implementors[1..], field, child, arguments);
      if first < rest then rest else first
  }

  /** What the selections cost, added up without bound. */
  ghost function Worth(schema: Schema, costs: Costs, op: Operation, selections: seq<Selection>,
                       rank: map<string, nat>, below: nat): nat
    requires Acyclic(op, rank) && SpreadsBelow(op, selections, rank, below)
    decreases below, selections, 1
  {
    if selections == [] then 0
    else WorthOne(schema, costs, op, selections[0], rank, below)
         + Worth(schema, costs, op, selections[1..], rank, below)
  }

  /** A field costs what its owner's cost function makes of what is inside it; on an interface, the
      highest of its implementors' costs. A fragment costs what is inside it. */
  ghost function WorthOne(schema: Schema, costs: Costs, op: Operation, s: Selection,
                          rank: map<string, nat>, below: nat): nat
    requires Acyclic(op, rank) && SpreadBelow(op, s, rank, below)
    decreases below, s, 0
  {
    match s
    case Field(_, name, _, _, typeName, arguments, _, subselections) =>
      var inside := if Composite(schema, typeName) then Worth(schema, costs, op, subselections, rank, below) else 0;
      var child := Min(inside, MAX_INT);
      var owner := ObjectOf(s);
      if owner in schema.kinds && schema.kinds[owner] == Interface then
        var implementors := if owner in schema.implementors then schema.implementors[owner] else [];
        HighestCost(costs, implementors, name, child, arguments)
      else
        CostOf(costs, owner, name, child, arguments)
    case FragmentSpread(_, name, _) => Worth(schema, costs, op, op.fragments[name].selections, rank, rank[name])
    case InlineFragment(_, _, _, body) => Worth(schema, costs, op, body, rank, below)
  }

  // --- An interface field costs the highest ---

  lemma {:induction false} HighestIsHighest(costs: Costs, implementors: seq<string>, field: string, child: Int,
                                            arguments: map<string, string>)
    requires child >= 0 && implementors != []
    ensures var c := HighestCost(costs, implementors, field, child, arguments);
            && (forall t :: t in implementors ==> CostOf(costs, t, field, child, arguments) <= c)
            && (exists t :: t in implementors && CostOf(costs, t, field, child, arguments) == c)
    decreases |implementors|
  {
    var rest := implementors[1..];
    assert implementors == [implementors[0]] + rest;
    if rest != [] {
      HighestIsHighest(costs, rest, field, child, arguments);
    }
  }

  lemma {:induction false} InterfaceCostsTheHighest(costs: Costs, implementors: seq<string>, field: string, child: Int,
                                                    arguments: map<string, string>)
    requires child >= 0
    ensures InterfaceFieldComplexity(costs, implementors, field, child, arguments)
         == HighestCost(costs, implementors, field, child, arguments)
  {
    if implementors != [] {
      InterfaceTakesTheWorst(costs, implementors, field, child, arguments);
      HighestIsHighest(costs, implementors, field, child, arguments);
    }
  }

  // --- The complexity is what the selections are worth ---

  lemma {:induction false} WorthAppend(schema: Schema, costs: Costs, op: Operation, a: seq<Selection>,
                                       b: seq<Selection>, rank: map<string, nat>, below: nat)
    requires Acyclic(op, rank) && SpreadsBelow(op, a, rank, below) && SpreadsBelow(op, b, rank, below)
    ensures SpreadsBelow(op, a + b, rank, below)
    ensures Worth(schema, costs, op, a + b, rank, below)
         == Worth(schema, costs, op, a, rank, below) + Worth(schema, costs, op, b, rank, below)
    decreases |a|
  {
    if a == [] {
      assert a + b == b;
    } else {
      assert (a + b)[0] == a[0] && (a + b)[1..] == a[1..] + b;
      WorthAppend(schema, costs, op, a[1..], b, rank, below);
    }
  }

  lemma {:induction false} WorthLast(schema: Schema, costs: Costs, op: Operation, selections: seq<Selection>,
                                     rank: map<string, nat>, below: nat)
    requires Acyclic(op, rank) && SpreadsBelow(op, selections, rank, below) && selections != []
    ensures var n := |selections| - 1;
            Worth(schema, costs, op, selections, rank, below)
            == Worth(schema, costs, op, selections[..n], rank, below)
               + WorthOne(schema, costs, op, selections[n], rank, below)
  {
    var n := |selections| - 1;
    WorthAppend(schema, costs, op, selections[..n], [selections[n]], rank, below);
    assert selections[..n] + [selections[n]] == selections;
    assert [selections[n]][1..] == [];
  }

  /** Whatever the custom costs, the complexity is the sum of what the selections cost, cut off at
      MAX_INT: at every field the cost function is asked, with the complexity of what is inside. */
  lemma {:induction false} ComplexityIsWorth(schema: Schema, costs: Costs, op: Operation, selections: seq<Selection>,
                                             rank: map<string, nat>, below: nat)
    requires Acyclic(op, rank) && SpreadsBelow(op, selections, rank, below)
    ensures SelectionSetComplexity(schema, costs, op, selections, rank, below)
         == Min(Worth(schema, costs, op, selections, rank, below), MAX_INT)
    decreases below, selections, 1
  {
    if selections != [] {
      var n := |selections| - 1;
      ComplexityIsWorth(schema, costs, op, selections[..n], rank, below);
      CostIsWorth(schema, costs, op, selections[n], rank, below);
      WorthLast(schema, costs, op, selections, rank, below);
    }
  }

  lemma {:induction false} CostIsWorth(schema: Schema, costs: Costs, op: Operation, s: Selection,
                                       rank: map<string, nat>, below: nat)
    requires Acyclic(op, rank) && SpreadBelow(op, s, rank, below)
    ensures SelectionComplexity(schema, costs, op, s, rank, below)
         == Min(WorthOne(schema, costs, op, s, rank, below), MAX_INT)
    decreases below, s, 0
  {
    match s
    case Field(_, name, _, _, typeName, arguments, _, subselections) =>
      ComplexityIsWorth(schema, costs, op, subselections, rank, below);
      var child := if HasFields(KindOf(schema, typeName)) then
                     SelectionSetComplexity(schema, costs, op, subselections, rank, below) else 0;
      InterfaceCostsTheHighest(costs, ImplementorsOf(schema, ObjectOf(s)), name, child, arguments);
      FieldCosts(costs, ObjectOf(s), name, child, arguments);
    case FragmentSpread(_, name, _) =>
      ComplexityIsWorth(schema, costs, op, op.fragments[name].selections, rank, rank[name]);
    case InlineFragment(_, _, _, body) =>
      ComplexityIsWorth(schema, costs, op, body, rank, below);
  }
}
