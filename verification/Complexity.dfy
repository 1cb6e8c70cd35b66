/** The complexity walker of complexity/complexity.go, on 64-bit integers. */
module Complexity {
  import opened Wrappers
  import opened Query

  const MAX_INT: int := 0x7FFF_FFFF_FFFF_FFFF

  type Int = x: int | -0x8000_0000_0000_0000 <= x <= 0x7FFF_FFFF_FFFF_FFFF

  const TWO_64: int := 0x1_0000_0000_0000_0000

  /** Two's complement: what a 64-bit register holds of the sum of two others. */
  function Wrap(x: int): (r: Int)
    requires -TWO_64 <= x < TWO_64
    ensures r == x || r == x - TWO_64 || r == x + TWO_64
  {
    if x > MAX_INT then x - TWO_64 else if x < -MAX_INT - 1 then x + TWO_64 else x
  }

  function Min(a: int, b: int): int {
    if a < b then a else b
  }

  /** Addition that ignores negative operands and saturates. The overflow test is made on the
      wrapped sum. */
  function SafeAdd(a: Int, b: Int): (c: Int)
    ensures a >= 0 && b >= 0 ==> c == Min(a + b, MAX_INT)
    ensures a < 0 <= b ==> c == b
    ensures b < 0 <= a ==> c == a
    ensures a < 0 && b < 0 ==> c == 1
    ensures c >= 0
  {
    if a < 0 then
      if b < 0 then 1 else b
    else if b < 0 then a
    else
      var c := Wrap(a + b);
      if c < a then MAX_INT else c
  }

  datatype Kind = Scalar | Object | Interface | Union | Enum | InputObject

  /** Kinds whose fields are selected from; the walker counts the children of no other. */
  predicate HasFields(kind: Kind) {
    kind == Object || kind == Interface || kind == Union
  }

  datatype Schema = Schema(kinds: map<string, Kind>, implementors: map<string, seq<string>>)

  function KindOf(schema: Schema, name: string): Kind {
    if name in schema.kinds then schema.kinds[name] else Scalar
  }

  function ImplementorsOf(schema: Schema, name: string): seq<string> {
    if name in schema.implementors then schema.implementors[name] else []
  }

  /** The user's cost function: type, field, complexity of the children, arguments. */
  type Costs = (string, string, Int, map<string, string>) -> Option<Int>

  // --- Acyclic documents ---

  /** Every spread in `s`, at any depth, names a fragment ranked below `below`. */
  predicate SpreadBelow(op: Operation, s: Selection, rank: map<string, nat>, below: nat)
    decreases s
  {
    match s
    case FragmentSpread(_, name, _) => name in op.fragments && name in rank && rank[name] < below
    case _ => forall i :: 0 <= i < |s.selections| ==> SpreadBelow(op, s.selections[i], rank, below)
  }

  predicate SpreadsBelow(op: Operation, selections: seq<Selection>, rank: map<string, nat>, below: nat) {
    forall i :: 0 <= i < |selections| ==> SpreadBelow(op, selections[i], rank, below)
  }

  /** `rank` orders the fragments so that each spreads only lower ones: it exists for every
      document the validator accepts, and the walker does not terminate on others. */
  ghost predicate Acyclic(op: Operation, rank: map<string, nat>) {
    forall name :: name in op.fragments ==>
      name in rank && SpreadsBelow(op, op.fragments[name].selections, rank, rank[name])
  }

  // --- The walker ---

  function SelectionSetComplexity(schema: Schema, costs: Costs, op: Operation, selections: seq<Selection>,
                                  ghost rank: map<string, nat>, ghost below: nat): (c: Int)
    requires Acyclic(op, rank) && SpreadsBelow(op, selections, rank, below)
    ensures c >= 0
    decreases below, selections, 1
  {
    if selections == [] then 0
    else
      var n := |selections| - 1;
      SafeAdd(SelectionSetComplexity(schema, costs, op, selections[..n], rank, below),
              SelectionComplexity(schema, costs, op, selections[n], rank, below))
  }

  function SelectionComplexity(schema: Schema, costs: Costs, op: Operation, s: Selection,
                               ghost rank: map<string, nat>, ghost below: nat): (c: Int)
    requires Acyclic(op, rank) && SpreadBelow(op, s, rank, below)
    ensures c >= 0
    decreases below, s, 0
  {
    match s
    case Field(_, name, _, objectDefinition, typeName, arguments, _, subselections) =>
      var childComplexity :=
        if HasFields(KindOf(schema, typeName)) then
          SelectionSetComplexity(schema, costs, op, subselections, rank, below)
        else 0;
      var owner := if objectDefinition.Some? then objectDefinition.value else "";
      if KindOf(schema, owner) == Interface then
        InterfaceFieldComplexity(costs, ImplementorsOf(schema, owner), name, childComplexity, arguments)
      else
        FieldComplexity(costs, owner, name, childComplexity, arguments)
    case FragmentSpread(_, name, _) =>
      SelectionSetComplexity(schema, costs, op, op.fragments[name].selections, rank, rank[name])
    case InlineFragment(_, _, _, body) =>
      SelectionSetComplexity(schema, costs, op, body, rank, below)
  }

  /** The most expensive implementor; 0 if there is none. */
  function InterfaceFieldComplexity(costs: Costs, implementors: seq<string>, field: string,
                                    childComplexity: Int, arguments: map<string, string>): (c: Int)
    requires childComplexity >= 0
    ensures c >= 0
    ensures implementors != [] ==> c >= childComplexity
  {
    if implementors == [] then 0
    else
      var n := |implementors| - 1;
      var max := InterfaceFieldComplexity(costs, implementors[..n], field, childComplexity, arguments);
      var c := FieldComplexity(costs, implementors[n], field, childComplexity, arguments);
      if c > max then c else max
  }

  /** The custom cost, unless there is none or it is below that of the children. */
  function FieldComplexity(costs: Costs, owner: string, field: string,
                           childComplexity: Int, arguments: map<string, string>): (c: Int)
    ensures childComplexity >= 0 ==> c >= childComplexity
  {
    var custom := costs(owner, field, childComplexity, arguments);
    if custom.Some? && custom.value >= childComplexity then custom.value
    else SafeAdd(1, childComplexity)
  }

  // --- The walker's loops ---

  method SelectionSetComplexityOf(schema: Schema, costs: Costs, op: Operation, selectionSet: seq<Selection>,
                                  ghost rank: map<string, nat>, ghost below: nat) returns (complexity: Int)
    requires Acyclic(op, rank) && SpreadsBelow(op, selectionSet, rank, below)
    ensures complexity == SelectionSetComplexity(schema, costs, op, selectionSet, rank, below)
    decreases below, selectionSet
  {
    complexity := 0;
    var i := 0;
    while i < |selectionSet|
      invariant 0 <= i <= |selectionSet|
      invariant complexity == SelectionSetComplexity(schema, costs, op, selectionSet[..i], rank, below)
    {
      var s := selectionSet[i];
      assert selectionSet[..i + 1][..i] == selectionSet[..i];
      assert SpreadBelow(op, s, rank, below);
      var c: Int;
      match s {
        case Field(_, name, _, objectDefinition, typeName, arguments, _, subselections) =>
          var childComplexity: Int := 0;
          if HasFields(KindOf(schema, typeName)) {
            childComplexity := SelectionSetComplexityOf(schema, costs, op, subselections, rank, below);
          }
          var owner := if objectDefinition.Some? then objectDefinition.value else "";
          if KindOf(schema, owner) == Interface {
            c := InterfaceFieldComplexityOf(
              costs, ImplementorsOf(schema, owner), name, childComplexity, arguments);
          } else {
            c := FieldComplexity(costs, owner, name, childComplexity, arguments);
          }
        case FragmentSpread(_, name, _) =>
          c := SelectionSetComplexityOf(schema, costs, op, op.fragments[name].selections, rank, rank[name]);
        case InlineFragment(_, _, _, body) =>
          c := SelectionSetComplexityOf(schema, costs, op, body, rank, below);
      }
      assert c == SelectionComplexity(schema, costs, op, s, rank, below);
      complexity := SafeAdd(complexity, c);
      i := i + 1;
    }
    assert selectionSet[..i] == selectionSet;
  }

  method InterfaceFieldComplexityOf(costs: Costs, implementors: seq<string>, field: string,
                                    childComplexity: Int, arguments: map<string, string>)
    returns (maxComplexity: Int)
    requires childComplexity >= 0
    ensures maxComplexity == InterfaceFieldComplexity(costs, implementors, field, childComplexity, arguments)
  {
    maxComplexity := 0;
    var i := 0;
    while i < |implementors|
      invariant 0 <= i <= |implementors|
      invariant maxComplexity == InterfaceFieldComplexity(costs, implementors[..i], field, childComplexity, arguments)
    {
      assert implementors[..i + 1][..i] == implementors[..i];
      var fieldComplexity := FieldComplexity(costs, implementors[i], field, childComplexity, arguments);
      if fieldComplexity > maxComplexity {
        maxComplexity := fieldComplexity;
      }
      i := i + 1;
    }
    assert implementors[..i] == implementors;
  }
}
