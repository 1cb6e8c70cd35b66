/** The parsed query: selections, directives, fragments and the operation they run in.

    The source works on pointers to parser nodes. Every node here carries its position in
    the document, so that two nodes are equal exactly when they are the same node; none of
    the results below needs positions to be distinct. */
module Query {
  import opened Wrappers

  /** The `if` argument of `@skip` and `@include`. */
  datatype Condition = Literal(value: bool) | Variable(name: string)

  datatype Directive = Directive(name: string, condition: Option<Condition>)

  datatype Selection =
    | Field(pos: nat, name: string, alias: string, objectDefinition: Option<string>, typeName: string,
            arguments: map<string, string>, directives: seq<Directive>, selections: seq<Selection>)
    | InlineFragment(pos: nat, typeCondition: string, directives: seq<Directive>, selections: seq<Selection>)
    | FragmentSpread(pos: nat, name: string, directives: seq<Directive>)

  datatype Fragment = Fragment(typeCondition: string, selections: seq<Selection>)

  datatype Operation = Operation(fragments: map<string, Fragment>, variables: map<string, bool>)

  // --- @skip and @include ---

  /** First directive of that name. */
  function ForName(directives: seq<Directive>, name: string): (d: Option<Directive>)
    ensures d.Some? ==> d.value in directives && d.value.name == name
    ensures d.None? ==> forall x :: x in directives ==> x.name != name
  {
    if directives == [] then None
    else if directives[0].name == name then Some(directives[0])
    else ForName(directives[1..], name)
  }

  /** The directive's condition can be evaluated: the source panics otherwise, and relies on
      validation and variable coercion having run. */
  predicate Resolvable(op: Operation, d: Directive) {
    d.condition.Some? && (d.condition.value.Variable? ==> d.condition.value.name in op.variables)
  }

  /** The value of the `if` argument; `false` where the source would panic. */
  predicate ResolveIf(op: Operation, d: Directive) {
    match d.condition
    case None => false
    case Some(Literal(b)) => b
    case Some(Variable(v)) => v in op.variables && op.variables[v]
  }

  /** A node is dropped if `@skip(if: true)` or `@include(if: false)` says so. */
  predicate ShouldInclude(op: Operation, directives: seq<Directive>) {
    var skip := ForName(directives, "skip");
    var include_ := ForName(directives, "include");
    !(skip.Some? && ResolveIf(op, skip.value)) && (include_.None? || ResolveIf(op, include_.value))
  }

  /** An empty list of types lets every type condition through. */
  predicate Satisfies(typeCondition: string, types: seq<string>) {
    |types| > 0 ==> typeCondition in types
  }

  // --- What validation guarantees ---

  predicate ValidDirectives(op: Operation, directives: seq<Directive>) {
    forall d :: d in directives && (d.name == "skip" || d.name == "include") ==> Resolvable(op, d)
  }

  predicate ValidSelection(op: Operation, s: Selection)
    decreases s
  {
    ValidDirectives(op, s.directives) &&
    match s
    case FragmentSpread(_, name, _) => name in op.fragments
    case _ => forall i :: 0 <= i < |s.selections| ==> ValidSelection(op, s.selections[i])
  }

  predicate ValidSelections(op: Operation, selections: seq<Selection>) {
    forall i :: 0 <= i < |selections| ==> ValidSelection(op, selections[i])
  }

  /** Spreads name fragments of the document and conditions resolve, everywhere. Fragments may
      still be cyclic. */
  predicate Valid(op: Operation, selections: seq<Selection>) {
    ValidSelections(op, selections) &&
    forall name :: name in op.fragments ==> ValidSelections(op, op.fragments[name].selections)
  }
}
