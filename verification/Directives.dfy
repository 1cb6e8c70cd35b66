/** Which nodes `@skip` and `@include` drop, and which type conditions a filter lets through, said over
    the directives and the types themselves. */
module Directives {
  import opened Wrappers
  import opened Query

  /** The condition is given as `true`, or by a variable that is true. */
  predicate True(op: Operation, condition: Option<Condition>) {
    || condition == Some(Literal(true))
    || (condition.Some? && condition.value.Variable?
        && condition.value.name in op.variables && op.variables[condition.value.name])
  }

  /** The i-th directive is the first of that name. */
  predicate FirstNamed(directives: seq<Directive>, i: int, name: string) {
    0 <= i < |directives| && directives[i].name == name && forall j :: 0 <= j < i ==> directives[j].name != name
  }

  /** No first `@skip` with a true condition, and no first `@include` without one. */
  ghost predicate Kept(op: Operation, directives: seq<Directive>) {
    && (forall i :: FirstNamed(directives, i, "skip") ==> !True(op, directives[i].condition))
    && (forall i :: FirstNamed(directives, i, "include") ==> True(op, directives[i].condition))
  }

  /** No filter, or one that lists the type. */
  ghost predicate LetsThrough(types: seq<string>, typeCondition: string) {
    types == [] || exists i :: 0 <= i < |types| && types[i] == typeCondition
  }

  lemma {:induction false} ForNameIsFirst(directives: seq<Directive>, name: string, i: nat)
    requires FirstNamed(directives, i, name)
    ensures ForName(directives, name) == Some(directives[i])
    decreases |directives|
  {
    if i > 0 {
      assert directives[0].name != name;
      assert forall j :: 0 <= j < i - 1 ==> directives[1..][j] == directives[j + 1];
      ForNameIsFirst(directives[1..], name, i - 1);
    }
  }

  lemma {:induction false} FirstForName(directives: seq<Directive>, name: string) returns (i: nat)
    requires ForName(directives, name).Some?
    ensures FirstNamed(directives, i, name)
    decreases |directives|
  {
    i := 0;
    if directives[0].name != name {
      var j := FirstForName(directives[1..], name);
      i := j + 1;
      assert directives[i] == directives[1..][j];
      forall k | 0 <= k < i ensures directives[k].name != name {
        if k > 0 { assert directives[k] == directives[1..][k - 1]; }
      }
    }
  }

  lemma {:induction false} ConditionIs(op: Operation, d: Directive)
    ensures ResolveIf(op, d) <==> True(op, d.condition)
  {
  }

  /** What a directive says if there is one of its name: all first ones are the same. */
  lemma {:induction false} NamedExactly(op: Operation, directives: seq<Directive>, name: string)
    ensures var d := ForName(directives, name);
            && (d.None? ==> forall i :: !FirstNamed(directives, i, name))
            && (d.Some? ==> (exists i :: FirstNamed(directives, i, name))
                            && forall i :: FirstNamed(directives, i, name) ==>
                                 (True(op, directives[i].condition) <==> ResolveIf(op, d.value)))
  {
    var d := ForName(directives, name);
    forall i | FirstNamed(directives, i, name)
      ensures d.Some? && (True(op, directives[i].condition) <==> ResolveIf(op, d.value))
    {
      ForNameIsFirst(directives, name, i);
      ConditionIs(op, directives[i]);
    }
    if d.Some? {
      var i := FirstForName(directives, name);
    }
  }

  /** A node is included exactly if it is kept. */
  lemma {:induction false} IncludedExactlyIfKept(op: Operation, directives: seq<Directive>)
    ensures ShouldInclude(op, directives) <==> Kept(op, directives)
  {
    NamedExactly(op, directives, "skip");
    NamedExactly(op, directives, "include");
  }

  /** The filter is satisfied exactly if it lets the type through. */
  lemma {:induction false} SatisfiedExactlyIfLetThrough(typeCondition: string, types: seq<string>)
    ensures Satisfies(typeCondition, types) <==> LetsThrough(types, typeCondition)
  {
  }
}
