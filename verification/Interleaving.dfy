/** Execution as a step machine: fields of an object and items of a list run concurrently, share
    one list of errors, and bump their object's counter of invalid fields. */
module Interleaving {
  import opened Paths
  import opened Execution
  import opened Wrappers

  /** Where the goroutine in charge of a position is. */
  datatype Task =
    | Resolving(f: FieldPlan, done: nat)          // the resolver has reported `done` errors
    | Marshalling(a: Answer, nonNull: bool)       // about to marshal the answer
    | Checking                                    // about to ask HasFieldError
    | Complaining                                 // about to add "must not be null"
    | Scanning(data: Data, left: nat)             // a list of scalars, with missing items to come
    | Missing(data: Data, left: nat)              // a list of scalars, about to complain
    | Joining(children: seq<Task>)                // a list, waiting for its items
    | Dispatching(fields: seq<FieldPlan>, slots: seq<Slot>, invalids: nat)  // an object
    | Done(data: Data)

  /** A slot of an object's field set: the field's task; its result, counted if invalid but not
      stored yet; its result, stored. */
  datatype Slot = Running(task: Task) | Returning(data: Data) | Written(data: Data)

  datatype State = State(task: Task, errors: seq<Error>)

  predicate HasFieldError(errors: seq<Error>, p: Path) {
    exists i :: 0 <= i < |errors| && errors[i].path == p
  }

  predicate AllDone(children: seq<Task>) {
    forall i :: 0 <= i < |children| ==> children[i].Done?
  }

  predicate AllWritten(slots: seq<Slot>) {
    forall i :: 0 <= i < |slots| ==> slots[i].Written?
  }

  /** Fields that are not concurrent run one by one in the object's own loop; the others start
      once that loop is over. */
  predicate MayRun(fields: seq<FieldPlan>, slots: seq<Slot>, i: nat) {
    forall j :: 0 <= j < |fields| && j < |slots| && !fields[j].concurrent && !slots[j].Written?
                ==> i < |fields| && !fields[i].concurrent && i <= j
  }

  function Null_(nonNull: bool): Task {
    if nonNull then Checking else Done(Null)
  }

  /** The step of the goroutine addressed by `at`, a list of child indices, if it can take one.
      `p` is the response path of `t`. */
  function Advance(t: Task, p: Path, errors: seq<Error>, at: seq<nat>): Option<State>
    decreases t
  {
    match t
    case Done(_) => None
    case Resolving(f, done) =>
      if at != [] then None
      else if done < f.reports then
        Some(State(Resolving(f, done + 1), errors + [Error(p, Reported(done))]))
      else (
        match f.outcome
        case Failed(below) => Some(State(Done(Null), errors + [Error(p + below, ResolverFailed)]))
        case Nothing => Some(State(Null_(f.nonNull), errors))
        case Answered(a) => Some(State(Marshalling(a, f.nonNull), errors)))
    case Marshalling(a, nonNull) =>
      if at != [] then None
      else (
        match a
        case Nil => Some(State(Null_(nonNull), errors))
        case NilImplementor => Some(State(Done(Null), errors))
        case Leaf(text) => Some(State(Done(Scalar(text)), errors))
        case ScalarList(nn, scalars) =>
          Some(State(Scanning(Array(DataOfItems(scalars)), MissingAmong(scalars, nn)), errors))
        case List(itemsNonNull, items) =>
          Some(State(Joining(seq(|items|, i requires 0 <= i < |items| =>
                                   Marshalling(items[i], itemsNonNull))), errors))
        case Object(fields) =>
          Some(State(Dispatching(fields, seq(|fields|, i requires 0 <= i < |fields| =>
                                               Running(Resolving(fields[i], 0))), 0), errors)))
    case Checking =>
      if at != [] then None
      else Some(State(if HasFieldError(errors, p) then Done(Null) else Complaining, errors))
    case Complaining =>
      if at != [] then None
      else Some(State(Done(Null), errors + [Error(p, MustNotBeNull)]))
    case Scanning(d, left) =>
      if at != [] then None
      else if left == 0 then Some(State(Done(d), errors))
      else if HasFieldError(errors, p) then Some(State(Scanning(d, left - 1), errors))
      else Some(State(Missing(d, left - 1), errors))
    case Missing(d, left) =>
      if at != [] then None
      else Some(State(Scanning(d, left), errors + [Error(p, MustNotBeNull)]))
    case Joining(children) =>
      if at == [] then
        if AllDone(children) then
          Some(State(Done(Array(seq(|children|, i requires 0 <= i < |children| => children[i].data))), errors))
        else None
      else if at[0] >= |children| then None
      else (
        match Advance(children[at[0]], p + [Index(at[0])], errors, at[1..])
        case None => None
        case Some(next) => Some(State(Joining(children[at[0] := next.task]), next.errors)))
    case Dispatching(fields, slots, invalids) =>
      if |fields| != |slots| then None
      else if at == [] then
        if AllWritten(slots) then
          Some(State(Done(if invalids > 0 then Null
                          else Record(seq(|slots|, i requires 0 <= i < |slots| =>
                                            (fields[i].alias, slots[i].data)))), errors))
        else None
      else
        var i := at[0];
        if i >= |slots| || !MayRun(fields, slots, i) then None
        else (
          match slots[i]
          case Written(_) => None
          case Returning(d) =>
            if at[1..] != [] then None
            else Some(State(Dispatching(fields, slots[i := Written(d)], invalids), errors))
          case Running(task) =>
            if task.Done? then
              if at[1..] != [] then None
              else Some(State(Dispatching(fields, slots[i := Returning(task.data)],
                                          if Invalid(fields[i], task.data) then invalids + 1 else invalids), errors))
            else (
              match Advance(task, p + [Name(fields[i].alias)], errors, at[1..])
              case None => None
              case Some(next) =>
                Some(State(Dispatching(fields, slots[i := Running(next.task)], invalids), next.errors))))
  }

  /** A run: the state after the steps of a schedule, if each could be taken. */
  function Run(s: State, p: Path, schedule: seq<seq<nat>>): Option<State>
    decreases |schedule|
  {
    if schedule == [] then Some(s)
    else
      match Advance(s.task, p, s.errors, schedule[0])
      case None => None
      case Some(next) => Run(next, p, schedule[1..])
  }

  // --- What is still to come ---

  /** The data `t` will end with. */
  function Final(t: Task): Data
    decreases t
  {
    match t
    case Resolving(f, _) => DataOfField(f)
    case Marshalling(a, _) => DataOf(a)
    case Checking => Null
    case Complaining => Null
    case Scanning(d, _) => d
    case Missing(d, _) => d
    case Joining(children) => Array(seq(|children|, i requires 0 <= i < |children| => Final(children[i])))
    case Dispatching(fields, slots, _) =>
      if |fields| != |slots| then Null
      else Assemble(fields, seq(|slots|, i requires 0 <= i < |slots| => FinalSlot(slots[i])))
    case Done(d) => d
  }

  function FinalSlot(s: Slot): Data
    decreases s
  {
    if s.Running? then Final(s.task) else s.data
  }

  // --- The invariant of the counters ---

  /** Invalid fields counted so far: those whose task has returned. */
  function Counted(fields: seq<FieldPlan>, slots: seq<Slot>): nat
    requires |fields| == |slots|
    decreases |slots|
  {
    if slots == [] then 0
    else (if !slots[0].Running? && Invalid(fields[0], slots[0].data) then 1 else 0) + Counted(fields[1..], slots[1..])
  }

  /** At every level, the counter counts the invalid fields that have returned. */
  predicate Tidy(t: Task)
    decreases t
  {
    match t
    case Joining(children) => forall i :: 0 <= i < |children| ==> Tidy(children[i])
    case Dispatching(fields, slots, invalids) =>
      && |fields| == |slots| && invalids == Counted(fields, slots)
      && forall i :: 0 <= i < |slots| ==> TidySlot(slots[i])
    case _ => true
  }

  predicate TidySlot(s: Slot)
    decreases s
  {
    s.Running? ==> Tidy(s.task)
  }
}
