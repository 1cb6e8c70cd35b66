/** The data of an execution does not depend on the interleaving, and every run ends. Neither needs
    aliases to be distinct. */
module InterleavingData {
  import opened Paths
  import opened Execution
  import opened Wrappers
  import opened Interleaving

  // --- The counter of invalid fields ---

  lemma {:induction false} NoneCounted(fields: seq<FieldPlan>, slots: seq<Slot>)
    requires |fields| == |slots| && forall i :: 0 <= i < |slots| ==> slots[i].Running?
    ensures Counted(fields, slots) == 0
    decreases |slots|
  {
    if slots != [] {
      NoneCounted(fields[1..], slots[1..]);
    }
  }

  function Counts(f: FieldPlan, s: Slot): nat {
    if !s.Running? && Invalid(f, s.data) then 1 else 0
  }

  lemma {:induction false} CountedUpdate(fields: seq<FieldPlan>, slots: seq<Slot>, i: nat, s: Slot)
    requires |fields| == |slots| && i < |slots|
    ensures Counted(fields, slots[i := s]) + Counts(fields[i], slots[i])
         == Counted(fields, slots) + Counts(fields[i], s)
    decreases |slots|
  {
    if i == 0 {
      assert slots[i := s][1..] == slots[1..];
    } else {
      assert slots[i := s][1..] == slots[1..][i - 1 := s];
      CountedUpdate(fields[1..], slots[1..], i - 1, s);
    }
  }

  lemma {:induction false} CountedPositive(fields: seq<FieldPlan>, slots: seq<Slot>)
    requires |fields| == |slots|
    ensures Counted(fields, slots) > 0
            <==> exists i :: 0 <= i < |slots| && !slots[i].Running? && Invalid(fields[i], slots[i].data)
    decreases |slots|
  {
    if slots != [] {
      CountedPositive(fields[1..], slots[1..]);
      if i :| 0 <= i < |slots| && !slots[i].Running? && Invalid(fields[i], slots[i].data) {
        if i > 0 {
          assert slots[1..][i - 1] == slots[i] && fields[1..][i - 1] == fields[i];
        }
      }
    }
  }

  // --- No step changes the data to come ---

  /** What a step keeps: the data to come, and the counters. */
  predicate KeepsData(t: Task, next: Task) {
    Final(next) == Final(t) && Tidy(next)
  }

  lemma {:induction false} MarshallingKeepsData(a: Answer, nonNull: bool, p: Path, errors: seq<Error>)
    ensures var t := Marshalling(a, nonNull);
            KeepsData(t, Advance(t, p, errors, []).value.task)
  {
    var t := Marshalling(a, nonNull);
    var next := Advance(t, p, errors, []).value.task;
    match a
    case List(_, items) =>
      assert Final(next).items == DataOf(a).items;
    case Object(fields) =>
      FreshSlots(fields, next.slots);
    case _ =>
  }

  lemma {:induction false} FreshSlots(fields: seq<FieldPlan>, slots: seq<Slot>)
    requires |fields| == |slots| && forall i :: 0 <= i < |slots| ==> slots[i] == Running(Resolving(fields[i], 0))
    ensures KeepsData(Marshalling(Object(fields), false), Dispatching(fields, slots, 0))
  {
    NoneCounted(fields, slots);
    forall i | 0 <= i < |slots| ensures FinalSlot(slots[i]) == DataOfField(fields[i]) && TidySlot(slots[i]) {
      assert slots[i].task == Resolving(fields[i], 0);
    }
    assert seq(|slots|, i requires 0 <= i < |slots| => FinalSlot(slots[i]))
        == seq(|fields|, i requires 0 <= i < |fields| => DataOfField(fields[i]));
  }

  lemma {:induction false} JoinedKeepsData(children: seq<Task>, p: Path, errors: seq<Error>)
    requires AllDone(children)
    ensures KeepsData(Joining(children), Advance(Joining(children), p, errors, []).value.task)
  {
    assert forall i :: 0 <= i < |children| ==> Final(children[i]) == children[i].data;
    assert Final(Joining(children)).items == Advance(Joining(children), p, errors, []).value.task.data.items;
  }

  lemma {:induction false} JoiningKeepsData(children: seq<Task>, i: nat, child: Task)
    requires i < |children| && Tidy(Joining(children)) && KeepsData(children[i], child)
    ensures KeepsData(Joining(children), Joining(children[i := child]))
  {
    assert Final(Joining(children[i := child])).items == Final(Joining(children)).items;
  }

  lemma {:induction false} DispatchedKeepsData(fields: seq<FieldPlan>, slots: seq<Slot>, invalids: nat, p: Path,
                                               errors: seq<Error>)
    requires AllWritten(slots) && Tidy(Dispatching(fields, slots, invalids))
    ensures var t := Dispatching(fields, slots, invalids);
            KeepsData(t, Advance(t, p, errors, []).value.task)
  {
    CountedPositive(fields, slots);
    var values := seq(|slots|, i requires 0 <= i < |slots| => FinalSlot(slots[i]));
    assert forall i :: 0 <= i < |slots| ==> values[i] == slots[i].data;
    assert seq(|fields|, i requires 0 <= i < |fields| => (fields[i].alias, values[i]))
        == seq(|slots|, i requires 0 <= i < |slots| => (fields[i].alias, slots[i].data));
  }

  lemma {:induction false} SlotsFinal(slots: seq<Slot>, i: nat, s: Slot)
    requires i < |slots| && FinalSlot(s) == FinalSlot(slots[i])
    ensures var after := slots[i := s];
            seq(|after|, j requires 0 <= j < |after| => FinalSlot(after[j]))
            == seq(|slots|, j requires 0 <= j < |slots| => FinalSlot(slots[j]))
  {
  }

  lemma {:induction false} SlotKeepsData(fields: seq<FieldPlan>, slots: seq<Slot>, invalids: nat, i: nat, s: Slot)
    requires i < |slots| && Tidy(Dispatching(fields, slots, invalids))
    requires FinalSlot(s) == FinalSlot(slots[i]) && TidySlot(s)
    ensures KeepsData(Dispatching(fields, slots, invalids),
                      Dispatching(fields, slots[i := s], Counted(fields, slots[i := s])))
  {
    SlotsFinal(slots, i, s);
  }

  /** The counter after a step at slot `i`, as the step computes it. */
  lemma {:induction false} CountedOnReturn(fields: seq<FieldPlan>, slots: seq<Slot>, i: nat, s: Slot)
    requires |fields| == |slots| && i < |slots|
    requires match slots[i]
             case Running(task) => s.Running? || (task.Done? && s == Returning(task.data))
             case Returning(d) => s == Written(d)
             case Written(_) => false
    ensures Counted(fields, slots[i := s])
         == if slots[i].Running? && !s.Running? && Invalid(fields[i], s.data) then Counted(fields, slots) + 1
            else Counted(fields, slots)
  {
    CountedUpdate(fields, slots, i, s);
  }

  lemma {:induction false} StepKeepsData(t: Task, p: Path, errors: seq<Error>, at: seq<nat>)
    requires Tidy(t) && Advance(t, p, errors, at).Some?
    ensures KeepsData(t, Advance(t, p, errors, at).value.task)
    decreases t
  {
    match t
    case Marshalling(a, nonNull) => MarshallingKeepsData(a, nonNull, p, errors);
    case Joining(children) =>
      if at == [] {
        JoinedKeepsData(children, p, errors);
      } else {
        var i := at[0];
        StepKeepsData(children[i], p + [Index(i)], errors, at[1..]);
        JoiningKeepsData(children, i, Advance(children[i], p + [Index(i)], errors, at[1..]).value.task);
      }
    case Dispatching(fields, slots, invalids) =>
      if at == [] {
        DispatchedKeepsData(fields, slots, invalids, p, errors);
      } else {
        var i := at[0];
        assert TidySlot(slots[i]);
        if slots[i].Running? && !slots[i].task.Done? {
          StepKeepsData(slots[i].task, p + [Name(fields[i].alias)], errors, at[1..]);
        }
        var s := Advance(t, p, errors, at).value.task.slots[i];
        CountedOnReturn(fields, slots, i, s);
        SlotKeepsData(fields, slots, invalids, i, s);
      }
    case _ =>
  }

  /** In every run the data to come stays the same, and every object's counter counts its invalid
      fields. */
  lemma {:induction false} RunKeepsData(s: State, p: Path, schedule: seq<seq<nat>>)
    requires Tidy(s.task) && Run(s, p, schedule).Some?
    ensures KeepsData(s.task, Run(s, p, schedule).value.task)
    decreases |schedule|
  {
    if schedule != [] {
      StepKeepsData(s.task, p, s.errors, schedule[0]);
      RunKeepsData(Advance(s.task, p, s.errors, schedule[0]).value, p, schedule[1..]);
    }
  }

  // --- Progress and termination ---

  /** A task that is not done always has a goroutine that can take a step. */
  lemma {:induction false} NeverStuck(t: Task, p: Path, errors: seq<Error>) returns (at: seq<nat>)
    requires Tidy(t) && !t.Done?
    ensures Advance(t, p, errors, at).Some?
    decreases t
  {
    at := [];
    match t
    case Joining(children) =>
      if !AllDone(children) {
        var i :| 0 <= i < |children| && !children[i].Done?;
        var rest := NeverStuck(children[i], p + [Index(i)], errors);
        at := [i] + rest;
        assert at[1..] == rest;
      }
    case Dispatching(fields, slots, _) =>
      if !AllWritten(slots) {
        var i := NextToRun(fields, slots);
        var rest := [];
        assert TidySlot(slots[i]);
        if slots[i].Running? && !slots[i].task.Done? {
          rest := NeverStuck(slots[i].task, p + [Name(fields[i].alias)], errors);
        }
        at := [i] + rest;
        assert at[1..] == rest;
      }
    case _ =>
  }

  lemma {:induction false} NextToRun(fields: seq<FieldPlan>, slots: seq<Slot>) returns (i: nat)
    requires |fields| == |slots| && !AllWritten(slots)
    ensures i < |slots| && !slots[i].Written? && MayRun(fields, slots, i)
  {
    i := 0;
    while i < |slots| && (fields[i].concurrent || slots[i].Written?)
      invariant i <= |slots|
      invariant forall j :: 0 <= j < i ==> fields[j].concurrent || slots[j].Written?
    {
      i := i + 1;
    }
    if i == |slots| {
      i :| i < |slots| && !slots[i].Written?;
    }
  }

  /** Number of steps a task can still take. */
  function Work(t: Task): nat
    decreases t
  {
    match t
    case Done(_) => 0
    case Complaining => 1
    case Checking => 2
    case Scanning(_, left) => 1 + 2 * left
    case Missing(_, left) => 2 + 2 * left
    case Marshalling(a, _) => WorkOf(a)
    case Resolving(f, done) => (if done < f.reports then f.reports - done else 0) + WorkOfOutcome(f)
    case Joining(children) => 1 + Add(seq(|children|, i requires 0 <= i < |children| => Work(children[i])))
    case Dispatching(fields, slots, _) => 1 + Add(seq(|slots|, i requires 0 <= i < |slots| => WorkOfSlot(slots[i])))
  }

  function WorkOfSlot(s: Slot): nat
    decreases s
  {
    match s
    case Running(task) => 2 + Work(task)
    case Returning(_) => 1
    case Written(_) => 0
  }

  function WorkOf(a: Answer): nat
    decreases a
  {
    match a
    case ScalarList(scalarsNonNull, scalars) => 2 + 2 * MissingAmong(scalars, scalarsNonNull)
    case List(_, items) => 2 + Add(seq(|items|, i requires 0 <= i < |items| => WorkOf(items[i])))
    case Object(fields) => 2 + Add(seq(|fields|, i requires 0 <= i < |fields| => 2 + WorkOfField(fields[i])))
    case _ => 3
  }

  function WorkOfField(f: FieldPlan): nat
    decreases f, 1
  {
    f.reports + WorkOfOutcome(f)
  }

  function WorkOfOutcome(f: FieldPlan): nat
    decreases f, 0
  {
    if f.outcome.Answered? then 1 + WorkOf(f.outcome.answer) else 3
  }

  function Add(s: seq<nat>): nat {
    if s == [] then 0 else s[0] + Add(s[1..])
  }

  lemma {:induction false} AddUpdate(s: seq<nat>, i: nat, x: nat)
    requires i < |s|
    ensures Add(s[i := x]) + s[i] == Add(s) + x
    decreases |s|
  {
    if i == 0 {
      assert s[i := x][1..] == s[1..];
    } else {
      assert s[i := x][1..] == s[1..][i - 1 := x];
      AddUpdate(s[1..], i - 1, x);
    }
  }

  lemma {:induction false} StepWorks(t: Task, p: Path, errors: seq<Error>, at: seq<nat>)
    requires Advance(t, p, errors, at).Some?
    ensures Work(Advance(t, p, errors, at).value.task) < Work(t)
    decreases t
  {
    var next := Advance(t, p, errors, at).value.task;
    match t
    case Marshalling(a, _) =>
      MarshallingWorks(a, p, errors, next, t);
    case Joining(children) =>
      if at != [] {
        var i := at[0];
        StepWorks(children[i], p + [Index(i)], errors, at[1..]);
        var works := seq(|children|, j requires 0 <= j < |children| => Work(children[j]));
        var child := Advance(children[i], p + [Index(i)], errors, at[1..]).value.task;
        AddUpdate(works, i, Work(child));
        assert seq(|children|, j requires 0 <= j < |children| => Work(next.children[j])) == works[i := Work(child)];
      }
    case Dispatching(fields, slots, _) =>
      if at != [] {
        var i := at[0];
        if slots[i].Running? && !slots[i].task.Done? {
          StepWorks(slots[i].task, p + [Name(fields[i].alias)], errors, at[1..]);
        }
        var works := seq(|slots|, j requires 0 <= j < |slots| => WorkOfSlot(slots[j]));
        AddUpdate(works, i, WorkOfSlot(next.slots[i]));
        assert seq(|slots|, j requires 0 <= j < |slots| => WorkOfSlot(next.slots[j]))
            == works[i := WorkOfSlot(next.slots[i])];
      }
    case _ =>
  }

  lemma {:induction false} MarshallingWorks(a: Answer, p: Path, errors: seq<Error>, next: Task, t: Task)
    requires t.Marshalling? && t.a == a && Advance(t, p, errors, []).Some? &&
             next == Advance(t, p, errors, []).value.task
    ensures Work(next) < WorkOf(a)
  {
    match a
    case List(_, items) =>
      assert seq(|items|, i requires 0 <= i < |items| => Work(next.children[i]))
          == seq(|items|, i requires 0 <= i < |items| => WorkOf(items[i]));
    case Object(fields) =>
      forall i | 0 <= i < |fields| ensures WorkOfSlot(next.slots[i]) == 2 + WorkOfField(fields[i]) {
        assert next.slots[i] == Running(Resolving(fields[i], 0));
      }
      assert seq(|fields|, i requires 0 <= i < |fields| => WorkOfSlot(next.slots[i]))
          == seq(|fields|, i requires 0 <= i < |fields| => 2 + WorkOfField(fields[i]));
    case _ =>
  }

  /** No run is longer than the work to do; a run that cannot be continued has ended. */
  lemma {:induction false} EveryRunEnds(s: State, p: Path, schedule: seq<seq<nat>>)
    requires Tidy(s.task) && Run(s, p, schedule).Some?
    ensures |schedule| <= Work(s.task)
    ensures var e := Run(s, p, schedule).value;
            (forall at :: Advance(e.task, p, e.errors, at) == None) ==> e.task.Done?
    decreases |schedule|
  {
    if schedule == [] {
      if !s.task.Done? {
        var at := NeverStuck(s.task, p, s.errors);
      }
    } else {
      StepKeepsData(s.task, p, s.errors, schedule[0]);
      StepWorks(s.task, p, s.errors, schedule[0]);
      EveryRunEnds(Advance(s.task, p, s.errors, schedule[0]).value, p, schedule[1..]);
    }
  }
}
