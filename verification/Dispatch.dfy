/** `FieldSet.Dispatch` as steps of the calling goroutine and of those it spawns. */
module Dispatch {
  import opened Wrappers

  /** Where the calling goroutine is. It announces each task to the wait group before it spawns
      it, runs the first task itself, and then waits. */
  datatype Caller = Announcing(k: nat) | Spawning(k: nat) | RunningFirst | Waiting | Returned

  datatype Phase = Idle | Running | Stored | Finished

  /** `slots[k]` is the slot of the k-th delayed task, `results[k]` what its function returns. */
  datatype Job<T> = Job(slots: seq<nat>, results: seq<T>)

  datatype State<T> = State(caller: Caller, tasks: seq<Phase>, waitGroup: int, values: seq<T>, writes: seq<nat>)

  datatype Move = CallerMoves | TaskMoves(k: nat)

  ghost predicate ValidJob<T>(job: Job<T>, width: nat) {
    && |job.slots| == |job.results|
    && (forall k :: 0 <= k < |job.slots| ==> job.slots[k] < width)
    && (forall j, k :: 0 <= j < k < |job.slots| ==> job.slots[j] != job.slots[k])
  }

  function Begin<T>(job: Job<T>, values: seq<T>): State<T> {
    var n := |job.slots|;
    State(if n == 0 then Returned else if n == 1 then RunningFirst else Announcing(1),
          seq(n, _ => Idle), 0, values, seq(n, _ => 0))
  }

  function Store<T>(job: Job<T>, s: State<T>, k: nat): State<T> {
    if k < |job.slots| && k < |job.results| && k < |s.writes| && job.slots[k] < |s.values| then
      s.(values := s.values[job.slots[k] := job.results[k]], writes := s.writes[k := s.writes[k] + 1])
    else s
  }

  /** The next step of the caller or of a spawned task, if it can take one. */
  function Step<T>(job: Job<T>, s: State<T>, move: Move): Option<State<T>> {
    var n := |s.tasks|;
    match move
    case CallerMoves => (
      match s.caller
      case Announcing(k) =>
        Some(if k < n then s.(caller := Spawning(k), waitGroup := s.waitGroup + 1) else s.(caller := RunningFirst))
      case Spawning(k) =>
        if k < n then Some(s.(caller := Announcing(k + 1), tasks := s.tasks[k := Running])) else None
      case RunningFirst =>
        Some(Store(job, s, 0).(caller := if n == 1 then Returned else Waiting))
      case Waiting => if s.waitGroup == 0 then Some(s.(caller := Returned)) else None
      case Returned => None)
    case TaskMoves(k) =>
      if k >= n then None
      else (
        match s.tasks[k]
        case Running =>
          var t := Store(job, s, k);
          if k < |t.tasks| then Some(t.(tasks := t.tasks[k := Stored])) else None
        case Stored => Some(s.(tasks := s.tasks[k := Finished], waitGroup := s.waitGroup - 1))
        case _ => None)
  }

  function Run<T>(job: Job<T>, s: State<T>, moves: seq<Move>): Option<State<T>>
    decreases |moves|
  {
    if moves == [] then Some(s)
    else
      match Step(job, s, moves[0])
      case None => None
      case Some(t) => Run(job, t, moves[1..])
  }

  // --- The invariant ---

  /** Tasks spawned and not finished. */
  function Unfinished(tasks: seq<Phase>): nat {
    if tasks == [] then 0
    else (if tasks[0].Running? || tasks[0].Stored? then 1 else 0) + Unfinished(tasks[1..])
  }

  lemma {:induction false} UnfinishedUpdate(tasks: seq<Phase>, k: nat, p: Phase)
    requires k < |tasks|
    ensures Unfinished(tasks[k := p]) + (if tasks[k].Running? || tasks[k].Stored? then 1 else 0)
         == Unfinished(tasks) + (if p.Running? || p.Stored? then 1 else 0)
    decreases |tasks|
  {
    if k == 0 {
      assert tasks[k := p][1..] == tasks[1..];
    } else {
      assert tasks[k := p][1..] == tasks[1..][k - 1 := p];
      UnfinishedUpdate(tasks[1..], k - 1, p);
    }
  }

  lemma {:induction false} UnfinishedNone(tasks: seq<Phase>)
    ensures Unfinished(tasks) == 0 <==> forall k :: 0 <= k < |tasks| ==> !tasks[k].Running? && !tasks[k].Stored?
    decreases |tasks|
  {
    if tasks != [] {
      UnfinishedNone(tasks[1..]);
      assert forall k :: 1 <= k < |tasks| ==> tasks[k] == tasks[1..][k - 1];
      if forall k :: 0 <= k < |tasks| ==> !tasks[k].Running? && !tasks[k].Stored? {
        assert forall k :: 0 <= k < |tasks| - 1 ==> tasks[1..][k] == tasks[k + 1];
      }
    }
  }

  /** Number of tasks the caller has spawned or skipped (the first one it runs itself). */
  function Spawned<T>(s: State<T>): nat {
    match s.caller
    case Announcing(k) => k
    case Spawning(k) => k
    case _ => |s.tasks|
  }

  /** Task k has stored its result. */
  predicate HasStored<T>(s: State<T>, k: nat) {
    if k == 0 then s.caller == Waiting || s.caller == Returned
    else k < |s.tasks| && (s.tasks[k] == Stored || s.tasks[k] == Finished)
  }

  ghost predicate Invariant<T>(job: Job<T>, initial: seq<T>, s: State<T>) {
    && |s.tasks| == |s.writes| == |job.slots| && |s.values| == |initial| && ValidJob(job, |initial|)
    && Progressed(s) && Stores(job, initial, s)
  }

  /** The wait group counts the tasks announced and not finished. */
  ghost predicate Progressed<T>(s: State<T>) {
    && s.waitGroup == Unfinished(s.tasks) + (if s.caller.Spawning? then 1 else 0)
    && (s.tasks == [] ==> s.caller == Returned) && (|s.tasks| == 1 ==> s.caller == RunningFirst || s.caller == Returned)
    && (s.tasks != [] ==> s.tasks[0] == Idle && 1 <= Spawned(s) <= |s.tasks|)
    && (forall k :: 1 <= k < |s.tasks| ==> (s.tasks[k] == Idle <==> k >= Spawned(s)))
    && (s.caller.Spawning? ==> s.caller.k < |s.tasks|)
    && (s.caller.Returned? ==> forall k :: 1 <= k < |s.tasks| ==> s.tasks[k] == Finished)
  }

  ghost predicate Stores<T>(job: Job<T>, initial: seq<T>, s: State<T>)
    requires |s.tasks| == |s.writes| == |job.slots| && |s.values| == |initial| && ValidJob(job, |initial|)
  {
    && (forall k :: 0 <= k < |job.slots| ==>
          s.writes[k] == (if HasStored(s, k) then 1 else 0)
          && s.values[job.slots[k]] == (if HasStored(s, k) then job.results[k] else initial[job.slots[k]]))
    && (forall i :: 0 <= i < |initial| && i !in job.slots ==> s.values[i] == initial[i])
  }

  lemma {:induction false} BeginInvariant<T>(job: Job<T>, initial: seq<T>)
    requires ValidJob(job, |initial|)
    ensures Invariant(job, initial, Begin(job, initial))
  {
    UnfinishedNone(Begin(job, initial).tasks);
  }

  lemma {:induction false} CallerInvariant<T>(job: Job<T>, initial: seq<T>, s: State<T>)
    requires Invariant(job, initial, s) && Step(job, s, CallerMoves).Some?
    ensures Invariant(job, initial, Step(job, s, CallerMoves).value)
  {
    UnfinishedNone(s.tasks);
    if s.caller.Spawning? {
      UnfinishedUpdate(s.tasks, s.caller.k, Running);
    }
  }

  lemma {:induction false} TaskInvariant<T>(job: Job<T>, initial: seq<T>, s: State<T>, k: nat)
    requires Invariant(job, initial, s) && Step(job, s, TaskMoves(k)).Some?
    ensures Invariant(job, initial, Step(job, s, TaskMoves(k)).value)
  {
    UnfinishedUpdate(s.tasks, k, if s.tasks[k].Running? then Stored else Finished);
  }

  lemma {:induction false} RunInvariant<T>(job: Job<T>, initial: seq<T>, s: State<T>, moves: seq<Move>)
    requires Invariant(job, initial, s) && Run(job, s, moves).Some?
    ensures Invariant(job, initial, Run(job, s, moves).value)
    decreases |moves|
  {
    if moves != [] {
      match moves[0] {
        case CallerMoves => CallerInvariant(job, initial, s);
        case TaskMoves(k) => TaskInvariant(job, initial, s, k);
      }
      RunInvariant(job, initial, Step(job, s, moves[0]).value, moves[1..]);
    }
  }

  /** In every interleaving, with any number of tasks: the wait group counts the tasks announced
      and unfinished, so it is never negative; and once `Dispatch` has returned, every delayed
      slot was written exactly once, with its own task's result, and no other slot changed. */
  lemma {:induction false} DispatchWritesEverySlotOnce<T>(job: Job<T>, initial: seq<T>, moves: seq<Move>)
    requires ValidJob(job, |initial|) && Run(job, Begin(job, initial), moves).Some?
    ensures var s := Run(job, Begin(job, initial), moves).value;
            && s.waitGroup == Unfinished(s.tasks) + (if s.caller.Spawning? then 1 else 0)
            && |s.values| == |initial| && |s.writes| == |job.slots|
            && (s.caller.Returned? ==>
                  && (forall k :: 0 <= k < |job.slots| ==>
                        s.writes[k] == 1 && s.values[job.slots[k]] == job.results[k])
                  && (forall i :: 0 <= i < |initial| && i !in job.slots ==> s.values[i] == initial[i]))
  {
    BeginInvariant(job, initial);
    RunInvariant(job, initial, Begin(job, initial), moves);
  }

  /** Until `Dispatch` has returned, somebody can move. */
  lemma {:induction false} DispatchNeverStuck<T>(job: Job<T>, initial: seq<T>, s: State<T>) returns (move: Move)
    requires Invariant(job, initial, s) && !s.caller.Returned?
    ensures Step(job, s, move).Some?
  {
    move := CallerMoves;
    if s.caller.Waiting? && s.waitGroup != 0 {
      UnfinishedNone(s.tasks);
      var k: nat :| k < |s.tasks| && (s.tasks[k].Running? || s.tasks[k].Stored?);
      move := TaskMoves(k);
    }
  }

  // --- How many moves it takes ---

  /** Moves of the caller, and of the tasks, still to come; the first task is run by the caller. */
  function MovesLeft<T>(s: State<T>): nat {
    var n := |s.tasks|;
    TaskMovesLeft(s.tasks) +
    match s.caller
    case Announcing(k) => if k <= n then 2 * (n - k) + 3 else 0
    case Spawning(k) => if k <= n then 2 * (n - k) + 2 else 0
    case RunningFirst => if n == 1 then 1 else 2
    case Waiting => 1
    case Returned => 0
  }

  function PhaseMovesLeft(p: Phase): nat {
    match p
    case Idle => 2
    case Running => 2
    case Stored => 1
    case Finished => 0
  }

  function TaskMovesLeft(tasks: seq<Phase>): nat {
    if tasks == [] then 0 else PhaseMovesLeft(tasks[0]) + TaskMovesLeft(tasks[1..])
  }

  lemma {:induction false} TaskMovesUpdate(tasks: seq<Phase>, k: nat, p: Phase)
    requires k < |tasks|
    ensures TaskMovesLeft(tasks[k := p]) + PhaseMovesLeft(tasks[k]) == TaskMovesLeft(tasks) + PhaseMovesLeft(p)
    decreases |tasks|
  {
    if k == 0 {
      assert tasks[k := p][1..] == tasks[1..];
    } else {
      assert tasks[k := p][1..] == tasks[1..][k - 1 := p];
      TaskMovesUpdate(tasks[1..], k - 1, p);
    }
  }

  lemma {:induction false} AllInPhase(tasks: seq<Phase>, p: Phase)
    requires forall k :: 0 <= k < |tasks| ==> tasks[k] == p
    ensures TaskMovesLeft(tasks) == PhaseMovesLeft(p) * |tasks|
    decreases |tasks|
  {
    if tasks != [] {
      AllInPhase(tasks[1..], p);
    }
  }

  lemma {:induction false} EachMoveCounts<T>(job: Job<T>, initial: seq<T>, s: State<T>, move: Move)
    requires Invariant(job, initial, s) && Step(job, s, move).Some?
    ensures MovesLeft(Step(job, s, move).value) + 1 == MovesLeft(s)
  {
    match move
    case CallerMoves =>
      if s.caller.Spawning? {
        TaskMovesUpdate(s.tasks, s.caller.k, Running);
      }
    case TaskMoves(k) =>
      TaskMovesUpdate(s.tasks, k, if s.tasks[k].Running? then Stored else Finished);
  }

  lemma {:induction false} RunCounts<T>(job: Job<T>, initial: seq<T>, s: State<T>, moves: seq<Move>)
    requires Invariant(job, initial, s) && Run(job, s, moves).Some?
    ensures MovesLeft(Run(job, s, moves).value) + |moves| == MovesLeft(s)
    decreases |moves|
  {
    if moves != [] {
      EachMoveCounts(job, initial, s, moves[0]);
      match moves[0] {
        case CallerMoves => CallerInvariant(job, initial, s);
        case TaskMoves(k) => TaskInvariant(job, initial, s, k);
      }
      RunCounts(job, initial, Step(job, s, moves[0]).value, moves[1..]);
    }
  }

  /** No run takes more moves than this, and every run that returns takes just as many. */
  function MovesOf(n: nat): nat {
    if n <= 1 then n else 4 * n - 1
  }

  lemma {:induction false} DispatchReturns<T>(job: Job<T>, initial: seq<T>, moves: seq<Move>)
    requires ValidJob(job, |initial|) && Run(job, Begin(job, initial), moves).Some?
    ensures |moves| <= MovesOf(|job.slots|)
    ensures |moves| == MovesOf(|job.slots|) <==> Run(job, Begin(job, initial), moves).value.caller.Returned?
  {
    var b := Begin(job, initial);
    BeginInvariant(job, initial);
    RunInvariant(job, initial, b, moves);
    RunCounts(job, initial, b, moves);
    AllInPhase(b.tasks, Idle);
    var s := Run(job, b, moves).value;
    if s.caller.Returned? && s.tasks != [] {
      AllInPhase(s.tasks[1..], Finished);
    }
    if !s.caller.Returned? {
      assert PhaseMovesLeft(s.tasks[0]) == 2;
    }
  }
}
