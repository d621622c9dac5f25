/** The goroutines of one concurrent batch and their two semaphores, as a state machine:
    every interleaving of acquiring, running, storing and releasing. */
module BatchExecutor {
  import opened Text

  const MAX_PARALLEL_READS := 8
  const MAX_PARALLEL_TASKS := 4

  /** Where one call's goroutine is. A sub-agent call (`Task`) takes a read slot first and
      then a task slot, and gives them back in the other order. */
  datatype Phase = Waiting | HasReadSlot | Running | Stored | TaskReleased | Done

  datatype State<R> = State(phases: seq<Phase>, results: seq<Option<R>>, readSlots: nat, taskSlots: nat)

  /** A batch: which calls are sub-agents, and what each call returns. */
  datatype Batch<R> = Batch(isTask: seq<bool>, outcome: seq<R>)

  predicate WellSized<R>(b: Batch<R>, s: State<R>) {
    |b.isTask| == |b.outcome| == |s.phases| == |s.results|
  }

  datatype Action = AcquireRead | AcquireTask | Finish | ReleaseTask | ReleaseRead

  predicate Enabled<R>(b: Batch<R>, s: State<R>, i: nat, a: Action)
    requires WellSized(b, s) && i < |s.phases|
  {
    match a
    case AcquireRead => s.phases[i] == Waiting && s.readSlots < MAX_PARALLEL_READS
    case AcquireTask => s.phases[i] == HasReadSlot && b.isTask[i] && s.taskSlots < MAX_PARALLEL_TASKS
    case Finish => s.phases[i] == Running || (s.phases[i] == HasReadSlot && !b.isTask[i])
    case ReleaseTask => s.phases[i] == Stored && b.isTask[i]
    case ReleaseRead => s.phases[i] == TaskReleased || (s.phases[i] == Stored && !b.isTask[i])
  }

  function Move<R>(b: Batch<R>, s: State<R>, i: nat, a: Action): State<R>
    requires WellSized(b, s) && i < |s.phases| && Enabled(b, s, i, a)
    requires (a == ReleaseTask ==> s.taskSlots > 0) && (a == ReleaseRead ==> s.readSlots > 0)
  {
    match a
    case AcquireRead => s.(phases := s.phases[i := HasReadSlot], readSlots := s.readSlots + 1)
    case AcquireTask => s.(phases := s.phases[i := Running], taskSlots := s.taskSlots + 1)
    case Finish => s.(phases := s.phases[i := Stored], results := s.results[i := Some(b.outcome[i])])
    case ReleaseTask => s.(phases := s.phases[i := TaskReleased], taskSlots := s.taskSlots - 1)
    case ReleaseRead => s.(phases := s.phases[i := Done], readSlots := s.readSlots - 1)
  }

  /* ---- counting ---- */

  predicate HoldsRead(p: Phase) {
    p != Waiting && p != Done
  }

  predicate HoldsTask(p: Phase, isTask: bool) {
    isTask && (p == Running || p == Stored)
  }

  /** The call is executing: a plain read as soon as it has a slot, a sub-agent once it has
      both. */
  predicate Executing(p: Phase, isTask: bool) {
    p == Running || (p == HasReadSlot && !isTask)
  }

  function ReadHolders(phases: seq<Phase>): nat {
    if phases == [] then 0
    else ReadHolders(phases[..|phases| - 1]) + if HoldsRead(phases[|phases| - 1]) then 1 else 0
  }

  function TaskHolders(phases: seq<Phase>, isTask: seq<bool>): nat
    requires |phases| == |isTask|
  {
    if phases == [] then 0
    else
      var n := |phases| - 1;
      TaskHolders(phases[..n], isTask[..n]) + if HoldsTask(phases[n], isTask[n]) then 1 else 0
  }

  function ExecutingCount(phases: seq<Phase>, isTask: seq<bool>, tasksOnly: bool): nat
    requires |phases| == |isTask|
  {
    if phases == [] then 0
    else
      var n := |phases| - 1;
      ExecutingCount(phases[..n], isTask[..n], tasksOnly)
      + if Executing(phases[n], isTask[n]) && (tasksOnly ==> isTask[n]) then 1 else 0
  }

  lemma {:induction false} ReadHoldersUpdate(phases: seq<Phase>, i: nat, p: Phase)
    requires i < |phases|
    ensures ReadHolders(phases[i := p]) + (if HoldsRead(phases[i]) then 1 else 0)
         == ReadHolders(phases) + (if HoldsRead(p) then 1 else 0)
  {
    var n := |phases| - 1;
    if i < n {
      assert phases[i := p][..n] == phases[..n][i := p];
      ReadHoldersUpdate(phases[..n], i, p);
    } else {
      assert phases[i := p][..n] == phases[..n];
    }
  }

  lemma {:induction false} TaskHoldersUpdate(phases: seq<Phase>, isTask: seq<bool>, i: nat, p: Phase)
    requires i < |phases| == |isTask|
    ensures TaskHolders(phases[i := p], isTask) + (if HoldsTask(phases[i], isTask[i]) then 1 else 0)
         == TaskHolders(phases, isTask) + (if HoldsTask(p, isTask[i]) then 1 else 0)
  {
    var n := |phases| - 1;
    if i < n {
      assert phases[i := p][..n] == phases[..n][i := p];
      TaskHoldersUpdate(phases[..n], isTask[..n], i, p);
    } else {
      assert phases[i := p][..n] == phases[..n];
    }
  }

  lemma {:induction false} ExecutingHold(phases: seq<Phase>, isTask: seq<bool>)
    requires |phases| == |isTask|
    ensures ExecutingCount(phases, isTask, false) <= ReadHolders(phases)
    ensures (forall k :: 0 <= k < |phases| && phases[k] == Running ==> isTask[k])
      ==> ExecutingCount(phases, isTask, true) <= TaskHolders(phases, isTask)
  {
    if phases != [] {
      ExecutingHold(phases[..|phases| - 1], isTask[..|phases| - 1]);
    }
  }

  lemma {:induction false} HolderCounts(phases: seq<Phase>, i: nat)
    requires i < |phases| && HoldsRead(phases[i])
    ensures ReadHolders(phases) > 0
  {
    var n := |phases| - 1;
    if i < n {
      HolderCounts(phases[..n], i);
    }
  }

  lemma {:induction false} TaskHolderCounts(phases: seq<Phase>, isTask: seq<bool>, i: nat)
    requires i < |phases| == |isTask| && HoldsTask(phases[i], isTask[i])
    ensures TaskHolders(phases, isTask) > 0
  {
    var n := |phases| - 1;
    if i < n {
      TaskHolderCounts(phases[..n], isTask[..n], i);
    }
  }

  lemma {:induction false} NoHolders(phases: seq<Phase>, isTask: seq<bool>)
    requires |phases| == |isTask|
    ensures (forall k :: 0 <= k < |phases| ==> !HoldsRead(phases[k])) ==> ReadHolders(phases) == 0
    ensures (forall k :: 0 <= k < |phases| ==> !HoldsTask(phases[k], isTask[k])) ==> TaskHolders(phases, isTask) == 0
  {
    if phases != [] {
      NoHolders(phases[..|phases| - 1], isTask[..|phases| - 1]);
    }
  }

  /* ---- the invariant ---- */

  ghost predicate Inv<R>(b: Batch<R>, s: State<R>) {
    && WellSized(b, s)
    && s.readSlots == ReadHolders(s.phases) <= MAX_PARALLEL_READS
    && s.taskSlots == TaskHolders(s.phases, b.isTask) <= MAX_PARALLEL_TASKS
    && (forall k :: 0 <= k < |s.phases| && (s.phases[k] == Running || s.phases[k] == TaskReleased) ==> b.isTask[k])
    && (forall k :: 0 <= k < |s.phases| ==>
          s.results[k] == if s.phases[k] in {Stored, TaskReleased, Done} then Some(b.outcome[k]) else None)
  }

  function Start<R>(b: Batch<R>): State<R> {
    State(seq(|b.isTask|, _ => Waiting), seq(|b.isTask|, _ => None), 0, 0)
  }

  lemma StartInv<R>(b: Batch<R>)
    requires |b.isTask| == |b.outcome|
    ensures Inv(b, Start(b))
  {
    NoHolders(Start(b).phases, b.isTask);
  }

  /** A releasing goroutine finds its slot in the semaphore, so it never blocks. */
  lemma ReleaseNeverBlocks<R>(b: Batch<R>, s: State<R>, i: nat, a: Action)
    requires Inv(b, s) && i < |s.phases| && Enabled(b, s, i, a)
    ensures (a == ReleaseTask ==> s.taskSlots > 0) && (a == ReleaseRead ==> s.readSlots > 0)
  {
    if a == ReleaseTask {
      TaskHolderCounts(s.phases, b.isTask, i);
    }
    if a == ReleaseRead {
      HolderCounts(s.phases, i);
    }
  }

  lemma MoveKeepsInv<R>(b: Batch<R>, s: State<R>, i: nat, a: Action)
    requires Inv(b, s) && i < |s.phases| && Enabled(b, s, i, a)
    requires (a == ReleaseTask ==> s.taskSlots > 0) && (a == ReleaseRead ==> s.readSlots > 0)
    ensures Inv(b, Move(b, s, i, a))
  {
    hide ReadHolders, TaskHolders;
    var p := Move(b, s, i, a).phases[i];
    ReadHoldersUpdate(s.phases, i, p);
    TaskHoldersUpdate(s.phases, b.isTask, i, p);
  }

  /** The calls in the middle of executing: those that can finish next. */
  function InProgress<R>(b: Batch<R>, s: State<R>, tasksOnly: bool): set<int>
    requires WellSized(b, s)
  {
    set k | 0 <= k < |s.phases| && Enabled(b, s, k, Finish) && (tasksOnly ==> b.isTask[k])
  }

  predicate IsCounted(phases: seq<Phase>, isTask: seq<bool>, tasksOnly: bool, k: int)
    requires |phases| == |isTask|
  {
    0 <= k < |phases| && Executing(phases[k], isTask[k]) && (tasksOnly ==> isTask[k])
  }

  function Counted(phases: seq<Phase>, isTask: seq<bool>, tasksOnly: bool): set<int>
    requires |phases| == |isTask|
  {
    set k | 0 <= k < |phases| && IsCounted(phases, isTask, tasksOnly, k)
  }

  lemma CountedInit(phases: seq<Phase>, isTask: seq<bool>, tasksOnly: bool, k: int)
    requires |phases| == |isTask| > 0 && k < |phases| - 1
    ensures var n := |phases| - 1;
      IsCounted(phases, isTask, tasksOnly, k) <==> IsCounted(phases[..n], isTask[..n], tasksOnly, k)
  {
  }

  lemma CountedStep(phases: seq<Phase>, isTask: seq<bool>, tasksOnly: bool)
    requires |phases| == |isTask| > 0
    ensures var n := |phases| - 1;
      |Counted(phases, isTask, tasksOnly)| == |Counted(phases[..n], isTask[..n], tasksOnly)|
        + if IsCounted(phases, isTask, tasksOnly, n) then 1 else 0
  {
    hide IsCounted;
    var n := |phases| - 1;
    forall k | k < n ensures IsCounted(phases, isTask, tasksOnly, k) <==> IsCounted(phases[..n], isTask[..n], tasksOnly, k) {
      CountedInit(phases, isTask, tasksOnly, k);
    }
    assert Counted(phases, isTask, tasksOnly)
      == Counted(phases[..n], isTask[..n], tasksOnly) + if IsCounted(phases, isTask, tasksOnly, n) then {n} else {};
  }

  lemma {:induction false} ExecutingCountIs(phases: seq<Phase>, isTask: seq<bool>, tasksOnly: bool)
    requires |phases| == |isTask|
    ensures ExecutingCount(phases, isTask, tasksOnly) == |Counted(phases, isTask, tasksOnly)|
  {
    hide Executing;
    if phases == [] {
      assert Counted(phases, isTask, tasksOnly) == {};
    } else {
      hide Counted;
      ExecutingCountIs(phases[..|phases| - 1], isTask[..|phases| - 1], tasksOnly);
      CountedStep(phases, isTask, tasksOnly);
    }
  }

  /** No reachable state runs more than eight calls or four sub-agents. */
  lemma ConcurrencyBounded<R>(b: Batch<R>, s: State<R>)
    requires Inv(b, s)
    ensures |InProgress(b, s, false)| <= 8 && |InProgress(b, s, true)| <= 4
  {
    ExecutingHold(s.phases, b.isTask);
    ExecutingCountIs(s.phases, b.isTask, false);
    ExecutingCountIs(s.phases, b.isTask, true);
    assert InProgress(b, s, false) == Counted(s.phases, b.isTask, false);
    assert InProgress(b, s, true) == Counted(s.phases, b.isTask, true);
  }

  /* ---- progress ---- */

  predicate Finished<R>(s: State<R>) {
    forall k :: 0 <= k < |s.phases| ==> s.phases[k] == Done
  }

  /** Some goroutine can always move until all are done, even when waiting sub-agents hold
      every read slot. */
  lemma NeverStuck<R>(b: Batch<R>, s: State<R>) returns (i: nat, a: Action)
    requires Inv(b, s) && !Finished(s)
    ensures i < |s.phases| && Enabled(b, s, i, a)
  {
    hide ReadHolders, TaskHolders;
    NoHolders(s.phases, b.isTask);
    if k :| 0 <= k < |s.phases| && s.phases[k] == TaskReleased {
      i, a := k, ReleaseRead;
    } else if k :| 0 <= k < |s.phases| && s.phases[k] == Stored {
      i, a := k, if b.isTask[k] then ReleaseTask else ReleaseRead;
    } else if k :| 0 <= k < |s.phases| && s.phases[k] == Running {
      i, a := k, Finish;
    } else if k :| 0 <= k < |s.phases| && s.phases[k] == HasReadSlot {
      i, a := k, if b.isTask[k] then AcquireTask else Finish;
    } else {
      var k :| 0 <= k < |s.phases| && s.phases[k] != Done;
      i, a := k, AcquireRead;
    }
  }

  /** The moves a goroutine still has to make. */
  function MovesLeft(p: Phase, isTask: bool): nat {
    match p
    case Waiting => if isTask then 5 else 3
    case HasReadSlot => if isTask then 4 else 2
    case Running => 3
    case Stored => if isTask then 2 else 1
    case TaskReleased => 1
    case Done => 0
  }

  function Remaining(phases: seq<Phase>, isTask: seq<bool>): nat
    requires |phases| == |isTask|
  {
    if phases == [] then 0
    else
      var n := |phases| - 1;
      Remaining(phases[..n], isTask[..n]) + MovesLeft(phases[n], isTask[n])
  }

  lemma {:induction false} RemainingUpdate(phases: seq<Phase>, isTask: seq<bool>, i: nat, p: Phase)
    requires i < |phases| == |isTask|
    ensures Remaining(phases[i := p], isTask) + MovesLeft(phases[i], isTask[i])
         == Remaining(phases, isTask) + MovesLeft(p, isTask[i])
  {
    hide MovesLeft;
    var n := |phases| - 1;
    if i < n {
      assert phases[i := p][..n] == phases[..n][i := p];
      RemainingUpdate(phases[..n], isTask[..n], i, p);
    } else {
      assert phases[i := p][..n] == phases[..n];
    }
  }

  /** A batch of n calls makes at most 5n moves in all. */
  lemma {:induction false} FiveMovesEach(phases: seq<Phase>, isTask: seq<bool>)
    requires |phases| == |isTask|
    ensures Remaining(phases, isTask) <= 5 * |phases|
  {
    if phases != [] {
      FiveMovesEach(phases[..|phases| - 1], isTask[..|phases| - 1]);
    }
  }

  /** Every move brings the batch one move closer to its end. */
  lemma MoveCountsDown<R>(b: Batch<R>, s: State<R>, i: nat, a: Action)
    requires Inv(b, s) && i < |s.phases| && Enabled(b, s, i, a)
    requires (a == ReleaseTask ==> s.taskSlots > 0) && (a == ReleaseRead ==> s.readSlots > 0)
    ensures Remaining(Move(b, s, i, a).phases, b.isTask) == Remaining(s.phases, b.isTask) - 1
  {
    hide Remaining, ReadHolders, TaskHolders;
    RemainingUpdate(s.phases, b.isTask, i, Move(b, s, i, a).phases[i]);
  }

  /** One interleaving of the batch from a state. */
  datatype Step = Step(i: nat, a: Action)

  ghost predicate IsRun<R>(b: Batch<R>, s: State<R>, steps: seq<Step>, t: State<R>)
    requires Inv(b, s)
    decreases |steps|
  {
    if steps == [] then t == s
    else
      && steps[0].i < |s.phases| && Enabled(b, s, steps[0].i, steps[0].a)
      && (ReleaseNeverBlocks(b, s, steps[0].i, steps[0].a); MoveKeepsInv(b, s, steps[0].i, steps[0].a);
          IsRun(b, Move(b, s, steps[0].i, steps[0].a), steps[1..], t))
  }

  /** Whatever the interleaving, a run keeps its bounds and has exactly the moves it used
      up; one that cannot go on has finished with every result in its own slot. */
  lemma {:induction false} EveryRunFinishes<R>(b: Batch<R>, s: State<R>, steps: seq<Step>, t: State<R>)
    requires Inv(b, s) && IsRun(b, s, steps, t)
    ensures Inv(b, t)
    ensures |steps| + Remaining(t.phases, b.isTask) == Remaining(s.phases, b.isTask)
    ensures (forall i: nat, a :: i < |t.phases| ==> !Enabled(b, t, i, a)) ==>
      Finished(t) && forall k :: 0 <= k < |t.results| ==> t.results[k] == Some(b.outcome[k])
    decreases |steps|
  {
    hide Remaining, Move, Enabled, ReadHolders, TaskHolders;
    if steps == [] {
      if !Finished(t) {
        var i, a := NeverStuck(b, t);
      }
    } else {
      var i, a := steps[0].i, steps[0].a;
      ReleaseNeverBlocks(b, s, i, a);
      MoveKeepsInv(b, s, i, a);
      MoveCountsDown(b, s, i, a);
      EveryRunFinishes(b, Move(b, s, i, a), steps[1..], t);
    }
  }
}
