/**
 KeyedDispatcher over ExecutionQueue.  The queue is a class; the dispatcher is a step machine of
 dispatching threads, worker threads and one Shutdown.  A dispatch is two steps, as in the source:
 the check of mRunning, and the push with its counter.
 */
module Dispatcher {
  import opened Sequences

  // ---------------------------------------------------------------- the bounded queue

  datatype Policy = RejectNewest | Block

  /** Room for one more: capacity 0 means unbounded. */
  predicate Accepts(length: nat, capacity: nat, shutdown: bool) { !shutdown && (capacity == 0 || length < capacity) }

  class ExecutionQueue<T> {
    const policy: Policy
    const capacity: nat
    var items: seq<T>    // mQueue
    var size: int        // mSize
    var shutdown: bool   // mShutdown

    constructor (policy: Policy, capacity: nat)
      ensures Valid() && items == [] && !shutdown && this.policy == policy && this.capacity == capacity
    {
      this.policy, this.capacity, items, size, shutdown := policy, capacity, [], 0, false;
    }

    ghost predicate Valid()
      reads this
    {
      size == |items| && (capacity > 0 ==> |items| <= capacity)
    }

    method TryPush(x: T) returns (ok: bool)
      requires Valid()
      modifies this`items, this`size
      ensures Valid() && ok == Accepts(|old(items)|, capacity, shutdown)
      ensures items == if ok then old(items) + [x] else old(items)
    {
      if shutdown { return false; }
      if capacity > 0 && |items| >= capacity { return false; }
      items, size, ok := items + [x], size + 1, true;
    }

    /** After the wait for room or shutdown; a wait that timed out finds neither. */
    method PushBlocking(x: T) returns (ok: bool)
      requires Valid()
      modifies this`items, this`size
      ensures Valid() && ok == Accepts(|old(items)|, capacity, shutdown)
      ensures items == if ok then old(items) + [x] else old(items)
    {
      var canPush := shutdown || capacity == 0 || |items| < capacity;
      if !canPush { return false; }
      if shutdown { return false; }
      items, size, ok := items + [x], size + 1, true;
    }

    /** Both back-pressure policies decide alike once they decide. */
    method Push(x: T) returns (ok: bool)
      requires Valid()
      modifies this`items, this`size
      ensures Valid() && ok == Accepts(|old(items)|, capacity, shutdown)
      ensures items == if ok then old(items) + [x] else old(items)
    {
      if policy == RejectNewest { ok := TryPush(x); } else { ok := PushBlocking(x); }
    }

    /** First in, first out; also after Shutdown, so queued items are never dropped. */
    method TryPop(fallback: T) returns (ok: bool, x: T)
      requires Valid()
      modifies this`items, this`size
      ensures Valid() && ok == (old(items) != [])
      ensures ok ==> [x] + items == old(items)
      ensures !ok ==> items == [] && x == fallback
    {
      if items == [] { return false, fallback; }
      ok, x := true, items[0];
      items, size := items[1..], size - 1;
    }

    method Shutdown()
      modifies this`shutdown
      ensures shutdown
    {
      shutdown := true;
    }
  }

  // ---------------------------------------------------------------- the dispatcher

  datatype Task = Task(key: nat, uid: nat)

  datatype Current = Nothing | Running(task: Task)

  datatype Worker = Worker(
    queue: seq<Task>,
    shutdown: bool,
    current: Current,
    exited: bool,
    accepted: seq<Task>,  // history: pushed, in order
    started: seq<Task>,   // history: taken by the worker, in order
    late: seq<Task>)      // history: pushed after the worker had exited

  datatype Phase = Up | Stopping(next: nat) | Cleared

  datatype Pc = Idle | Checked(task: Task)

  datatype State = State(
    capacity: nat,
    running: bool,
    phase: Phase,
    workers: seq<Worker>,
    pcs: seq<Pc>,           // dispatching threads
    submitted: nat, rejected: nat, completed: nat, failed: nat,
    overlap: bool)          // history: a dispatch was past its check when Shutdown began

  datatype Action =
    | Check(t: nat, task: Task)     // Dispatch reads mRunning
    | Push(t: nat)                  // ... and pushes
    | Pop(i: nat)                   // worker i takes a task
    | Finish(i: nat, ok: bool)      // its task returns or throws
    | Exit(i: nat)                  // worker i sees !mRunning and an empty queue
    | Begin                         // Shutdown clears mRunning
    | StopQueue                     // ... shuts the next queue down
    | Clear                         // ... has joined all workers and clears them

  ghost predicate Init(s: State)
  {
    && s.running && s.phase == Up && !s.overlap && |s.workers| > 0
    && s.submitted == s.rejected == s.completed == s.failed == 0
    && (forall i :: 0 <= i < |s.workers| ==> s.workers[i] == Worker([], false, Nothing, false, [], [], []))
    && forall t :: 0 <= t < |s.pcs| ==> s.pcs[t] == Idle
  }

  ghost predicate NoneChecked(pcs: seq<Pc>) { forall t :: 0 <= t < |pcs| ==> pcs[t].Idle? }

  ghost predicate Enabled(s: State, a: Action)
  {
    |s.workers| > 0 &&
    match a
    case Check(t, _) => t < |s.pcs| && s.pcs[t].Idle?
    case Push(t) => t < |s.pcs| && s.pcs[t].Checked?
    case Pop(i) => i < |s.workers| && !s.workers[i].exited && s.workers[i].current.Nothing? && s.workers[i].queue != []
    case Finish(i, _) => i < |s.workers| && s.workers[i].current.Running?
    case Exit(i) =>
      i < |s.workers| && !s.workers[i].exited && s.workers[i].current.Nothing? && s.workers[i].queue == [] && !s.running
    case Begin => s.running
    case StopQueue => s.phase.Stopping? && s.phase.next < |s.workers|
    case Clear => s.phase == Stopping(|s.workers|) && NoneChecked(s.pcs) &&
                  forall i :: 0 <= i < |s.workers| ==> s.workers[i].exited
  }

  function Route(s: State, key: nat): nat
    requires |s.workers| > 0
  {
    key % |s.workers|
  }

  function Pushed(w: Worker, task: Task): Worker
  {
    w.(queue := w.queue + [task], accepted := w.accepted + [task], late := if w.exited then w.late + [task] else w.late)
  }

  ghost function Next(s: State, a: Action): State
    requires Enabled(s, a)
  {
    match a
    case Check(t, task) =>
      if !s.running || s.phase.Cleared? then s.(rejected := s.rejected + 1) else s.(pcs := s.pcs[t := Checked(task)])
    case Push(t) =>
      var task := s.pcs[t].task;
      var i := Route(s, task.key);
      var w := s.workers[i];
      var s1 := s.(pcs := s.pcs[t := Idle]);
      if Accepts(|w.queue|, s.capacity, w.shutdown)
      then s1.(workers := s.workers[i := Pushed(w, task)], submitted := s.submitted + 1)
      else s1.(rejected := s.rejected + 1)
    case Pop(i) =>
      var w := s.workers[i];
      s.(workers := s.workers[i := w.(queue := w.queue[1..], current := Running(w.queue[0]),
                                      started := w.started + [w.queue[0]])])
    case Finish(i, ok) =>
      s.(workers := s.workers[i := s.workers[i].(current := Nothing)],
         completed := s.completed + (if ok then 1 else 0), failed := s.failed + (if ok then 0 else 1))
    case Exit(i) => s.(workers := s.workers[i := s.workers[i].(exited := true)])
    case Begin => s.(running := false, phase := Stopping(0), overlap := s.overlap || !NoneChecked(s.pcs))
    case StopQueue =>
      s.(workers := s.workers[s.phase.next := s.workers[s.phase.next].(shutdown := true)],
         phase := Stopping(s.phase.next + 1))
    case Clear => s.(phase := Cleared)
  }

  ghost predicate IsRun(run: seq<State>, acts: seq<Action>)
  {
    && |run| == |acts| + 1
    && Init(run[0])
    && forall i :: 0 <= i < |acts| ==> Enabled(run[i], acts[i]) && run[i + 1] == Next(run[i], acts[i])
  }

  // ---------------------------------------------------------------- what every step keeps

  /** Tasks start in the order they were pushed; what an exited worker still has came late. */
  ghost predicate WorkerInv(w: Worker, capacity: nat)
  {
    && w.accepted == w.started + w.queue
    && (capacity > 0 ==> |w.queue| <= capacity)
    && (w.current.Running? ==> w.started != [] && w.current.task == w.started[|w.started| - 1])
    && (w.exited ==> w.current.Nothing? && w.queue == w.late)
    && (!w.exited ==> w.late == [])
  }

  function Busy(w: Worker): nat { |w.queue| + (if w.current.Running? then 1 else 0) }

  function Backlog(ws: seq<Worker>): nat { if ws == [] then 0 else Busy(ws[0]) + Backlog(ws[1..]) }

  lemma {:induction false} BacklogUpdate(ws: seq<Worker>, i: nat, w: Worker)
    requires i < |ws|
    ensures Backlog(ws[i := w]) == Backlog(ws) - Busy(ws[i]) + Busy(w)
  {
    if i > 0 {
      BacklogUpdate(ws[1..], i - 1, w);
      assert ws[i := w][1..] == ws[1..][i - 1 := w];
    } else {
      assert ws[i := w][1..] == ws[1..];
    }
  }

  lemma {:induction false} BacklogZero(ws: seq<Worker>)
    requires forall i :: 0 <= i < |ws| ==> Busy(ws[i]) == 0
    ensures Backlog(ws) == 0
  {
    if ws != [] { BacklogZero(ws[1..]); }
  }

  ghost predicate RoutedInv(s: State)
  {
    forall i, k :: 0 <= i < |s.workers| && 0 <= k < |s.workers[i].accepted| ==>
      s.workers[i].accepted[k].key % |s.workers| == i
  }

  ghost predicate Inv(s: State)
  {
    && |s.workers| > 0
    && (forall i :: 0 <= i < |s.workers| ==> WorkerInv(s.workers[i], s.capacity))
    && RoutedInv(s)
    && s.submitted == s.completed + s.failed + Backlog(s.workers)
    && (s.running <==> s.phase.Up?)
    && (forall i :: 0 <= i < |s.workers| && s.workers[i].exited ==> !s.running)
    && (!s.running && !s.overlap ==> NoneChecked(s.pcs) && forall i :: 0 <= i < |s.workers| ==> s.workers[i].late == [])
    && (s.phase.Cleared? ==> NoneChecked(s.pcs) && forall i :: 0 <= i < |s.workers| ==> s.workers[i].exited)
  }

  lemma WorkerMoves(w: Worker, capacity: nat, task: Task)
    requires WorkerInv(w, capacity)
    ensures Accepts(|w.queue|, capacity, w.shutdown) ==> WorkerInv(Pushed(w, task), capacity)
    ensures !w.exited && w.current.Nothing? && w.queue != [] ==>
              WorkerInv(w.(queue := w.queue[1..], current := Running(w.queue[0]), started := w.started + [w.queue[0]]), capacity)
  {
    Assoc(w.started, w.queue, [task]);
    if w.queue != [] {
      assert w.queue == [w.queue[0]] + w.queue[1..];
      Assoc(w.started, [w.queue[0]], w.queue[1..]);
    }
  }

  /** A step that changes one worker, and the counters by what that worker gains or finishes. */
  lemma SetWorker(s: State, i: nat, w: Worker, s': State)
    requires Inv(s) && i < |s.workers| && s'.workers == s.workers[i := w] && WorkerInv(w, s.capacity)
    requires s'.capacity == s.capacity && s'.running == s.running && s'.overlap == s.overlap
    requires s'.phase == s.phase || (s.phase.Stopping? && s'.phase.Stopping?)
    requires s'.submitted - s'.completed - s'.failed == s.submitted - s.completed - s.failed + Busy(w) - Busy(s.workers[i])
    requires NoneChecked(s.pcs) ==> NoneChecked(s'.pcs)
    requires w.exited ==> !s.running
    requires s.workers[i].exited ==> w.exited
    requires w.late == s.workers[i].late || !NoneChecked(s.pcs)
    requires forall k :: 0 <= k < |w.accepted| ==> w.accepted[k].key % |s.workers| == i
    ensures Inv(s')
  {
    BacklogUpdate(s.workers, i, w);
  }

  lemma PushStep(s: State, t: nat)
    requires Inv(s) && Enabled(s, Push(t))
    ensures Inv(Next(s, Push(t)))
  {
    var task := s.pcs[t].task;
    var i := Route(s, task.key);
    WorkerMoves(s.workers[i], s.capacity, task);
    if Accepts(|s.workers[i].queue|, s.capacity, s.workers[i].shutdown) {
      SetWorker(s, i, Pushed(s.workers[i], task), Next(s, Push(t)));
    }
  }

  lemma InvStep(s: State, a: Action)
    requires Inv(s) && Enabled(s, a)
    ensures Inv(Next(s, a))
  {
    match a {
      case Push(t) => PushStep(s, t);
      case Pop(i) =>
        WorkerMoves(s.workers[i], s.capacity, Task(0, 0));
        SetWorker(s, i, Next(s, a).workers[i], Next(s, a));
      case Finish(i, ok) => SetWorker(s, i, Next(s, a).workers[i], Next(s, a));
      case Exit(i) => SetWorker(s, i, Next(s, a).workers[i], Next(s, a));
      case StopQueue => SetWorker(s, s.phase.next, Next(s, a).workers[s.phase.next], Next(s, a));
      case _ =>
    }
  }

  lemma {:induction false} InvAlways(run: seq<State>, acts: seq<Action>, i: nat)
    requires IsRun(run, acts) && i < |run|
    ensures Inv(run[i])
  {
    if i == 0 {
      BacklogZero(run[0].workers);
    } else {
      InvAlways(run, acts, i - 1);
      InvStep(run[i - 1], acts[i - 1]);
    }
  }

  // ---------------------------------------------------------------- the promises

  /** Every accepted task is queued, running, completed or failed, and a bounded queue stays bounded. */
  lemma CountersBalance(run: seq<State>, acts: seq<Action>, n: nat, i: nat)
    requires IsRun(run, acts) && n < |run| && i < |run[n].workers|
    ensures run[n].submitted == run[n].completed + run[n].failed + Backlog(run[n].workers)
    ensures run[n].capacity > 0 ==> |run[n].workers[i].queue| <= run[n].capacity
  {
    InvAlways(run, acts, n);
  }

  /** The k-th task accepted by a worker has started, or has finished. */
  predicate HasStarted(w: Worker, k: nat) { k < |w.started| }

  predicate HasFinished(w: Worker, k: nat) { k < |w.started| - (if w.current.Running? then 1 else 0) }

  /**
   Per-key order: all tasks of a key go to one worker, which starts them in the order they were
   accepted, and starts none before the one accepted earlier has finished.
   */
  lemma PerKeyOrder(run: seq<State>, acts: seq<Action>, n: nat, i: nat, j: nat, k: nat)
    requires IsRun(run, acts) && n < |run| && i < |run[n].workers|
    requires j < k < |run[n].workers[i].accepted|
    ensures run[n].workers[i].accepted[k].key % |run[n].workers| == i
    ensures HasStarted(run[n].workers[i], k) ==>
              HasFinished(run[n].workers[i], j) && run[n].workers[i].started[k] == run[n].workers[i].accepted[k]
  {
    InvAlways(run, acts, n);
  }

  /**
   When Shutdown returns, a worker has run exactly the tasks accepted before it exited: those pushed
   later are never run.  So every accepted task has run, once, if and only if none was pushed late.
   */
  lemma ShutdownDrains(run: seq<State>, acts: seq<Action>, n: nat, i: nat)
    requires IsRun(run, acts) && n < |run| && run[n].phase.Cleared? && i < |run[n].workers|
    ensures var w := run[n].workers[i];
            && w.current.Nothing?
            && w.accepted == w.started + w.late
            && (w.started == w.accepted <==> w.late == [])
            && (!run[n].overlap ==> w.started == w.accepted)
  {
    InvAlways(run, acts, n);
    var w := run[n].workers[i];
    NilUnit(w.started);
    assert |w.accepted| == |w.started| + |w.late|;
  }

  /** And then the counters say so: nothing is left over. */
  lemma ShutdownCounts(run: seq<State>, acts: seq<Action>, n: nat)
    requires IsRun(run, acts) && n < |run| && run[n].phase.Cleared? && !run[n].overlap
    ensures run[n].submitted == run[n].completed + run[n].failed
  {
    InvAlways(run, acts, n);
    BacklogZero(run[n].workers);
  }

  /**
   The condition is needed: a dispatch that read mRunning before Shutdown cleared it can still push
   into a queue whose worker has already exited, and that accepted task never runs.
   */
  lemma LateDispatchIsLost(task: Task) returns (run: seq<State>, acts: seq<Action>)
    ensures IsRun(run, acts) && run[|acts|].phase.Cleared?
    ensures |run[|acts|].workers| == 1 && run[|acts|].submitted == 1
    ensures run[|acts|].workers[0].accepted == [task] && run[|acts|].workers[0].started == []
  {
    var w := Worker([], false, Nothing, false, [], [], []);
    var s0 := State(0, true, Up, [w], [Idle], 0, 0, 0, 0, false);
    var s1 := s0.(pcs := [Checked(task)]);
    var s2 := s1.(running := false, phase := Stopping(0), overlap := true);
    var s3 := s2.(workers := [w.(exited := true)]);
    var w4 := Worker([task], false, Nothing, true, [task], [], [task]);
    var s4 := s3.(workers := [w4], pcs := [Idle], submitted := 1);
    var s5 := s4.(workers := [w4.(shutdown := true)], phase := Stopping(1));
    var s6 := s5.(phase := Cleared);
    run := [s0, s1, s2, s3, s4, s5, s6];
    acts := [Check(0, task), Begin, Exit(0), Push(0), StopQueue, Clear];
    assert s1.pcs[0].Checked?;
    NilUnit([task]);
    assert Route(s3, task.key) == 0 && Pushed(s3.workers[0], task) == w4;
    assert Next(s0, acts[0]) == s1;
    assert Next(s1, acts[1]) == s2;
    assert Next(s2, acts[2]) == s3;
    assert Next(s3, acts[3]) == s4;
    assert Next(s4, acts[4]) == s5;
    assert Next(s5, acts[5]) == s6;
  }

  // ---------------------------------------------------------------- what the counters count

  /** The steps among the first n in which a task returned (ok) or threw. */
  function Finishes(acts: seq<Action>, n: nat, ok: bool): nat
    requires n <= |acts|
  {
    if n == 0 then 0 else Finishes(acts, n - 1, ok) + (if acts[n - 1].Finish? && acts[n - 1].ok == ok then 1 else 0)
  }

  lemma {:induction false} CompletedAndFailed(run: seq<State>, acts: seq<Action>, n: nat)
    requires IsRun(run, acts) && n < |run|
    ensures run[n].completed == Finishes(acts, n, true) && run[n].failed == Finishes(acts, n, false)
  {
    if n > 0 { CompletedAndFailed(run, acts, n - 1); }
  }

  /** A dispatch passes its check exactly while the dispatcher runs. */
  lemma CheckedWhileRunning(run: seq<State>, acts: seq<Action>, n: nat)
    requires IsRun(run, acts) && n < |acts| && acts[n].Check?
    ensures if run[n].running then run[n + 1] == run[n].(pcs := run[n].pcs[acts[n].t := Checked(acts[n].task)])
            else run[n + 1] == run[n].(rejected := run[n].rejected + 1)
  {
    InvAlways(run, acts, n);
  }

  /** A push is refused exactly when the queue is shut down or holds exactly its capacity; otherwise its task is last in line. */
  lemma RefusedIffFull(run: seq<State>, acts: seq<Action>, n: nat)
    requires IsRun(run, acts) && n < |acts| && acts[n].Push?
    ensures |run[n].workers| > 0 && acts[n].t < |run[n].pcs| && run[n].pcs[acts[n].t].Checked?
    ensures var s, s' := run[n], run[n + 1];
            var task := s.pcs[acts[n].t].task;
            var i := task.key % |s.workers|;
            var w := s.workers[i];
            if w.shutdown || (s.capacity > 0 && |w.queue| == s.capacity)
            then s'.workers == s.workers && s'.rejected == s.rejected + 1 && s'.submitted == s.submitted
            else |s'.workers| == |s.workers| && s'.workers[i].queue == w.queue + [task] &&
                 s'.rejected == s.rejected && s'.submitted == s.submitted + 1
  {
    InvAlways(run, acts, n);
  }

  /** A shutdown overlaps a dispatch only if one was past its check when the shutdown began. */
  lemma {:induction false} OverlapHasACause(run: seq<State>, acts: seq<Action>, n: nat) returns (m: nat, t: nat)
    requires IsRun(run, acts) && n < |run| && run[n].overlap
    ensures m < n && acts[m] == Begin && t < |run[m].pcs| && run[m].pcs[t].Checked?
  {
    assert n > 0;
    if run[n - 1].overlap {
      m, t := OverlapHasACause(run, acts, n - 1);
    } else {
      m := n - 1;
      t :| t < |run[m].pcs| && run[m].pcs[t].Checked?;
    }
  }

  /** After the beginning of Shutdown no dispatch passes its check. */
  lemma {:induction false} BeginStops(run: seq<State>, acts: seq<Action>, b: nat, i: nat)
    requires IsRun(run, acts) && b < i < |run| && acts[b] == Begin
    ensures !run[i].running
  {
    if b < i - 1 { BeginStops(run, acts, b, i - 1); }
  }
}
