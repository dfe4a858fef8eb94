/**
 Whole runs of DBServerTaskQueue: any number of workers, callers, responses (late, duplicate or
 bogus), timeout sweeps, failed checks and sends, and a final shutdown.
 */
module DbServerQueueRuns {
  import opened DbServerQueue
  import opened DbServerQueueLanes
  import opened DbServerQueueIds
  import opened KeyGenerator
  import opened Sequences

  datatype System = System(
    workers: seq<Worker>,
    running: bool,      // mIsRunning
    joined: bool,       // the worker threads have been joined
    drained: set<nat>,  // workers whose drain has run
    calls: seq<Task>)   // history: every task given to EnqueueTask

  datatype Action =
    | Enqueue(t: Task)
    | OnDBResponse(r: Response)
    | TakeResponse(i: nat, sid: nat, env: Env)
    | TakeTask(i: nat, env: Env)
    | CheckTimeouts(i: nat, now: int, order: seq<nat>, envs: nat -> Env)
    | Stop
    | Join
    | Drain(i: nat, order: seq<nat>)

  ghost predicate Init(s: System)
  {
    && 1 <= |s.workers| <= 255
    && s.running && !s.joined && s.drained == {} && s.calls == []
    && forall i :: 0 <= i < |s.workers| ==> s.workers[i] == Worker(i, 0, map[], [], [], [], [])
  }

  function Route(s: System, t: Task): nat
    requires |s.workers| > 0
  {
    t.session % |s.workers|
  }

  ghost predicate Enabled(s: System, a: Action)
  {
    |s.workers| > 0 &&
    match a
    case Enqueue(t) => t.uid == |s.calls|
    case OnDBResponse(_) => true
    case TakeResponse(i, sid, _) =>
      !s.joined && i < |s.workers| && s.workers[i].responses != [] &&
      (Known(s.workers[i], s.workers[i].responses[0].id) ==> Matches(s.workers[i], sid, s.workers[i].responses[0].id))
    case TakeTask(i, _) => !s.joined && i < |s.workers| && s.workers[i].tasks != []
    case CheckTimeouts(i, now, order, _) => !s.joined && i < |s.workers| && ListsExpired(s.workers[i], order, now)
    case Stop => s.running
    case Join => !s.running
    case Drain(i, order) => s.joined && i < |s.workers| && ListsSessions(s.workers[i], order)
  }

  /** What an action does to worker i. */
  ghost function After(s: System, a: Action, i: nat): Worker
    requires Enabled(s, a) && i < |s.workers|
  {
    var w := s.workers[i];
    match a
    case Enqueue(t) =>
      if i != Route(s, t) then w
      else if s.running then w.(tasks := w.tasks + [t])
      else w.(log := w.log + [Callback(t, ShuttingDown)])
    case OnDBResponse(r) => if i == GetSlot(r.id) then w.(responses := w.responses + [r]) else w
    case TakeResponse(j, sid, env) =>
      if i != j then w
      else HandleResponse(w.(responses := w.responses[1..]), sid, w.responses[0], env)
    case TakeTask(j, env) => if i != j then w else ProcessTask(w.(tasks := w.tasks[1..]), w.tasks[0], env)
    case CheckTimeouts(j, _, order, envs) => if i != j then w else Sweep(w, order, envs)
    case Drain(j, order) => if i != j then w else ShutdownDrain(w, order)
    case Stop => w
    case Join => w
  }

  ghost predicate Step(s: System, a: Action, s': System)
  {
    && Enabled(s, a)
    && |s'.workers| == |s.workers|
    && (forall i :: 0 <= i < |s.workers| ==> s'.workers[i] == After(s, a, i))
    && s'.running == (s.running && !a.Stop?)
    && s'.joined == (s.joined || a.Join?)
    && s'.drained == s.drained + (if a.Drain? then {a.i} else {})
    && s'.calls == s.calls + (if a.Enqueue? then [a.t] else [])
  }

  ghost predicate IsRun(run: seq<System>, acts: seq<Action>)
  {
    |run| == |acts| + 1 && Init(run[0]) && forall i :: 0 <= i < |acts| ==> Step(run[i], acts[i], run[i + 1])
  }

  // ---------------------------------------------------------------- exactly once

  lemma EnqueueConserves(w: Worker, t: Task, u: Task)
    requires EntriesOk(w)
    ensures Account(w.(tasks := w.tasks + [t]), u) == Account(w, u) + (if t == u then 1 else 0)
    ensures Account(w.(log := w.log + [Callback(t, ShuttingDown)]), u) == Account(w, u) + (if t == u then 1 else 0)
  {
    CountAppend(w.tasks, [t], u);
    CountOne(t, u);
    LogCount(w.log, [Callback(t, ShuttingDown)], u);
    LogCountOne(Callback(t, ShuttingDown), u);
  }

  lemma ResponseConserves(w: Worker, sid: nat, env: Env, u: Task)
    requires EntriesOk(w) && w.responses != []
    ensures var w' := HandleResponse(w.(responses := w.responses[1..]), sid, w.responses[0], env);
            EntriesOk(w') && w'.slot == w.slot && Account(w', u) == Account(w, u)
  {
    if Matches(w, sid, w.responses[0].id) {
      var w1 := w.(responses := w.responses[1..]);
      ResolveConserves(w1, sid, Answer(w.responses[0].code), env, u);
      ResolveIds(w1, sid, Answer(w.responses[0].code), env);
    }
  }

  lemma TakeTaskConserves(w: Worker, env: Env, u: Task)
    requires EntriesOk(w) && w.tasks != []
    ensures var w' := ProcessTask(w.(tasks := w.tasks[1..]), w.tasks[0], env);
            EntriesOk(w') && w'.slot == w.slot && Account(w', u) == Account(w, u)
  {
    CountHead(w.tasks, u);
    ProcessFrame(w.(tasks := w.tasks[1..]), w.tasks[0], env);
    ProcessConserves(w.(tasks := w.tasks[1..]), w.tasks[0], env, u);
  }

  lemma AfterConserves(s: System, a: Action, i: nat, u: Task)
    requires Enabled(s, a) && i < |s.workers| && EntriesOk(s.workers[i])
    ensures EntriesOk(After(s, a, i)) && After(s, a, i).slot == s.workers[i].slot
    ensures Account(After(s, a, i), u) ==
            Account(s.workers[i], u) + (if a.Enqueue? && a.t == u && i == Route(s, u) then 1 else 0)
  {
    var w := s.workers[i];
    match a {
      case Enqueue(t) => EnqueueConserves(w, t, u);
      case TakeResponse(j, sid, env) => if i == j { ResponseConserves(w, sid, env, u); }
      case TakeTask(j, env) => if i == j { TakeTaskConserves(w, env, u); }
      case CheckTimeouts(j, _, order, envs) =>
        if i == j {
          SweepConserves(w, order, envs, u);
          SweepKeepsSlot(w, order, envs);
        }
      case Drain(j, order) => if i == j { DrainConserves(w, order, u); }
      case _ =>
    }
  }

  lemma {:induction false} SweepKeepsSlot(w: Worker, order: seq<nat>, env: nat -> Env)
    requires EntriesOk(w)
    ensures Sweep(w, order, env).slot == w.slot
  {
    if order != [] {
      var before, sid := order[..|order| - 1], order[|order| - 1];
      SweepKeepsSlot(w, before, env);
      SweepEntries(w, before, env);
      if InFlight(Sweep(w, before, env), sid) { ResolveIds(Sweep(w, before, env), sid, TimedOut, env(sid)); }
    }
  }

  /** In every reachable state each worker accounts for exactly the calls routed to it. */
  lemma {:induction false} Accounted(run: seq<System>, acts: seq<Action>, n: nat, i: nat, u: Task)
    requires IsRun(run, acts) && n < |run| && i < |run[n].workers|
    ensures EntriesOk(run[n].workers[i]) && run[n].workers[i].slot == i && |run[n].workers| == |run[0].workers|
    ensures Account(run[n].workers[i], u) == if i == Route(run[n], u) then Count(run[n].calls, u) else 0
  {
    if n > 0 {
      assert Step(run[n - 1], acts[n - 1], run[n]);
      Accounted(run, acts, n - 1, i, u);
      AfterConserves(run[n - 1], acts[n - 1], i, u);
      if acts[n - 1].Enqueue? {
        CountAppend(run[n - 1].calls, [acts[n - 1].t], u);
        CountOne(acts[n - 1].t, u);
      } else {
        NilUnit(run[n - 1].calls);
      }
    } else {
      assert Answered([]) == [];
    }
  }

  lemma {:induction false} CallsAreNumbered(run: seq<System>, acts: seq<Action>, n: nat, k: nat)
    requires IsRun(run, acts) && n < |run| && k < |run[n].calls|
    ensures run[n].calls[k].uid == k
  {
    assert n > 0;
    assert Step(run[n - 1], acts[n - 1], run[n]);
    if k < |run[n - 1].calls| { CallsAreNumbered(run, acts, n - 1, k); }
  }

  lemma {:induction false} NumberedOnce(calls: seq<Task>, k: nat)
    requires k < |calls| && forall i :: 0 <= i < |calls| ==> calls[i].uid == i
    ensures Count(calls, calls[k]) == 1
  {
    var before := calls[..|calls| - 1];
    if k == |calls| - 1 {
      CountAbsent(before, calls[k]);
    } else {
      NumberedOnce(before, k);
    }
  }

  /** A drained worker of a stopped queue stays empty. */
  lemma {:induction false} DrainedStaysEmpty(run: seq<System>, acts: seq<Action>, n: nat, i: nat)
    requires IsRun(run, acts) && n < |run| && i < |run[n].workers| && i in run[n].drained
    ensures run[n].joined && !run[n].running && run[n].workers[i].sessions == map[] && run[n].workers[i].tasks == []
  {
    assert n > 0;
    assert Step(run[n - 1], acts[n - 1], run[n]);
    JoinedIsStopped(run, acts, n - 1);
    if i in run[n - 1].drained { DrainedStaysEmpty(run, acts, n - 1, i); }
  }

  lemma {:induction false} JoinedIsStopped(run: seq<System>, acts: seq<Action>, n: nat)
    requires IsRun(run, acts) && n < |run|
    ensures run[n].joined ==> !run[n].running
  {
    if n > 0 {
      assert Step(run[n - 1], acts[n - 1], run[n]);
      JoinedIsStopped(run, acts, n - 1);
    }
  }

  /**
   Exactly once: in every run a callback is invoked at most once, on the worker the call was routed
   to and on no other, and exactly once when that worker has been drained.
   */
  lemma ExactlyOnce(run: seq<System>, acts: seq<Action>, n: nat, k: nat, i: nat)
    requires IsRun(run, acts) && n < |run| && k < |run[n].calls| && i < |run[n].workers|
    ensures var t := run[n].calls[k];
            var times := Count(Answered(run[n].workers[i].log), t);
            && times <= (if i == Route(run[n], t) then 1 else 0)
            && (i == Route(run[n], t) && i in run[n].drained ==> times == 1)
  {
    var t := run[n].calls[k];
    Accounted(run, acts, n, i, t);
    forall j | 0 <= j < |run[n].calls| ensures run[n].calls[j].uid == j {
      CallsAreNumbered(run, acts, n, j);
    }
    NumberedOnce(run[n].calls, k);
    if i in run[n].drained { DrainedStaysEmpty(run, acts, n, i); }
  }

  // ---------------------------------------------------------------- responses

  /** The worker an in-flight id was drawn by is the one its response is routed to. */
  lemma {:induction false} IdsStayOk(run: seq<System>, acts: seq<Action>, n: nat, i: nat)
    requires IsRun(run, acts) && n < |run| && i < |run[n].workers| && run[n].workers[i].issued < SEQUENCES
    ensures IdsOk(run[n].workers[i]) && EntriesOk(run[n].workers[i]) && run[n].workers[i].slot == i
    ensures |run[n].workers| == |run[0].workers| <= 255
  {
    Accounted(run, acts, n, i, Task(0, 0, UnknownKind, ""));
    if n > 0 {
      assert Step(run[n - 1], acts[n - 1], run[n]);
      Accounted(run, acts, n - 1, i, Task(0, 0, UnknownKind, ""));
      AfterIssues(run[n - 1], acts[n - 1], i);
      IdsStayOk(run, acts, n - 1, i);
      AfterIds(run[n - 1], acts[n - 1], i);
    }
  }

  lemma AfterIssues(s: System, a: Action, i: nat)
    requires Enabled(s, a) && i < |s.workers| && EntriesOk(s.workers[i])
    ensures s.workers[i].issued <= After(s, a, i).issued
  {
    var w := s.workers[i];
    match a {
      case TakeResponse(j, sid, env) =>
        if i == j && Matches(w, sid, w.responses[0].id) {
          ResolveIds(w.(responses := w.responses[1..]), sid, Answer(w.responses[0].code), env);
        }
      case TakeTask(j, env) => if i == j { ProcessFrame(w.(tasks := w.tasks[1..]), w.tasks[0], env); }
      case CheckTimeouts(j, _, order, envs) => if i == j { SweepIssues(w, order, envs); }
      case _ =>
    }
  }

  lemma {:induction false} SweepIssues(w: Worker, order: seq<nat>, env: nat -> Env)
    requires EntriesOk(w)
    ensures w.issued <= Sweep(w, order, env).issued
  {
    if order != [] {
      var before, sid := order[..|order| - 1], order[|order| - 1];
      SweepIssues(w, before, env);
      SweepEntries(w, before, env);
      if InFlight(Sweep(w, before, env), sid) { ResolveIds(Sweep(w, before, env), sid, TimedOut, env(sid)); }
    }
  }

  lemma AfterIds(s: System, a: Action, i: nat)
    requires Enabled(s, a) && i < |s.workers| && EntriesOk(s.workers[i]) && IdsOk(s.workers[i])
    requires After(s, a, i).issued < SEQUENCES
    ensures IdsOk(After(s, a, i))
  {
    var w := s.workers[i];
    match a {
      case TakeResponse(j, sid, env) =>
        if i == j && Matches(w, sid, w.responses[0].id) {
          var w1 := w.(responses := w.responses[1..]);
          assert IdsOk(w1);
          ResolveIds(w1, sid, Answer(w.responses[0].code), env);
          IdsMoveKeeps(w1, After(s, a, i));
        }
      case TakeTask(j, env) =>
        if i == j {
          var w1 := w.(tasks := w.tasks[1..]);
          assert IdsOk(w1);
          ProcessIds(w1, w.tasks[0], env);
          IdsMoveKeeps(w1, After(s, a, i));
        }
      case CheckTimeouts(j, _, order, envs) => if i == j { SweepIds(w, order, envs); }
      case _ =>
    }
  }

  /** Response matching: ids in flight are distinct across all workers, and each routes back to its worker. */
  lemma IdsDistinctAndRouted(run: seq<System>, acts: seq<Action>, n: nat, i: nat, j: nat, k: nat, l: nat)
    requires IsRun(run, acts) && n < |run| && i < |run[n].workers| && j < |run[n].workers|
    requires run[n].workers[i].issued < SEQUENCES && run[n].workers[j].issued < SEQUENCES
    requires InFlight(run[n].workers[i], k) && InFlight(run[n].workers[j], l)
    ensures GetSlot(run[n].workers[i].sessions[k].requestId) == i
    ensures run[n].workers[i].sessions[k].requestId == run[n].workers[j].sessions[l].requestId ==> i == j && k == l
  {
    IdsStayOk(run, acts, n, i);
    IdsStayOk(run, acts, n, j);
  }

  lemma AfterKeepsStale(s: System, a: Action, i: nat, id: nat)
    requires Enabled(s, a) && i < |s.workers| && EntriesOk(s.workers[i]) && Stale(s.workers[i], id)
    requires After(s, a, i).issued < SEQUENCES
    ensures Stale(After(s, a, i), id)
  {
    var w, w' := s.workers[i], After(s, a, i);
    if w'.sessions == w.sessions && w'.slot == w.slot && w'.issued == w.issued {
      forall k ensures !Matches(w', k, id) { assert !Matches(w, k, id); }
    } else {
      match a {
        case TakeResponse(j, sid, env) =>
          var w1 := w.(responses := w.responses[1..]);
          forall k ensures !Matches(w1, k, id) { assert !Matches(w, k, id); }
          ResolveIds(w1, sid, Answer(w.responses[0].code), env);
          MoveKeepsStale(w1, w', id);
        case TakeTask(j, env) =>
          var w1 := w.(tasks := w.tasks[1..]);
          forall k ensures !Matches(w1, k, id) { assert !Matches(w, k, id); }
          ProcessIds(w1, w.tasks[0], env);
          MoveKeepsStale(w1, w', id);
        case CheckTimeouts(j, _, order, envs) => SweepKeepsStale(w, order, envs, id);
        case Drain(j, order) =>
      }
    }
  }

  /** Once answered or timed out, an id stays stale for the rest of the run: its responses change nothing. */
  lemma {:induction false} StaleForever(run: seq<System>, acts: seq<Action>, m: nat, n: nat, i: nat, id: nat,
                                        sid: nat, r: Response, env: Env)
    requires IsRun(run, acts) && m <= n < |run| && i < |run[m].workers| && Stale(run[m].workers[i], id)
    requires i < |run[n].workers| && run[n].workers[i].issued < SEQUENCES && r.id == id
    ensures Stale(run[n].workers[i], id) && HandleResponse(run[n].workers[i], sid, r, env) == run[n].workers[i]
  {
    if m < n {
      assert Step(run[n - 1], acts[n - 1], run[n]);
      Accounted(run, acts, n - 1, i, Task(0, 0, UnknownKind, ""));
      AfterIssues(run[n - 1], acts[n - 1], i);
      StaleForever(run, acts, m, n - 1, i, id, sid, r, env);
      AfterKeepsStale(run[n - 1], acts[n - 1], i, id);
    }
    StaleIsIgnored(run[n].workers[i], sid, r, env);
  }

  lemma {:induction false} IssuedGrows(run: seq<System>, acts: seq<Action>, m: nat, n: nat, i: nat)
    requires IsRun(run, acts) && m <= n < |run| && i < |run[n].workers|
    ensures i < |run[m].workers| && run[m].workers[i].issued <= run[n].workers[i].issued
  {
    Accounted(run, acts, n, i, Task(0, 0, UnknownKind, ""));
    if m < n {
      assert Step(run[n - 1], acts[n - 1], run[n]);
      Accounted(run, acts, n - 1, i, Task(0, 0, UnknownKind, ""));
      AfterIssues(run[n - 1], acts[n - 1], i);
      IssuedGrows(run, acts, m, n - 1, i);
    }
  }

  lemma LandedIsStale(run: seq<System>, acts: seq<Action>, m: nat, i: nat, k: nat)
    requires IsRun(run, acts) && m + 1 < |run| && i < |run[m].workers| && i < |run[m + 1].workers|
    requires run[m + 1].workers[i].issued < SEQUENCES && InFlight(run[m].workers[i], k)
    requires !Known(run[m + 1].workers[i], run[m].workers[i].sessions[k].requestId)
    ensures Stale(run[m + 1].workers[i], run[m].workers[i].sessions[k].requestId)
    ensures GetSlot(run[m].workers[i].sessions[k].requestId) == i
  {
    IssuedGrows(run, acts, m, m + 1, i);
    IdsStayOk(run, acts, m, i);
    IdsStayOk(run, acts, m + 1, i);
  }

  /**
   Response matching over whole runs: a request id that is in flight at step m and no longer at m + 1,
   answered or timed out, is routed to its own worker, is never in flight again, and a response to it
   changes nothing in any later state.
   */
  lemma LandedIdHasNoEffect(run: seq<System>, acts: seq<Action>, m: nat, n: nat, i: nat, k: nat,
                            sid: nat, r: Response, env: Env)
    requires IsRun(run, acts) && m < n < |run| && i < |run[m].workers| && i < |run[m + 1].workers| && i < |run[n].workers|
    requires run[n].workers[i].issued < SEQUENCES && InFlight(run[m].workers[i], k)
    requires r.id == run[m].workers[i].sessions[k].requestId && !Known(run[m + 1].workers[i], r.id)
    ensures GetSlot(r.id) == i && !Known(run[n].workers[i], r.id)
    ensures HandleResponse(run[n].workers[i], sid, r, env) == run[n].workers[i]
  {
    IssuedGrows(run, acts, m + 1, n, i);
    LandedIsStale(run, acts, m, i, k);
    StaleForever(run, acts, m + 1, n, i, r.id, sid, r, env);
  }
}
