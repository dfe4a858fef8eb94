/**
 The order of one session's requests in whole runs of DBServerTaskQueue: what holds in every run, how
 long requests leave in call order, and the step that ends it.
 */
module DbServerQueueOrder {
  import opened Basics
  import opened DbServerQueue
  import opened DbServerQueueLanes
  import opened DbServerQueueIds
  import opened DbServerQueueRuns
  import opened KeyGenerator
  import opened Sequences

  /** The lane of a session, on the worker that serves it. */
  ghost function LaneAt(s: System, sid: nat): Lane
    requires |s.workers| > 0
  {
    LaneOf(s.workers[sid % |s.workers|], sid)
  }

  // ---------------------------------------------------------------- one task of the lane moves

  /** Taking the first task off the queue shortens its session's lane and no other. */
  lemma TailLane(w: Worker, sid: nat)
    requires w.tasks != []
    ensures var w1 := w.(tasks := w.tasks[1..]);
            if w.tasks[0].session == sid
            then LaneOf(w, sid).queued != [] && LaneOf(w, sid).queued[0] == w.tasks[0] &&
                 LaneOf(w1, sid) == LaneOf(w, sid).(queued := LaneOf(w, sid).queued[1..])
            else LaneOf(w1, sid) == LaneOf(w, sid)
  {
    OfHead(sid, w.tasks);
    OfOne(sid, w.tasks[0]);
    if w.tasks[0].session == sid {
      HeadTail(w.tasks[0], Of(sid, w.tasks[1..]));
    } else {
      NilUnit(Of(sid, w.tasks[1..]));
    }
  }

  /** What a worker does when it takes a task, seen from session sid. */
  lemma TakeTaskLane(w: Worker, env: Env, sid: nat)
    requires EntriesOk(w) && w.tasks != []
    ensures var l, t := LaneOf(w, sid), w.tasks[0];
            var l' := LaneOf(ProcessTask(w.(tasks := w.tasks[1..]), t, env), sid);
            if t.session == sid
            then l.queued != [] && l.queued[0] == t && l' == Arrive(l.(queued := l.queued[1..]), t, Passes(t, env))
            else l' == l
  {
    TailLane(w, sid);
    ProcessLane(w.(tasks := w.tasks[1..]), w.tasks[0], env, sid);
  }

  /** ... and when it takes a response. */
  lemma TakeResponseLane(w: Worker, k: nat, env: Env, sid: nat)
    requires EntriesOk(w) && w.responses != []
    ensures var l := LaneOf(w, sid);
            var l' := LaneOf(HandleResponse(w.(responses := w.responses[1..]), k, w.responses[0], env), sid);
            l' == l || (k == sid && l' == Land(l, l.pending != [] && Passes(l.pending[0], env)))
  {
    var w1 := w.(responses := w.responses[1..]);
    if Matches(w, k, w.responses[0].id) {
      ResolveLane(w1, k, Answer(w.responses[0].code), env, sid);
    }
  }

  lemma TimeoutLane(w: Worker, k: nat, env: Env, sid: nat)
    requires EntriesOk(w)
    ensures var l, l' := LaneOf(w, sid), LaneOf(TimeoutOne(w, k, env), sid);
            l' == l || (k == sid && l' == Land(l, l.pending != [] && Passes(l.pending[0], env)))
  {
    if InFlight(w, k) { ResolveLane(w, k, TimedOut, env, sid); }
  }

  lemma EnqueueLane(w: Worker, t: Task, sid: nat)
    ensures var l, l' := LaneOf(w, sid), LaneOf(w.(tasks := w.tasks + [t]), sid);
            l' == if t.session == sid then l.(queued := l.queued + [t]) else l
    ensures var l, l' := LaneOf(w, sid), LaneOf(w.(log := w.log + [Callback(t, ShuttingDown)]), sid);
            l' == if t.session == sid then l.(log := l.log + [t]) else l
  {
    OfAppend(sid, w.tasks, [t]);
    OfOne(sid, t);
    NilUnit(Of(sid, w.tasks));
    LogLane(w.log, Callback(t, ShuttingDown), sid);
    NilUnit(LaneOf(w, sid).log);
  }

  // ---------------------------------------------------------------- one request at a time

  /** At most one request is in flight, it is the last one sent, and everything sent before was answered. */
  ghost predicate OneAtATime(l: Lane)
  {
    && |l.flying| <= 1 && |l.flying| <= |l.sends|
    && l.sends[|l.sends| - |l.flying|..] == l.flying
    && forall k :: 0 <= k < |l.sends| - |l.flying| ==> l.sends[k] in l.log
  }

  lemma ArriveOne(l: Lane, t: Task, passes: bool)
    requires OneAtATime(l)
    ensures OneAtATime(Arrive(l, t, passes))
  {
    if l.flying == [] && passes { TakeDrop(l.sends, [t]); }
  }

  lemma LandOne(l: Lane, passes: bool)
    requires OneAtATime(l)
    ensures OneAtATime(Land(l, passes))
  {
    var l1 := l.(log := l.log + l.flying, flying := []);
    forall k | 0 <= k < |l.sends| ensures l.sends[k] in l1.log {
      if k == |l.sends| - |l.flying| { assert l.sends[k] == l.flying[0]; }
    }
    assert l.sends[|l.sends|..] == [];
    if l.pending != [] { ArriveOne(l1.(pending := l.pending[1..]), l.pending[0], passes); }
  }

  lemma {:induction false} SweepOne(w: Worker, order: seq<nat>, envs: nat -> Env, sid: nat)
    requires EntriesOk(w) && OneAtATime(LaneOf(w, sid))
    ensures OneAtATime(LaneOf(Sweep(w, order, envs), sid))
  {
    if order != [] {
      var before, k := order[..|order| - 1], order[|order| - 1];
      SweepOne(w, before, envs, sid);
      SweepEntries(w, before, envs);
      TimeoutLane(Sweep(w, before, envs), k, envs(k), sid);
      var l := LaneOf(Sweep(w, before, envs), sid);
      LandOne(l, l.pending != [] && Passes(l.pending[0], envs(k)));
    }
  }

  lemma {:induction false} OfKeeps(sid: nat, ts: seq<Task>, t: Task)
    requires t in ts && t.session == sid
    ensures t in Of(sid, ts)
  {
    var last := ts[|ts| - 1];
    assert ts == ts[..|ts| - 1] + [last];
    if t != last { OfKeeps(sid, ts[..|ts| - 1], t); }
  }

  lemma DrainLane(w: Worker, order: seq<nat>, sid: nat)
    requires EntriesOk(w) && ListsSessions(w, order)
    ensures var l, l' := LaneOf(w, sid), LaneOf(ShutdownDrain(w, order), sid);
            && l'.sends == l.sends && l'.flying == l'.pending == l'.queued == []
            && (forall t :: t in l.log || t in l.flying ==> t in l'.log)
  {
    var w' := ShutdownDrain(w, order);
    var l, l' := LaneOf(w, sid), LaneOf(w', sid);
    var more := DrainSessions(w, order) + ShutDown(w.tasks);
    Assoc(w.log, DrainSessions(w, order), ShutDown(w.tasks));
    AnsweredAppend(w.log, more);
    OfAppend(sid, Answered(w.log), Answered(more));
    forall t | t in l.flying ensures t in l'.log {
      DrainConserves(w, order, t);
      CountOne(t, t);
      if t !in Answered(w'.log) { CountAbsent(Answered(w'.log), t); }
      OfKeeps(sid, Answered(w'.log), t);
    }
  }

  /** Neither the queue nor more answers matter. */
  lemma StillOne(l: Lane, queued: seq<Task>, answers: seq<Task>)
    requires OneAtATime(l)
    ensures OneAtATime(l.(queued := queued)) && OneAtATime(l.(log := l.log + answers))
  {
  }

  lemma EnqueueOne(w: Worker, t: Task, sid: nat)
    requires OneAtATime(LaneOf(w, sid))
    ensures OneAtATime(LaneOf(w.(tasks := w.tasks + [t]), sid))
    ensures OneAtATime(LaneOf(w.(log := w.log + [Callback(t, ShuttingDown)]), sid))
  {
    var l := LaneOf(w, sid);
    EnqueueLane(w, t, sid);
    StillOne(l, l.queued + [t], [t]);
  }

  lemma TakeTaskOne(w: Worker, env: Env, sid: nat)
    requires EntriesOk(w) && w.tasks != [] && OneAtATime(LaneOf(w, sid))
    ensures OneAtATime(LaneOf(ProcessTask(w.(tasks := w.tasks[1..]), w.tasks[0], env), sid))
  {
    var l := LaneOf(w, sid);
    TakeTaskLane(w, env, sid);
    if w.tasks[0].session == sid { ArriveOne(l.(queued := l.queued[1..]), w.tasks[0], Passes(w.tasks[0], env)); }
  }

  lemma TakeResponseOne(w: Worker, k: nat, env: Env, sid: nat)
    requires EntriesOk(w) && w.responses != [] && OneAtATime(LaneOf(w, sid))
    ensures OneAtATime(LaneOf(HandleResponse(w.(responses := w.responses[1..]), k, w.responses[0], env), sid))
  {
    var l := LaneOf(w, sid);
    TakeResponseLane(w, k, env, sid);
    LandOne(l, l.pending != [] && Passes(l.pending[0], env));
  }

  lemma DrainOne(w: Worker, order: seq<nat>, sid: nat)
    requires EntriesOk(w) && ListsSessions(w, order) && OneAtATime(LaneOf(w, sid))
    ensures OneAtATime(LaneOf(ShutdownDrain(w, order), sid))
  {
    var l := LaneOf(w, sid);
    DrainLane(w, order, sid);
    forall k | 0 <= k < |l.sends| ensures l.sends[k] in l.log || l.sends[k] in l.flying {
      if k == |l.sends| - |l.flying| { assert l.sends[k] == l.flying[0]; }
    }
  }

  lemma AfterOne(s: System, a: Action, i: nat, sid: nat)
    requires Enabled(s, a) && i < |s.workers| && EntriesOk(s.workers[i]) && OneAtATime(LaneOf(s.workers[i], sid))
    ensures OneAtATime(LaneOf(After(s, a, i), sid))
  {
    var w := s.workers[i];
    match a {
      case Enqueue(t) => EnqueueOne(w, t, sid);
      case TakeResponse(j, k, env) => if i == j { TakeResponseOne(w, k, env, sid); }
      case TakeTask(j, env) => if i == j { TakeTaskOne(w, env, sid); }
      case CheckTimeouts(j, _, order, envs) => if i == j { SweepOne(w, order, envs, sid); }
      case Drain(j, order) => if i == j { DrainOne(w, order, sid); }
      case OnDBResponse(_) => assert LaneOf(After(s, a, i), sid) == LaneOf(w, sid);
      case _ =>
    }
  }

  /** In every run, whatever fails and whenever it stops, a session's requests are sent one at a time. */
  lemma {:induction false} RequestsOneAtATime(run: seq<System>, acts: seq<Action>, n: nat, sid: nat)
    requires IsRun(run, acts) && n < |run|
    ensures |run[n].workers| == |run[0].workers| > 0 && OneAtATime(LaneAt(run[n], sid))
  {
    if n > 0 {
      var i := sid % |run[0].workers|;
      assert Step(run[n - 1], acts[n - 1], run[n]);
      RequestsOneAtATime(run, acts, n - 1, sid);
      Accounted(run, acts, n - 1, i, Task(0, 0, UnknownKind, ""));
      AfterOne(run[n - 1], acts[n - 1], i, sid);
    } else {
      assert Answered([]) == [] && Sent([]) == [];
    }
  }

  // ---------------------------------------------------------------- call order

  /** Sent, then pending, then queued. */
  function Line(l: Lane): seq<Task> { l.sends + l.pending + l.queued }

  /** Tasks in the order of their calls, all among the first `calls`. */
  ghost predicate Rising(line: seq<Task>, calls: nat)
  {
    && (forall i :: 0 <= i < |line| ==> line[i].uid < calls)
    && forall i, j :: 0 <= i < j < |line| ==> line[i].uid < line[j].uid
  }

  predicate Stranded(l: Lane) { l.pending != [] && l.flying == [] }

  lemma RisingWithout(x: seq<Task>, y: seq<Task>, z: seq<Task>, calls: nat)
    requires Rising(x + y + z, calls)
    ensures Rising(x + z, calls)
  {
    var all, all' := x + y + z, x + z;
    assert forall i :: 0 <= i < |all'| ==> all'[i] == all[if i < |x| then i else i + |y|];
  }

  /** A task that arrives keeps the order exactly unless it is sent past older tasks that are stranded. */
  lemma ArriveRising(l: Lane, passes: bool, calls: nat)
    requires Rising(Line(l), calls) && l.queued != []
    ensures Rising(Line(Arrive(l.(queued := l.queued[1..]), l.queued[0], passes)), calls) <==> !(Stranded(l) && passes)
  {
    var t, rest := l.queued[0], l.queued[1..];
    var l' := Arrive(l.(queued := rest), t, passes);
    assert l.queued == [t] + rest;
    Assoc(l.sends + l.pending, [t], rest);
    if l.flying != [] {
      Assoc(l.sends, l.pending, [t]);
    } else if !passes {
      RisingWithout(l.sends + l.pending, [t], rest, calls);
    } else if l.pending == [] {
      NilUnit(l.sends);
      NilUnit(l.sends + [t]);
    } else {
      var p := l.pending[0];
      assert Line(l)[|l.sends|] == p && Line(l)[|l.sends| + |l.pending|] == t;
      assert Line(l')[|l.sends|] == t && Line(l')[|l.sends| + 1] == p;
    }
  }

  /** The end of a request always keeps the order. */
  lemma LandRising(l: Lane, passes: bool, calls: nat)
    requires Rising(Line(l), calls)
    ensures Rising(Line(Land(l, passes)), calls)
  {
    if l.pending != [] {
      var p, rest := l.pending[0], l.pending[1..];
      assert l.pending == [p] + rest;
      Assoc(l.sends, [p], rest);
      if !passes {
        Assoc(l.sends, [p], rest);
        assert Line(l) == l.sends + [p] + (rest + l.queued);
        RisingWithout(l.sends, [p], rest + l.queued, calls);
        Assoc(l.sends, rest, l.queued);
      }
    }
  }

  lemma {:induction false} SweepRising(w: Worker, order: seq<nat>, envs: nat -> Env, sid: nat, calls: nat)
    requires EntriesOk(w) && Rising(Line(LaneOf(w, sid)), calls)
    ensures Rising(Line(LaneOf(Sweep(w, order, envs), sid)), calls)
  {
    if order != [] {
      var before, k := order[..|order| - 1], order[|order| - 1];
      SweepRising(w, before, envs, sid, calls);
      SweepEntries(w, before, envs);
      TimeoutLane(Sweep(w, before, envs), k, envs(k), sid);
      var l := LaneOf(Sweep(w, before, envs), sid);
      LandRising(l, l.pending != [] && Passes(l.pending[0], envs(k)), calls);
    }
  }

  lemma RisingSnoc(line: seq<Task>, t: Task)
    requires Rising(line, t.uid)
    ensures Rising(line + [t], t.uid + 1) && Rising(line, t.uid + 1)
  {
  }

  lemma EnqueueRising(w: Worker, t: Task, sid: nat)
    requires Rising(Line(LaneOf(w, sid)), t.uid)
    ensures Rising(Line(LaneOf(w.(tasks := w.tasks + [t]), sid)), t.uid + 1)
    ensures Rising(Line(LaneOf(w.(log := w.log + [Callback(t, ShuttingDown)]), sid)), t.uid + 1)
  {
    var l := LaneOf(w, sid);
    EnqueueLane(w, t, sid);
    RisingSnoc(Line(l), t);
    Assoc(l.sends + l.pending, l.queued, [t]);
  }

  lemma TakeResponseRising(w: Worker, k: nat, env: Env, sid: nat, calls: nat)
    requires EntriesOk(w) && w.responses != [] && Rising(Line(LaneOf(w, sid)), calls)
    ensures Rising(Line(LaneOf(HandleResponse(w.(responses := w.responses[1..]), k, w.responses[0], env), sid)), calls)
  {
    var l := LaneOf(w, sid);
    TakeResponseLane(w, k, env, sid);
    LandRising(l, l.pending != [] && Passes(l.pending[0], env), calls);
  }

  /** Worker w is about to send its first task past older ones of session sid that are stranded. */
  ghost predicate OvertakesOn(w: Worker, env: Env, sid: nat)
    requires w.tasks != []
  {
    w.tasks[0].session == sid && Passes(w.tasks[0], env) && Stranded(LaneOf(w, sid))
  }

  lemma TakeTaskRising(w: Worker, env: Env, sid: nat, calls: nat)
    requires EntriesOk(w) && w.tasks != [] && Rising(Line(LaneOf(w, sid)), calls)
    ensures Rising(Line(LaneOf(ProcessTask(w.(tasks := w.tasks[1..]), w.tasks[0], env), sid)), calls) <==>
            !OvertakesOn(w, env, sid)
  {
    TakeTaskLane(w, env, sid);
    if w.tasks[0].session == sid { ArriveRising(LaneOf(w, sid), Passes(w.tasks[0], env), calls); }
  }

  lemma DrainRising(w: Worker, order: seq<nat>, sid: nat, calls: nat)
    requires EntriesOk(w) && ListsSessions(w, order) && Rising(Line(LaneOf(w, sid)), calls)
    ensures Rising(Line(LaneOf(ShutdownDrain(w, order), sid)), calls)
  {
    var l := LaneOf(w, sid);
    DrainLane(w, order, sid);
    assert Line(l) == l.sends + (l.pending + l.queued) + [];
    RisingWithout(l.sends, l.pending + l.queued, [], calls);
    NilUnit(l.sends);
  }

  /** The action overtakes in session sid. */
  ghost predicate Overtakes(s: System, a: Action, sid: nat)
    requires Enabled(s, a)
  {
    a.TakeTask? && a.i == sid % |s.workers| && OvertakesOn(s.workers[a.i], a.env, sid)
  }

  lemma AfterEnqueueRising(s: System, t: Task, i: nat, sid: nat)
    requires Enabled(s, Enqueue(t)) && i < |s.workers| && Rising(Line(LaneOf(s.workers[i], sid)), |s.calls|)
    ensures Rising(Line(LaneOf(After(s, Enqueue(t), i), sid)), |s.calls| + 1)
  {
    var w := s.workers[i];
    EnqueueRising(w, t, sid);
    if i != Route(s, t) {
      RisingSnoc(Line(LaneOf(w, sid)), t);
    } else if s.running {
      assert After(s, Enqueue(t), i) == w.(tasks := w.tasks + [t]);
    } else {
      assert After(s, Enqueue(t), i) == w.(log := w.log + [Callback(t, ShuttingDown)]);
    }
  }

  lemma AfterWorkRising(s: System, a: Action, i: nat, sid: nat, calls: nat)
    requires Enabled(s, a) && !a.Enqueue? && !a.TakeTask? && i < |s.workers| && EntriesOk(s.workers[i])
    requires Rising(Line(LaneOf(s.workers[i], sid)), calls)
    ensures Rising(Line(LaneOf(After(s, a, i), sid)), calls)
  {
    var w := s.workers[i];
    match a {
      case TakeResponse(j, k, env) => if i == j { TakeResponseRising(w, k, env, sid, calls); }
      case CheckTimeouts(j, _, order, envs) => if i == j { SweepRising(w, order, envs, sid, calls); }
      case Drain(j, order) => if i == j { DrainRising(w, order, sid, calls); }
      case OnDBResponse(_) => assert LaneOf(After(s, a, i), sid) == LaneOf(w, sid);
      case _ =>
    }
  }

  /** Exactly one kind of step ends the call order of a session: one that overtakes. */
  lemma AfterRising(s: System, a: Action, i: nat, sid: nat)
    requires Enabled(s, a) && i == sid % |s.workers| && EntriesOk(s.workers[i])
    requires Rising(Line(LaneOf(s.workers[i], sid)), |s.calls|)
    ensures Rising(Line(LaneOf(After(s, a, i), sid)), |s.calls| + if a.Enqueue? then 1 else 0) <==> !Overtakes(s, a, sid)
  {
    if a.Enqueue? {
      AfterEnqueueRising(s, a.t, i, sid);
    } else if a.TakeTask? {
      if a.i == i { TakeTaskRising(s.workers[i], a.env, sid, |s.calls|); }
    } else {
      AfterWorkRising(s, a, i, sid, |s.calls|);
    }
  }

  /**
   In every run, with failing checks and sends and a shutdown: as long as no step overtakes, the
   requests of a session leave in call order, and pending and queued tasks follow in call order.
   */
  lemma {:induction false} RisingUntilOvertaken(run: seq<System>, acts: seq<Action>, n: nat, sid: nat)
    requires IsRun(run, acts) && n < |run|
    requires forall m :: 0 <= m < n ==> Enabled(run[m], acts[m]) && !Overtakes(run[m], acts[m], sid)
    ensures |run[n].workers| == |run[0].workers| > 0
    ensures Rising(Line(LaneAt(run[n], sid)), |run[n].calls|)
  {
    if n > 0 {
      var i := sid % |run[0].workers|;
      assert Step(run[n - 1], acts[n - 1], run[n]);
      RisingUntilOvertaken(run, acts, n - 1, sid);
      Accounted(run, acts, n - 1, i, Task(0, 0, UnknownKind, ""));
      AfterRising(run[n - 1], acts[n - 1], i, sid);
    } else {
      assert Answered([]) == [] && Sent([]) == [];
    }
  }

  /** In particular while the session is never stranded, that is while every promoted task passes or is the last pending one. */
  lemma RisingWhileNotStranded(run: seq<System>, acts: seq<Action>, n: nat, sid: nat)
    requires IsRun(run, acts) && n < |run|
    requires forall m :: 0 <= m < n ==> |run[m].workers| > 0 && !Stranded(LaneAt(run[m], sid))
    ensures |run[n].workers| > 0 && Rising(Line(LaneAt(run[n], sid)), |run[n].calls|)
  {
    forall m | 0 <= m < n ensures Enabled(run[m], acts[m]) && !Overtakes(run[m], acts[m], sid) {
      assert Step(run[m], acts[m], run[m + 1]);
      assert !Stranded(LaneAt(run[m], sid));
    }
    RisingUntilOvertaken(run, acts, n, sid);
  }

  // ---------------------------------------------------------------- nothing of the session fails

  /** No check or send of session sid fails, none of its calls comes after Stop, and its worker is not drained. */
  ghost predicate Smooth(s: System, a: Action, sid: nat)
    requires Enabled(s, a)
  {
    match a
    case Enqueue(t) => t.session == sid ==> CheckTask(t) && s.running
    case TakeResponse(_, k, env) => k == sid ==> env.customCheck && env.sendOk
    case TakeTask(i, env) => s.workers[i].tasks[0].session == sid ==> env.customCheck && env.sendOk
    case CheckTimeouts(_, _, _, envs) => envs(sid).customCheck && envs(sid).sendOk
    case Drain(i, _) => i != sid % |s.workers|
    case _ => true
  }

  ghost predicate AllChecked(ts: seq<Task>) { forall i :: 0 <= i < |ts| ==> CheckTask(ts[i]) }

  /** In call order with nothing missing, and every task that still has to be sent passes the type check. */
  ghost predicate Flows(l: Lane, calls: seq<Task>)
  {
    InOrder(l, calls) && AllChecked(l.pending) && AllChecked(l.queued)
  }

  lemma LandFlows(l: Lane, calls: seq<Task>, env: Env)
    requires Flows(l, calls) && env.customCheck && env.sendOk
    ensures Flows(Land(l, l.pending != [] && Passes(l.pending[0], env)), calls)
  {
    LandInOrder(l, calls);
  }

  lemma ArriveFlows(l: Lane, calls: seq<Task>, env: Env)
    requires Flows(l, calls) && l.queued != [] && env.customCheck && env.sendOk
    ensures Flows(Arrive(l.(queued := l.queued[1..]), l.queued[0], Passes(l.queued[0], env)), calls)
  {
    ArriveInOrder(l, calls);
  }

  lemma EnqueueFlows(l: Lane, t: Task, calls: seq<Task>)
    requires Flows(l, calls) && CheckTask(t)
    ensures Flows(l.(queued := l.queued + [t]), calls + [t])
  {
    Assoc(l.sends + l.pending, l.queued, [t]);
  }

  lemma {:induction false} SweepFlows(w: Worker, order: seq<nat>, envs: nat -> Env, sid: nat, calls: seq<Task>)
    requires EntriesOk(w) && Flows(LaneOf(w, sid), calls) && envs(sid).customCheck && envs(sid).sendOk
    ensures Flows(LaneOf(Sweep(w, order, envs), sid), calls)
  {
    if order != [] {
      var before, k := order[..|order| - 1], order[|order| - 1];
      SweepFlows(w, before, envs, sid, calls);
      SweepEntries(w, before, envs);
      TimeoutLane(Sweep(w, before, envs), k, envs(k), sid);
      if k == sid { LandFlows(LaneOf(Sweep(w, before, envs), sid), calls, envs(k)); }
    }
  }

  lemma SmoothWork(s: System, a: Action, i: nat, sid: nat, calls: seq<Task>)
    requires Enabled(s, a) && Smooth(s, a, sid) && !a.Enqueue? && i == sid % |s.workers|
    requires EntriesOk(s.workers[i]) && Flows(LaneOf(s.workers[i], sid), calls)
    ensures Flows(LaneOf(After(s, a, i), sid), calls)
  {
    var w := s.workers[i];
    var l := LaneOf(w, sid);
    match a {
      case TakeResponse(j, k, env) =>
        if i == j {
          TakeResponseLane(w, k, env, sid);
          if k == sid { LandFlows(l, calls, env); }
        }
      case TakeTask(j, env) =>
        if i == j {
          TakeTaskLane(w, env, sid);
          if w.tasks[0].session == sid { ArriveFlows(l, calls, env); }
        }
      case CheckTimeouts(j, _, order, envs) => if i == j { SweepFlows(w, order, envs, sid, calls); }
      case OnDBResponse(_) => assert LaneOf(After(s, a, i), sid) == l;
      case _ =>
    }
  }

  lemma SmoothEnqueue(s: System, t: Task, i: nat, sid: nat)
    requires Enabled(s, Enqueue(t)) && Smooth(s, Enqueue(t), sid) && i == sid % |s.workers|
    requires Flows(LaneOf(s.workers[i], sid), Of(sid, s.calls))
    ensures Flows(LaneOf(After(s, Enqueue(t), i), sid), Of(sid, s.calls + [t]))
  {
    EnqueueLane(s.workers[i], t, sid);
    OfAppend(sid, s.calls, [t]);
    OfOne(sid, t);
    if t.session == sid { EnqueueFlows(LaneOf(s.workers[i], sid), t, Of(sid, s.calls)); } else { NilUnit(Of(sid, s.calls)); }
  }

  /**
   In every run in which nothing of session sid fails, whatever happens to other sessions and also after
   Stop: its requests are its calls, in call order, one at a time, each sent after the answer or timeout
   of the one before, and tasks are pending only behind a request in flight.
   */
  lemma {:induction false} PerSessionOrder(run: seq<System>, acts: seq<Action>, n: nat, sid: nat)
    requires IsRun(run, acts) && n < |run|
    requires forall m :: 0 <= m < n ==> Enabled(run[m], acts[m]) && Smooth(run[m], acts[m], sid)
    ensures |run[n].workers| == |run[0].workers| > 0
    ensures Flows(LaneAt(run[n], sid), Of(sid, run[n].calls))
  {
    if n > 0 {
      var s, a, i := run[n - 1], acts[n - 1], sid % |run[0].workers|;
      assert Step(s, a, run[n]);
      PerSessionOrder(run, acts, n - 1, sid);
      Accounted(run, acts, n - 1, i, Task(0, 0, UnknownKind, ""));
      if a.Enqueue? {
        SmoothEnqueue(s, a.t, i, sid);
      } else {
        NilUnit(s.calls);
        SmoothWork(s, a, i, sid, Of(sid, s.calls));
      }
    } else {
      assert Answered([]) == [] && Sent([]) == [];
    }
  }

  // ---------------------------------------------------------------- a run that overtakes

  const FINE: Env := Env(true, true, 0)
  const REQUEST: nat := KeyOf(DB_QUERY, 0, 1)

  /** Four calls of one session; the second fails its type check. */
  function Call(uid: nat): Task { Task(uid, 0, if uid == 1 then SavePlayerProgress else LoadPlayerData, "") }

  function Calls(n: nat): seq<Task> { seq(n, (i: nat) => Call(i)) }

  /** One worker, its calls so far, and what it holds. */
  function OneWorker(w: Worker, n: nat): System { System([w], true, false, {}, Calls(n)) }

  function Waiting(pending: seq<Task>): map<nat, Session>
  {
    map[0 := Session(REQUEST, Some(Call(0)), REQUEST_TIMEOUT_MS, pending)]
  }

  function OvertakeState(i: nat): System
  {
    var sent := [Send(Call(0), REQUEST)];
    var answers := [Callback(Call(0), Answer(0)), Callback(Call(1), InvalidRequest)];
    var left := map[0 := Session(0, None, REQUEST_TIMEOUT_MS, [Call(2)])];
    match i
    case 0 => OneWorker(Worker(0, 0, map[], [], [], [], []), 0)
    case 1 => OneWorker(Worker(0, 0, map[], [Call(0)], [], [], []), 1)
    case 2 => OneWorker(Worker(0, 0, map[], [Call(0), Call(1)], [], [], []), 2)
    case 3 => OneWorker(Worker(0, 0, map[], [Call(0), Call(1), Call(2)], [], [], []), 3)
    case 4 => OneWorker(Worker(0, 1, Waiting([]), [Call(1), Call(2)], [], [], sent), 3)
    case 5 => OneWorker(Worker(0, 1, Waiting([Call(1)]), [Call(2)], [], [], sent), 3)
    case 6 => OneWorker(Worker(0, 1, Waiting([Call(1), Call(2)]), [], [], [], sent), 3)
    case 7 => OneWorker(Worker(0, 1, Waiting([Call(1), Call(2)]), [], [Response(REQUEST, 0)], [], sent), 3)
    case 8 => OneWorker(Worker(0, 1, left, [], [], answers, sent), 3)
    case 9 => OneWorker(Worker(0, 1, left, [Call(3)], [], answers, sent), 4)
    case _ =>
      var second := KeyOf(DB_QUERY, 0, 2);
      OneWorker(Worker(0, 2, map[0 := Session(second, Some(Call(3)), REQUEST_TIMEOUT_MS, [Call(2)])], [], [], answers,
                       sent + [Send(Call(3), second)]), 4)
  }

  function OvertakeAction(i: nat): Action
  {
    match i
    case 0 => Enqueue(Call(0))
    case 1 => Enqueue(Call(1))
    case 2 => Enqueue(Call(2))
    case 3 => TakeTask(0, FINE)
    case 4 => TakeTask(0, FINE)
    case 5 => TakeTask(0, FINE)
    case 6 => OnDBResponse(Response(REQUEST, 0))
    case 7 => TakeResponse(0, 0, FINE)
    case 8 => Enqueue(Call(3))
    case _ => TakeTask(0, FINE)
  }

  lemma CallsGrow(n: nat)
    ensures Calls(n) + [Call(n)] == Calls(n + 1) && |Calls(n)| == n
  {
  }

  lemma OvertakeEnqueues(i: nat)
    requires i in {0, 1, 2, 8}
    ensures Step(OvertakeState(i), OvertakeAction(i), OvertakeState(i + 1))
  {
    CallsGrow(if i == 8 then 3 else i);
  }

  lemma OvertakeTakes(i: nat)
    requires i in {3, 4, 5, 9}
    ensures Step(OvertakeState(i), OvertakeAction(i), OvertakeState(i + 1))
  {
    KeyFields(DB_QUERY, 0, 1);
    var w, w' := OvertakeState(i).workers[0], OvertakeState(i + 1).workers[0];
    assert w.tasks[1..] == w'.tasks;
    assert w.sessions[0 := w'.sessions[0]] == w'.sessions;
    assert i in {4, 5} ==> w'.sessions[0].pending == w.sessions[0].pending + [w.tasks[0]];
    assert i in {3, 9} ==> w'.sends == w.sends + [Send(w.tasks[0], w'.sessions[0].requestId)];
    assert ProcessTask(w.(tasks := w'.tasks), w.tasks[0], FINE) == w';
  }

  lemma OvertakeArrives()
    ensures Step(OvertakeState(6), OvertakeAction(6), OvertakeState(7))
  {
    KeyFields(DB_QUERY, 0, 1);
  }

  lemma OvertakeAnswers()
    ensures Step(OvertakeState(7), OvertakeAction(7), OvertakeState(8))
  {
    KeyFields(DB_QUERY, 0, 1);
    var w := OvertakeState(7).workers[0];
    assert Matches(w, 0, REQUEST);
    var w1 := w.(responses := []);
    assert w.responses[1..] == [] && [Call(1), Call(2)][1..] == [Call(2)];
    var idle := map[0 := Session(0, None, REQUEST_TIMEOUT_MS, [Call(2)])];
    assert w.sessions[0 := Session(0, None, REQUEST_TIMEOUT_MS, [Call(2)])] == idle;
    assert Resolve(w1, 0, Answer(0), FINE) ==
           ProcessTask(w1.(sessions := idle, log := [Callback(Call(0), Answer(0))]), Call(1), FINE);
  }

  lemma OvertakeStrands()
    ensures Stranded(LaneAt(OvertakeState(9), 0))
  {
  }

  lemma TwoSends(w: Worker, a: Send, b: Send)
    requires w.sends == [a, b] && a.task.session == b.task.session == 0
    ensures LaneOf(w, 0).sends == [a.task, b.task]
  {
    assert Sent(w.sends) == [a.task] + [b.task];
    OfAppend(0, [a.task], [b.task]);
    OfOne(0, a.task);
    OfOne(0, b.task);
  }

  lemma OvertakeEnds()
    ensures var l := LaneAt(OvertakeState(10), 0); l.sends == [Call(0), Call(3)] && l.pending == [Call(2)]
  {
    TwoSends(OvertakeState(10).workers[0], Send(Call(0), REQUEST), Send(Call(3), KeyOf(DB_QUERY, 0, 2)));
  }

  lemma OvertakeStep(i: nat)
    requires i < 10
    ensures Step(OvertakeState(i), OvertakeAction(i), OvertakeState(i + 1))
  {
    if i in {0, 1, 2, 8} {
      OvertakeEnqueues(i);
    } else if i == 6 {
      OvertakeArrives();
    } else if i == 7 {
      OvertakeAnswers();
    } else {
      OvertakeTakes(i);
    }
  }

  /**
   It happens: the answer to call 0 promotes call 1, which fails its check and leaves call 2 stranded;
   then call 3 comes, is sent, and call 2 is still pending.
   */
  lemma LaterCallOvertakes() returns (run: seq<System>, acts: seq<Action>)
    ensures IsRun(run, acts) && |acts| == 10 && Enabled(run[9], acts[9])
    ensures Stranded(LaneAt(run[9], 0)) && Overtakes(run[9], acts[9], 0)
    ensures |run[10].workers| == 1
    ensures var l := LaneAt(run[10], 0); l.sends == [Call(0), Call(3)] && l.pending == [Call(2)]
  {
    run, acts := seq(11, (i: nat) => OvertakeState(i)), seq(10, (i: nat) => OvertakeAction(i));
    forall i | 0 <= i < 10 ensures Step(run[i], acts[i], run[i + 1]) { OvertakeStep(i); }
    assert Step(run[9], acts[9], run[10]);
    OvertakeStrands();
    OvertakeEnds();
  }
}
