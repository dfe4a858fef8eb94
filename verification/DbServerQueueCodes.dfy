/**
 Which code a caller of DBServerTaskQueue gets, and why: every callback in a worker's log has its cause
 in the run, and every cause leads to its callback.
 */
module DbServerQueueCodes {
  import opened Basics
  import opened DbServerQueue
  import opened DbServerQueueLanes
  import opened DbServerQueueIds
  import opened DbServerQueueRuns
  import opened KeyGenerator
  import opened Sequences

  // ---------------------------------------------------------------- what a step adds to the log

  /** A task that may be sent: of a known kind, progress with data, and not turned down by its own check. */
  predicate Checks(t: Task, env: Env)
  {
    (t.kind == LoadPlayerData || (t.kind == SavePlayerProgress && |t.data| > 0)) && env.customCheck
  }

  /** What the examination of a task tells its caller, if it is not sent. */
  predicate Verdict(t: Task, env: Env, c: Callback)
  {
    || (!Checks(t, env) && c == Callback(t, InvalidRequest))
    || (Checks(t, env) && !env.sendOk && c == Callback(t, NotConnected))
  }

  /** The callbacks w' has and w has not. */
  ghost function News(w: Worker, w': Worker): seq<Callback> { if w.log <= w'.log then w'.log[|w.log|..] else [] }

  ghost predicate Grows(w: Worker, w': Worker) { w.log <= w'.log && w.sends <= w'.sends }

  lemma NewsThen(w: Worker, mid: Worker, w': Worker)
    requires Grows(w, mid) && Grows(mid, w')
    ensures Grows(w, w') && News(w, w') == News(w, mid) + News(mid, w')
  {
  }

  /** The session has a request in flight for t, under id q and until the deadline. */
  ghost predicate Flies(w: Worker, t: Task, q: nat, deadline: int)
  {
    InFlight(w, t.session) && w.sessions[t.session].requestId == q && w.sessions[t.session].callback == Some(t) &&
    w.sessions[t.session].deadline == deadline
  }

  lemma ProcessNews(w: Worker, t: Task, env: Env)
    requires EntriesOk(w)
    ensures var w' := ProcessTask(w, t, env);
            Grows(w, w') && forall c :: c in News(w, w') <==> !InFlight(w, t.session) && Verdict(t, env, c)
  {
  }

  /** A task that passes is sent under the next key, and is in flight with five seconds to go. */
  lemma ProcessSends(w: Worker, t: Task, env: Env)
    requires EntriesOk(w)
    ensures var w', q := ProcessTask(w, t, env), KeyOf(DB_QUERY, w.slot, w.issued + 1);
            if !InFlight(w, t.session) && Checks(t, env) && env.sendOk
            then w'.sends == w.sends + [Send(t, q)] && Flies(w', t, q, env.clock + 5000)
            else w'.sends == w.sends
  {
    if w.slot < 256 { KeyFields(DB_QUERY, w.slot, w.issued + 1); }
  }

  lemma ResolveNews(w: Worker, sid: nat, code: Code, env: Env)
    requires EntriesOk(w) && sid in w.sessions
    ensures var w', s := Resolve(w, sid, code, env), w.sessions[sid];
            && Grows(w, w')
            && forall c :: c in News(w, w') <==>
                 (s.callback.Some? && c == Callback(s.callback.value, code)) || (s.pending != [] && Verdict(s.pending[0], env, c))
  {
    var w1, s := Released(w, sid, code), w.sessions[sid];
    ResolveIsReleaseThenProcess(w, sid, code, env);
    ReleaseEntries(w, sid, code);
    assert News(w, w1) == CallbackOf(s, code);
    if s.pending != [] {
      ReleaseOnlyLands(w, sid, code);
      ProcessNews(w1, s.pending[0], env);
      NewsThen(w, w1, ProcessTask(w1, s.pending[0], env));
    }
  }

  /** What the timeout of session sid adds. */
  ghost predicate TimeoutAdds(w: Worker, sid: nat, env: Env, c: Callback)
    requires InFlight(w, sid)
  {
    var s := w.sessions[sid];
    (s.callback.Some? && c == Callback(s.callback.value, TimedOut)) || (s.pending != [] && Verdict(s.pending[0], env, c))
  }

  ghost predicate AllInFlight(w: Worker, order: seq<nat>)
  {
    NoDuplicates(order) && forall sid :: sid in order ==> InFlight(w, sid)
  }

  lemma AllInFlightCut(w: Worker, order: seq<nat>)
    requires AllInFlight(w, order) && order != []
    ensures AllInFlight(w, order[..|order| - 1]) && order[|order| - 1] !in order[..|order| - 1]
    ensures InFlight(w, order[|order| - 1])
    ensures forall k :: k in order <==> k in order[..|order| - 1] || k == order[|order| - 1]
  {
    var before, sid := order[..|order| - 1], order[|order| - 1];
    assert order == before + [sid] && sid in order;
    LastIsNew(before, sid);
  }

  /** Sessions that are not swept stay as they are. */
  lemma {:induction false} SweepOthers(w: Worker, order: seq<nat>, env: nat -> Env, k: nat)
    requires EntriesOk(w) && AllInFlight(w, order) && k !in order
    ensures var w' := Sweep(w, order, env);
            EntriesOk(w') && (k in w'.sessions <==> k in w.sessions) && (k in w.sessions ==> w'.sessions[k] == w.sessions[k])
  {
    SweepEntries(w, order, env);
    if order != [] {
      var before, sid := order[..|order| - 1], order[|order| - 1];
      AllInFlightCut(w, order);
      SweepOthers(w, before, env, k);
      SweepOthers(w, before, env, sid);
      TimeoutOneEffect(Sweep(w, before, env), sid, env(sid), k);
    }
  }

  lemma {:induction false} SweepNews(w: Worker, order: seq<nat>, env: nat -> Env, c: Callback)
    requires EntriesOk(w) && AllInFlight(w, order)
    ensures var w' := Sweep(w, order, env);
            && Grows(w, w')
            && (c in News(w, w') <==> exists sid :: sid in order && TimeoutAdds(w, sid, env(sid), c))
  {
    if order != [] {
      var before, sid := order[..|order| - 1], order[|order| - 1];
      var mid := Sweep(w, before, env);
      AllInFlightCut(w, order);
      SweepNews(w, before, env, c);
      SweepOthers(w, before, env, sid);
      ResolveNews(mid, sid, TimedOut, env(sid));
      NewsThen(w, mid, Sweep(w, order, env));
      assert c in News(mid, Sweep(w, order, env)) <==> TimeoutAdds(w, sid, env(sid), c);
    }
  }

  /** The worker still owes an answer to this task. */
  ghost predicate Holds(w: Worker, t: Task)
  {
    t in Flying(w, t.session) || t in PendingOf(w, t.session) || t in w.tasks
  }

  lemma {:induction false} ShutDownIn(ts: seq<Task>, c: Callback)
    ensures c in ShutDown(ts) <==> c.code == ShuttingDown && c.task in ts
  {
    if ts != [] {
      var before, last := ts[..|ts| - 1], ts[|ts| - 1];
      assert ts == before + [last];
      ShutDownIn(before, c);
    }
  }

  lemma DrainOfIn(w: Worker, sid: nat, c: Callback)
    requires EntriesOk(w)
    ensures c in DrainOf(w, sid) <==> c.code == ShuttingDown && (c.task in Flying(w, sid) || c.task in PendingOf(w, sid))
  {
    ShutDownIn(PendingOf(w, sid), c);
  }

  lemma {:induction false} DrainSessionsIn(w: Worker, order: seq<nat>, c: Callback)
    requires EntriesOk(w)
    ensures c in DrainSessions(w, order) <==>
            c.code == ShuttingDown && exists sid :: sid in order && (c.task in Flying(w, sid) || c.task in PendingOf(w, sid))
  {
    if order != [] {
      var before, sid := order[..|order| - 1], order[|order| - 1];
      assert order == before + [sid];
      DrainSessionsIn(w, before, c);
      DrainOfIn(w, sid, c);
    }
  }

  lemma HeldInOwnSession(w: Worker, sid: nat, t: Task)
    requires EntriesOk(w) && (t in Flying(w, sid) || t in PendingOf(w, sid))
    ensures t.session == sid && sid in w.sessions
  {
  }

  lemma DrainNews(w: Worker, order: seq<nat>, c: Callback)
    requires EntriesOk(w) && ListsSessions(w, order)
    ensures var w' := ShutdownDrain(w, order);
            Grows(w, w') && (c in News(w, w') <==> c.code == ShuttingDown && Holds(w, c.task))
  {
    var w' := ShutdownDrain(w, order);
    Assoc(w.log, DrainSessions(w, order), ShutDown(w.tasks));
    TakeDrop(w.log, DrainSessions(w, order) + ShutDown(w.tasks));
    assert News(w, w') == DrainSessions(w, order) + ShutDown(w.tasks);
    ShutDownIn(w.tasks, c);
    DrainSessionsIn(w, order, c);
    if sid :| sid in order && (c.task in Flying(w, sid) || c.task in PendingOf(w, sid)) { HeldInOwnSession(w, sid, c.task); }
    if c.task in Flying(w, c.task.session) || c.task in PendingOf(w, c.task.session) {
      HeldInOwnSession(w, c.task.session, c.task);
      assert c.task.session in order;
    }
  }

  // ---------------------------------------------------------------- causes

  /** Action a ends the request of task t on worker i, with this code. */
  ghost predicate Lands(s: System, a: Action, i: nat, t: Task, code: Code)
    requires Enabled(s, a) && i < |s.workers|
  {
    var w := s.workers[i];
    match a
    case TakeResponse(j, sid, _) =>
      && i == j && Matches(w, sid, w.responses[0].id) && w.sessions[sid].callback == Some(t)
      && code == Answer(w.responses[0].code)
    case CheckTimeouts(j, now, _, _) =>
      i == j && exists sid :: InFlight(w, sid) && w.sessions[sid].deadline <= now && w.sessions[sid].callback == Some(t) && code == TimedOut
    case _ => false
  }

  /** Action a makes worker i examine task t: fresh from the queue, or promoted behind an ended request. */
  ghost predicate Examines(s: System, a: Action, i: nat, t: Task, env: Env)
    requires Enabled(s, a) && i < |s.workers|
  {
    var w := s.workers[i];
    match a
    case TakeTask(j, e) => i == j && t == w.tasks[0] && env == e && !InFlight(w, t.session)
    case TakeResponse(j, sid, e) =>
      i == j && Matches(w, sid, w.responses[0].id) && w.sessions[sid].pending != [] && t == w.sessions[sid].pending[0] && env == e
    case CheckTimeouts(j, now, _, envs) =>
      i == j && exists sid ::
        InFlight(w, sid) && w.sessions[sid].deadline <= now && w.sessions[sid].pending != [] &&
        t == w.sessions[sid].pending[0] && env == envs(sid)
    case _ => false
  }

  /** Action a answers task t on worker i because the queue is shutting down. */
  ghost predicate ShutsDown(s: System, a: Action, i: nat, t: Task)
    requires Enabled(s, a) && i < |s.workers|
  {
    match a
    case Enqueue(u) => u == t && i == t.session % |s.workers| && !s.running
    case Drain(j, _) => i == j && Holds(s.workers[i], t)
    case _ => false
  }

  /** Why a callback is invoked. */
  ghost predicate Caused(s: System, a: Action, i: nat, c: Callback)
    requires Enabled(s, a) && i < |s.workers|
  {
    || Lands(s, a, i, c.task, c.code)
    || (c.code == InvalidRequest && exists env :: Examines(s, a, i, c.task, env) && !Checks(c.task, env))
    || (c.code == NotConnected && exists env :: Examines(s, a, i, c.task, env) && Checks(c.task, env) && !env.sendOk)
    || (c.code == ShuttingDown && ShutsDown(s, a, i, c.task))
  }

  lemma TakeTaskCaused(s: System, a: Action, i: nat, c: Callback)
    requires Enabled(s, a) && a.TakeTask? && i < |s.workers| && EntriesOk(s.workers[i])
    ensures Grows(s.workers[i], After(s, a, i)) && (c in News(s.workers[i], After(s, a, i)) <==> Caused(s, a, i, c))
  {
    var w := s.workers[i];
    if i == a.i {
      var w1 := w.(tasks := w.tasks[1..]);
      ProcessNews(w1, w.tasks[0], a.env);
      assert News(w, After(s, a, i)) == News(w1, After(s, a, i));
      if !InFlight(w, w.tasks[0].session) { assert Examines(s, a, i, w.tasks[0], a.env); }
    }
  }

  lemma TakeResponseCaused(s: System, a: Action, i: nat, c: Callback)
    requires Enabled(s, a) && a.TakeResponse? && i < |s.workers| && EntriesOk(s.workers[i])
    ensures Grows(s.workers[i], After(s, a, i)) && (c in News(s.workers[i], After(s, a, i)) <==> Caused(s, a, i, c))
  {
    var w := s.workers[i];
    if i == a.i && Matches(w, a.sid, w.responses[0].id) {
      var w1 := w.(responses := w.responses[1..]);
      ResolveNews(w1, a.sid, Answer(w.responses[0].code), a.env);
      assert News(w, After(s, a, i)) == News(w1, After(s, a, i));
      var p := w.sessions[a.sid].pending;
      if p != [] { assert Examines(s, a, i, p[0], a.env); }
    }
  }

  lemma TimeoutCaused(s: System, a: Action, i: nat, c: Callback)
    requires Enabled(s, a) && a.CheckTimeouts? && i < |s.workers| && EntriesOk(s.workers[i])
    ensures Grows(s.workers[i], After(s, a, i)) && (c in News(s.workers[i], After(s, a, i)) <==> Caused(s, a, i, c))
  {
    var w := s.workers[i];
    if i == a.i {
      SweepNews(w, a.order, a.envs, c);
      if sid :| sid in a.order && TimeoutAdds(w, sid, a.envs(sid), c) {
        assert Expired(w, sid, a.now);
        var p := w.sessions[sid].pending;
        if p != [] { assert Examines(s, a, i, p[0], a.envs(sid)); }
      }
      if Caused(s, a, i, c) { TimeoutCauseAdds(s, a, i, c); }
    }
  }

  lemma TimeoutCauseAdds(s: System, a: Action, i: nat, c: Callback)
    requires Enabled(s, a) && a.CheckTimeouts? && i == a.i && i < |s.workers| && EntriesOk(s.workers[i]) && Caused(s, a, i, c)
    ensures exists sid :: sid in a.order && TimeoutAdds(s.workers[i], sid, a.envs(sid), c)
  {
    var w := s.workers[i];
    if Lands(s, a, i, c.task, c.code) {
      var sid :| InFlight(w, sid) && w.sessions[sid].deadline <= a.now && w.sessions[sid].callback == Some(c.task) && c.code == TimedOut;
      assert Expired(w, sid, a.now);
      assert TimeoutAdds(w, sid, a.envs(sid), c);
    } else {
      var env :| Examines(s, a, i, c.task, env) && Verdict(c.task, env, c);
      var sid :| InFlight(w, sid) && w.sessions[sid].deadline <= a.now && w.sessions[sid].pending != [] &&
                 c.task == w.sessions[sid].pending[0] && env == a.envs(sid);
      assert Expired(w, sid, a.now);
      assert TimeoutAdds(w, sid, a.envs(sid), c);
    }
  }

  /** A step invokes a callback with a code if and only if the code has its cause in that step. */
  lemma StepCallbacks(s: System, a: Action, i: nat, c: Callback)
    requires Enabled(s, a) && i < |s.workers| && EntriesOk(s.workers[i])
    ensures Grows(s.workers[i], After(s, a, i)) && (c in News(s.workers[i], After(s, a, i)) <==> Caused(s, a, i, c))
  {
    var w := s.workers[i];
    match a {
      case TakeTask(_, _) => TakeTaskCaused(s, a, i, c);
      case TakeResponse(_, _, _) => TakeResponseCaused(s, a, i, c);
      case CheckTimeouts(_, _, _, _) => TimeoutCaused(s, a, i, c);
      case Drain(j, order) => if i == j { DrainNews(w, order, c); }
      case Enqueue(t) => TakeDrop(w.log, [Callback(t, ShuttingDown)]);
      case _ =>
    }
  }

  // ---------------------------------------------------------------- over whole runs

  /** Every callback in a worker's log was added by one step of the run, and has its cause there. */
  lemma {:induction false} CallbackHasItsCause(run: seq<System>, acts: seq<Action>, n: nat, i: nat, k: nat) returns (m: nat)
    requires IsRun(run, acts) && n < |run| && i < |run[n].workers| && k < |run[n].workers[i].log|
    ensures m < n && i < |run[m].workers| && i < |run[m + 1].workers|
    ensures |run[m].workers[i].log| <= k < |run[m + 1].workers[i].log|
    ensures Enabled(run[m], acts[m]) && Caused(run[m], acts[m], i, run[n].workers[i].log[k])
  {
    assert n > 0;
    assert Step(run[n - 1], acts[n - 1], run[n]);
    var w, c := run[n - 1].workers[i], run[n].workers[i].log[k];
    Accounted(run, acts, n - 1, i, Task(0, 0, UnknownKind, ""));
    StepCallbacks(run[n - 1], acts[n - 1], i, c);
    if k < |w.log| {
      m := CallbackHasItsCause(run, acts, n - 1, i, k);
    } else {
      m := n - 1;
      assert News(w, run[n].workers[i])[k - |w.log|] == c;
    }
  }

  /** A request in flight was sent, under the id it waits for. */
  ghost predicate SentInv(w: Worker)
  {
    forall sid :: InFlight(w, sid) && w.sessions[sid].callback.Some? ==>
      Send(w.sessions[sid].callback.value, w.sessions[sid].requestId) in w.sends
  }

  lemma ProcessSentInv(w: Worker, t: Task, env: Env)
    requires EntriesOk(w) && SentInv(w)
    ensures SentInv(ProcessTask(w, t, env))
  {
    var w' := ProcessTask(w, t, env);
    ProcessFrame(w, t, env);
    ProcessSends(w, t, env);
    assert forall x :: x in w.sends ==> x in w'.sends;
  }

  lemma ResolveSentInv(w: Worker, sid: nat, code: Code, env: Env)
    requires EntriesOk(w) && sid in w.sessions && SentInv(w)
    ensures SentInv(Resolve(w, sid, code, env))
  {
    var w1, p := Released(w, sid, code), w.sessions[sid].pending;
    ResolveIsReleaseThenProcess(w, sid, code, env);
    ReleaseEntries(w, sid, code);
    if p != [] { ProcessSentInv(w1, p[0], env); }
  }

  lemma {:induction false} SweepSentInv(w: Worker, order: seq<nat>, env: nat -> Env)
    requires EntriesOk(w) && SentInv(w)
    ensures SentInv(Sweep(w, order, env))
  {
    if order != [] {
      var before, sid := order[..|order| - 1], order[|order| - 1];
      SweepSentInv(w, before, env);
      SweepEntries(w, before, env);
      if InFlight(Sweep(w, before, env), sid) { ResolveSentInv(Sweep(w, before, env), sid, TimedOut, env(sid)); }
    }
  }

  lemma AfterSentInv(s: System, a: Action, i: nat)
    requires Enabled(s, a) && i < |s.workers| && EntriesOk(s.workers[i]) && SentInv(s.workers[i])
    ensures SentInv(After(s, a, i))
  {
    var w := s.workers[i];
    match a {
      case TakeTask(j, env) => if i == j { ProcessSentInv(w.(tasks := w.tasks[1..]), w.tasks[0], env); }
      case TakeResponse(j, sid, env) =>
        if i == j && Matches(w, sid, w.responses[0].id) {
          ResolveSentInv(w.(responses := w.responses[1..]), sid, Answer(w.responses[0].code), env);
        }
      case CheckTimeouts(j, _, order, envs) => if i == j { SweepSentInv(w, order, envs); }
      case _ =>
    }
  }

  lemma {:induction false} SentAlways(run: seq<System>, acts: seq<Action>, n: nat, i: nat)
    requires IsRun(run, acts) && n < |run| && i < |run[n].workers|
    ensures SentInv(run[n].workers[i]) && EntriesOk(run[n].workers[i])
  {
    Accounted(run, acts, n, i, Task(0, 0, UnknownKind, ""));
    if n > 0 {
      assert Step(run[n - 1], acts[n - 1], run[n]);
      SentAlways(run, acts, n - 1, i);
      AfterSentInv(run[n - 1], acts[n - 1], i);
    }
  }

  lemma ResponsesStep(s: System, a: Action, i: nat)
    requires Enabled(s, a) && i < |s.workers| && EntriesOk(s.workers[i])
    ensures var rs, rs' := s.workers[i].responses, After(s, a, i).responses;
            match a {
              case OnDBResponse(r) => rs' == if i == GetSlot(r.id) then rs + [r] else rs
              case TakeResponse(j, _, _) => rs' == if i == j then rs[1..] else rs
              case Drain(j, _) => rs' == if i == j then [] else rs
              case _ => rs' == rs
            }
  {
    var w := s.workers[i];
    match a {
      case TakeTask(j, env) => if i == j { ProcessFrame(w.(tasks := w.tasks[1..]), w.tasks[0], env); }
      case TakeResponse(j, sid, env) =>
        if i == j && Matches(w, sid, w.responses[0].id) {
          ResolveConserves(w.(responses := w.responses[1..]), sid, Answer(w.responses[0].code), env, Task(0, 0, UnknownKind, ""));
        }
      case CheckTimeouts(j, _, order, envs) => if i == j { SweepConserves(w, order, envs, Task(0, 0, UnknownKind, "")); }
      case _ =>
    }
  }

  /** Every response in a worker's queue came in as it is, with an id that names the worker. */
  lemma {:induction false} ResponseCameIn(run: seq<System>, acts: seq<Action>, n: nat, i: nat, k: nat) returns (b: nat)
    requires IsRun(run, acts) && n < |run| && i < |run[n].workers| && k < |run[n].workers[i].responses|
    ensures b < n && acts[b] == OnDBResponse(run[n].workers[i].responses[k]) && GetSlot(run[n].workers[i].responses[k].id) == i
  {
    assert n > 0;
    var s, a := run[n - 1], acts[n - 1];
    assert Step(s, a, run[n]);
    Accounted(run, acts, n - 1, i, Task(0, 0, UnknownKind, ""));
    ResponsesStep(s, a, i);
    var shift := if a.TakeResponse? && a.i == i then 1 else 0;
    if k + shift < |s.workers[i].responses| {
      b := ResponseCameIn(run, acts, n - 1, i, k + shift);
    } else {
      b := n - 1;
    }
  }

  /**
   An answered callback carries the code of a response that came in, to an id under which exactly this
   task had been sent.
   */
  lemma AnswerIsTheResponse(run: seq<System>, acts: seq<Action>, n: nat, i: nat, k: nat, code: int)
    returns (m: nat, b: nat, q: nat)
    requires IsRun(run, acts) && n < |run| && i < |run[n].workers| && k < |run[n].workers[i].log|
    requires run[n].workers[i].log[k].code == Answer(code)
    ensures b < m < n && i < |run[m].workers| && acts[m].TakeResponse? && acts[m].i == i
    ensures run[m].workers[i].responses != [] && run[m].workers[i].responses[0] == Response(q, code)
    ensures Send(run[n].workers[i].log[k].task, q) in run[m].workers[i].sends
    ensures acts[b] == OnDBResponse(Response(q, code)) && GetSlot(q) == i
  {
    m := CallbackHasItsCause(run, acts, n, i, k);
    SentAlways(run, acts, m, i);
    q := run[m].workers[i].responses[0].id;
    b := ResponseCameIn(run, acts, m, i, 0);
  }

  /** And a response to a request in flight reaches the caller of exactly that request, with its own code. */
  lemma ResponseIsTheAnswer(run: seq<System>, acts: seq<Action>, m: nat, i: nat, k: nat, t: Task, q: nat, code: int)
    requires IsRun(run, acts) && m < |acts| && i < |run[m].workers| && run[m].workers[i].issued < SEQUENCES
    requires acts[m].TakeResponse? && acts[m].i == i && Enabled(run[m], acts[m]) && run[m].workers[i].responses[0] == Response(q, code)
    requires InFlight(run[m].workers[i], k) && run[m].workers[i].sessions[k].requestId == q
    requires run[m].workers[i].sessions[k].callback == Some(t)
    ensures i < |run[m + 1].workers| && Callback(t, Answer(code)) in News(run[m].workers[i], run[m + 1].workers[i])
  {
    assert Step(run[m], acts[m], run[m + 1]);
    IdsStayOk(run, acts, m, i);
    assert Matches(run[m].workers[i], k, q);
    assert acts[m].sid == k;
    assert Caused(run[m], acts[m], i, Callback(t, Answer(code)));
    StepCallbacks(run[m], acts[m], i, Callback(t, Answer(code)));
  }

  /** InvalidRequest goes only to a task whose check failed, NotConnected only to one whose check passed and send failed. */
  lemma FailureCodesMeanFailure(run: seq<System>, acts: seq<Action>, n: nat, i: nat, k: nat) returns (m: nat, env: Env)
    requires IsRun(run, acts) && n < |run| && i < |run[n].workers| && k < |run[n].workers[i].log|
    requires run[n].workers[i].log[k].code == InvalidRequest || run[n].workers[i].log[k].code == NotConnected
    ensures m < n && i < |run[m].workers| && Enabled(run[m], acts[m])
    ensures var c := run[n].workers[i].log[k];
            && Examines(run[m], acts[m], i, c.task, env)
            && (if c.code == InvalidRequest then !Checks(c.task, env) else Checks(c.task, env) && !env.sendOk)
  {
    m := CallbackHasItsCause(run, acts, n, i, k);
    var c := run[n].workers[i].log[k];
    if c.code == InvalidRequest {
      env :| Examines(run[m], acts[m], i, c.task, env) && !Checks(c.task, env);
    } else {
      env :| Examines(run[m], acts[m], i, c.task, env) && Checks(c.task, env) && !env.sendOk;
    }
  }

  /** TimedOut goes only to a task whose deadline had passed, ShuttingDown only to one refused or drained. */
  lemma EndCodesMeanTheEnd(run: seq<System>, acts: seq<Action>, n: nat, i: nat, k: nat) returns (m: nat)
    requires IsRun(run, acts) && n < |run| && i < |run[n].workers| && k < |run[n].workers[i].log|
    requires run[n].workers[i].log[k].code == TimedOut || run[n].workers[i].log[k].code == ShuttingDown
    ensures m < n && i < |run[m].workers| && Enabled(run[m], acts[m])
    ensures var c := run[n].workers[i].log[k];
            if c.code == TimedOut then acts[m].CheckTimeouts? && Lands(run[m], acts[m], i, c.task, TimedOut)
            else ShutsDown(run[m], acts[m], i, c.task)
  {
    m := CallbackHasItsCause(run, acts, n, i, k);
  }

  // ---------------------------------------------------------------- what a step sends

  ghost predicate Sendable(t: Task, env: Env) { Checks(t, env) && env.sendOk }

  /** The requests w' has sent and w has not. */
  ghost function NewSends(w: Worker, w': Worker): seq<Send> { if w.sends <= w'.sends then w'.sends[|w.sends|..] else [] }

  ghost predicate SendsTask(w: Worker, w': Worker, t: Task) { exists q :: Send(t, q) in NewSends(w, w') }

  lemma ProcessSendsTask(w: Worker, t: Task, env: Env, u: Task)
    requires EntriesOk(w)
    ensures var w' := ProcessTask(w, t, env);
            w.sends <= w'.sends && (SendsTask(w, w', u) <==> u == t && !InFlight(w, t.session) && Sendable(t, env))
  {
    var w', q := ProcessTask(w, t, env), KeyOf(DB_QUERY, w.slot, w.issued + 1);
    ProcessSends(w, t, env);
    TakeDrop(w.sends, [Send(t, q)]);
    if u == t && !InFlight(w, t.session) && Sendable(t, env) { assert Send(t, q) in NewSends(w, w'); }
  }

  lemma ResolveSendsTask(w: Worker, sid: nat, code: Code, env: Env, u: Task)
    requires EntriesOk(w) && sid in w.sessions
    ensures var w', p := Resolve(w, sid, code, env), w.sessions[sid].pending;
            w.sends <= w'.sends && (SendsTask(w, w', u) <==> p != [] && u == p[0] && Sendable(u, env))
  {
    var w1, p := Released(w, sid, code), w.sessions[sid].pending;
    ResolveIsReleaseThenProcess(w, sid, code, env);
    ReleaseEntries(w, sid, code);
    ReleaseOnlyLands(w, sid, code);
    if p != [] {
      ProcessSendsTask(w1, p[0], env, u);
      assert NewSends(w, ProcessTask(w1, p[0], env)) == NewSends(w1, ProcessTask(w1, p[0], env));
    }
  }

  lemma SendsThen(w: Worker, mid: Worker, w': Worker, u: Task)
    requires w.sends <= mid.sends <= w'.sends
    ensures w.sends <= w'.sends && (SendsTask(w, w', u) <==> SendsTask(w, mid, u) || SendsTask(mid, w', u))
  {
    assert NewSends(w, w') == NewSends(w, mid) + NewSends(mid, w');
    if SendsTask(w, mid, u) { var q :| Send(u, q) in NewSends(w, mid); assert Send(u, q) in NewSends(w, w'); }
    if SendsTask(mid, w', u) { var q :| Send(u, q) in NewSends(mid, w'); assert Send(u, q) in NewSends(w, w'); }
  }

  /** The timeout of session sid promotes and sends u. */
  ghost predicate TimeoutSends(w: Worker, sid: nat, env: Env, u: Task)
    requires InFlight(w, sid)
  {
    w.sessions[sid].pending != [] && u == w.sessions[sid].pending[0] && Sendable(u, env)
  }

  lemma {:induction false} SweepSendsTask(w: Worker, order: seq<nat>, env: nat -> Env, u: Task)
    requires EntriesOk(w) && AllInFlight(w, order)
    ensures var w' := Sweep(w, order, env);
            w.sends <= w'.sends && (SendsTask(w, w', u) <==> exists sid :: sid in order && TimeoutSends(w, sid, env(sid), u))
  {
    if order != [] {
      var before, sid := order[..|order| - 1], order[|order| - 1];
      var mid := Sweep(w, before, env);
      AllInFlightCut(w, order);
      SweepSendsTask(w, before, env, u);
      SweepOthers(w, before, env, sid);
      ResolveSendsTask(mid, sid, TimedOut, env(sid), u);
      SendsThen(w, mid, Sweep(w, order, env), u);
      assert SendsTask(mid, Sweep(w, order, env), u) <==> TimeoutSends(w, sid, env(sid), u);
    }
  }

  ghost predicate Promotes(s: System, a: Action, i: nat, t: Task)
    requires Enabled(s, a) && i < |s.workers|
  {
    exists env :: Examines(s, a, i, t, env) && Sendable(t, env)
  }

  lemma TimeoutSendsIff(s: System, a: Action, i: nat, u: Task)
    requires Enabled(s, a) && a.CheckTimeouts? && i < |s.workers| && EntriesOk(s.workers[i])
    ensures SendsTask(s.workers[i], After(s, a, i), u) <==> Promotes(s, a, i, u)
  {
    var w := s.workers[i];
    if i == a.i {
      SweepSendsTask(w, a.order, a.envs, u);
      if sid :| sid in a.order && TimeoutSends(w, sid, a.envs(sid), u) {
        assert Expired(w, sid, a.now);
        assert Examines(s, a, i, u, a.envs(sid));
      }
      if env :| Examines(s, a, i, u, env) && Sendable(u, env) {
        var sid :| InFlight(w, sid) && w.sessions[sid].deadline <= a.now && w.sessions[sid].pending != [] &&
                   u == w.sessions[sid].pending[0] && env == a.envs(sid);
        assert Expired(w, sid, a.now);
        assert TimeoutSends(w, sid, a.envs(sid), u);
      }
    }
  }

  /** A step sends a task if and only if it examines it, the check passes and the connection takes it. */
  lemma StepSends(s: System, a: Action, i: nat, u: Task)
    requires Enabled(s, a) && i < |s.workers| && EntriesOk(s.workers[i])
    ensures SendsTask(s.workers[i], After(s, a, i), u) <==> Promotes(s, a, i, u)
  {
    var w := s.workers[i];
    match a {
      case TakeTask(j, env) =>
        if i == j {
          ProcessSendsTask(w.(tasks := w.tasks[1..]), w.tasks[0], env, u);
          assert NewSends(w, After(s, a, i)) == NewSends(w.(tasks := w.tasks[1..]), After(s, a, i));
        }
      case TakeResponse(j, sid, env) =>
        if i == j && Matches(w, sid, w.responses[0].id) {
          ResolveSendsTask(w.(responses := w.responses[1..]), sid, Answer(w.responses[0].code), env, u);
          assert NewSends(w, After(s, a, i)) == NewSends(w.(responses := w.responses[1..]), After(s, a, i));
        }
      case CheckTimeouts(_, _, _, _) => TimeoutSendsIff(s, a, i, u);
      case _ =>
    }
  }

  /** After Stop every call is refused with ShuttingDown, on the worker of its session. */
  lemma {:induction false} StoppedRefuses(run: seq<System>, acts: seq<Action>, b: nat, i: nat, t: Task)
    requires IsRun(run, acts) && b < i < |acts| && acts[b] == Stop && acts[i] == Enqueue(t)
    ensures !run[i].running && |run[i].workers| == |run[i + 1].workers| > 0
    ensures var k := t.session % |run[i].workers|;
            Callback(t, ShuttingDown) in News(run[i].workers[k], run[i + 1].workers[k])
  {
    StaysStopped(run, acts, b, i);
    assert Step(run[i], acts[i], run[i + 1]);
    var k := t.session % |run[i].workers|;
    Accounted(run, acts, i, k, t);
    StepCallbacks(run[i], acts[i], k, Callback(t, ShuttingDown));
  }

  lemma {:induction false} StaysStopped(run: seq<System>, acts: seq<Action>, b: nat, i: nat)
    requires IsRun(run, acts) && b < i < |run| && acts[b] == Stop
    ensures !run[i].running
  {
    assert Step(run[i - 1], acts[i - 1], run[i]);
    if b < i - 1 { StaysStopped(run, acts, b, i - 1); }
  }
}
