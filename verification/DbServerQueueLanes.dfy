/**
 What one worker step does to one session of DBServerTaskQueue: no task is lost or answered twice,
 and, while checks and sends succeed, requests leave in the order they came.
 */
module DbServerQueueLanes {
  import opened Basics
  import opened DbServerQueue
  import opened KeyGenerator
  import opened Sequences

  // ---------------------------------------------------------------- tasks of one session

  /** The tasks of session `sid`, in order. */
  function Of(sid: nat, ts: seq<Task>): seq<Task>
  {
    if ts == [] then []
    else Of(sid, ts[..|ts| - 1]) + (if ts[|ts| - 1].session == sid then [ts[|ts| - 1]] else [])
  }

  lemma {:induction false} OfAppend(sid: nat, a: seq<Task>, b: seq<Task>)
    ensures Of(sid, a + b) == Of(sid, a) + Of(sid, b)
  {
    if b == [] {
      NilUnit(a);
      NilUnit(Of(sid, a));
    } else {
      var n, last := |b| - 1, b[|b| - 1];
      OfAppend(sid, a, b[..n]);
      assert (a + b)[..|a + b| - 1] == a + b[..n] && (a + b)[|a + b| - 1] == last;
      Assoc(Of(sid, a), Of(sid, b[..n]), if last.session == sid then [last] else []);
    }
  }

  lemma OfOne(sid: nat, t: Task)
    ensures Of(sid, [t]) == if t.session == sid then [t] else []
  {
    assert [t][..0] == [];
    NilUnit([t]);
  }

  lemma OfHead(sid: nat, ts: seq<Task>)
    requires ts != []
    ensures Of(sid, ts) == Of(sid, [ts[0]]) + Of(sid, ts[1..])
  {
    assert ts == [ts[0]] + ts[1..];
    OfAppend(sid, [ts[0]], ts[1..]);
  }

  /** The tasks whose callbacks were invoked. */
  function Answered(log: seq<Callback>): seq<Task>
  {
    seq(|log|, i requires 0 <= i < |log| => log[i].task)
  }

  lemma AnsweredAppend(a: seq<Callback>, b: seq<Callback>)
    ensures Answered(a + b) == Answered(a) + Answered(b)
  {
  }

  /** The tasks that were sent. */
  function Sent(sends: seq<Send>): seq<Task>
  {
    seq(|sends|, i requires 0 <= i < |sends| => sends[i].task)
  }

  lemma SentAppend(a: seq<Send>, b: seq<Send>)
    ensures Sent(a + b) == Sent(a) + Sent(b)
  {
  }

  // ---------------------------------------------------------------- one session of a worker

  function Flying(w: Worker, sid: nat): seq<Task>
  {
    if sid in w.sessions && w.sessions[sid].callback.Some? then [w.sessions[sid].callback.value] else []
  }

  predicate EntryOk(sid: nat, s: Session)
  {
    && (s.requestId != 0 <==> s.callback.Some?)
    && (s.callback.Some? ==> s.callback.value.session == sid)
    && forall i :: 0 <= i < |s.pending| ==> s.pending[i].session == sid
  }

  /** A session entry is in flight exactly when it stores a callback, and holds only its own tasks. */
  ghost predicate EntriesOk(w: Worker)
  {
    w.slot < 256 && forall sid :: sid in w.sessions ==> EntryOk(sid, w.sessions[sid])
  }

  // ---------------------------------------------------------------- counting one task

  function Count(ts: seq<Task>, t: Task): nat
  {
    if ts == [] then 0 else Count(ts[..|ts| - 1], t) + (if ts[|ts| - 1] == t then 1 else 0)
  }

  lemma {:induction false} CountAppend(a: seq<Task>, b: seq<Task>, t: Task)
    ensures Count(a + b, t) == Count(a, t) + Count(b, t)
  {
    if b == [] {
      NilUnit(a);
    } else {
      CountAppend(a, b[..|b| - 1], t);
      assert (a + b)[..|a + b| - 1] == a + b[..|b| - 1];
    }
  }

  lemma CountOne(x: Task, t: Task)
    ensures Count([x], t) == if x == t then 1 else 0
  {
    assert [x][..0] == [];
  }

  lemma CountHead(ts: seq<Task>, t: Task)
    requires ts != []
    ensures Count(ts, t) == (if ts[0] == t then 1 else 0) + Count(ts[1..], t)
  {
    assert ts == [ts[0]] + ts[1..];
    CountAppend([ts[0]], ts[1..], t);
    CountOne(ts[0], t);
  }

  lemma {:induction false} CountAbsent(ts: seq<Task>, t: Task)
    requires t !in ts
    ensures Count(ts, t) == 0
  {
    if ts != [] { CountAbsent(ts[..|ts| - 1], t); }
  }

  /** Everywhere the worker keeps a task: answered, in flight, pending, queued. */
  ghost function Account(w: Worker, t: Task): nat
  {
    Count(Answered(w.log), t) + Count(Flying(w, t.session), t) +
    Count(PendingOf(w, t.session), t) + Count(w.tasks, t)
  }

  lemma LogCount(log: seq<Callback>, cs: seq<Callback>, t: Task)
    ensures Count(Answered(log + cs), t) == Count(Answered(log), t) + Count(Answered(cs), t)
  {
    AnsweredAppend(log, cs);
    CountAppend(Answered(log), Answered(cs), t);
  }

  lemma LogCountOne(c: Callback, t: Task)
    ensures Count(Answered([c]), t) == if c.task == t then 1 else 0
  {
    assert Answered([c]) == [c.task];
    CountOne(c.task, t);
  }

  /** ProcessTask touches only the task's own session, and nothing in the queues. */
  lemma ProcessFrame(w: Worker, t: Task, env: Env)
    requires EntriesOk(w)
    ensures var w' := ProcessTask(w, t, env);
            && EntriesOk(w') && w'.tasks == w.tasks && w'.responses == w.responses && w'.slot == w.slot
            && w.issued <= w'.issued <= w.issued + 1
            && (forall k :: k != t.session ==> (k in w'.sessions <==> k in w.sessions))
            && (forall k :: k in w.sessions && k != t.session ==> w'.sessions[k] == w.sessions[k])
  {
    KeyFields(DB_QUERY, w.slot, w.issued + 1);
  }

  /** How one step may place a task of its session: pending, answered, or in flight. */
  ghost predicate Placed(w: Worker, w': Worker, t: Task)
  {
    var sid := t.session;
    var f, f', p, p' := Flying(w, sid), Flying(w', sid), PendingOf(w, sid), PendingOf(w', sid);
    || (w'.log == w.log && f' == f && p' == p + [t])
    || (f' == f && p' == p && |w'.log| == |w.log| + 1 && w.log <= w'.log && w'.log[|w.log|].task == t)
    || (w'.log == w.log && f == [] && f' == [t] && p' == p)
  }

  lemma ProcessPlaces(w: Worker, t: Task, env: Env)
    requires EntriesOk(w)
    ensures Placed(w, ProcessTask(w, t, env), t)
  {
  }

  /** ProcessTask puts the task in exactly one place, and moves no other task. */
  lemma ProcessConserves(w: Worker, t: Task, env: Env, u: Task)
    requires EntriesOk(w)
    ensures Account(ProcessTask(w, t, env), u) == Account(w, u) + (if t == u then 1 else 0)
  {
    ProcessFrame(w, t, env);
    ProcessPlaces(w, t, env);
    PlacedConserves(w, ProcessTask(w, t, env), t, u);
  }

  lemma PlacedConserves(w: Worker, w': Worker, t: Task, u: Task)
    requires Placed(w, w', t) && w'.tasks == w.tasks
    requires u.session != t.session ==>
               Flying(w', u.session) == Flying(w, u.session) && PendingOf(w', u.session) == PendingOf(w, u.session)
    ensures Account(w', u) == Account(w, u) + (if t == u then 1 else 0)
  {
    CountOne(t, u);
    if w'.log != w.log {
      var c := w'.log[|w.log|];
      assert w'.log == w.log + [c];
      LogCount(w.log, [c], u);
      LogCountOne(c, u);
    } else {
      CountAppend(PendingOf(w, t.session), [t], u);
    }
  }

  /** The worker right after a callback, before the next pending task is looked at. */
  function Released(w: Worker, sid: nat, code: Code): Worker
    requires sid in w.sessions
  {
    var s := w.sessions[sid];
    w.(sessions := if s.pending == [] then w.sessions - {sid}
                   else w.sessions[sid := Session(0, None, s.deadline, s.pending[1..])],
       log := w.log + CallbackOf(s, code))
  }

  lemma ResolveIsReleaseThenProcess(w: Worker, sid: nat, code: Code, env: Env)
    requires sid in w.sessions
    ensures var w1 := Released(w, sid, code);
            var p := w.sessions[sid].pending;
            Resolve(w, sid, code, env) == if p == [] then w1 else ProcessTask(w1, p[0], env)
  {
  }

  lemma ReleaseEntries(w: Worker, sid: nat, code: Code)
    requires EntriesOk(w) && sid in w.sessions
    ensures EntriesOk(Released(w, sid, code))
  {
  }

  lemma ReleaseAnswers(w: Worker, sid: nat, code: Code, u: Task)
    requires EntriesOk(w) && sid in w.sessions
    ensures Count(Answered(Released(w, sid, code).log), u) == Count(Answered(w.log), u) + Count(Flying(w, sid), u)
  {
    LogCount(w.log, CallbackOf(w.sessions[sid], code), u);
    assert Answered(CallbackOf(w.sessions[sid], code)) == Flying(w, sid);
  }

  lemma ReleaseConserves(w: Worker, sid: nat, code: Code, u: Task)
    requires EntriesOk(w) && sid in w.sessions
    ensures EntriesOk(Released(w, sid, code))
    ensures var p := w.sessions[sid].pending;
            Account(w, u) == Account(Released(w, sid, code), u) + (if p != [] && p[0] == u then 1 else 0)
  {
    var p := w.sessions[sid].pending;
    ReleaseEntries(w, sid, code);
    ReleaseAnswers(w, sid, code, u);
    if p != [] { CountHead(p, u); }
    if u.session != sid { OthersNotHeld(w, sid, u); }
  }

  lemma ResolveConserves(w: Worker, sid: nat, code: Code, env: Env, u: Task)
    requires EntriesOk(w) && sid in w.sessions
    ensures EntriesOk(Resolve(w, sid, code, env))
    ensures Resolve(w, sid, code, env).tasks == w.tasks && Resolve(w, sid, code, env).responses == w.responses
    ensures Account(Resolve(w, sid, code, env), u) == Account(w, u)
  {
    ResolveIsReleaseThenProcess(w, sid, code, env);
    ReleaseConserves(w, sid, code, u);
    var p := w.sessions[sid].pending;
    if p != [] {
      ProcessFrame(Released(w, sid, code), p[0], env);
      ProcessConserves(Released(w, sid, code), p[0], env, u);
    }
  }

  lemma {:induction false} SweepConserves(w: Worker, order: seq<nat>, env: nat -> Env, u: Task)
    requires EntriesOk(w)
    ensures var w' := Sweep(w, order, env);
            EntriesOk(w') && w'.tasks == w.tasks && w'.responses == w.responses && Account(w', u) == Account(w, u)
  {
    if order != [] {
      var before, sid := order[..|order| - 1], order[|order| - 1];
      SweepConserves(w, before, env, u);
      var mid := Sweep(w, before, env);
      if InFlight(mid, sid) { ResolveConserves(mid, sid, TimedOut, env(sid), u); }
    }
  }

  // ---------------------------------------------------------------- the drain

  lemma {:induction false} ShutDownAnswers(ts: seq<Task>)
    ensures Answered(ShutDown(ts)) == ts
  {
    if ts != [] {
      ShutDownAnswers(ts[..|ts| - 1]);
      AnsweredAppend(ShutDown(ts[..|ts| - 1]), [Callback(ts[|ts| - 1], ShuttingDown)]);
      assert ts == ts[..|ts| - 1] + [ts[|ts| - 1]];
    }
  }

  lemma DrainOfAnswers(w: Worker, sid: nat)
    requires EntriesOk(w)
    ensures Answered(DrainOf(w, sid)) == Flying(w, sid) + PendingOf(w, sid)
  {
    var mine := if InFlight(w, sid) then CallbackOf(w.sessions[sid], ShuttingDown) else [];
    AnsweredAppend(mine, ShutDown(PendingOf(w, sid)));
    ShutDownAnswers(PendingOf(w, sid));
    assert Answered(mine) == Flying(w, sid);
  }

  /** A session holds no task of another one. */
  lemma OthersNotHeld(w: Worker, sid: nat, u: Task)
    requires EntriesOk(w) && u.session != sid
    ensures Count(Flying(w, sid), u) == 0 && Count(PendingOf(w, sid), u) == 0
  {
    CountAbsent(Flying(w, sid), u);
    CountAbsent(PendingOf(w, sid), u);
  }

  lemma DrainOfCount(w: Worker, sid: nat, u: Task)
    requires EntriesOk(w)
    ensures Count(Answered(DrainOf(w, sid)), u) ==
            if sid == u.session then Count(Flying(w, sid), u) + Count(PendingOf(w, sid), u) else 0
  {
    DrainOfAnswers(w, sid);
    CountAppend(Flying(w, sid), PendingOf(w, sid), u);
    if sid != u.session { OthersNotHeld(w, sid, u); }
  }

  lemma LastIsNew(before: seq<nat>, sid: nat)
    requires NoDuplicates(before + [sid])
    ensures NoDuplicates(before) && sid !in before
  {
    var order := before + [sid];
    assert forall i :: 0 <= i < |before| ==> order[i] == before[i];
    assert order[|before|] == sid;
  }

  /** Walking the sessions answers what each holds, once. */
  lemma {:induction false} DrainSessionsCount(w: Worker, order: seq<nat>, u: Task)
    requires EntriesOk(w) && NoDuplicates(order)
    ensures Count(Answered(DrainSessions(w, order)), u) ==
            if u.session in order then Count(Flying(w, u.session), u) + Count(PendingOf(w, u.session), u) else 0
  {
    if order != [] {
      var before, sid := order[..|order| - 1], order[|order| - 1];
      assert order == before + [sid];
      LastIsNew(before, sid);
      DrainSessionsCount(w, before, u);
      LogCount(DrainSessions(w, before), DrainOf(w, sid), u);
      DrainOfCount(w, sid, u);
      assert DrainSessions(w, order) == DrainSessions(w, before) + DrainOf(w, sid);
    } else {
      assert Answered(DrainSessions(w, order)) == [];
    }
  }

  /** After the drain every task the worker still held has been answered. */
  lemma DrainConserves(w: Worker, order: seq<nat>, u: Task)
    requires EntriesOk(w) && ListsSessions(w, order)
    ensures var w' := ShutdownDrain(w, order);
            EntriesOk(w') && Account(w', u) == Account(w, u) && Count(Answered(w'.log), u) == Account(w, u)
  {
    var mid := w.log + DrainSessions(w, order);
    LogCount(mid, ShutDown(w.tasks), u);
    LogCount(w.log, DrainSessions(w, order), u);
    DrainSessionsCount(w, order, u);
    ShutDownAnswers(w.tasks);
  }

  // ---------------------------------------------------------------- the lane of one session

  /** One session as its user sees it: answered, sent, in flight, pending behind it, still queued. */
  datatype Lane = Lane(log: seq<Task>, sends: seq<Task>, flying: seq<Task>, pending: seq<Task>, queued: seq<Task>)

  ghost function LaneOf(w: Worker, sid: nat): Lane
  {
    Lane(Of(sid, Answered(w.log)), Of(sid, Sent(w.sends)), Flying(w, sid), PendingOf(w, sid), Of(sid, w.tasks))
  }

  predicate Passes(t: Task, env: Env) { CheckTask(t) && env.customCheck && env.sendOk }

  lemma LogLane(log: seq<Callback>, c: Callback, sid: nat)
    ensures Of(sid, Answered(log + [c])) == Of(sid, Answered(log)) + (if c.task.session == sid then [c.task] else [])
  {
    AnsweredAppend(log, [c]);
    assert Answered([c]) == [c.task];
    OfAppend(sid, Answered(log), [c.task]);
    OfOne(sid, c.task);
  }

  lemma SendLane(sends: seq<Send>, x: Send, sid: nat)
    ensures Of(sid, Sent(sends + [x])) == Of(sid, Sent(sends)) + (if x.task.session == sid then [x.task] else [])
  {
    SentAppend(sends, [x]);
    assert Sent([x]) == [x.task];
    OfAppend(sid, Sent(sends), [x.task]);
    OfOne(sid, x.task);
  }

  /** What ProcessTask does to the lane of the task's session, given whether it passes check and send. */
  function Arrive(l: Lane, t: Task, passes: bool): Lane
  {
    if l.flying != [] then l.(pending := l.pending + [t])
    else if passes then l.(sends := l.sends + [t], flying := [t])
    else l.(log := l.log + [t])
  }

  lemma ProcessLane(w: Worker, t: Task, env: Env, sid: nat)
    requires EntriesOk(w)
    ensures LaneOf(ProcessTask(w, t, env), sid) ==
            if sid == t.session then Arrive(LaneOf(w, sid), t, Passes(t, env)) else LaneOf(w, sid)
  {
    var w' := ProcessTask(w, t, env);
    ProcessFrame(w, t, env);
    NilUnit(LaneOf(w, sid).log);
    NilUnit(LaneOf(w, sid).sends);
    if w'.log != w.log {
      LogLane(w.log, w'.log[|w.log|], sid);
    } else if w'.sends != w.sends {
      SendLane(w.sends, w'.sends[|w.sends|], sid);
    }
  }

  /** What the end of a request does to its lane: answer, then promote at most one pending task. */
  function Land(l: Lane, passes: bool): Lane
  {
    var l1 := l.(log := l.log + l.flying, flying := []);
    if l.pending == [] then l1 else Arrive(l1.(pending := l.pending[1..]), l.pending[0], passes)
  }

  lemma ReleaseLane(w: Worker, sid: nat, code: Code, k: nat)
    requires EntriesOk(w) && sid in w.sessions
    ensures EntriesOk(Released(w, sid, code))
    ensures LaneOf(Released(w, sid, code), k) ==
            var l := LaneOf(w, k);
            if k == sid then l.(log := l.log + l.flying, flying := [],
                                pending := if l.pending == [] then [] else l.pending[1..])
            else l
  {
    var s := w.sessions[sid];
    NilUnit(w.log);
    NilUnit(LaneOf(w, k).log);
    if s.callback.Some? { LogLane(w.log, Callback(s.callback.value, code), k); }
  }

  lemma ResolveLane(w: Worker, sid: nat, code: Code, env: Env, k: nat)
    requires EntriesOk(w) && sid in w.sessions
    ensures var p := w.sessions[sid].pending;
            LaneOf(Resolve(w, sid, code, env), k) ==
            if k == sid then Land(LaneOf(w, k), p != [] && Passes(p[0], env)) else LaneOf(w, k)
  {
    ResolveIsReleaseThenProcess(w, sid, code, env);
    ReleaseLane(w, sid, code, k);
    var p := w.sessions[sid].pending;
    if p != [] { ProcessLane(Released(w, sid, code), p[0], env, k); }
  }

  // ---------------------------------------------------------------- order, and where it breaks

  /** Requests leave in call order, one at a time, each after the answer of the one before. */
  ghost predicate InOrder(l: Lane, calls: seq<Task>)
  {
    && l.sends + l.pending + l.queued == calls
    && l.sends == l.log + l.flying
    && (l.pending != [] ==> l.flying != [])
  }

  lemma LandInOrder(l: Lane, calls: seq<Task>)
    requires InOrder(l, calls)
    ensures InOrder(Land(l, true), calls)
  {
    NilUnit(l.log + l.flying);
    if l.pending != [] {
      assert l.pending == [l.pending[0]] + l.pending[1..];
      Assoc(l.sends, [l.pending[0]], l.pending[1..]);
    }
  }

  lemma ArriveInOrder(l: Lane, calls: seq<Task>)
    requires InOrder(l, calls) && l.queued != []
    ensures InOrder(Arrive(l.(queued := l.queued[1..]), l.queued[0], true), calls)
  {
    var t, rest := l.queued[0], l.queued[1..];
    assert l.queued == [t] + rest;
    Assoc(l.sends + l.pending, [t], rest);
    Assoc(l.sends, l.pending, [t]);
    if l.flying == [] {
      NilUnit(l.sends);
      NilUnit(l.sends + [t]);
      NilUnit(l.log);
    }
  }

  /**
   Exactly when the end of a request strands its session, with tasks pending and nothing in flight:
   two or more were pending and the promoted one failed its check or its send.
   */
  lemma StrandsIff(w: Worker, sid: nat, code: Code, env: Env)
    requires EntriesOk(w) && sid in w.sessions
    ensures var p := w.sessions[sid].pending;
            var l := LaneOf(Resolve(w, sid, code, env), sid);
            (l.pending != [] && l.flying == []) <==> |p| >= 2 && !Passes(p[0], env)
  {
    ResolveLane(w, sid, code, env, sid);
  }

  /** A later task of a stranded session is sent ahead of the older tasks that are still pending. */
  lemma StrandedIsOvertaken(w: Worker, t: Task, env: Env)
    requires EntriesOk(w) && Passes(t, env)
    requires LaneOf(w, t.session).pending != [] && LaneOf(w, t.session).flying == []
    ensures var l, l' := LaneOf(w, t.session), LaneOf(ProcessTask(w, t, env), t.session);
            l'.sends == l.sends + [t] && l'.pending == l.pending
  {
    ProcessLane(w, t, env, t.session);
  }
}
