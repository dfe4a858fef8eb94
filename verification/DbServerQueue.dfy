/**
 DBServerTaskQueue: one worker's request/response machine, as functions on a value (`Worker`) and
 as the imperative class (`WorkerThread`) proved to compute them.

 What the outside decides (custom check, send result, clock) is an `Env` argument.  The orders in
 which the hash map of sessions is walked are arguments too.
 */
module DbServerQueue {
  import opened Basics
  import opened KeyGenerator
  import opened Sequences

  datatype Kind = SavePlayerProgress | LoadPlayerData | UnknownKind

  /** A task; `uid` tells equal requests apart. */
  datatype Task = Task(uid: nat, session: nat, kind: Kind, data: string)

  datatype Code = Answer(code: int) | InvalidRequest | NotConnected | TimedOut | ShuttingDown

  /** One invocation of a task's callback. */
  datatype Callback = Callback(task: Task, code: Code)

  datatype Send = Send(task: Task, id: nat)

  datatype Response = Response(id: nat, code: int)

  /** Per-session state: requestId 0 means idle. */
  datatype Session = Session(requestId: nat, callback: Maybe<Task>, deadline: int, pending: seq<Task>)

  datatype Worker = Worker(
    slot: nat,
    issued: nat,                   // keys drawn from the worker's generator
    sessions: map<nat, Session>,
    tasks: seq<Task>,              // taskQueue
    responses: seq<Response>,      // responseQueue
    log: seq<Callback>,            // history: callbacks invoked
    sends: seq<Send>)              // history: requests sent

  datatype Env = Env(customCheck: bool, sendOk: bool, clock: int)

  const REQUEST_TIMEOUT_MS: int := 5000

  /** The type-based check. */
  predicate CheckTask(t: Task)
  {
    match t.kind
    case SavePlayerProgress => t.data != ""
    case LoadPlayerData => true
    case UnknownKind => false
  }

  predicate InFlight(w: Worker, sid: nat) { sid in w.sessions && w.sessions[sid].requestId != 0 }

  function PendingOf(w: Worker, sid: nat): seq<Task> { if sid in w.sessions then w.sessions[sid].pending else [] }

  /** Store a session, or drop the entry when it is idle with nothing pending. */
  function Park(sessions: map<nat, Session>, sid: nat, deadline: int, pending: seq<Task>): map<nat, Session>
  {
    if pending == [] then sessions - {sid} else sessions[sid := Session(0, None, deadline, pending)]
  }

  function ProcessTask(w: Worker, t: Task, env: Env): Worker
  {
    var sid, pending := t.session, PendingOf(w, t.session);
    if InFlight(w, sid) then
      w.(sessions := w.sessions[sid := w.sessions[sid].(pending := pending + [t])])
    else if !(CheckTask(t) && env.customCheck) then
      w.(sessions := if sid in w.sessions && pending == [] then w.sessions - {sid} else w.sessions,
         log := w.log + [Callback(t, InvalidRequest)])
    else
      var id := KeyOf(DB_QUERY, w.slot, w.issued + 1);
      var deadline := env.clock + REQUEST_TIMEOUT_MS;
      if env.sendOk then
        w.(sessions := w.sessions[sid := Session(id, Some(t), deadline, pending)],
           issued := w.issued + 1, sends := w.sends + [Send(t, id)])
      else
        w.(sessions := Park(w.sessions, sid, deadline, pending),
           issued := w.issued + 1, log := w.log + [Callback(t, NotConnected)])
  }

  function CallbackOf(s: Session, code: Code): seq<Callback>
  {
    if s.callback.Some? then [Callback(s.callback.value, code)] else []
  }

  /** End the session's request with `code`, then start exactly one pending task or drop the entry. */
  function Resolve(w: Worker, sid: nat, code: Code, env: Env): Worker
    requires sid in w.sessions
  {
    var s := w.sessions[sid];
    var log := w.log + CallbackOf(s, code);
    if s.pending == [] then w.(sessions := w.sessions - {sid}, log := log)
    else
      ProcessTask(w.(sessions := w.sessions[sid := Session(0, None, s.deadline, s.pending[1..])], log := log),
                  s.pending[0], env)
  }

  predicate Matches(w: Worker, sid: nat, id: nat) { sid in w.sessions && w.sessions[sid].requestId == id }

  ghost predicate Known(w: Worker, id: nat) { exists sid :: Matches(w, sid, id) }

  /** A response at the session the search found; `sid` is any session whose request id matches. */
  function HandleResponse(w: Worker, sid: nat, r: Response, env: Env): Worker
  {
    if Matches(w, sid, r.id) then Resolve(w, sid, Answer(r.code), env) else w
  }

  function TimeoutOne(w: Worker, sid: nat, env: Env): Worker
  {
    if InFlight(w, sid) then Resolve(w, sid, TimedOut, env) else w
  }

  function Sweep(w: Worker, order: seq<nat>, env: nat -> Env): Worker
  {
    if order == [] then w
    else var before := order[..|order| - 1]; var sid := order[|order| - 1];
         TimeoutOne(Sweep(w, before, env), sid, env(sid))
  }

  predicate Expired(w: Worker, sid: nat, now: int) { InFlight(w, sid) && now >= w.sessions[sid].deadline }

  ghost predicate NoDuplicates(order: seq<nat>) { forall i, j :: 0 <= i < j < |order| ==> order[i] != order[j] }

  /** `order` lists the sessions that have expired at `now`, each once. */
  ghost predicate ListsExpired(w: Worker, order: seq<nat>, now: int)
  {
    NoDuplicates(order) && forall sid :: sid in order <==> Expired(w, sid, now)
  }

  function ShutDown(ts: seq<Task>): seq<Callback>
  {
    if ts == [] then [] else ShutDown(ts[..|ts| - 1]) + [Callback(ts[|ts| - 1], ShuttingDown)]
  }

  /** The callbacks of the drain for one session: its request, then its pending tasks. */
  function DrainOf(w: Worker, sid: nat): seq<Callback>
  {
    (if InFlight(w, sid) then CallbackOf(w.sessions[sid], ShuttingDown) else []) + ShutDown(PendingOf(w, sid))
  }

  /** The callbacks of the drain for the sessions in `order`. */
  function DrainSessions(w: Worker, order: seq<nat>): seq<Callback>
  {
    if order == [] then []
    else DrainSessions(w, order[..|order| - 1]) + DrainOf(w, order[|order| - 1])
  }

  function ShutdownDrain(w: Worker, order: seq<nat>): Worker
  {
    w.(sessions := map[], tasks := [], responses := [], log := w.log + DrainSessions(w, order) + ShutDown(w.tasks))
  }

  ghost predicate ListsSessions(w: Worker, order: seq<nat>)
  {
    NoDuplicates(order) && forall sid :: sid in order <==> sid in w.sessions
  }

  // ---------------------------------------------------------------- the class

  class WorkerThread {
    const slot: nat
    var issued: nat
    var sessions: map<nat, Session>
    var tasks: seq<Task>
    var responses: seq<Response>
    var log: seq<Callback>
    var sends: seq<Send>

    constructor (slot: nat)
      ensures ViewOf() == Worker(slot, 0, map[], [], [], [], [])
    {
      this.slot := slot;
      issued, sessions, tasks, responses, log, sends := 0, map[], [], [], [], [];
    }

    ghost function ViewOf(): Worker
      reads this
    {
      Worker(slot, issued, sessions, tasks, responses, log, sends)
    }

    method Invoke(cb: Maybe<Task>, code: Code)
      modifies this`log
      ensures log == old(log) + (if cb.Some? then [Callback(cb.value, code)] else [])
    {
      if cb.Some? { log := log + [Callback(cb.value, code)]; }
    }

    /** Store before send; undo on a failed send. */
    method Process(t: Task, env: Env)
      modifies this`sessions, this`issued, this`log, this`sends
      ensures ViewOf() == ProcessTask(old(ViewOf()), t, env)
    {
      var sid := t.session;
      if sid in sessions && sessions[sid].requestId != 0 {
        sessions := sessions[sid := sessions[sid].(pending := sessions[sid].pending + [t])];
        return;
      }
      var passed := CheckTask(t);
      if passed { passed := env.customCheck; }
      if !passed {
        if sid in sessions && sessions[sid].requestId == 0 && sessions[sid].pending == [] {
          sessions := sessions - {sid};
        }
        Invoke(Some(t), InvalidRequest);
        return;
      }
      issued := issued + 1;
      var id := KeyOf(DB_QUERY, slot, issued);
      var ss := if sid in sessions then sessions[sid] else Session(0, None, 0, []);
      ss := ss.(requestId := id, callback := Some(t), deadline := env.clock + REQUEST_TIMEOUT_MS);
      sessions := sessions[sid := ss];
      if env.sendOk {
        sends := sends + [Send(t, id)];
      } else {
        var cb := ss.callback;
        ss := ss.(requestId := 0, callback := None);
        sessions := sessions[sid := ss];
        if ss.pending == [] {
          sessions := sessions - {sid};
          assert sessions == old(sessions) - {sid};
        }
        Invoke(cb, NotConnected);
      }
    }

    /** Callback, clear the request, then one pending task or clean-up. */
    method Finish(sid: nat, code: Code, env: Env)
      requires sid in sessions
      modifies this`sessions, this`issued, this`log, this`sends
      ensures ViewOf() == Resolve(old(ViewOf()), sid, code, env)
    {
      var ss := sessions[sid];
      var cb := ss.callback;
      ss := ss.(requestId := 0, callback := None);
      sessions := sessions[sid := ss];
      Invoke(cb, code);
      if ss.pending != [] {
        var next := ss.pending[0];
        ss := ss.(pending := ss.pending[1..]);
        sessions := sessions[sid := ss];
        assert sessions == old(sessions)[sid := ss];
        Process(next, env);
      } else {
        sessions := sessions - {sid};
        assert sessions == old(sessions) - {sid};
      }
    }

    /** Searches the sessions for the request id; `sid` reports the session found. */
    method Respond(r: Response, env: Env) returns (sid: nat)
      modifies this`sessions, this`issued, this`log, this`sends
      ensures ViewOf() == HandleResponse(old(ViewOf()), sid, r, env)
      ensures old(Known(ViewOf(), r.id)) <==> old(Matches(ViewOf(), sid, r.id))
    {
      sid := 0;
      var found, left := false, sessions.Keys;
      while left != {} && !found
        invariant left <= sessions.Keys
        invariant found ==> sid in sessions && sessions[sid].requestId == r.id
        invariant !found ==> forall k :: k in sessions && sessions[k].requestId == r.id ==> k in left
        decreases left, !found
      {
        var k :| k in left;
        left := left - {k};
        if sessions[k].requestId == r.id { sid, found := k, true; }
      }
      if found {
        assert Matches(ViewOf(), sid, r.id);
        Finish(sid, Answer(r.code), env);
      }
    }

    /** Collects the expired sessions first, then resolves them one by one. */
    method CheckTimeouts(now: int, env: nat -> Env) returns (order: seq<nat>)
      modifies this`sessions, this`issued, this`log, this`sends
      ensures ListsExpired(old(ViewOf()), order, now)
      ensures ViewOf() == Sweep(old(ViewOf()), order, env)
    {
      order := [];
      var left := sessions.Keys;
      while left != {}
        invariant left <= sessions.Keys && NoDuplicates(order)
        invariant forall k :: k in order <==> k in sessions && k !in left && Expired(ViewOf(), k, now)
        decreases left
      {
        var k :| k in left;
        left := left - {k};
        if sessions[k].requestId != 0 && now >= sessions[k].deadline { order := order + [k]; }
      }
      for i := 0 to |order|
        invariant ViewOf() == Sweep(old(ViewOf()), order[..i], env)
      {
        var sid := order[i];
        assert order[..i + 1][..i] == order[..i];
        if sid in sessions && sessions[sid].requestId != 0 {
          Finish(sid, TimedOut, env(sid));
        }
      }
      assert order[..|order|] == order;
    }

    method DrainQueue(ts: seq<Task>)
      modifies this`log
      ensures log == old(log) + ShutDown(ts)
    {
      for i := 0 to |ts|
        invariant log == old(log) + ShutDown(ts[..i])
      {
        assert ts[..i + 1][..i] == ts[..i];
        Invoke(Some(ts[i]), ShuttingDown);
      }
      assert ts[..|ts|] == ts;
    }

    method DrainSession(ghost w: Worker, ghost order: seq<nat>, sid: nat)
      requires sid in sessions && w.sessions == sessions && log == w.log + DrainSessions(w, order)
      modifies this`log
      ensures log == w.log + DrainSessions(w, order + [sid])
    {
      var s := sessions[sid];
      if s.requestId != 0 { Invoke(s.callback, ShuttingDown); }
      DrainQueue(s.pending);
      ghost var mine := if s.requestId != 0 then CallbackOf(s, ShuttingDown) else [];
      assert (order + [sid])[..|order|] == order;
      NilUnit(old(log));
      Assoc(old(log), mine, ShutDown(s.pending));
      Assoc(w.log, DrainSessions(w, order), DrainOf(w, sid));
    }

    method DrainAllSessions() returns (order: seq<nat>)
      modifies this`log
      ensures ListsSessions(old(ViewOf()), order)
      ensures log == old(log) + DrainSessions(old(ViewOf()), order)
    {
      order := [];
      var left := sessions.Keys;
      ghost var w := ViewOf();
      NilUnit(log);
      while left != {}
        invariant left <= sessions.Keys && NoDuplicates(order)
        invariant forall k :: k in order <==> k in sessions && k !in left
        invariant log == w.log + DrainSessions(w, order)
        decreases left
      {
        var sid :| sid in left;
        left := left - {sid};
        DrainSession(w, order, sid);
        order := order + [sid];
      }
    }

    /** After the worker thread has been joined: answer everything that is left. */
    method Drain() returns (order: seq<nat>)
      modifies this
      ensures ListsSessions(old(ViewOf()), order)
      ensures ViewOf() == ShutdownDrain(old(ViewOf()), order)
    {
      order := DrainAllSessions();
      sessions := map[];
      DrainQueue(tasks);
      tasks, responses := [], [];
    }
  }
}
