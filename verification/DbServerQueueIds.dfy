/**
 Request ids and deadlines of DBServerTaskQueue: responses reach the request they belong to, and a
 timeout sweep leaves no expired request behind.
 */
module DbServerQueueIds {
  import opened DbServerQueue
  import opened DbServerQueueLanes
  import opened KeyGenerator

  /** An id this worker has drawn already. */
  predicate Drawn(w: Worker, id: nat)
  {
    GetTag(id) == DB_QUERY && GetSlot(id) == w.slot && 0 < GetSeq(id) <= w.issued
  }

  /** In-flight ids were drawn by this worker and are pairwise distinct. */
  ghost predicate IdsOk(w: Worker)
  {
    && (forall sid :: InFlight(w, sid) ==> Drawn(w, w.sessions[sid].requestId))
    && forall k, l :: InFlight(w, k) && InFlight(w, l) && k != l ==> w.sessions[k].requestId != w.sessions[l].requestId
  }

  /** Only the next key can become an in-flight id. */
  ghost predicate IdsMove(w: Worker, w': Worker)
  {
    && w'.slot == w.slot && w.issued <= w'.issued <= w.issued + 1
    && (forall k :: InFlight(w', k) ==>
          || (InFlight(w, k) && w'.sessions[k].requestId == w.sessions[k].requestId)
          || (w'.issued == w.issued + 1 && w'.sessions[k].requestId == KeyOf(DB_QUERY, w.slot, w.issued + 1)))
    && (forall k, l :: InFlight(w', k) && InFlight(w', l) && k != l ==>
          || (InFlight(w, k) && w'.sessions[k].requestId == w.sessions[k].requestId)
          || (InFlight(w, l) && w'.sessions[l].requestId == w.sessions[l].requestId))
  }

  /** The next key is new, and drawn once it has been issued. */
  lemma NextIsFresh(w: Worker, id: nat)
    requires w.slot < 256 && w.issued + 1 < SEQUENCES
    ensures var next := KeyOf(DB_QUERY, w.slot, w.issued + 1);
            (Drawn(w, id) ==> id != next) && Drawn(w.(issued := w.issued + 1), next)
  {
    KeyFields(DB_QUERY, w.slot, w.issued + 1);
  }

  lemma IdsStayDrawn(w: Worker, w': Worker, k: nat)
    requires IdsOk(w) && IdsMove(w, w') && w.slot < 256 && w'.issued < SEQUENCES && InFlight(w', k)
    ensures Drawn(w', w'.sessions[k].requestId)
  {
    if w'.issued == w.issued + 1 { NextIsFresh(w, 0); }
  }

  lemma IdsStayApart(w: Worker, w': Worker, k: nat, l: nat)
    requires IdsOk(w) && IdsMove(w, w') && w.slot < 256 && w'.issued < SEQUENCES
    requires InFlight(w', k) && InFlight(w', l) && k != l
    requires InFlight(w, k) && w'.sessions[k].requestId == w.sessions[k].requestId
    ensures w'.sessions[k].requestId != w'.sessions[l].requestId
  {
    if w'.issued == w.issued + 1 { NextIsFresh(w, w.sessions[k].requestId); }
  }

  lemma IdsMoveKeeps(w: Worker, w': Worker)
    requires IdsOk(w) && IdsMove(w, w') && w.slot < 256 && w'.issued < SEQUENCES
    ensures IdsOk(w')
  {
    forall k | InFlight(w', k) ensures Drawn(w', w'.sessions[k].requestId) { IdsStayDrawn(w, w', k); }
    forall k, l | InFlight(w', k) && InFlight(w', l) && k != l
      ensures w'.sessions[k].requestId != w'.sessions[l].requestId
    {
      if InFlight(w, k) && w'.sessions[k].requestId == w.sessions[k].requestId {
        IdsStayApart(w, w', k, l);
      } else {
        IdsStayApart(w, w', l, k);
      }
    }
  }

  lemma ProcessIds(w: Worker, t: Task, env: Env)
    requires EntriesOk(w)
    ensures IdsMove(w, ProcessTask(w, t, env))
  {
  }

  /** Nothing is put in flight on the way from w to w1. */
  ghost predicate OnlyLands(w: Worker, w1: Worker)
  {
    && w1.slot == w.slot && w1.issued == w.issued
    && forall k :: InFlight(w1, k) ==> InFlight(w, k) && w1.sessions[k].requestId == w.sessions[k].requestId
  }

  lemma ReleaseOnlyLands(w: Worker, sid: nat, code: Code)
    requires sid in w.sessions
    ensures OnlyLands(w, Released(w, sid, code)) && !InFlight(Released(w, sid, code), sid)
  {
  }

  lemma IdsMoveAfter(w: Worker, w1: Worker, w': Worker)
    requires OnlyLands(w, w1) && IdsMove(w1, w')
    ensures IdsMove(w, w')
  {
  }

  lemma ResolveIds(w: Worker, sid: nat, code: Code, env: Env)
    requires EntriesOk(w) && sid in w.sessions
    ensures IdsMove(w, Resolve(w, sid, code, env))
    ensures var w' := Resolve(w, sid, code, env);
            InFlight(w', sid) ==> w'.sessions[sid].requestId == KeyOf(DB_QUERY, w.slot, w.issued + 1)
  {
    var w1, p := Released(w, sid, code), w.sessions[sid].pending;
    ResolveIsReleaseThenProcess(w, sid, code, env);
    ReleaseEntries(w, sid, code);
    ReleaseOnlyLands(w, sid, code);
    if p != [] {
      ProcessIds(w1, p[0], env);
      IdsMoveAfter(w, w1, ProcessTask(w1, p[0], env));
    }
  }

  lemma {:induction false} SweepIds(w: Worker, order: seq<nat>, env: nat -> Env)
    requires EntriesOk(w) && IdsOk(w) && Sweep(w, order, env).issued < SEQUENCES
    ensures IdsOk(Sweep(w, order, env)) && EntriesOk(Sweep(w, order, env))
    ensures Sweep(w, order, env).slot == w.slot && w.issued <= Sweep(w, order, env).issued
  {
    if order != [] {
      var before, sid := order[..|order| - 1], order[|order| - 1];
      var mid := Sweep(w, before, env);
      SweepEntries(w, before, env);
      if InFlight(mid, sid) {
        ResolveIds(mid, sid, TimedOut, env(sid));
        ResolveConserves(mid, sid, TimedOut, env(sid), mid.sessions[sid].callback.value);
        SweepIds(w, before, env);
        IdsMoveKeeps(mid, TimeoutOne(mid, sid, env(sid)));
      } else {
        SweepIds(w, before, env);
      }
    }
  }

  lemma SweepEntries(w: Worker, order: seq<nat>, env: nat -> Env)
    requires EntriesOk(w)
    ensures EntriesOk(Sweep(w, order, env))
  {
    SweepConserves(w, order, env, Task(0, 0, UnknownKind, ""));
  }

  // ---------------------------------------------------------------- late and duplicate responses

  /** A valid id that was drawn and is no longer in flight. */
  ghost predicate Stale(w: Worker, id: nat) { Drawn(w, id) && !Known(w, id) }

  /** A stale response changes nothing. */
  lemma StaleIsIgnored(w: Worker, sid: nat, r: Response, env: Env)
    requires Stale(w, r.id)
    ensures HandleResponse(w, sid, r, env) == w
  {
  }

  /** Answering or timing out a request makes its id stale. */
  lemma ResolvedIsStale(w: Worker, sid: nat, code: Code, env: Env)
    requires EntriesOk(w) && IdsOk(w) && InFlight(w, sid)
    requires Resolve(w, sid, code, env).issued < SEQUENCES
    ensures Stale(Resolve(w, sid, code, env), w.sessions[sid].requestId)
  {
    var w', id := Resolve(w, sid, code, env), w.sessions[sid].requestId;
    ResolveIds(w, sid, code, env);
    KeyFields(DB_QUERY, w.slot, w.issued + 1);
    forall k ensures !Matches(w', k, id) {
      if Matches(w', k, id) { assert InFlight(w', k); }
    }
  }

  lemma MoveKeepsStale(w: Worker, w': Worker, id: nat)
    requires IdsMove(w, w') && Stale(w, id) && w.slot < 256 && w'.issued < SEQUENCES
    ensures Stale(w', id)
  {
    KeyFields(DB_QUERY, w.slot, w.issued + 1);
    forall k ensures !Matches(w', k, id) {
      assert !Matches(w, k, id);
      if Matches(w', k, id) { assert InFlight(w', k); }
    }
  }

  lemma {:induction false} SweepKeepsStale(w: Worker, order: seq<nat>, env: nat -> Env, id: nat)
    requires EntriesOk(w) && Stale(w, id) && Sweep(w, order, env).issued < SEQUENCES
    ensures Stale(Sweep(w, order, env), id) && Sweep(w, order, env).slot == w.slot
  {
    if order != [] {
      var before, sid := order[..|order| - 1], order[|order| - 1];
      var mid := Sweep(w, before, env);
      SweepEntries(w, before, env);
      if InFlight(mid, sid) { ResolveIds(mid, sid, TimedOut, env(sid)); }
      SweepKeepsStale(w, before, env, id);
      if InFlight(mid, sid) { MoveKeepsStale(mid, TimeoutOne(mid, sid, env(sid)), id); }
    }
  }

  // ---------------------------------------------------------------- the timeout sweep

  /** The request session `sid` had in flight was answered with a timeout. */
  ghost predicate ToldTimeout(w: Worker, w': Worker, sid: nat)
  {
    Flying(w, sid) != [] && Callback(Flying(w, sid)[0], TimedOut) in w'.log
  }

  /** One timeout changes its own session alone, and a request it starts has a fresh deadline. */
  lemma TimeoutOneEffect(w: Worker, sid: nat, env: Env, k: nat)
    requires EntriesOk(w) && InFlight(w, sid)
    ensures var w' := TimeoutOne(w, sid, env);
            && (k != sid ==> (k in w'.sessions <==> k in w.sessions) &&
                             (k in w.sessions ==> w'.sessions[k] == w.sessions[k]))
            && (InFlight(w', sid) ==> w'.sessions[sid].deadline == env.clock + REQUEST_TIMEOUT_MS)
            && ToldTimeout(w, w', sid)
            && w.log <= w'.log
  {
    var s := w.sessions[sid];
    var c := Callback(s.callback.value, TimedOut);
    var w1 := Released(w, sid, TimedOut);
    ResolveIsReleaseThenProcess(w, sid, TimedOut, env);
    ReleaseLane(w, sid, TimedOut, k);
    assert w1.log == w.log + [c] && c in w1.log;
    if s.pending != [] { ProcessFrame(w1, s.pending[0], env); }
  }

  /** Session k is as it was. */
  ghost predicate Untouched(w: Worker, w': Worker, k: nat)
  {
    && (k in w'.sessions <==> k in w.sessions) && LaneOf(w', k) == LaneOf(w, k)
    && (k in w.sessions ==> w'.sessions[k] == w.sessions[k])
  }

  /** Session k was told of its timeout and had at most one pending task started, with a deadline after `now`. */
  ghost predicate TimedOutOnce(w: Worker, w': Worker, k: nat, env: Env, now: int)
  {
    && LaneOf(w', k) == Land(LaneOf(w, k), LaneOf(w, k).pending != [] && Passes(LaneOf(w, k).pending[0], env))
    && ToldTimeout(w, w', k)
    && (InFlight(w', k) ==> w'.sessions[k].deadline > now)
  }

  lemma TimeoutOneLands(w: Worker, sid: nat, env: Env, now: int, k: nat)
    requires EntriesOk(w) && InFlight(w, sid) && env.clock >= now
    ensures var w' := TimeoutOne(w, sid, env);
            && EntriesOk(w') && w.log <= w'.log
            && (if k == sid then TimedOutOnce(w, w', k, env, now) else Untouched(w, w', k))
  {
    TimeoutOneEffect(w, sid, env, k);
    ResolveLane(w, sid, TimedOut, env, k);
    ResolveConserves(w, sid, TimedOut, env, w.sessions[sid].callback.value);
  }

  lemma TimedOutStays(w: Worker, mid: Worker, w': Worker, k: nat, env: Env, now: int)
    requires mid.log <= w'.log
    requires (TimedOutOnce(w, mid, k, env, now) && Untouched(mid, w', k)) ||
             (Untouched(w, mid, k) && TimedOutOnce(mid, w', k, env, now))
    ensures TimedOutOnce(w, w', k, env, now)
  {
    assert LaneOf(w, k).flying == Flying(w, k) && LaneOf(mid, k).flying == Flying(mid, k);
    assert forall c :: c in mid.log ==> c in w'.log;
  }

  /** What the sweep of the listed sessions does, session by session. */
  lemma {:induction false} SweepEffect(w: Worker, order: seq<nat>, env: nat -> Env, now: int, k: nat)
    requires EntriesOk(w) && NoDuplicates(order)
    requires forall sid :: sid in order ==> InFlight(w, sid) && env(sid).clock >= now
    ensures var w' := Sweep(w, order, env);
            && EntriesOk(w') && w.log <= w'.log
            && (if k in order then TimedOutOnce(w, w', k, env(k), now) else Untouched(w, w', k))
  {
    if order != [] {
      var before, sid := order[..|order| - 1], order[|order| - 1];
      assert sid !in before && order == before + [sid];
      var mid := Sweep(w, before, env);
      SweepEffect(w, before, env, now, k);
      SweepEffect(w, before, env, now, sid);
      assert sid in order;
      TimeoutOneLands(mid, sid, env(sid), now, k);
      if k in order { TimedOutStays(w, mid, Sweep(w, order, env), k, env(k), now); }
    }
  }

  /**
   The timeout sweep: with a clock that does not run backwards, every request still in flight has a
   later deadline, every expired session had its request answered with a timeout and at most one
   pending task started, and no other session changed.
   */
  lemma SweepLeavesNothingExpired(w: Worker, order: seq<nat>, env: nat -> Env, now: int, k: nat)
    requires EntriesOk(w) && ListsExpired(w, order, now)
    requires forall sid :: env(sid).clock >= now
    ensures var w' := Sweep(w, order, env);
            var due := InFlight(w, k) && w.sessions[k].deadline <= now;
            && (InFlight(w', k) ==> w'.sessions[k].deadline > now)
            && (due ==> ToldTimeout(w, w', k))
            && (!due ==> Untouched(w, w', k))
            && LaneOf(w', k) ==
               (if due
                then Land(LaneOf(w, k), LaneOf(w, k).pending != [] && Passes(LaneOf(w, k).pending[0], env(k)))
                else LaneOf(w, k))
  {
    SweepEffect(w, order, env, now, k);
  }
}
