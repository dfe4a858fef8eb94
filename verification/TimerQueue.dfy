/**
 TimerQueue: one worker thread pops due entries from the heap, drops those whose handle is in the
 cancellation set, and runs the others outside the lock; any thread may schedule and cancel.

 The class holds the locked blocks as methods. The state machine beside it interleaves them freely:
 a scheduling thread draws its handle in one step and pushes in a later one, callbacks run between a
 pop and a Finish, the clock moves, and the queue may be shut down and started again.
 */
module TimerQueue {
  import opened TimerHeap

  datatype Worker = Idle | Busy(entry: Entry)

  /** What one pass of the worker under the lock leaves: the entry to run, if any. */
  ghost predicate Taken(heap: seq<Entry>, cancelled: set<nat>, now: nat, w: Worker, heap': seq<Entry>, cancelled': set<nat>)
  {
    if heap == [] || heap[0].nextFire > now then w == Idle && heap' == heap && cancelled' == cancelled
    else
      && Popped(heap, heap[0], heap')
      && cancelled' == cancelled - {heap[0].handle}
      && w == if heap[0].handle in cancelled then Idle else Busy(heap[0])
  }

  class Queue {
    var heap: seq<Entry>        // mHeap
    var cancelled: set<nat>     // mCancelledHandles
    var nextHandle: nat         // mNextHandle

    ghost predicate Valid()
      reads this
    {
      IsHeap(heap) && nextHandle > 0
    }

    constructor ()
      ensures Valid() && heap == [] && cancelled == {} && nextHandle == 1
    {
      heap, cancelled, nextHandle := [], {}, 1;
    }

    method PushEntry(e: Entry)
      requires Valid()
      modifies this`heap
      ensures Valid() && Pushed(old(heap), e, heap)
    {
      heap := PushHeap(heap, e);
    }

    method ScheduleOnce(delay: nat, now: nat) returns (h: nat)
      requires Valid()
      modifies this`heap, this`nextHandle
      ensures Valid() && h == old(nextHandle) && nextHandle == h + 1
      ensures Pushed(old(heap), Entry(h, now + delay, 0), heap)
    {
      h := nextHandle;
      nextHandle := nextHandle + 1;
      PushEntry(Entry(h, now + delay, 0));
    }

    method ScheduleRepeat(interval: nat, now: nat) returns (h: nat)
      requires Valid()
      modifies this`heap, this`nextHandle
      ensures Valid() && h == old(nextHandle) && nextHandle == h + 1
      ensures Pushed(old(heap), Entry(h, now + interval, interval), heap)
    {
      h := nextHandle;
      nextHandle := nextHandle + 1;
      PushEntry(Entry(h, now + interval, interval));
    }

    method Cancel(h: nat) returns (ok: bool)
      requires Valid()
      modifies this`cancelled
      ensures Valid() && ok == (h != 0)
      ensures cancelled == if ok then old(cancelled) + {h} else old(cancelled)
    {
      if h == 0 { return false; }
      cancelled := cancelled + {h};
      return true;
    }

    method PopTop() returns (e: Entry)
      requires Valid() && heap != []
      modifies this`heap
      ensures Valid() && Popped(old(heap), e, heap)
      ensures forall x :: x in multiset(old(heap)) ==> e.nextFire <= x.nextFire
    {
      forall x | x in multiset(heap) ensures heap[0].nextFire <= x.nextFire { FrontIsEarliest(heap, x); }
      e, heap := PopHeap(heap);
    }

    /** The worker's pass under the lock at clock reading `now`. */
    method TakeReady(now: nat) returns (w: Worker)
      requires Valid()
      modifies this`heap, this`cancelled
      ensures Valid() && Taken(old(heap), old(cancelled), now, w, heap, cancelled)
    {
      if |heap| == 0 || heap[0].nextFire > now { return Idle; }
      var e := PopTop();
      var wasCancelled := e.handle in cancelled;
      cancelled := cancelled - {e.handle};
      return if wasCancelled then Idle else Busy(e);
    }

    /** After the callback returned `reschedule` (false when it threw). */
    method Finish(e: Entry, reschedule: bool, now: nat)
      requires Valid()
      modifies this`heap
      ensures Valid()
      ensures if reschedule && e.interval > 0 then Pushed(old(heap), e.(nextFire := now + e.interval), heap) else heap == old(heap)
    {
      if reschedule && e.interval > 0 { PushEntry(e.(nextFire := now + e.interval)); }
    }

    /** The end of Shutdown, after the worker was joined. */
    method Clear()
      requires Valid()
      modifies this`heap, this`cancelled
      ensures Valid() && heap == [] && cancelled == {}
    {
      heap, cancelled := [], {};
    }
  }

  // ---------------------------------------------------------------- the machine

  datatype Phase = Stopped | Running | Stopping | Joined

  /** One callback invocation: when it was due and when it began. */
  datatype Start = Start(handle: nat, due: nat, at: nat, interval: nat)

  datatype State = State(
    heap: seq<Entry>,
    cancelled: set<nat>,
    worker: Worker,
    drafts: set<Entry>,   // entries of Schedule calls that have drawn a handle and not pushed yet
    nextHandle: nat,
    now: nat,
    phase: Phase,
    starts: seq<Start>)   // every invocation so far

  datatype Action =
    | Tick(d: nat)
    | DrawOnce(delay: nat)
    | DrawRepeat(interval: nat)
    | Push(e: Entry, heap': seq<Entry>)
    | Cancel(h: nat)
    | Take(w: Worker, heap': seq<Entry>, cancelled': set<nat>)
    | Finish(reschedule: bool, heap': seq<Entry>)
    | Initialize
    | Stop          // Shutdown clears the running flag
    | ExitWorker    // ... the worker leaves its loop and is joined
    | Clear         // ... heap and cancellation set are emptied

  ghost predicate Enabled(s: State, a: Action)
  {
    match a
    case Tick(_) => true
    case DrawOnce(_) => true
    case DrawRepeat(_) => true
    case Push(e, heap') => e in s.drafts && Pushed(s.heap, e, heap')
    case Cancel(_) => true
    case Take(w, heap', cancelled') =>
      // the flag is read before the pop and not under the lock, so a pop may still follow Stop
      (s.phase.Running? || s.phase.Stopping?) && s.worker.Idle? && Taken(s.heap, s.cancelled, s.now, w, heap', cancelled')
    case Finish(reschedule, heap') =>
      && s.worker.Busy?
      && var e := s.worker.entry;
         if reschedule && e.interval > 0 then Pushed(s.heap, e.(nextFire := s.now + e.interval), heap') else heap' == s.heap
    case Initialize => s.phase.Stopped?
    case Stop => s.phase.Running?
    case ExitWorker => s.phase.Stopping? && s.worker.Idle?
    case Clear => s.phase.Joined?
  }

  function Draw(s: State, delay: nat, interval: nat): State
  {
    s.(drafts := s.drafts + {Entry(s.nextHandle, s.now + delay, interval)}, nextHandle := s.nextHandle + 1)
  }

  ghost function Next(s: State, a: Action): State
    requires Enabled(s, a)
  {
    match a
    case Tick(d) => s.(now := s.now + d)
    case DrawOnce(delay) => Draw(s, delay, 0)
    case DrawRepeat(interval) => Draw(s, interval, interval)
    case Push(e, heap') => s.(heap := heap', drafts := s.drafts - {e})
    case Cancel(h) => if h == 0 then s else s.(cancelled := s.cancelled + {h})
    case Take(w, heap', cancelled') =>
      s.(heap := heap', cancelled := cancelled', worker := w,
         starts := s.starts + if w.Busy? then [Start(w.entry.handle, w.entry.nextFire, s.now, w.entry.interval)] else [])
    case Finish(_, heap') => s.(heap := heap', worker := Idle)
    case Initialize => s.(phase := Running)
    case Stop => s.(phase := Stopping)
    case ExitWorker => s.(phase := Joined)
    case Clear => s.(heap := [], cancelled := {}, phase := Stopped)
  }

  ghost predicate Init(s: State)
  {
    s == State([], {}, Idle, {}, 1, s.now, Stopped, [])
  }

  ghost predicate IsRun(run: seq<State>, acts: seq<Action>)
  {
    && |run| == |acts| + 1
    && Init(run[0])
    && forall i :: 0 <= i < |acts| ==> Enabled(run[i], acts[i]) && run[i + 1] == Next(run[i], acts[i])
  }

  // ---------------------------------------------------------------- handles

  /** Every live entry, wherever it is: waiting, running or about to be pushed. */
  ghost function Live(s: State): multiset<Entry>
  {
    multiset(s.heap) + (if s.worker.Busy? then multiset{s.worker.entry} else multiset{}) + multiset(s.drafts)
  }

  /** Every live entry is in one place, and no two share a handle. */
  ghost predicate Distinct(live: multiset<Entry>, bound: nat)
  {
    && (forall e :: e in live ==> live[e] == 1 && 0 < e.handle < bound)
    && (forall e, f :: e in live && f in live && e.handle == f.handle ==> e == f)
  }

  /** What a step may do to the live entries: lose some, add one with a fresh handle, or re-time one. */
  ghost predicate LiveMove(live: multiset<Entry>, bound: nat, live': multiset<Entry>, bound': nat)
  {
    || (live' <= live && bound' == bound)
    || (exists e: Entry :: e.handle == bound && bound' == bound + 1 && live' == live + multiset{e})
    || (exists e: Entry, t: nat :: e in live && bound' == bound && live' == live - multiset{e} + multiset{e.(nextFire := t)})
  }

  lemma LiveMoveKeeps(live: multiset<Entry>, bound: nat, live': multiset<Entry>, bound': nat)
    requires bound > 0 && Distinct(live, bound) && LiveMove(live, bound, live', bound')
    ensures bound' > 0 && Distinct(live', bound')
  {
  }

  lemma PushMoves(s: State, e: Entry, heap': seq<Entry>)
    requires Enabled(s, Push(e, heap'))
    ensures Live(Next(s, Push(e, heap'))) == Live(s)
  {
    assert multiset(s.drafts) == multiset(s.drafts - {e}) + multiset{e};
  }

  lemma TakeMoves(s: State, w: Worker, heap': seq<Entry>, cancelled': set<nat>)
    requires Enabled(s, Take(w, heap', cancelled'))
    ensures Live(Next(s, Take(w, heap', cancelled'))) <= Live(s)
  {
  }

  lemma RetimeMoves(live: multiset<Entry>, bound: nat, live': multiset<Entry>, e: Entry, t: nat)
    requires e in live && live' == live - multiset{e} + multiset{e.(nextFire := t)}
    ensures LiveMove(live, bound, live', bound)
  {
  }

  /** The finished entry goes back into the heap with a new fire time. */
  lemma RescheduleMoves(s: State, heap': seq<Entry>)
    requires Enabled(s, Finish(true, heap')) && s.worker.entry.interval > 0
    ensures LiveMove(Live(s), s.nextHandle, Live(s.(heap := heap', worker := Idle)), s.nextHandle)
  {
    var e, t := s.worker.entry, s.now + s.worker.entry.interval;
    var rest := multiset(s.heap) + multiset(s.drafts);
    assert Live(s) == rest + multiset{e};
    assert Live(s.(heap := heap', worker := Idle)) == rest + multiset{e.(nextFire := t)};
    RetimeMoves(Live(s), s.nextHandle, rest + multiset{e.(nextFire := t)}, e, t);
  }

  lemma FinishMoves(s: State, reschedule: bool, heap': seq<Entry>)
    requires Enabled(s, Finish(reschedule, heap'))
    ensures LiveMove(Live(s), s.nextHandle, Live(s.(heap := heap', worker := Idle)), s.nextHandle)
  {
    if reschedule && s.worker.entry.interval > 0 {
      RescheduleMoves(s, heap');
    } else {
      assert Live(s.(heap := heap', worker := Idle)) <= Live(s);
    }
  }

  lemma NextMovesLive(s: State, a: Action)
    requires Enabled(s, a) && Distinct(Live(s), s.nextHandle)
    ensures LiveMove(Live(s), s.nextHandle, Live(Next(s, a)), Next(s, a).nextHandle)
  {
    match a {
      case DrawOnce(delay) => DrawMoves(s, delay, 0);
      case DrawRepeat(interval) => DrawMoves(s, interval, interval);
      case Push(e, heap') => PushMoves(s, e, heap');
      case Take(w, heap', cancelled') => TakeMoves(s, w, heap', cancelled');
      case Finish(reschedule, heap') => FinishMoves(s, reschedule, heap');
      case Clear => assert Live(Next(s, a)) <= Live(s);
      case _ => assert Live(Next(s, a)) == Live(s);
    }
  }

  lemma DrawMoves(s: State, delay: nat, interval: nat)
    requires Distinct(Live(s), s.nextHandle)
    ensures LiveMove(Live(s), s.nextHandle, Live(Draw(s, delay, interval)), s.nextHandle + 1)
  {
    var e := Entry(s.nextHandle, s.now + delay, interval);
    assert e !in Live(s);
    assert multiset(s.drafts + {e}) == multiset(s.drafts) + multiset{e};
  }

  ghost predicate ShapeInv(s: State)
  {
    && s.nextHandle > 0
    && IsHeap(s.heap)
    && (s.phase.Stopped? || s.phase.Joined? ==> s.worker.Idle?)
  }

  ghost predicate HandleInv(s: State) { Distinct(Live(s), s.nextHandle) && ShapeInv(s) }

  lemma ShapeStep(s: State, a: Action)
    requires ShapeInv(s) && Enabled(s, a)
    ensures ShapeInv(Next(s, a))
  {
  }

  lemma HandleStep(s: State, a: Action)
    requires HandleInv(s) && Enabled(s, a)
    ensures HandleInv(Next(s, a))
  {
    NextMovesLive(s, a);
    LiveMoveKeeps(Live(s), s.nextHandle, Live(Next(s, a)), Next(s, a).nextHandle);
    ShapeStep(s, a);
  }

  // ---------------------------------------------------------------- invocations

  /** A past invocation and a live entry of the same timer: the entry repeats, and is due an interval later. */
  predicate Spaced(st: Start, e: Entry)
  {
    st.handle == e.handle ==> st.interval == e.interval > 0 && st.at + e.interval <= e.nextFire
  }

  /** Two invocations of one timer, the second later: it repeats, and an interval lies between them. */
  predicate Apart(a: Start, b: Start)
  {
    a.handle == b.handle ==> a.interval == b.interval > 0 && a.at + a.interval <= b.at
  }

  ghost predicate PastInv(s: State)
  {
    forall st :: st in s.starts ==> st.due <= st.at <= s.now && 0 < st.handle < s.nextHandle
  }

  ghost predicate WaitingInv(s: State)
  {
    forall st, e :: st in s.starts && (e in multiset(s.heap) || e in s.drafts) ==> Spaced(st, e)
  }

  ghost predicate RunningInv(s: State)
  {
    s.worker.Busy? ==> forall st :: st in s.starts && st.handle == s.worker.entry.handle ==> st.interval == s.worker.entry.interval
  }

  ghost predicate ApartInv(starts: seq<Start>)
  {
    forall i, j :: 0 <= i < j < |starts| ==> Apart(starts[i], starts[j])
  }

  ghost predicate StartInv(s: State) { PastInv(s) && WaitingInv(s) && RunningInv(s) && ApartInv(s.starts) }

  /** What a take that starts an invocation knows: the entry was waiting and due, and no other entry has its handle. */
  lemma TakenFacts(s: State, w: Worker, heap': seq<Entry>, cancelled': set<nat>)
    requires Distinct(Live(s), s.nextHandle) && Taken(s.heap, s.cancelled, s.now, w, heap', cancelled')
    ensures multiset(heap') <= multiset(s.heap)
    ensures w.Busy? ==> w.entry in multiset(s.heap) && w.entry.nextFire <= s.now && w.entry.handle !in s.cancelled
    ensures w.Busy? ==> forall e :: e in multiset(heap') || e in s.drafts ==> e.handle != w.entry.handle
  {
    if w.Busy? {
      assert Live(s)[w.entry] == 1 && w.entry in multiset(s.heap);
      forall e | e in multiset(heap') || e in s.drafts ensures e.handle != w.entry.handle {
        assert e in Live(s);
      }
    }
  }

  lemma ApartAppend(starts: seq<Start>, e: Entry, now: nat)
    requires ApartInv(starts) && e.nextFire <= now
    requires forall st :: st in starts ==> Spaced(st, e)
    ensures ApartInv(starts + [Start(e.handle, e.nextFire, now, e.interval)])
  {
    forall i | 0 <= i < |starts| ensures Spaced(starts[i], e) { assert starts[i] in starts; }
  }

  /** Taking an entry that is not cancelled starts one invocation of it. */
  lemma TakeStarts(s: State, w: Worker, heap': seq<Entry>, cancelled': set<nat>)
    requires HandleInv(s) && StartInv(s) && Enabled(s, Take(w, heap', cancelled'))
    ensures StartInv(Next(s, Take(w, heap', cancelled')))
  {
    var s' := Next(s, Take(w, heap', cancelled'));
    TakenFacts(s, w, heap', cancelled');
    if w.Busy? {
      var st := Start(w.entry.handle, w.entry.nextFire, s.now, w.entry.interval);
      assert forall x :: x in s'.starts <==> x in s.starts || x == st;
      assert w.entry in Live(s);
      ApartAppend(s.starts, w.entry, s.now);
    }
  }

  lemma StartStep(s: State, a: Action)
    requires HandleInv(s) && StartInv(s) && Enabled(s, a)
    ensures StartInv(Next(s, a))
  {
    match a {
      case Take(w, heap', cancelled') => TakeStarts(s, w, heap', cancelled');
      case _ =>
    }
  }

  ghost predicate Inv(s: State) { HandleInv(s) && StartInv(s) }

  lemma {:induction false} InvAlways(run: seq<State>, acts: seq<Action>, i: nat)
    requires IsRun(run, acts) && i < |run|
    ensures Inv(run[i])
  {
    if i > 0 {
      InvAlways(run, acts, i - 1);
      HandleStep(run[i - 1], acts[i - 1]);
      StartStep(run[i - 1], acts[i - 1]);
    }
  }

  /** In every run, no callback starts before its fire time. */
  lemma StartsAreDue(run: seq<State>, acts: seq<Action>, i: nat, j: nat)
    requires IsRun(run, acts) && i < |run| && j < |run[i].starts|
    ensures run[i].starts[j].due <= run[i].starts[j].at <= run[i].now
  {
    InvAlways(run, acts, i);
    assert run[i].starts[j] in run[i].starts;
  }

  /**
   In every run, two invocations of one timer are at least its interval apart; a timer with interval 0,
   scheduled by either operation, starts at most once.
   */
  lemma StartsAreApart(run: seq<State>, acts: seq<Action>, i: nat, j: nat, k: nat)
    requires IsRun(run, acts) && i < |run| && j < k < |run[i].starts|
    ensures var a, b := run[i].starts[j], run[i].starts[k];
            a.handle == b.handle ==> a.interval == b.interval > 0 && a.at + a.interval <= b.at
  {
    InvAlways(run, acts, i);
    assert Apart(run[i].starts[j], run[i].starts[k]);
  }

  /** Every take that removes an entry removes one with the earliest fire time in the heap, and only a due one. */
  lemma TakesTheEarliest(run: seq<State>, acts: seq<Action>, i: nat, e: Entry)
    requires IsRun(run, acts) && i < |acts| && acts[i].Take? && e in multiset(run[i].heap)
    requires run[i + 1].heap != run[i].heap
    ensures Popped(run[i].heap, run[i].heap[0], run[i + 1].heap)
    ensures run[i].heap[0].nextFire <= run[i].now && run[i].heap[0].nextFire <= e.nextFire
  {
    InvAlways(run, acts, i);
    FrontIsEarliest(run[i].heap, e);
  }

  // ---------------------------------------------------------------- back to the call of Schedule

  predicate Draws(a: Action) { a.DrawOnce? || a.DrawRepeat? }

  /** What the caller of Schedule asked for. */
  function DelayOf(a: Action): nat
    requires Draws(a)
  {
    if a.DrawOnce? then a.delay else a.interval
  }

  function IntervalOf(a: Action): nat
    requires Draws(a)
  {
    if a.DrawOnce? then 0 else a.interval
  }

  /** Timer h keeps what its Schedule call promised: nothing before `due`, and this interval. */
  ghost predicate Promised(s: State, h: nat, due: nat, interval: nat)
  {
    && h < s.nextHandle
    && (forall e :: e in multiset(s.heap) || e in s.drafts ==> (e.handle == h ==> due <= e.nextFire && e.interval == interval))
    && (s.worker.Busy? && s.worker.entry.handle == h ==> due <= s.now && s.worker.entry.interval == interval)
    && (forall st :: st in s.starts ==> (st.handle == h ==> due <= st.at && st.interval == interval))
  }

  lemma PromiseAtTake(s: State, a: Action, h: nat, due: nat, interval: nat)
    requires HandleInv(s) && a.Take? && Enabled(s, a) && Promised(s, h, due, interval)
    ensures Promised(Next(s, a), h, due, interval)
  {
    TakenFacts(s, a.w, a.heap', a.cancelled');
    var s' := Next(s, a);
    if a.w.Busy? {
      var st := Start(a.w.entry.handle, a.w.entry.nextFire, s.now, a.w.entry.interval);
      assert forall x :: x in s'.starts <==> x in s.starts || x == st;
    }
  }

  /** A pushed entry was a draft, or is the running one an interval after now. */
  lemma PromiseAtPush(s: State, e: Entry, heap': seq<Entry>, h: nat, due: nat, interval: nat)
    requires Promised(s, h, due, interval) && Pushed(s.heap, e, heap')
    requires e.handle == h ==> due <= e.nextFire && e.interval == interval
    ensures Promised(s.(heap := heap'), h, due, interval)
  {
    assert forall x :: x in multiset(heap') ==> x in multiset(s.heap) || x == e;
  }

  lemma PromiseAtFinish(s: State, a: Action, h: nat, due: nat, interval: nat)
    requires a.Finish? && Enabled(s, a) && Promised(s, h, due, interval)
    ensures Promised(Next(s, a), h, due, interval)
  {
    var e := s.worker.entry;
    if a.reschedule && e.interval > 0 {
      PromiseAtPush(s, e.(nextFire := s.now + e.interval), a.heap', h, due, interval);
    }
  }

  lemma PromiseElsewhere(s: State, a: Action, h: nat, due: nat, interval: nat)
    requires Enabled(s, a) && !a.Take? && !a.Push? && !a.Finish? && Promised(s, h, due, interval)
    ensures Promised(Next(s, a), h, due, interval)
  {
  }

  lemma PromiseStep(s: State, a: Action, h: nat, due: nat, interval: nat)
    requires HandleInv(s) && Enabled(s, a) && Promised(s, h, due, interval)
    ensures Promised(Next(s, a), h, due, interval)
  {
    if a.Take? {
      PromiseAtTake(s, a, h, due, interval);
    } else if a.Push? {
      PromiseAtPush(s, a.e, a.heap', h, due, interval);
      assert Next(s, a) == s.(heap := a.heap').(drafts := s.drafts - {a.e});
    } else if a.Finish? {
      PromiseAtFinish(s, a, h, due, interval);
    } else {
      PromiseElsewhere(s, a, h, due, interval);
    }
  }

  lemma PromiseAt(run: seq<State>, acts: seq<Action>, j: nat, h: nat, due: nat, interval: nat)
    requires IsRun(run, acts) && j < |acts| && Promised(run[j], h, due, interval)
    ensures Promised(run[j + 1], h, due, interval)
  {
    InvAlways(run, acts, j);
    PromiseStep(run[j], acts[j], h, due, interval);
  }

  lemma {:induction false} PromiseKept(run: seq<State>, acts: seq<Action>, d: nat, i: nat)
    requires IsRun(run, acts) && d < i < |run| && Draws(acts[d])
    ensures Promised(run[i], run[d].nextHandle, run[d].now + DelayOf(acts[d]), IntervalOf(acts[d]))
  {
    if d < i - 1 {
      PromiseKept(run, acts, d, i - 1);
      PromiseAt(run, acts, i - 1, run[d].nextHandle, run[d].now + DelayOf(acts[d]), IntervalOf(acts[d]));
    } else {
      InvAlways(run, acts, d);
      NewPromise(run[d], acts[d]);
    }
  }

  lemma NewPromise(s: State, a: Action)
    requires Inv(s) && Draws(a) && Enabled(s, a)
    ensures Promised(Next(s, a), s.nextHandle, s.now + DelayOf(a), IntervalOf(a))
  {
    assert forall e :: e in multiset(s.heap) || e in s.drafts ==> e in Live(s);
    assert s.worker.Busy? ==> s.worker.entry in Live(s);
  }

  /** Every handle below the next one was drawn by a Schedule call. */
  lemma {:induction false} DrawOf(run: seq<State>, acts: seq<Action>, i: nat, h: nat) returns (d: nat)
    requires IsRun(run, acts) && i < |run| && 0 < h < run[i].nextHandle
    ensures d < i && Draws(acts[d]) && run[d].nextHandle == h
  {
    assert i > 0;
    if h < run[i - 1].nextHandle { d := DrawOf(run, acts, i - 1, h); } else { d := i - 1; }
  }

  /**
   Every invocation goes back to a Schedule call that drew its handle: it starts no earlier than the
   delay of that call after the clock at the call, with the interval of that call.
   */
  lemma StartFollowsItsSchedule(run: seq<State>, acts: seq<Action>, i: nat, j: nat) returns (d: nat)
    requires IsRun(run, acts) && i < |run| && j < |run[i].starts|
    ensures d < i && Draws(acts[d]) && run[d].nextHandle == run[i].starts[j].handle
    ensures run[d].now + DelayOf(acts[d]) <= run[i].starts[j].at
    ensures run[i].starts[j].interval == IntervalOf(acts[d])
  {
    InvAlways(run, acts, i);
    assert run[i].starts[j] in run[i].starts;
    d := DrawOf(run, acts, i, run[i].starts[j].handle);
    PromiseKept(run, acts, d, i);
  }

  // ---------------------------------------------------------------- neither earlier nor later

  /** The worker's pass runs the front of the heap when it is due and not cancelled, drops it when cancelled, and waits otherwise. */
  lemma TakeRunsWhatIsDue(run: seq<State>, acts: seq<Action>, i: nat)
    requires IsRun(run, acts) && i < |acts| && acts[i].Take? && run[i].heap != []
    ensures var s, s' := run[i], run[i + 1];
            var e := s.heap[0];
            if e.nextFire > s.now then s' == s
            else Popped(s.heap, e, s'.heap) &&
                 if e.handle in s.cancelled then s'.worker == Idle && s'.starts == s.starts
                 else s'.worker == Busy(e) && s'.starts == s.starts + [Start(e.handle, e.nextFire, s.now, e.interval)]
  {
  }

  /** Step b gave timer h this fire time: the call of Schedule, or the end of an invocation that asked for another. */
  ghost predicate SetsTime(s: State, a: Action, e: Entry)
  {
    || (Draws(a) && s.nextHandle == e.handle && e.nextFire == s.now + DelayOf(a) && e.interval == IntervalOf(a))
    || (a.Finish? && a.reschedule && s.worker.Busy? && s.worker.entry.handle == e.handle &&
        s.worker.entry.interval == e.interval > 0 && e.nextFire == s.now + e.interval)
  }

  lemma NewLiveHasTime(s: State, a: Action, e: Entry)
    requires Enabled(s, a) && e in Live(Next(s, a))
    ensures e in Live(s) || SetsTime(s, a, e)
  {
    match a {
      case Push(x, heap') => PushMoves(s, x, heap');
      case Take(w, heap', cancelled') => TakeMoves(s, w, heap', cancelled');
      case Finish(reschedule, heap') => FinishHasTime(s, a, e);
      case DrawOnce(_) => DrawHasTime(s, a, e);
      case DrawRepeat(_) => DrawHasTime(s, a, e);
      case _ =>
    }
  }

  lemma FinishHasTime(s: State, a: Action, e: Entry)
    requires Enabled(s, a) && a.Finish? && e in Live(Next(s, a))
    ensures e in Live(s) || SetsTime(s, a, e)
  {
    var x := s.worker.entry;
    if a.reschedule && x.interval > 0 {
      assert e in multiset(s.heap) || e in s.drafts || e == x.(nextFire := s.now + x.interval);
    }
  }

  lemma DrawHasTime(s: State, a: Action, e: Entry)
    requires Enabled(s, a) && Draws(a) && e in Live(Next(s, a))
    ensures e in Live(s) || SetsTime(s, a, e)
  {
    assert e in multiset(s.heap) || s.worker == Busy(e) || e in s.drafts || e == Entry(s.nextHandle, s.now + DelayOf(a), IntervalOf(a));
  }

  /** Every live entry has exactly the fire time that its Schedule call or its last reschedule set. */
  lemma {:induction false} TimeIsExact(run: seq<State>, acts: seq<Action>, i: nat, e: Entry) returns (b: nat)
    requires IsRun(run, acts) && i < |run| && e in Live(run[i])
    ensures b < i && SetsTime(run[b], acts[b], e)
  {
    assert i > 0;
    NewLiveHasTime(run[i - 1], acts[i - 1], e);
    if e in Live(run[i - 1]) { b := TimeIsExact(run, acts, i - 1, e); } else { b := i - 1; }
  }

  /** And so has every invocation: its fire time is call plus delay, or end of the invocation before plus interval. */
  lemma {:induction false} StartTimeIsExact(run: seq<State>, acts: seq<Action>, i: nat, k: nat) returns (b: nat)
    requires IsRun(run, acts) && i < |run| && k < |run[i].starts|
    ensures var st := run[i].starts[k]; b < i && SetsTime(run[b], acts[b], Entry(st.handle, st.due, st.interval))
  {
    assert i > 0;
    var s, st := run[i - 1], run[i].starts[k];
    if k < |s.starts| {
      b := StartTimeIsExact(run, acts, i - 1, k);
    } else {
      assert Entry(st.handle, st.due, st.interval) in multiset(s.heap);
      b := TimeIsExact(run, acts, i - 1, Entry(st.handle, st.due, st.interval));
    }
  }
}
