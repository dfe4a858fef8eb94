/**
 Cancellation in TimerQueue: a cancelled timer starts no more, and what happens to its handle in the
 cancellation set, in each situation a timer can be in when it is cancelled.
 */
module TimerCancel {
  import opened Basics
  import opened TimerHeap
  import opened TimerQueue

  /** Handle h was issued, and its timer is over: it does not wait, run, or stand to be pushed. */
  ghost predicate Over(live: multiset<Entry>, bound: nat, h: nat)
  {
    h < bound && forall e :: e in live ==> e.handle != h
  }

  lemma OverStays(live: multiset<Entry>, bound: nat, live': multiset<Entry>, bound': nat, h: nat)
    requires Over(live, bound, h) && LiveMove(live, bound, live', bound')
    ensures Over(live', bound', h)
  {
  }

  /** The Schedule call that drew h has pushed its entry, so it returned h or is about to. */
  ghost predicate HandedOut(s: State, h: nat)
  {
    0 < h < s.nextHandle && forall e :: e in s.drafts ==> e.handle != h
  }

  lemma HandedOutStays(s: State, a: Action, h: nat)
    requires Enabled(s, a) && HandedOut(s, h)
    ensures HandedOut(Next(s, a), h)
  {
  }

  /** No further invocation of h can start. */
  ghost predicate Silent(s: State, h: nat) { h in s.cancelled || Over(Live(s), s.nextHandle, h) }

  /** A take of h, when h is cancelled, ends the timer and forgets the cancellation. */
  lemma TakeOfCancelled(s: State, w: Worker, heap': seq<Entry>, cancelled': set<nat>, h: nat)
    requires HandleInv(s) && Enabled(s, Take(w, heap', cancelled')) && h in s.cancelled
    ensures w.Busy? ==> w.entry.handle != h
    ensures h in cancelled' || Over(Live(Next(s, Take(w, heap', cancelled'))), s.nextHandle, h)
  {
    var s' := Next(s, Take(w, heap', cancelled'));
    if h !in cancelled' {
      var e := s.heap[0];
      assert e in multiset(s.heap) && e in Live(s);
      assert Live(s) == Live(s') + multiset{e};
    }
  }

  lemma OverStep(s: State, a: Action, h: nat)
    requires HandleInv(s) && Enabled(s, a) && Over(Live(s), s.nextHandle, h)
    ensures Over(Live(Next(s, a)), Next(s, a).nextHandle, h)
  {
    NextMovesLive(s, a);
    OverStays(Live(s), s.nextHandle, Live(Next(s, a)), Next(s, a).nextHandle, h);
  }

  /** No invocation of h among those that `later` has and `earlier` has not. */
  ghost predicate Quiet(earlier: seq<Start>, later: seq<Start>, h: nat)
  {
    earlier <= later && forall k :: |earlier| <= k < |later| ==> later[k].handle != h
  }

  lemma QuietStep(s: State, a: Action, h: nat)
    requires Enabled(s, a) && (a.Take? && a.w.Busy? ==> a.w.entry.handle != h)
    ensures Quiet(s.starts, Next(s, a).starts, h)
  {
  }

  /** Shutdown ends every timer that has been handed out. */
  lemma ClearEnds(s: State, h: nat)
    requires HandleInv(s) && Enabled(s, Clear) && HandedOut(s, h)
    ensures Over(Live(Next(s, Clear)), s.nextHandle, h)
  {
    assert forall e :: e in Live(Next(s, Clear)) ==> e in s.drafts;
  }

  lemma SilentStep(s: State, a: Action, h: nat)
    requires HandleInv(s) && Enabled(s, a) && Silent(s, h) && (HandedOut(s, h) || !a.Clear?)
    ensures Silent(Next(s, a), h) && Quiet(s.starts, Next(s, a).starts, h)
  {
    if a.Take? { TakeStaysSilent(s, a, h); }
    QuietStep(s, a, h);
    if Over(Live(s), s.nextHandle, h) {
      OverStep(s, a, h);
    } else if a.Clear? {
      ClearEnds(s, h);
    }
  }

  lemma TakeStaysSilent(s: State, a: Action, h: nat)
    requires HandleInv(s) && a.Take? && Enabled(s, a) && Silent(s, h)
    ensures h in s.cancelled ==> Silent(Next(s, a), h)
    ensures a.w.Busy? ==> a.w.entry.handle != h
  {
    if h in s.cancelled {
      TakeOfCancelled(s, a.w, a.heap', a.cancelled', h);
    } else if a.w.Busy? {
      assert a.w.entry in multiset(s.heap) && a.w.entry in Live(s);
    }
  }

  /** No Shutdown empties the queue between i and j. */
  ghost predicate NoClear(acts: seq<Action>, i: nat, j: nat)
  {
    forall k :: i <= k < j && k < |acts| ==> !acts[k].Clear?
  }

  lemma {:induction false} HandedOutForever(run: seq<State>, acts: seq<Action>, h: nat, i: nat, j: nat)
    requires IsRun(run, acts) && i <= j < |run| && HandedOut(run[i], h)
    ensures HandedOut(run[j], h)
  {
    if i < j {
      HandedOutForever(run, acts, h, i, j - 1);
      HandedOutStays(run[j - 1], acts[j - 1], h);
    }
  }

  lemma SilentAt(run: seq<State>, acts: seq<Action>, h: nat, j: nat)
    requires IsRun(run, acts) && j < |acts| && Silent(run[j], h) && (HandedOut(run[j], h) || !acts[j].Clear?)
    ensures Silent(run[j + 1], h) && Quiet(run[j].starts, run[j + 1].starts, h)
  {
    InvAlways(run, acts, j);
    SilentStep(run[j], acts[j], h);
  }

  lemma QuietThen(a: seq<Start>, b: seq<Start>, c: seq<Start>, h: nat)
    requires Quiet(a, b, h) && Quiet(b, c, h)
    ensures Quiet(a, c, h)
  {
  }

  lemma SilentForever(run: seq<State>, acts: seq<Action>, h: nat, i: nat, j: nat)
    requires IsRun(run, acts) && i <= j < |run| && Silent(run[i], h)
    requires HandedOut(run[i], h) || NoClear(acts, i, j)
    ensures Silent(run[j], h) && Quiet(run[i].starts, run[j].starts, h)
  {
    var silent := (k: nat) => k < |run| && Silent(run[k], h) && Quiet(run[i].starts, run[k].starts, h);
    forall k | i <= k < j && silent(k) ensures silent(k + 1) {
      if HandedOut(run[i], h) { HandedOutForever(run, acts, h, i, k); }
      SilentAt(run, acts, h, k);
      QuietThen(run[i].starts, run[k].starts, run[k + 1].starts, h);
    }
    StepByStep(silent, i, j);
  }

  /**
   After Cancel(h) no invocation of h starts in the rest of the run: at most the one already taken is
   still going, and rescheduling itself does not help. This holds for every handle that Schedule
   handed out, across shutdowns and restarts; for any other number, up to the next shutdown.
   */
  lemma CancelSilences(run: seq<State>, acts: seq<Action>, h: nat, i: nat, j: nat)
    requires IsRun(run, acts) && i < |acts| && acts[i] == Cancel(h) && h != 0 && i < j < |run|
    requires HandedOut(run[i], h) || NoClear(acts, i, j)
    ensures run[i].starts <= run[j].starts
    ensures forall k :: |run[i].starts| <= k < |run[j].starts| ==> run[j].starts[k].handle != h
  {
    assert run[i + 1] == Next(run[i], acts[i]);
    SilentForever(run, acts, h, i + 1, j);
  }

  /** The worker's pass under the lock removes the entry of h from the heap, to run it or to drop it. */
  ghost predicate Takes(s: State, a: Action, h: nat)
  {
    a.Take? && s.heap != [] && s.heap[0].nextFire <= s.now && s.heap[0].handle == h
  }

  /** Only Cancel adds h to the cancellation set; only a take of h and a shutdown remove it. */
  lemma CancelledChange(s: State, a: Action, h: nat)
    requires Enabled(s, a) && !a.Clear? && a != Cancel(h)
    ensures h in Next(s, a).cancelled <==> h in s.cancelled && !Takes(s, a, h)
  {
  }

  /** No shutdown and no second Cancel(h) from i on, up to j. */
  ghost predicate Undisturbed(acts: seq<Action>, h: nat, i: nat, j: nat)
  {
    forall k :: i <= k < j && k < |acts| ==> !acts[k].Clear? && acts[k] != Cancel(h)
  }

  ghost predicate CancelsAt(run: seq<State>, acts: seq<Action>, h: nat, i: nat, j: nat)
  {
    IsRun(run, acts) && i < j < |run| && acts[i] == Cancel(h) && h != 0 && Undisturbed(acts, h, i + 1, j)
  }

  /** After Cancel(h), the handle is in the cancellation set exactly until its entry is taken off the heap. */
  lemma {:induction false} CancelledUntilTaken(run: seq<State>, acts: seq<Action>, h: nat, i: nat, j: nat)
    requires CancelsAt(run, acts, h, i, j)
    ensures h in run[j].cancelled <==> forall k :: i < k < j ==> !Takes(run[k], acts[k], h)
  {
    if i + 1 < j {
      CancelledUntilTaken(run, acts, h, i, j - 1);
      CancelledChange(run[j - 1], acts[j - 1], h);
    }
  }

  // Where a timer can be: ahead of its next invocation, in one, or over.

  /** Some entry in `es` has handle h. */
  ghost predicate HandleIn(es: multiset<Entry>, h: nat) { exists e :: e in es && e.handle == h }

  ghost predicate Waits(s: State, h: nat) { HandleIn(multiset(s.heap), h) }

  ghost predicate Drafted(s: State, h: nat) { HandleIn(multiset(s.drafts), h) }

  ghost predicate Runs(s: State, h: nat) { s.worker.Busy? && s.worker.entry.handle == h }

  /** Not issued yet, not pushed yet, or waiting in the heap. */
  ghost predicate Ahead(s: State, h: nat) { s.nextHandle <= h || Drafted(s, h) || Waits(s, h) }

  lemma SomeSituation(s: State, h: nat)
    requires HandleInv(s) && h != 0
    ensures Ahead(s, h) || Runs(s, h) || Over(Live(s), s.nextHandle, h)
  {
    if h < s.nextHandle {
      if e :| e in Live(s) && e.handle == h {
        assert e in multiset(s.heap) || e in multiset(s.drafts) || s.worker == Busy(e);
      }
    }
  }

  lemma OverIsOver(s: State, h: nat)
    requires Over(Live(s), s.nextHandle, h)
    ensures !Ahead(s, h) && !Runs(s, h)
  {
    assert forall e :: e in multiset(s.heap) || e in multiset(s.drafts) ==> e in Live(s);
    assert s.worker.Busy? ==> s.worker.entry in Live(s);
  }

  lemma RunningIsNotAhead(s: State, h: nat)
    requires HandleInv(s) && Runs(s, h)
    ensures !Ahead(s, h)
  {
    var e := s.worker.entry;
    assert e in Live(s) && Live(s)[e] == 1;
    forall f | f in multiset(s.heap) || f in multiset(s.drafts) ensures f.handle != h { assert f in Live(s); }
  }

  /** In every reachable state a timer is in exactly one of the three situations. */
  lemma Situations(run: seq<State>, acts: seq<Action>, i: nat, h: nat)
    requires IsRun(run, acts) && i < |run| && h != 0
    ensures Ahead(run[i], h) || Runs(run[i], h) || Over(Live(run[i]), run[i].nextHandle, h)
    ensures Runs(run[i], h) ==> !Ahead(run[i], h)
    ensures Over(Live(run[i]), run[i].nextHandle, h) ==> !Ahead(run[i], h) && !Runs(run[i], h)
  {
    InvAlways(run, acts, i);
    SomeSituation(run[i], h);
    if Runs(run[i], h) {
      RunningIsNotAhead(run[i], h);
    } else if Over(Live(run[i]), run[i].nextHandle, h) {
      OverIsOver(run[i], h);
    }
  }

  /** Cancelled and ahead, or forgotten and over. */
  ghost predicate Settled(s: State, h: nat)
  {
    || (h in s.cancelled && Ahead(s, h))
    || (h !in s.cancelled && Over(Live(s), s.nextHandle, h))
  }

  /** A cancelled timer that waits is not taken to run: it goes on waiting or is dropped. */
  lemma WaitingTake(s: State, a: Action, e: Entry)
    requires HandleInv(s) && a.Take? && Enabled(s, a) && e in multiset(s.heap) && e.handle in s.cancelled
    ensures if e.handle in a.cancelled' then e in multiset(a.heap') else Over(Live(Next(s, a)), s.nextHandle, e.handle)
  {
    if e.handle !in a.cancelled' { TakeOfCancelled(s, a.w, a.heap', a.cancelled', e.handle); }
  }

  lemma WaitingStep(s: State, a: Action, h: nat)
    requires HandleInv(s) && Enabled(s, a) && !a.Clear? && h in s.cancelled && Waits(s, h)
    ensures Settled(Next(s, a), h)
  {
    var e :| e in multiset(s.heap) && e.handle == h;
    if a.Take? { WaitingTake(s, a, e); } else { assert e in multiset(Next(s, a).heap); }
  }

  /** A timer that is not in the heap is not taken. */
  lemma NotWaitingNotTaken(s: State, a: Action, h: nat)
    requires Enabled(s, a) && !Waits(s, h)
    ensures !Takes(s, a, h)
  {
    if s.heap != [] { assert s.heap[0] in multiset(s.heap); }
  }

  lemma DraftStep(s: State, a: Action, h: nat)
    requires Enabled(s, a) && Drafted(s, h)
    ensures Drafted(Next(s, a), h) || Waits(Next(s, a), h)
  {
    var e :| e in multiset(s.drafts) && e.handle == h;
    if a.Push? && a.e == e {
      assert e in multiset(Next(s, a).heap);
    } else {
      assert e in Next(s, a).drafts;
    }
  }

  lemma UnissuedStep(s: State, a: Action, h: nat)
    requires Enabled(s, a) && s.nextHandle <= h
    ensures Next(s, a).nextHandle <= h || Drafted(Next(s, a), h)
  {
    if Draws(a) {
      var e := Entry(s.nextHandle, s.now + DelayOf(a), IntervalOf(a));
      assert e in multiset(Next(s, a).drafts);
    }
  }

  lemma SettledStep(s: State, a: Action, h: nat)
    requires HandleInv(s) && Enabled(s, a) && Settled(s, h) && !a.Clear? && a != Cancel(h)
    ensures Settled(Next(s, a), h)
  {
    if h !in s.cancelled {
      OverStep(s, a, h);
      CancelledChange(s, a, h);
    } else if Waits(s, h) {
      WaitingStep(s, a, h);
    } else {
      NotWaitingNotTaken(s, a, h);
      CancelledChange(s, a, h);
      if Drafted(s, h) { DraftStep(s, a, h); } else { UnissuedStep(s, a, h); }
    }
  }

  lemma SettledAt(run: seq<State>, acts: seq<Action>, h: nat, j: nat)
    requires IsRun(run, acts) && j < |acts| && Settled(run[j], h) && !acts[j].Clear? && acts[j] != Cancel(h)
    ensures Settled(run[j + 1], h)
  {
    InvAlways(run, acts, j);
    SettledStep(run[j], acts[j], h);
  }

  lemma SettledForever(run: seq<State>, acts: seq<Action>, h: nat, i: nat, j: nat)
    requires IsRun(run, acts) && i <= j < |run| && Undisturbed(acts, h, i, j) && Settled(run[i], h)
    ensures Settled(run[j], h)
  {
    var settled := (k: nat) => k < |run| && Settled(run[k], h);
    forall k | i <= k < j && settled(k) ensures settled(k + 1) { SettledAt(run, acts, h, k); }
    StepByStep(settled, i, j);
  }

  lemma SettledMeans(run: seq<State>, acts: seq<Action>, h: nat, j: nat)
    requires IsRun(run, acts) && j < |run| && h != 0 && Settled(run[j], h)
    ensures h in run[j].cancelled <==> Ahead(run[j], h)
  {
    Situations(run, acts, j, h);
  }

  ghost predicate Leaked(s: State, h: nat) { h in s.cancelled && Over(Live(s), s.nextHandle, h) }

  lemma LeakedAt(run: seq<State>, acts: seq<Action>, h: nat, j: nat)
    requires IsRun(run, acts) && j < |acts| && !acts[j].Clear? && Leaked(run[j], h)
    ensures Leaked(run[j + 1], h)
  {
    InvAlways(run, acts, j);
    OverStep(run[j], acts[j], h);
    OverIsOver(run[j], h);
    NotWaitingNotTaken(run[j], acts[j], h);
    if acts[j] != Cancel(h) { CancelledChange(run[j], acts[j], h); }
  }

  /** A cancelled handle whose timer is over stays in the set until a shutdown. */
  lemma LeakedForever(run: seq<State>, acts: seq<Action>, h: nat, i: nat, j: nat)
    requires IsRun(run, acts) && i <= j < |run| && NoClear(acts, i, j) && Leaked(run[i], h)
    ensures Leaked(run[j], h)
  {
    var leaked := (k: nat) => k < |run| && Leaked(run[k], h);
    forall k | i <= k < j && leaked(k) ensures leaked(k + 1) { LeakedAt(run, acts, h, k); }
    StepByStep(leaked, i, j);
  }

  /** Cancelled before its next invocation: in the set exactly as long as that invocation is still ahead. */
  lemma CancelledAheadStaysIff(run: seq<State>, acts: seq<Action>, h: nat, i: nat, j: nat)
    requires CancelsAt(run, acts, h, i, j) && Ahead(run[i], h)
    ensures h in run[j].cancelled <==> Ahead(run[j], h)
  {
    assert run[i + 1] == Next(run[i], acts[i]);
    SettledForever(run, acts, h, i + 1, j);
    SettledMeans(run, acts, h, j);
  }

  /** Cancelled when its timer is over: in the set until a shutdown. */
  lemma CancelledOverStays(run: seq<State>, acts: seq<Action>, h: nat, i: nat, j: nat)
    requires CancelsAt(run, acts, h, i, j) && Over(Live(run[i]), run[i].nextHandle, h)
    ensures h in run[j].cancelled
  {
    assert run[i + 1] == Next(run[i], acts[i]);
    LeakedForever(run, acts, h, i + 1, j);
  }

  lemma RunningAt(run: seq<State>, acts: seq<Action>, h: nat, j: nat)
    requires IsRun(run, acts) && j < |acts| && Runs(run[j], h) && h in run[j].cancelled
    requires !acts[j].Finish? && !acts[j].Clear? && acts[j] != Cancel(h)
    ensures run[j + 1].worker == run[j].worker && h in run[j + 1].cancelled
  {
    InvAlways(run, acts, j);
    RunningIsNotAhead(run[j], h);
    NotWaitingNotTaken(run[j], acts[j], h);
    CancelledChange(run[j], acts[j], h);
  }

  /** The callback goes on until it finishes; its handle cannot leave the set meanwhile. */
  lemma {:induction false} RunningStays(run: seq<State>, acts: seq<Action>, h: nat, i: nat, j: nat)
    requires CancelsAt(run, acts, h, i, j) && Runs(run[i], h)
    requires forall k :: i < k < j ==> !acts[k].Finish?
    ensures run[j].worker == run[i].worker && h in run[j].cancelled
  {
    if i + 1 < j {
      RunningStays(run, acts, h, i, j - 1);
      RunningAt(run, acts, h, j - 1);
    }
  }

  /** What the end of a callback leaves: a waiting timer if it is rescheduled, otherwise one that is over. */
  lemma RescheduledWaits(s: State, heap': seq<Entry>)
    requires Enabled(s, Finish(true, heap')) && s.worker.entry.interval > 0
    ensures Waits(s.(heap := heap', worker := Idle), s.worker.entry.handle)
  {
    assert s.worker.entry.(nextFire := s.now + s.worker.entry.interval) in multiset(heap');
  }

  lemma FinishedIsOver(s: State)
    requires HandleInv(s) && s.worker.Busy?
    ensures Over(Live(s.(worker := Idle)), s.nextHandle, s.worker.entry.handle)
  {
    var e := s.worker.entry;
    assert e in Live(s) && Live(s)[e] == 1;
    assert Live(s) == Live(s.(worker := Idle)) + multiset{e};
  }

  lemma FinishSettles(s: State, a: Action)
    requires HandleInv(s) && a.Finish? && Enabled(s, a)
    ensures var h := s.worker.entry.handle;
            if a.reschedule && s.worker.entry.interval > 0 then Waits(Next(s, a), h)
            else Over(Live(Next(s, a)), Next(s, a).nextHandle, h)
  {
    if a.reschedule && s.worker.entry.interval > 0 { RescheduledWaits(s, a.heap'); } else { FinishedIsOver(s); }
  }

  /**
   Cancelled while its callback runs, which finishes at step f: a repeating timer that asks to be
   rescheduled is dropped at its next turn and leaves the set then; every other one, a one-shot in
   particular, stays in the set until a shutdown.
   */
  lemma CancelledRunningStaysIff(run: seq<State>, acts: seq<Action>, h: nat, i: nat, f: nat, j: nat)
    requires CancelsAt(run, acts, h, i, j) && Runs(run[i], h)
    requires i < f < j && acts[f].Finish? && forall k :: i < k < f ==> !acts[k].Finish?
    ensures h in run[j].cancelled <==>
            !(acts[f].reschedule && run[i].worker.entry.interval > 0) || Ahead(run[j], h)
  {
    RunningStays(run, acts, h, i, f);
    InvAlways(run, acts, f);
    FinishSettles(run[f], acts[f]);
    assert run[f + 1] == Next(run[f], acts[f]);
    if acts[f].reschedule && run[i].worker.entry.interval > 0 {
      SettledForever(run, acts, h, f + 1, j);
      SettledMeans(run, acts, h, j);
    } else {
      LeakedForever(run, acts, h, f + 1, j);
    }
  }

  // ---------------------------------------------------------------- a handle that is never removed

  function LeakState(i: nat): State
  {
    var e := Entry(1, 0, 0);
    var done := [Start(1, 0, 0, 0)];
    match i
    case 0 => State([], {}, Idle, {}, 1, 0, Stopped, [])
    case 1 => State([], {}, Idle, {}, 1, 0, Running, [])
    case 2 => State([], {}, Idle, {e}, 2, 0, Running, [])
    case 3 => State([e], {}, Idle, {}, 2, 0, Running, [])
    case 4 => State([], {}, Busy(e), {}, 2, 0, Running, done)
    case 5 => State([], {}, Idle, {}, 2, 0, Running, done)
    case _ => State([], {1}, Idle, {}, 2, 0, Running, done)
  }

  function LeakAction(i: nat): Action
  {
    var e := Entry(1, 0, 0);
    match i
    case 0 => Initialize
    case 1 => DrawOnce(0)
    case 2 => Push(e, [e])
    case 3 => Take(Busy(e), [], {})
    case 4 => Finish(false, [])
    case _ => Cancel(1)
  }

  lemma LeakStep(i: nat)
    requires i < 6
    ensures Enabled(LeakState(i), LeakAction(i)) && Next(LeakState(i), LeakAction(i)) == LeakState(i + 1)
  {
    if i == 2 { OnePush(LeakState(i), Entry(1, 0, 0)); }
    if i == 3 { OneTake(LeakState(i), Entry(1, 0, 0)); }
  }

  /** The only entry is pushed. */
  lemma OnePush(s: State, e: Entry)
    requires s.heap == [] && s.drafts == {e}
    ensures Enabled(s, Push(e, [e])) && Next(s, Push(e, [e])) == s.(heap := [e], drafts := {})
  {
    assert {e} - {e} == {};
  }

  /** The only entry is taken to run. */
  lemma OneTake(s: State, e: Entry)
    requires s.heap == [e] && s.cancelled == {} && s.starts == [] && s.phase.Running? && s.worker.Idle? && e.nextFire <= s.now
    ensures Enabled(s, Take(Busy(e), [], {}))
    ensures Next(s, Take(Busy(e), [], {})) ==
            s.(heap := [], worker := Busy(e), starts := [Start(e.handle, e.nextFire, s.now, e.interval)])
  {
    assert {} - {e.handle} == {};
    assert Popped([e], e, []);
  }

  /** A one-shot runs to its end and is cancelled afterwards: its handle is in the set for good. */
  lemma LateCancelLeaks() returns (run: seq<State>, acts: seq<Action>)
    ensures IsRun(run, acts) && |acts| > 0 && acts[|acts| - 1] == Cancel(1)
    ensures Over(Live(run[|acts| - 1]), run[|acts| - 1].nextHandle, 1) && 1 in run[|acts|].cancelled
  {
    run, acts := seq(7, (i: nat) => LeakState(i)), seq(6, (i: nat) => LeakAction(i));
    forall i | 0 <= i < 6 ensures Enabled(run[i], acts[i]) && run[i + 1] == Next(run[i], acts[i]) {
      LeakStep(i);
    }
  }

  // ---------------------------------------------------------------- a cancellation that a shutdown forgets

  function GuessState(i: nat): State
  {
    var e := Entry(1, 0, 0);
    match i
    case 0 => State([], {}, Idle, {}, 1, 0, Stopped, [])
    case 1 => State([], {}, Idle, {}, 1, 0, Running, [])
    case 2 => State([], {1}, Idle, {}, 1, 0, Running, [])
    case 3 => State([], {1}, Idle, {}, 1, 0, Stopping, [])
    case 4 => State([], {1}, Idle, {}, 1, 0, Joined, [])
    case 5 => State([], {}, Idle, {}, 1, 0, Stopped, [])
    case 6 => State([], {}, Idle, {e}, 2, 0, Stopped, [])
    case 7 => State([e], {}, Idle, {}, 2, 0, Stopped, [])
    case 8 => State([e], {}, Idle, {}, 2, 0, Running, [])
    case _ => State([], {}, Busy(e), {}, 2, 0, Running, [Start(1, 0, 0, 0)])
  }

  function GuessAction(i: nat): Action
  {
    var e := Entry(1, 0, 0);
    match i
    case 0 => Initialize
    case 1 => Cancel(1)
    case 2 => Stop
    case 3 => ExitWorker
    case 4 => Clear
    case 5 => DrawOnce(0)
    case 6 => Push(e, [e])
    case 7 => Initialize
    case _ => Take(Busy(e), [], {})
  }

  lemma GuessCancel(i: nat)
    requires i < 5
    ensures Enabled(GuessState(i), GuessAction(i)) && Next(GuessState(i), GuessAction(i)) == GuessState(i + 1)
  {
    assert {} + {1} == {1};
  }

  lemma GuessStart(i: nat)
    requires 5 <= i < 9
    ensures Enabled(GuessState(i), GuessAction(i)) && Next(GuessState(i), GuessAction(i)) == GuessState(i + 1)
  {
    if i == 6 { OnePush(GuessState(i), Entry(1, 0, 0)); }
    if i == 8 { OneTake(GuessState(i), Entry(1, 0, 0)); }
  }

  /** Why CancelSilences asks for a handed-out handle: a number cancelled before it is issued, then a restart. */
  lemma ForgottenCancelRuns() returns (run: seq<State>, acts: seq<Action>)
    ensures IsRun(run, acts) && |acts| == 9 && acts[1] == Cancel(1) && !HandedOut(run[1], 1)
    ensures run[1].starts == [] && exists st :: st in run[9].starts && st.handle == 1
  {
    run, acts := seq(10, (i: nat) => GuessState(i)), seq(9, (i: nat) => GuessAction(i));
    forall i | 0 <= i < 9 ensures Enabled(run[i], acts[i]) && run[i + 1] == Next(run[i], acts[i]) {
      if i < 5 { GuessCancel(i); } else { GuessStart(i); }
    }
    assert Start(1, 0, 0, 0) in run[9].starts;
  }
}
