/**
 Where DBTaskQueue's tasks come from and in which order they are executed: every number goes back to a
 call of EnqueueTask, every task of a session goes to one worker, and a worker takes its tasks in the
 order they were queued, one after the other.
 */
module WalOrder {
  import opened Sequences
  import opened WalReplay
  import opened WalProtocol

  // ---------------------------------------------------------------- causes

  lemma {:induction false} SameSize(run: seq<State>, acts: seq<Action>, i: nat)
    requires IsRun(run, acts) && i < |run|
    ensures |run[i].pcs| == |run[0].pcs| && |run[i].sh.queues| == |run[0].sh.queues| > 0
  {
    if i > 0 { SameSize(run, acts, i - 1); }
  }

  /** Number n was drawn by a call of EnqueueTask with exactly the entry that the log has for it. */
  lemma {:induction false} EntryWasGiven(run: seq<State>, acts: seq<Action>, i: nat, n: nat) returns (b: nat)
    requires IsRun(run, acts) && i < |run| && n in run[i].sh.entries
    ensures b < i && acts[b].e == Enqueue(run[i].sh.entries[n]) && run[b].sh.running && run[b].sh.lastNumber + 1 == n
  {
    assert i > 0;
    EntriesGrowAt(run, acts, i - 1, n);
    if n in run[i - 1].sh.entries { b := EntryWasGiven(run, acts, i - 1, n); } else { b := i - 1; }
  }

  lemma EntriesGrowAt(run: seq<State>, acts: seq<Action>, i: nat, n: nat)
    requires IsRun(run, acts) && i < |acts| && n in run[i + 1].sh.entries
    ensures if n in run[i].sh.entries then run[i + 1].sh.entries[n] == run[i].sh.entries[n]
            else acts[i].e == Enqueue(run[i + 1].sh.entries[n]) && run[i].sh.running && run[i].sh.lastNumber + 1 == n
  {
    InvAlways(run, acts, i);
    EntriesGrow(run[i], acts[i], n);
  }

  lemma EntriesGrow(s: State, a: Action, n: nat)
    requires Inv(s) && Enabled(s, a) && n in Next(s, a).sh.entries
    ensures if n in s.sh.entries then Next(s, a).sh.entries[n] == s.sh.entries[n]
            else a.e == Enqueue(Next(s, a).sh.entries[n]) && s.sh.running && s.sh.lastNumber + 1 == n
  {
  }

  /** Step b ends the execution of number n, with success. */
  ghost predicate Executes(s: State, a: Action, n: nat, ok: bool)
  {
    a.t < |s.pcs| && s.pcs[a.t].Executing? && s.pcs[a.t].job.number == n && a.e == Advance(ok)
  }

  /** A number that is done, or about to be, was executed with success. */
  lemma {:induction false} DoneWasExecuted(run: seq<State>, acts: seq<Action>, i: nat, n: nat) returns (b: nat)
    requires IsRun(run, acts) && i < |run|
    requires (n in run[i].sh.place && run[i].sh.place[n].Finished?) ||
             exists t :: 0 <= t < |run[i].pcs| && run[i].pcs[t].Executed? && run[i].pcs[t].job.number == n
    ensures b < i && Executes(run[b], acts[b], n, true)
  {
    assert i > 0;
    if Executes(run[i - 1], acts[i - 1], n, true) {
      b := i - 1;
    } else {
      DoneNeedsExecution(run[i - 1], acts[i - 1], n);
      b := DoneWasExecuted(run, acts, i - 1, n);
    }
  }

  ghost predicate NotDone(s: State, n: nat)
  {
    && !(n in s.sh.place && s.sh.place[n].Finished?)
    && forall t :: 0 <= t < |s.pcs| ==> !(s.pcs[t].Executed? && s.pcs[t].job.number == n)
  }

  lemma DoneNeedsExecution(s: State, a: Action, n: nat)
    requires Enabled(s, a) && !Executes(s, a, n, true)
    ensures NotDone(s, n) ==> NotDone(Next(s, a), n)
  {
  }

  /** A number that is left unsuccessful was executed, and failed. */
  lemma {:induction false} UnsuccessfulFailed(run: seq<State>, acts: seq<Action>, i: nat, n: nat) returns (b: nat)
    requires IsRun(run, acts) && i < |run| && n in run[i].sh.place && run[i].sh.place[n].Unsuccessful?
    ensures b < i && Executes(run[b], acts[b], n, false)
  {
    assert i > 0;
    if Executes(run[i - 1], acts[i - 1], n, false) {
      b := i - 1;
    } else {
      FailureNeedsExecution(run[i - 1], acts[i - 1], n);
      b := UnsuccessfulFailed(run, acts, i - 1, n);
    }
  }

  lemma FailureNeedsExecution(s: State, a: Action, n: nat)
    requires Enabled(s, a) && !Executes(s, a, n, false)
    ensures n in Next(s, a).sh.place && Next(s, a).sh.place[n].Unsuccessful? ==> n in s.sh.place && s.sh.place[n].Unsuccessful?
  {
  }

  /** A number is refused only after the queue was stopped. */
  lemma {:induction false} RefusedMeansStopped(run: seq<State>, acts: seq<Action>, i: nat, n: nat)
    requires IsRun(run, acts) && i < |run|
    requires (n in run[i].sh.place && run[i].sh.place[n].Cancelled?) || exists t :: 0 <= t < |run[i].pcs| && run[i].pcs[t].Refused?
    ensures !run[i].sh.running
  {
    assert i > 0;
    if run[i - 1].sh.running {
      RefusalNeedsStop(run[i - 1], acts[i - 1], n);
      if !NoRefusal(run[i - 1], n) { RefusedMeansStopped(run, acts, i - 1, n); }
    }
  }

  ghost predicate NoRefusal(s: State, n: nat)
  {
    !(n in s.sh.place && s.sh.place[n].Cancelled?) && forall t :: 0 <= t < |s.pcs| ==> !s.pcs[t].Refused?
  }

  lemma RefusalNeedsStop(s: State, a: Action, n: nat)
    requires Enabled(s, a) && s.sh.running
    ensures NoRefusal(s, n) ==> NoRefusal(Next(s, a), n)
  {
  }

  /** A call on a running queue draws the next number, for exactly its entry; on a stopped one it does nothing. */
  lemma CallDrawsANumber(run: seq<State>, acts: seq<Action>, n: nat, e: Entry)
    requires IsRun(run, acts) && n < |acts| && acts[n].e == Enqueue(e)
    ensures acts[n].t < |run[n + 1].pcs|
    ensures if run[n].sh.running then run[n + 1].pcs[acts[n].t] == Numbered(Job(run[n].sh.lastNumber + 1, e))
            else run[n + 1] == run[n]
  {
  }

  /** The next step of that thread appends the P record; a finished execution appends the D record, a failed one none. */
  lemma RecordsAreWritten(run: seq<State>, acts: seq<Action>, n: nat)
    requires IsRun(run, acts) && n < |acts|
    ensures var pc := run[n].pcs[acts[n].t];
            run[n + 1].sh.log == run[n].sh.log +
              (match pc {
                 case Numbered(job) => [P(job.number, job.entry)]
                 case Refused(job) => [D(job.number)]
                 case Executed(job) => [D(job.number)]
                 case _ => []
               })
    ensures run[n].pcs[acts[n].t].Executing? ==>
              acts[n].t < |run[n + 1].pcs| && (run[n + 1].pcs[acts[n].t].Executed? <==> acts[n].e == Advance(true))
  {
    NilUnit(run[n].sh.log);
  }

  // ---------------------------------------------------------------- queues

  /** The worker of a session. */
  function WorkerOf(session: nat, workers: nat): nat
    requires workers > 0
  {
    session % workers
  }

  /** The job that action a queues for worker q, if any. */
  function QueuedBy(s: State, a: Action, q: nat): seq<Job>
    requires Enabled(s, a)
  {
    var pc := s.pcs[a.t];
    if pc.Written? && s.sh.running && WorkerOf(pc.job.entry.session, |s.sh.queues|) == q then [pc.job] else []
  }

  /** The job that action a takes off queue q, if any. */
  function TakenBy(s: State, a: Action, q: nat): seq<Job>
    requires Enabled(s, a)
  {
    if a.e == Pop(q) then [s.sh.queues[q][0]] else []
  }

  /** Everything queued for worker q in the first n steps, in that order. */
  ghost function Queued(run: seq<State>, acts: seq<Action>, n: nat, q: nat): seq<Job>
    requires IsRun(run, acts) && n < |run|
  {
    if n == 0 then [] else Queued(run, acts, n - 1, q) + QueuedBy(run[n - 1], acts[n - 1], q)
  }

  /** Everything taken off queue q in the first n steps, in that order. */
  ghost function Taken(run: seq<State>, acts: seq<Action>, n: nat, q: nat): seq<Job>
    requires IsRun(run, acts) && n < |run|
  {
    if n == 0 then [] else Taken(run, acts, n - 1, q) + TakenBy(run[n - 1], acts[n - 1], q)
  }

  lemma QueueStep(s: State, a: Action, q: nat)
    requires Enabled(s, a) && q < |s.sh.queues|
    ensures |Next(s, a).sh.queues| == |s.sh.queues|
    ensures TakenBy(s, a, q) + Next(s, a).sh.queues[q] == s.sh.queues[q] + QueuedBy(s, a, q)
  {
    NilUnit(s.sh.queues[q]);
    if a.e == Pop(q) { assert s.sh.queues[q] == [s.sh.queues[q][0]] + s.sh.queues[q][1..]; }
  }

  /** In every run a worker takes its tasks exactly in the order they were queued for it. */
  lemma {:induction false} TakenInQueueOrder(run: seq<State>, acts: seq<Action>, n: nat, q: nat)
    requires IsRun(run, acts) && n < |run| && q < |run[n].sh.queues|
    ensures Queued(run, acts, n, q) == Taken(run, acts, n, q) + run[n].sh.queues[q]
  {
    SameSize(run, acts, n);
    if n > 0 {
      SameSize(run, acts, n - 1);
      var s, a := run[n - 1], acts[n - 1];
      TakenInQueueOrder(run, acts, n - 1, q);
      QueueStep(s, a, q);
      Assoc(Taken(run, acts, n - 1, q), s.sh.queues[q], QueuedBy(s, a, q));
      Assoc(Taken(run, acts, n - 1, q), TakenBy(s, a, q), run[n].sh.queues[q]);
    }
  }

  /** Every task that was ever queued for a worker is one of that worker's sessions, so a session has one worker. */
  lemma {:induction false} QueuedForItsWorker(run: seq<State>, acts: seq<Action>, n: nat, q: nat, k: nat)
    requires IsRun(run, acts) && n < |run| && k < |Queued(run, acts, n, q)|
    ensures |run[0].sh.queues| > 0 && Queued(run, acts, n, q)[k].entry.session % |run[0].sh.queues| == q
  {
    SameSize(run, acts, n - 1);
    if k < |Queued(run, acts, n - 1, q)| { QueuedForItsWorker(run, acts, n - 1, q, k); }
  }

  /** Every written task of a running queue is queued, for its session's worker, at its thread's next step. */
  lemma WrittenIsQueued(run: seq<State>, acts: seq<Action>, n: nat)
    requires IsRun(run, acts) && n < |acts| && run[n].pcs[acts[n].t].Written? && run[n].sh.running
    ensures |run[0].sh.queues| > 0
    ensures var job := run[n].pcs[acts[n].t].job;
            var q := job.entry.session % |run[0].sh.queues|;
            q < |run[n].sh.queues| && q < |run[n + 1].sh.queues| && run[n + 1].sh.queues[q] == run[n].sh.queues[q] + [job]
  {
    SameSize(run, acts, n);
  }

  /** A written task of a stopped queue is refused, and gets its D record at its thread's next step. */
  lemma WrittenIsRefused(run: seq<State>, acts: seq<Action>, n: nat)
    requires IsRun(run, acts) && n < |acts| && run[n].pcs[acts[n].t].Written? && !run[n].sh.running
    ensures acts[n].t < |run[n + 1].pcs| && run[n + 1].pcs[acts[n].t] == Refused(run[n].pcs[acts[n].t].job)
    ensures run[n + 1].sh == run[n].sh
  {
  }

  // ---------------------------------------------------------------- one after the other

  /** In the first n steps, queue q is served by thread `owner(q)` alone. */
  ghost predicate OwnWorkers(acts: seq<Action>, n: nat, owner: nat -> nat)
  {
    forall k :: 0 <= k < n && k < |acts| && acts[k].e.Pop? ==> acts[k].t == owner(acts[k].e.q)
  }

  ghost predicate Ended(s: State, job: Job)
  {
    job.number in s.sh.place && (s.sh.place[job.number].Finished? || s.sh.place[job.number].Unsuccessful?)
  }

  ghost predicate RunsJob(s: State, t: nat, job: Job)
  {
    t < |s.pcs| && (s.pcs[t] == Executing(job) || s.pcs[t] == Executed(job))
  }

  /** Every task taken off queue q has ended, but for the last one, which its worker may be running. */
  ghost predicate OneByOne(s: State, taken: seq<Job>, t: nat)
  {
    forall k :: 0 <= k < |taken| ==> Ended(s, taken[k]) || (k == |taken| - 1 && RunsJob(s, t, taken[k]))
  }

  lemma EndedStays(s: State, a: Action, job: Job)
    requires Inv(s) && Enabled(s, a) && Ended(s, job)
    ensures Ended(Next(s, a), job)
  {
    FireMovesOne(s.sh, a.t, s.pcs[a.t], a.e);
  }

  lemma RunningGoesOnOrEnds(s: State, a: Action, t: nat, job: Job)
    requires Inv(s) && Enabled(s, a) && RunsJob(s, t, job)
    ensures RunsJob(Next(s, a), t, job) || Ended(Next(s, a), job)
  {
  }

  lemma OneByOneStep(s: State, a: Action, taken: seq<Job>, q: nat, t: nat)
    requires Inv(s) && Enabled(s, a) && OneByOne(s, taken, t) && (a.e == Pop(q) ==> a.t == t)
    ensures OneByOne(Next(s, a), taken + TakenBy(s, a, q), t)
  {
    var s', more := Next(s, a), taken + TakenBy(s, a, q);
    forall k | 0 <= k < |more| ensures Ended(s', more[k]) || (k == |more| - 1 && RunsJob(s', t, more[k])) {
      if k < |taken| {
        assert more[k] == taken[k];
        if Ended(s, taken[k]) { EndedStays(s, a, taken[k]); } else { RunningGoesOnOrEnds(s, a, t, taken[k]); }
      }
    }
  }

  lemma {:induction false} TakenOneByOne(run: seq<State>, acts: seq<Action>, n: nat, q: nat, owner: nat -> nat)
    requires IsRun(run, acts) && n < |run| && OwnWorkers(acts, n, owner)
    ensures OneByOne(run[n], Taken(run, acts, n, q), owner(q))
  {
    if n > 0 {
      TakenOneByOne(run, acts, n - 1, q, owner);
      InvAlways(run, acts, n - 1);
      OneByOneStep(run[n - 1], acts[n - 1], Taken(run, acts, n - 1, q), q, owner(q));
    }
  }

  /**
   Same session, same worker, first in first out: with each queue served by its own thread, the k-th
   task queued for a worker is not taken before every task queued earlier for it has ended.
   */
  lemma SerialPerWorker(run: seq<State>, acts: seq<Action>, n: nat, q: nat, owner: nat -> nat, j: nat, k: nat)
    requires IsRun(run, acts) && n < |run| && q < |run[n].sh.queues| && OwnWorkers(acts, n, owner)
    requires j < k < |Queued(run, acts, n, q)| && k < |Taken(run, acts, n, q)|
    ensures Taken(run, acts, n, q)[k] == Queued(run, acts, n, q)[k]
    ensures Ended(run[n], Queued(run, acts, n, q)[j])
  {
    TakenInQueueOrder(run, acts, n, q);
    TakenOneByOne(run, acts, n, q, owner);
  }

  /** Two tasks of one session, in whichever queues they were put, are in the same one. */
  lemma SessionHasOneWorker(run: seq<State>, acts: seq<Action>, n: nat, p: nat, q: nat, j: nat, k: nat)
    requires IsRun(run, acts) && n < |run| && j < |Queued(run, acts, n, p)| && k < |Queued(run, acts, n, q)|
    requires Queued(run, acts, n, p)[j].entry.session == Queued(run, acts, n, q)[k].entry.session
    ensures p == q
  {
    QueuedForItsWorker(run, acts, n, p, j);
    QueuedForItsWorker(run, acts, n, q, k);
  }

  /** After Stop the queue is not running any more, so every later call is turned away. */
  lemma {:induction false} StopStops(run: seq<State>, acts: seq<Action>, b: nat, i: nat)
    requires IsRun(run, acts) && b < i < |run| && acts[b].e == Stop
    ensures !run[i].sh.running
  {
    if b < i - 1 { StopStops(run, acts, b, i - 1); }
  }
}
