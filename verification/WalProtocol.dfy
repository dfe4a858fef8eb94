/**
 One process life of DBTaskQueue as a step machine: any number of callers enqueue, workers execute,
 Shutdown drains.  Numbers are drawn, P and D records appended and tasks queued in separate steps,
 so every state of a run is a possible crash point.
 */
module WalProtocol {
  import opened WalReplay

  /** A task with its log number. */
  datatype Job = Job(number: nat, entry: Entry)

  datatype Pc =
    | Idle
    | Numbered(job: Job)   // number drawn, P not written yet
    | Written(job: Job)    // P written, not queued yet
    | Refused(job: Job)    // not accepted any more: D is due
    | Executing(job: Job)
    | Executed(job: Job)   // succeeded: D is due

  /** Where a number is. */
  datatype Place = Drawn(t: nat) | Held(t: nat) | Queued(q: nat) | Unsuccessful | Finished | Cancelled

  datatype Shared = Shared(
    running: bool,
    lastNumber: nat,
    log: seq<Record>,
    queues: seq<seq<Job>>,
    place: map<nat, Place>,      // history: where each number drawn so far is
    entries: map<nat, Entry>)    // history: the task of each number

  datatype State = State(sh: Shared, pcs: seq<Pc>)

  datatype Event =
    | Enqueue(e: Entry)       // an idle thread calls EnqueueTask
    | Pop(q: nat)             // an idle thread takes the head of queue q
    | Stop                    // Shutdown clears mIsRunning
    | Advance(ok: bool)       // next step of a busy thread; ok is the task's success

  datatype Action = Action(t: nat, e: Event)

  ghost predicate Init(s: State)
  {
    && |s.sh.queues| > 0
    && s.sh == Shared(true, 0, [], s.sh.queues, map[], map[])
    && (forall q :: 0 <= q < |s.sh.queues| ==> s.sh.queues[q] == [])
    && forall t :: 0 <= t < |s.pcs| ==> s.pcs[t] == Idle
  }

  predicate CanFire(sh: Shared, pc: Pc, e: Event)
  {
    && |sh.queues| > 0
    && pc.Idle? == !e.Advance?
    && (e.Pop? ==> e.q < |sh.queues| && sh.queues[e.q] != [])
  }

  predicate Enabled(s: State, a: Action) { a.t < |s.pcs| && CanFire(s.sh, s.pcs[a.t], a.e) }

  function Next(s: State, a: Action): State
    requires Enabled(s, a)
  {
    var (sh', pc') := Fire(s.sh, a.t, s.pcs[a.t], a.e);
    State(sh', s.pcs[a.t := pc'])
  }

  function Fire(sh: Shared, t: nat, pc: Pc, e: Event): (Shared, Pc)
    requires CanFire(sh, pc, e)
  {
    match pc
    case Idle =>
      (match e
       case Enqueue(entry) =>
         if !sh.running then (sh, Idle)
         else var n := sh.lastNumber + 1;
              (sh.(lastNumber := n, place := sh.place[n := Drawn(t)], entries := sh.entries[n := entry]),
               Numbered(Job(n, entry)))
       case Pop(q) =>
         var job := sh.queues[q][0];
         (sh.(queues := sh.queues[q := sh.queues[q][1..]], place := sh.place[job.number := Held(t)]), Executing(job))
       case Stop => (sh.(running := false), Idle))
    case Numbered(job) =>
      (sh.(log := sh.log + [P(job.number, job.entry)], place := sh.place[job.number := Held(t)]), Written(job))
    case Written(job) =>
      if sh.running then
        var q := job.entry.session % |sh.queues|;
        (sh.(queues := sh.queues[q := sh.queues[q] + [job]], place := sh.place[job.number := Queued(q)]), Idle)
      else (sh, Refused(job))
    case Refused(job) =>
      (sh.(log := sh.log + [D(job.number)], place := sh.place[job.number := Cancelled]), Idle)
    case Executing(job) =>
      if e.ok then (sh, Executed(job)) else (sh.(place := sh.place[job.number := Unsuccessful]), Idle)
    case Executed(job) =>
      (sh.(log := sh.log + [D(job.number)], place := sh.place[job.number := Finished]), Idle)
  }

  ghost predicate IsRun(run: seq<State>, acts: seq<Action>)
  {
    && |run| == |acts| + 1
    && Init(run[0])
    && forall i :: 0 <= i < |acts| ==> Enabled(run[i], acts[i]) && run[i + 1] == Next(run[i], acts[i])
  }

  // ---------------------------------------------------------------- what every step keeps

  /** The thread's job is where its program counter says. */
  ghost predicate PcInv(sh: Shared, t: nat, pc: Pc)
  {
    pc.Idle? ||
    (pc.job.number in sh.place && pc.job.number in sh.entries && sh.entries[pc.job.number] == pc.job.entry &&
     sh.place[pc.job.number] == if pc.Numbered? then Drawn(t) else Held(t))
  }

  ghost predicate QueueInv(sh: Shared)
  {
    && (forall q, k :: 0 <= q < |sh.queues| && 0 <= k < |sh.queues[q]| ==>
          var job := sh.queues[q][k];
          job.number in sh.place && sh.place[job.number] == Queued(q) &&
          job.number in sh.entries && sh.entries[job.number] == job.entry)
    && (forall q, j, k :: 0 <= q < |sh.queues| && 0 <= j < k < |sh.queues[q]| ==>
          sh.queues[q][j].number != sh.queues[q][k].number)
  }

  /** The number is owed to the next process. */
  predicate Owed(p: Place) { p.Held? || p.Queued? || p.Unsuccessful? }

  /** The log says pending exactly for the numbers that are owed, with their tasks, and Done for no such number. */
  ghost predicate LogInv(sh: Shared)
  {
    var m := Replay(map[], sh.log);
    && sh.place.Keys == sh.entries.Keys
    && (forall n :: n in sh.place ==> 0 < n <= sh.lastNumber)
    && (forall n :: n in m <==> n in sh.place && Owed(sh.place[n]))
    && (forall n :: n in m ==> m[n] == sh.entries[n])
    && (forall n :: D(n) in sh.log <==> n in sh.place && (sh.place[n].Finished? || sh.place[n].Cancelled?))
  }

  ghost predicate Inv(s: State)
  {
    QueueInv(s.sh) && LogInv(s.sh) && forall t :: 0 <= t < |s.pcs| ==> PcInv(s.sh, t, s.pcs[t])
  }

  /** A step changes the place of one number only: the stepping thread's, a new one, or a queue's head. */
  ghost predicate MovesOne(sh: Shared, sh': Shared, t: nat)
  {
    && (forall n :: n in sh.place ==> n in sh'.place)
    && (forall n :: n in sh.entries && n in sh.place ==> n in sh'.entries && sh'.entries[n] == sh.entries[n])
    && (forall n :: n in sh.place && sh'.place[n] != sh.place[n] ==>
          sh.place[n] == Drawn(t) || sh.place[n] == Held(t) || sh.place[n].Queued?)
  }

  lemma FireMovesOne(sh: Shared, t: nat, pc: Pc, e: Event)
    requires CanFire(sh, pc, e) && PcInv(sh, t, pc) && QueueInv(sh) && LogInv(sh)
    ensures MovesOne(sh, Fire(sh, t, pc, e).0, t)
    ensures PcInv(Fire(sh, t, pc, e).0, t, Fire(sh, t, pc, e).1)
  {
  }

  lemma OthersKeepTheirJobs(sh: Shared, sh': Shared, t: nat, u: nat, pc: Pc)
    requires MovesOne(sh, sh', t) && PcInv(sh, u, pc) && u != t
    ensures PcInv(sh', u, pc)
  {
  }

  /** The head of a queue is taken. */
  lemma PopKeepsQueues(sh: Shared, q: nat, p: Place)
    requires QueueInv(sh) && q < |sh.queues| && sh.queues[q] != []
    ensures QueueInv(sh.(queues := sh.queues[q := sh.queues[q][1..]], place := sh.place[sh.queues[q][0].number := p]))
  {
  }

  /** A job that is in no queue joins one. */
  lemma PushKeepsQueues(sh: Shared, q: nat, job: Job)
    requires QueueInv(sh) && q < |sh.queues| && job.number in sh.place && !sh.place[job.number].Queued?
    requires job.number in sh.entries && sh.entries[job.number] == job.entry
    ensures QueueInv(sh.(queues := sh.queues[q := sh.queues[q] + [job]], place := sh.place[job.number := Queued(q)]))
  {
  }

  /** A number that is in no queue goes elsewhere, or is new. */
  lemma MoveKeepsQueues(sh: Shared, sh': Shared, n: nat)
    requires QueueInv(sh) && sh'.queues == sh.queues && (n in sh.place ==> !sh.place[n].Queued?)
    requires forall k :: k in sh.place && k != n ==> k in sh'.place && sh'.place[k] == sh.place[k]
    requires forall k :: k in sh.entries && k != n ==> k in sh'.entries && sh'.entries[k] == sh.entries[k]
    ensures QueueInv(sh')
  {
  }

  lemma FireKeepsQueues(sh: Shared, t: nat, pc: Pc, e: Event)
    requires CanFire(sh, pc, e) && PcInv(sh, t, pc) && QueueInv(sh) && LogInv(sh)
    ensures QueueInv(Fire(sh, t, pc, e).0)
  {
    var sh' := Fire(sh, t, pc, e).0;
    if e.Pop? {
      PopKeepsQueues(sh, e.q, Held(t));
    } else if pc.Written? && sh.running {
      PushKeepsQueues(sh, pc.job.entry.session % |sh.queues|, pc.job);
    } else {
      MoveKeepsQueues(sh, sh', if pc.Idle? then sh.lastNumber + 1 else pc.job.number);
    }
  }

  /** Numbers move between places of the same standing, and new ones are only drawn. */
  lemma MoveKeepsLog(sh: Shared, sh': Shared)
    requires LogInv(sh) && sh'.log == sh.log && sh'.lastNumber >= sh.lastNumber
    requires sh'.place.Keys == sh'.entries.Keys && (forall n :: n in sh'.place ==> 0 < n <= sh'.lastNumber)
    requires forall n :: n in sh.place ==>
               n in sh'.place && sh'.entries[n] == sh.entries[n] &&
               (sh'.place[n] == sh.place[n] || (Owed(sh.place[n]) && Owed(sh'.place[n])))
    requires forall n :: n in sh'.place && n !in sh.place ==> sh'.place[n].Drawn?
    ensures LogInv(sh')
  {
  }

  lemma WritePKeepsLog(sh: Shared, n: nat, p: Place)
    requires LogInv(sh) && n in sh.place && sh.place[n].Drawn? && Owed(p)
    ensures LogInv(sh.(log := sh.log + [P(n, sh.entries[n])], place := sh.place[n := p]))
  {
    ReplaySnoc(map[], sh.log, P(n, sh.entries[n]));
  }

  lemma WriteDKeepsLog(sh: Shared, n: nat, p: Place)
    requires LogInv(sh) && n in sh.place && Owed(sh.place[n]) && (p.Finished? || p.Cancelled?)
    ensures LogInv(sh.(log := sh.log + [D(n)], place := sh.place[n := p]))
  {
    ReplaySnoc(map[], sh.log, D(n));
  }

  lemma WriteKeepsLog(sh: Shared, n: nat, r: Record, p: Place)
    requires LogInv(sh) && n in sh.place
    requires (r == P(n, sh.entries[n]) && sh.place[n].Drawn? && Owed(p)) ||
             (r == D(n) && Owed(sh.place[n]) && (p.Finished? || p.Cancelled?))
    ensures LogInv(sh.(log := sh.log + [r], place := sh.place[n := p]))
  {
    if r.P? { WritePKeepsLog(sh, n, p); } else { WriteDKeepsLog(sh, n, p); }
  }

  lemma FireKeepsLog(sh: Shared, t: nat, pc: Pc, e: Event)
    requires CanFire(sh, pc, e) && PcInv(sh, t, pc) && QueueInv(sh) && LogInv(sh)
    ensures LogInv(Fire(sh, t, pc, e).0)
  {
    match pc {
      case Numbered(job) => WriteKeepsLog(sh, job.number, P(job.number, job.entry), Held(t));
      case Refused(job) => WriteKeepsLog(sh, job.number, D(job.number), Cancelled);
      case Executed(job) => WriteKeepsLog(sh, job.number, D(job.number), Finished);
      case _ => MoveKeepsLog(sh, Fire(sh, t, pc, e).0);
    }
  }

  lemma InvStep(s: State, a: Action)
    requires Inv(s) && Enabled(s, a)
    ensures Inv(Next(s, a))
  {
    var pc, sh' := s.pcs[a.t], Next(s, a).sh;
    FireMovesOne(s.sh, a.t, pc, a.e);
    FireKeepsQueues(s.sh, a.t, pc, a.e);
    FireKeepsLog(s.sh, a.t, pc, a.e);
    forall u | 0 <= u < |s.pcs| && u != a.t ensures PcInv(sh', u, s.pcs[u]) {
      OthersKeepTheirJobs(s.sh, sh', a.t, u, s.pcs[u]);
    }
  }

  lemma {:induction false} InvAlways(run: seq<State>, acts: seq<Action>, i: nat)
    requires IsRun(run, acts) && i < |run|
    ensures Inv(run[i])
  {
    if i > 0 {
      InvAlways(run, acts, i - 1);
      InvStep(run[i - 1], acts[i - 1]);
    }
  }

  // ---------------------------------------------------------------- crash safety

  /** The task of number n still has to be done: some thread or queue has it, or its execution failed. */
  ghost predicate Unfinished(s: State, n: nat)
  {
    || (exists t :: 0 <= t < |s.pcs| && !s.pcs[t].Idle? && !s.pcs[t].Numbered? && s.pcs[t].job.number == n)
    || (exists q, k :: 0 <= q < |s.sh.queues| && 0 <= k < |s.sh.queues[q]| && s.sh.queues[q][k].number == n)
    || (n in s.sh.place && s.sh.place[n].Unsuccessful?)
  }

  /**
   Crash safety: at every point of every run the log's pending tasks are all the unfinished ones with
   their own data, none of them has a Done record, and a number that is no longer pending was
   executed successfully, was refused by a stopping queue, or had not been written yet.
   */
  lemma CrashSafe(run: seq<State>, acts: seq<Action>, i: nat, n: nat)
    requires IsRun(run, acts) && i < |run|
    ensures var s := run[i];
            var m := Replay(map[], s.sh.log);
            && (Unfinished(s, n) ==> n in m)
            && (n in m ==> n in s.sh.entries && m[n] == s.sh.entries[n] && D(n) !in s.sh.log)
            && (n in s.sh.place && n !in m ==>
                  s.sh.place[n].Finished? || s.sh.place[n].Cancelled? || s.sh.place[n].Drawn?)
  {
    InvAlways(run, acts, i);
  }
}
