/**
 Crash and recovery end to end: the log of any run of the queue, as text in a file, read back and
 re-enqueued by the next process; and what it does when that process dies too, at any point.
 */
module WalRecovery {
  import opened Basics
  import opened WalReplay
  import opened WalCrash
  import opened WalProtocol
  import opened WalText
  import Sequences

  /** Number n is owed at state s: written, not done, not refused. */
  ghost predicate OwedAt(s: State, n: nat) { n in s.sh.place && Owed(s.sh.place[n]) && n in s.sh.entries }

  /** `queued` is the entries of exactly the owed numbers, in number order. */
  ghost predicate Restores(s: State, keys: seq<nat>, queued: seq<Entry>)
  {
    && (forall i, j :: 0 <= i < j < |keys| ==> keys[i] < keys[j])
    && (forall n :: n in keys <==> OwedAt(s, n))
    && |queued| == |keys|
    && forall i :: 0 <= i < |keys| ==> OwedAt(s, keys[i]) && queued[i] == s.sh.entries[keys[i]]
  }

  lemma CrashedLogRestores(run: seq<State>, acts: seq<Action>, i: nat, keys: seq<nat>)
    requires IsRun(run, acts) && i < |run| && Ascending(Replay(map[], run[i].sh.log), keys)
    ensures Restores(run[i], keys, EntriesAt(Replay(map[], run[i].sh.log), keys))
    ensures forall n :: Unfinished(run[i], n) ==> n in keys
  {
    InvAlways(run, acts, i);
    forall k | 0 <= k < |keys| ensures OwedAt(run[i], keys[k]) { assert keys[k] in keys; }
    forall n | Unfinished(run[i], n) ensures n in keys { CrashSafe(run, acts, i, n); }
  }

  /** Parses the text of a log without backup line by line, and recovers from what it found. */
  method RecoverText(text: string) returns (keys: seq<nat>, queued: seq<Entry>)
    ensures var m := Replay(map[], ParseLines(Lines(text)));
            Ascending(m, keys) && queued == EntriesAt(m, keys)
  {
    var m := ParseWalFile(text, map[]);
    var log := new Log(File(ParseLines(Lines(text))), NoFile);
    keys := log.Rebuild(m);
    queued := log.queued;
    Sequences.NilUnit(EntriesAt(m, keys));
  }

  /**
   The next process reads the file that any run had written when it died, and recovers: exactly the
   owed tasks are queued again, in number order and with their own data, and none of the unfinished
   ones is missing.
   */
  method RecoverAfterCrash(ghost run: seq<State>, ghost acts: seq<Action>, ghost i: nat, text: string)
    returns (keys: seq<nat>, queued: seq<Entry>)
    requires IsRun(run, acts) && i < |run| && text == PrintLog(run[i].sh.log)
    requires forall k :: 0 <= k < |run[i].sh.log| ==> Printable(run[i].sh.log[k])
    ensures Restores(run[i], keys, queued)
    ensures forall n :: Unfinished(run[i], n) ==> n in keys
  {
    keys, queued := RecoverText(text);
    LogRoundTrip(run[i].sh.log);
    CrashedLogRestores(run, acts, i, keys);
  }

  // ---------------------------------------------------------------- the recovering process

  /** The log of a run is orderly, so the exact conditions for a crash of its recovery apply to it. */
  lemma CrashedLogIsOrderly(run: seq<State>, acts: seq<Action>, i: nat)
    requires IsRun(run, acts) && i < |run|
    ensures Orderly(run[i].sh.log)
  {
    InvAlways(run, acts, i);
  }

  /** Action a of a recovering process: thread t alone enqueues, the entries in order, and nobody stops the queue. */
  ghost predicate Recovers(s: State, a: Action, t: nat, entries: seq<Entry>)
  {
    && !a.e.Stop?
    && (a.e.Enqueue? ==> a.t == t && s.sh.lastNumber < |entries| && a.e.e == entries[s.sh.lastNumber])
  }

  /** The first i steps re-enqueue a prefix of `entries`, while any other threads execute. */
  ghost predicate RecoveringRun(run: seq<State>, acts: seq<Action>, i: nat, t: nat, entries: seq<Entry>)
  {
    && IsRun(run, acts) && i < |run| && t < |run[0].pcs|
    && forall k :: 0 <= k < i ==> Recovers(run[k], acts[k], t, entries)
  }

  /** The numbers are 1 to lastNumber, with the entries in order; only the last may be unwritten. */
  ghost predicate RecoverInv(s: State, t: nat, entries: seq<Entry>)
  {
    && s.sh.running && t < |s.pcs| && s.sh.lastNumber <= |entries|
    && (forall n: nat :: n in s.sh.place <==> 1 <= n <= s.sh.lastNumber)
    && (forall n: nat :: n in s.sh.place && n in s.sh.entries ==> s.sh.entries[n] == entries[n - 1])
    && (forall n: nat :: n in s.sh.place && s.sh.place[n].Drawn? ==> n == s.sh.lastNumber && Drawing(s.pcs[t], n))
    && (forall n: nat :: n in s.sh.place ==> !s.sh.place[n].Cancelled?)
    && forall u :: 0 <= u < |s.pcs| ==> !s.pcs[u].Refused?
  }

  predicate Drawing(pc: Pc, n: nat) { pc.Numbered? && pc.job.number == n }

  /** Thread t draws the next number for the next entry. */
  ghost predicate DrawMove(sh: Shared, sh': Shared, pc': Pc, t: nat, entries: seq<Entry>)
  {
    var n := sh.lastNumber + 1;
    && n <= |entries| && sh'.running == sh.running && sh'.lastNumber == n && Drawing(pc', n)
    && sh'.place == sh.place[n := Drawn(t)] && sh'.entries == sh.entries[n := entries[n - 1]]
  }

  /** No number is drawn, and one that its thread has left is not unwritten any more. */
  ghost predicate WorkMove(sh: Shared, pc: Pc, sh': Shared, pc': Pc)
  {
    && sh'.running == sh.running && sh'.lastNumber == sh.lastNumber
    && sh'.place.Keys == sh.place.Keys && sh'.entries == sh.entries
    && (forall n :: n in sh.place && sh'.place[n].Drawn? ==> sh.place[n].Drawn? && !Drawing(pc, n))
    && (forall n :: n in sh.place && sh'.place[n].Cancelled? ==> sh.place[n].Cancelled? || pc.Refused?)
    && !pc'.Refused?
  }

  lemma FireRecovers(sh: Shared, u: nat, pc: Pc, e: Event, t: nat, entries: seq<Entry>)
    requires CanFire(sh, pc, e) && PcInv(sh, u, pc) && QueueInv(sh) && !e.Stop? && sh.running
    requires e.Enqueue? ==> u == t && sh.lastNumber < |entries| && e.e == entries[sh.lastNumber]
    ensures var (sh', pc') := Fire(sh, u, pc, e);
            if e.Enqueue? then DrawMove(sh, sh', pc', t, entries) else WorkMove(sh, pc, sh', pc')
  {
  }

  lemma DrawKeeps(s: State, t: nat, sh': Shared, pc': Pc, entries: seq<Entry>)
    requires RecoverInv(s, t, entries) && s.pcs[t].Idle? && DrawMove(s.sh, sh', pc', t, entries)
    ensures RecoverInv(State(sh', s.pcs[t := pc']), t, entries)
  {
  }

  lemma WorkKeeps(s: State, u: nat, t: nat, sh': Shared, pc': Pc, entries: seq<Entry>)
    requires RecoverInv(s, t, entries) && u < |s.pcs| && WorkMove(s.sh, s.pcs[u], sh', pc')
    ensures RecoverInv(State(sh', s.pcs[u := pc']), t, entries)
  {
  }

  lemma RecoverStep(s: State, a: Action, t: nat, entries: seq<Entry>)
    requires Inv(s) && RecoverInv(s, t, entries) && Enabled(s, a) && Recovers(s, a, t, entries)
    ensures RecoverInv(Next(s, a), t, entries)
  {
    var (sh', pc') := Fire(s.sh, a.t, s.pcs[a.t], a.e);
    FireRecovers(s.sh, a.t, s.pcs[a.t], a.e, t, entries);
    if a.e.Enqueue? { DrawKeeps(s, t, sh', pc', entries); } else { WorkKeeps(s, a.t, t, sh', pc', entries); }
  }

  lemma {:induction false} RecoverInvAlways(run: seq<State>, acts: seq<Action>, i: nat, t: nat, entries: seq<Entry>)
    requires RecoveringRun(run, acts, i, t, entries)
    ensures RecoverInv(run[i], t, entries)
  {
    if i > 0 {
      RecoverInvAlways(run, acts, i - 1, t, entries);
      InvAlways(run, acts, i - 1);
      RecoverStep(run[i - 1], acts[i - 1], t, entries);
    }
  }

  /** How many entries have their P record. */
  function WrittenCount(s: State, t: nat): nat
    requires t < |s.pcs|
  {
    if s.pcs[t].Numbered? && s.sh.lastNumber > 0 then s.sh.lastNumber - 1 else s.sh.lastNumber
  }

  /** So the log of a recovering process renumbers the recovered tasks, whatever its workers have done. */
  lemma RecoveringRunRenumbers(run: seq<State>, acts: seq<Action>, i: nat, t: nat, entries: seq<Entry>)
    requires RecoveringRun(run, acts, i, t, entries)
    ensures t < |run[i].pcs| && Renumbers(run[i].sh.log, entries, WrittenCount(run[i], t))
  {
    RecoverInvAlways(run, acts, i, t, entries);
    InvAlways(run, acts, i);
  }

  /** Once the last entry is queued, every recovered task is done, with its D record, or pending in the new log. */
  lemma RecoveredBesideWorkers(run: seq<State>, acts: seq<Action>, i: nat, t: nat, entries: seq<Entry>, k: nat)
    requires RecoveringRun(run, acts, i, t, entries) && run[i].sh.lastNumber == |entries| && k < |entries|
    requires t < |run[i].pcs| && run[i].pcs[t].Idle?
    ensures var m := Replay(map[], run[i].sh.log);
            if D(k + 1) in run[i].sh.log then k + 1 in run[i].sh.place && run[i].sh.place[k + 1].Finished? && k + 1 !in m
            else At(m, k + 1) == Some(entries[k])
    ensures forall n :: n in Replay(map[], run[i].sh.log) ==> 1 <= n <= |entries|
  {
    RecoveringRunRenumbers(run, acts, i, t, entries);
    RecoverInvAlways(run, acts, i, t, entries);
    InvAlways(run, acts, i);
  }

  /**
   Any crash of any recovery: from whatever two orderly files it started, and whatever the workers of
   the recovering process have executed meanwhile, a task that was not executed is lost if and only if
   the condition of TaskLostIff holds of its log.
   */
  lemma RecoveryCrashLosesIff(d: Disk, keys: seq<nat>, run: seq<State>, acts: seq<Action>, i: nat, t: nat, k: nat)
    requires OrderlyDisk(d) && Ascending(PendingOn(d), keys) && k < |keys|
    requires RecoveringRun(run, acts, i, t, EntriesAt(PendingOn(d), keys))
    ensures t < |run[i].pcs| && Recovering(d, keys, run[i].sh.log, WrittenCount(run[i], t))
    ensures var nw, j := run[i].sh.log, WrittenCount(run[i], t);
            Lost(d, keys, nw, k) <==>
            if k < j then
              && D(k + 1) !in nw && D(k + 1) in d.primary
              && (keys[k] in Replay(map[], d.primary) ==> keys[k] <= j && D(keys[k]) !in nw)
            else keys[k] !in Replay(map[], d.primary)
  {
    RecoveringRunRenumbers(run, acts, i, t, EntriesAt(PendingOn(d), keys));
    TaskLostIff(d, keys, run[i].sh.log, WrittenCount(run[i], t), k);
  }

  /**
   The first recovery, from the log of any run: a task is lost exactly when it is re-enqueued under a
   number that was done or refused in the first life, is not executed yet, and its old number is the
   new number of a task that is not executed yet either.
   */
  lemma SecondCrashLosesIff(life: seq<State>, steps: seq<Action>, c: nat, keys: seq<nat>,
                            run: seq<State>, acts: seq<Action>, i: nat, t: nat, k: nat)
    requires IsRun(life, steps) && c < |life| && Ascending(Replay(map[], life[c].sh.log), keys) && k < |keys|
    requires RecoveringRun(run, acts, i, t, EntriesAt(Replay(map[], life[c].sh.log), keys))
    ensures t < |run[i].pcs|
    ensures var nw, j := run[i].sh.log, WrittenCount(run[i], t);
            Lost(Disk(life[c].sh.log, []), keys, nw, k) <==>
            D(k + 1) in life[c].sh.log && D(k + 1) !in nw && keys[k] <= j && D(keys[k]) !in nw
    ensures D(k + 1) in life[c].sh.log ==>
              k + 1 in life[c].sh.place && (life[c].sh.place[k + 1].Finished? || life[c].sh.place[k + 1].Cancelled?)
  {
    var d := Disk(life[c].sh.log, []);
    CrashedLogIsOrderly(life, steps, c);
    InvAlways(life, steps, c);
    assert Replay(map[], []) == map[] && PendingOn(d) == Replay(map[], life[c].sh.log);
    assert keys[k] in keys;
    PrimaryWins(d, 0);
    KeysRunAhead(PendingOn(d), keys, k);
    RecoveryCrashLosesIff(d, keys, run, acts, i, t, k);
  }
}
