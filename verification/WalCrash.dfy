/**
 A recovery that dies: what is left on disk, and exactly which tasks the next start no longer finds.

 A recovery reads both files, removes the old backup, renames the primary to be the backup,
 re-enqueues every task under a new number into a new primary while the workers already execute, and
 removes the backup at the end.  It may start from any two files, in particular from those that an
 earlier recovery left when it died.
 */
module WalCrash {
  import opened Basics
  import opened Sequences
  import opened WalReplay

  /** What a start reads from them. */
  function PendingOn(d: Disk): Pending { Replay(Replay(map[], d.primary), d.backup) }

  /** Numbers start at 1, and a number with a D record is not pending. */
  ghost predicate Orderly(log: seq<Record>)
  {
    0 !in Replay(map[], log) && forall n :: D(n) in log ==> n !in Replay(map[], log)
  }

  ghost predicate OrderlyDisk(d: Disk) { Orderly(d.primary) && Orderly(d.backup) }

  /**
   `nw` is the log of a process that has re-enqueued the first j of `entries`, as the numbers 1 to j;
   those of its workers that were fast have D records.
   */
  ghost predicate Renumbers(nw: seq<Record>, entries: seq<Entry>, j: nat)
  {
    var f := Replay(map[], nw);
    && j <= |entries|
    && (forall n: nat :: D(n) in nw ==> 1 <= n <= j)
    && (forall n: nat :: n in f <==> 1 <= n <= j && D(n) !in nw)
    && forall n: nat :: n in f ==> f[n] == entries[n - 1]
  }

  /** A recovery from d, whose tasks have the numbers `keys`, when its new log is nw and j tasks are in it. */
  ghost predicate Recovering(d: Disk, keys: seq<nat>, nw: seq<Record>, j: nat)
  {
    OrderlyDisk(d) && Ascending(PendingOn(d), keys) && Renumbers(nw, EntriesAt(PendingOn(d), keys), j)
  }

  /** What that recovery can leave when it dies. */
  ghost predicate Leaves(d: Disk, keys: seq<nat>, nw: seq<Record>, j: nat, d': Disk)
  {
    && Recovering(d, keys, nw, j)
    && (|| d' == d                                     // before it touched the files
        || d' == Disk(d.primary, [])                   // the old backup is removed
        || d' == Disk(nw, d.primary)                   // renamed, and re-enqueueing
        || (j == |keys| && d' == Disk(nw, [])))        // done
  }

  // ---------------------------------------------------------------- the files, number by number

  lemma PendingOnAt(d: Disk, n: nat)
    ensures At(PendingOn(d), n) ==
            if D(n) !in d.backup && n in Replay(map[], d.primary) then At(Replay(map[], d.primary), n)
            else At(Replay(map[], d.backup), n)
  {
    ReplayByNumber(Replay(map[], d.primary), d.backup, n);
  }

  /** What is pending in the primary and read as pending is read with the primary's entry; 0 is never read. */
  lemma PrimaryWins(d: Disk, n: nat)
    requires OrderlyDisk(d)
    ensures n in PendingOn(d) && n in Replay(map[], d.primary) ==> At(PendingOn(d), n) == At(Replay(map[], d.primary), n)
    ensures 0 !in PendingOn(d)
  {
    PendingOnAt(d, n);
    PendingOnAt(d, 0);
  }

  lemma {:induction false} KeysRunAhead(m: Pending, keys: seq<nat>, i: nat)
    requires Ascending(m, keys) && 0 !in m && i < |keys|
    ensures i < keys[i]
  {
    if i == 0 { assert keys[0] in keys; } else { KeysRunAhead(m, keys, i - 1); }
  }

  /** The next start after a crash while re-enqueueing reads the new record of a number, or the old one. */
  lemma LeftAt(d: Disk, keys: seq<nat>, nw: seq<Record>, j: nat, n: nat)
    requires Recovering(d, keys, nw, j)
    ensures At(PendingOn(Disk(nw, d.primary)), n) ==
            if n in Replay(map[], nw) && D(n) !in d.primary then At(PendingOn(d), keys[n - 1])
            else At(Replay(map[], d.primary), n)
  {
    PendingOnAt(Disk(nw, d.primary), n);
    if n in Replay(map[], nw) { NewEntry(d, keys, nw, j, n); }
  }

  lemma NewEntry(d: Disk, keys: seq<nat>, nw: seq<Record>, j: nat, n: nat)
    requires Recovering(d, keys, nw, j) && n in Replay(map[], nw)
    ensures 1 <= n <= |keys| && At(Replay(map[], nw), n) == At(PendingOn(d), keys[n - 1])
  {
    assert keys[n - 1] in keys;
  }

  // ---------------------------------------------------------------- the tasks

  /** Number n of what is left stands for task i: as its new copy, or as the old record. */
  ghost predicate StandsFor(d: Disk, keys: seq<nat>, nw: seq<Record>, n: nat, i: nat)
    requires i < |keys|
  {
    || (n == i + 1 && n in Replay(map[], nw) && D(n) !in d.primary)
    || (n == keys[i] && n in Replay(map[], d.primary) && n !in Replay(map[], nw))
  }

  /** The next start still finds task i. */
  ghost predicate Kept(d: Disk, keys: seq<nat>, nw: seq<Record>, i: nat)
    requires i < |keys|
  {
    exists n :: StandsFor(d, keys, nw, n, i)
  }

  /** Task i was not executed, and the next start does not find it. */
  ghost predicate Lost(d: Disk, keys: seq<nat>, nw: seq<Record>, i: nat)
    requires i < |keys|
  {
    !Kept(d, keys, nw, i) && D(i + 1) !in nw
  }

  /** Number n was erased by a D record of the old backup, and comes back now that this backup is gone. */
  ghost predicate Resurfaces(d: Disk, nw: seq<Record>, n: nat)
  {
    n in Replay(map[], d.primary) && n !in PendingOn(d) && n !in Replay(map[], nw)
  }

  lemma StandsWithEntry(d: Disk, keys: seq<nat>, nw: seq<Record>, j: nat, n: nat, i: nat)
    requires Recovering(d, keys, nw, j) && i < |keys| && StandsFor(d, keys, nw, n, i)
    ensures At(PendingOn(Disk(nw, d.primary)), n) == At(PendingOn(d), keys[i]) != None
  {
    LeftAt(d, keys, nw, j, n);
    PrimaryWins(d, n);
    assert keys[i] in keys;
  }

  /** What is left holds exactly the copies that stand for tasks, each with its task's entry, and what resurfaces. */
  lemma LeftByTask(d: Disk, keys: seq<nat>, nw: seq<Record>, j: nat, n: nat)
    requires Recovering(d, keys, nw, j)
    ensures n in PendingOn(Disk(nw, d.primary)) <==>
            (exists i :: 0 <= i < |keys| && StandsFor(d, keys, nw, n, i)) || Resurfaces(d, nw, n)
    ensures forall i :: 0 <= i < |keys| && StandsFor(d, keys, nw, n, i) ==>
              At(PendingOn(Disk(nw, d.primary)), n) == At(PendingOn(d), keys[i])
    ensures Resurfaces(d, nw, n) ==> At(PendingOn(Disk(nw, d.primary)), n) == At(Replay(map[], d.primary), n)
  {
    LeftAt(d, keys, nw, j, n);
    forall i | 0 <= i < |keys| && StandsFor(d, keys, nw, n, i)
      ensures At(PendingOn(Disk(nw, d.primary)), n) == At(PendingOn(d), keys[i]) != None
    {
      StandsWithEntry(d, keys, nw, j, n, i);
    }
    if n in Replay(map[], nw) && D(n) !in d.primary {
      assert StandsFor(d, keys, nw, n, n - 1);
    } else if n in Replay(map[], d.primary) && n in PendingOn(d) {
      var i :| 0 <= i < |keys| && keys[i] == n;
      assert StandsFor(d, keys, nw, n, i);
    }
  }

  lemma KeptIff(d: Disk, keys: seq<nat>, nw: seq<Record>, i: nat)
    requires i < |keys|
    ensures Kept(d, keys, nw, i) <==>
            || (i + 1 in Replay(map[], nw) && D(i + 1) !in d.primary)
            || (keys[i] in Replay(map[], d.primary) && keys[i] !in Replay(map[], nw))
  {
    if i + 1 in Replay(map[], nw) && D(i + 1) !in d.primary {
      assert StandsFor(d, keys, nw, i + 1, i);
    } else if keys[i] in Replay(map[], d.primary) && keys[i] !in Replay(map[], nw) {
      assert StandsFor(d, keys, nw, keys[i], i);
    }
  }

  /**
   Exactly which tasks a crash loses, wherever the recovery started and however far it and its workers
   have come.  A task that is not re-enqueued yet is lost when only the removed backup had it.  A task
   that is re-enqueued is lost when its new number has a D record in the old primary, and its old
   record is missing there or hidden behind the new copy of another task.
   */
  lemma TaskLostIff(d: Disk, keys: seq<nat>, nw: seq<Record>, j: nat, i: nat)
    requires Recovering(d, keys, nw, j) && i < |keys|
    ensures Lost(d, keys, nw, i) <==>
            if i < j then
              && D(i + 1) !in nw && D(i + 1) in d.primary
              && (keys[i] in Replay(map[], d.primary) ==> keys[i] <= j && D(keys[i]) !in nw)
            else keys[i] !in Replay(map[], d.primary)
  {
    KeptIff(d, keys, nw, i);
    PrimaryWins(d, 0);
    KeysRunAhead(PendingOn(d), keys, i);
  }

  /** Exactly which tasks are left in the log twice, to be executed twice. */
  lemma TaskDoubledIff(d: Disk, keys: seq<nat>, nw: seq<Record>, j: nat, i: nat)
    requires Recovering(d, keys, nw, j) && i < |keys|
    ensures (exists n, k :: n != k && StandsFor(d, keys, nw, n, i) && StandsFor(d, keys, nw, k, i)) <==>
            && i < j && D(i + 1) !in nw && D(i + 1) !in d.primary
            && keys[i] in Replay(map[], d.primary) && !(keys[i] <= j && D(keys[i]) !in nw)
  {
    var f, p := Replay(map[], nw), Replay(map[], d.primary);
    PrimaryWins(d, 0);
    KeysRunAhead(PendingOn(d), keys, i);
    assert i + 1 in f <==> i < j && D(i + 1) !in nw;
    assert keys[i] in f <==> keys[i] <= j && D(keys[i]) !in nw;
    if i + 1 in f && D(i + 1) !in d.primary && keys[i] in p && keys[i] !in f {
      assert StandsFor(d, keys, nw, i + 1, i) && StandsFor(d, keys, nw, keys[i], i);
    }
  }

  /** Exactly which tasks that a worker has already executed come back, to be executed again. */
  lemma DoneReturnsIff(d: Disk, keys: seq<nat>, nw: seq<Record>, j: nat, i: nat)
    requires Recovering(d, keys, nw, j) && i < |keys| && D(i + 1) in nw
    ensures Kept(d, keys, nw, i) <==>
            keys[i] in Replay(map[], d.primary) && !(keys[i] <= j && D(keys[i]) !in nw)
  {
    KeptIff(d, keys, nw, i);
    PrimaryWins(d, 0);
    KeysRunAhead(PendingOn(d), keys, i);
  }

  /** An entry is gone from the disk exactly when no task with that entry is kept and none like it resurfaces. */
  lemma EntryGoneIff(d: Disk, keys: seq<nat>, nw: seq<Record>, j: nat, e: Entry)
    requires Recovering(d, keys, nw, j)
    ensures (forall n :: At(PendingOn(Disk(nw, d.primary)), n) != Some(e)) <==>
            && (forall i :: 0 <= i < |keys| && At(PendingOn(d), keys[i]) == Some(e) ==> !Kept(d, keys, nw, i))
            && (forall n :: Resurfaces(d, nw, n) ==> At(Replay(map[], d.primary), n) != Some(e))
  {
    var left := PendingOn(Disk(nw, d.primary));
    if n :| At(left, n) == Some(e) {
      LeftByTask(d, keys, nw, j, n);
      if i :| 0 <= i < |keys| && StandsFor(d, keys, nw, n, i) { assert Kept(d, keys, nw, i); }
    } else {
      forall i | 0 <= i < |keys| && At(PendingOn(d), keys[i]) == Some(e) ensures !Kept(d, keys, nw, i) {
        if n :| StandsFor(d, keys, nw, n, i) { LeftByTask(d, keys, nw, j, n); }
      }
      forall n | Resurfaces(d, nw, n) ensures At(Replay(map[], d.primary), n) != Some(e) {
        LeftByTask(d, keys, nw, j, n);
      }
    }
  }

  // ---------------------------------------------------------------- the other crash points

  /** Between removing the old backup and the rename, the next start reads the same as right after the rename. */
  lemma RemovedBackupIsRenamed(d: Disk)
    ensures PendingOn(Disk(d.primary, [])) == PendingOn(Disk([], d.primary))
  {
    assert Replay(map[], []) == map[];
    assert Replay(Replay(map[], d.primary), []) == Replay(map[], d.primary);
  }

  /** A recovery that has removed its backup at the end has every task in its log, or has executed it. */
  lemma CompletedLosesNothing(d: Disk, keys: seq<nat>, nw: seq<Record>, i: nat)
    requires Recovering(d, keys, nw, |keys|) && i < |keys|
    ensures D(i + 1) in nw || At(PendingOn(Disk(nw, [])), i + 1) == At(PendingOn(d), keys[i])
  {
    assert Replay(Replay(map[], nw), []) == Replay(map[], nw);
    assert keys[i] in keys;
  }

  // ---------------------------------------------------------------- safe at every crash point

  lemma FreshRenumbers(entries: seq<Entry>, j: nat)
    requires j <= |entries|
    ensures Renumbers(PendingRecords(entries[..j], 1), entries, j)
  {
    var nw := PendingRecords(entries[..j], 1);
    var f := Replay(map[], nw);
    forall n: nat ensures (n in f <==> 1 <= n <= j) && (n in f ==> f[n] == entries[n - 1]) {
      FreshLogReplays(entries[..j], 1, n);
      assert At(f, n) == if 1 <= n <= j then Some(entries[n - 1]) else None;
    }
    assert forall r :: r in nw ==> r.P?;
  }

  /**
   A recovery can lose nothing, wherever it dies, exactly when every task it starts from is in the
   primary, and none whose number its new numbers reach gets the number of a task that was done.
   */
  lemma NothingLostIff(d: Disk, keys: seq<nat>)
    requires OrderlyDisk(d) && Ascending(PendingOn(d), keys)
    ensures (forall nw, j, i :: Recovering(d, keys, nw, j) && 0 <= i < |keys| ==> !Lost(d, keys, nw, i)) <==>
            (forall i :: 0 <= i < |keys| ==>
               keys[i] in Replay(map[], d.primary) && (keys[i] <= |keys| ==> D(i + 1) !in d.primary))
  {
    if i :| 0 <= i < |keys| && !(keys[i] in Replay(map[], d.primary) && (keys[i] <= |keys| ==> D(i + 1) !in d.primary)) {
      SomeCrashLoses(d, keys, i);
    } else {
      forall nw, j, i | Recovering(d, keys, nw, j) && 0 <= i < |keys| ensures !Lost(d, keys, nw, i) {
        TaskLostIff(d, keys, nw, j, i);
      }
    }
  }

  lemma SomeCrashLoses(d: Disk, keys: seq<nat>, i: nat)
    requires OrderlyDisk(d) && Ascending(PendingOn(d), keys) && i < |keys|
    requires !(keys[i] in Replay(map[], d.primary) && (keys[i] <= |keys| ==> D(i + 1) !in d.primary))
    ensures exists nw, j :: Recovering(d, keys, nw, j) && Lost(d, keys, nw, i)
  {
    var entries := EntriesAt(PendingOn(d), keys);
    var j := if keys[i] in Replay(map[], d.primary) then |keys| else 0;
    var nw := PendingRecords(entries[..j], 1);
    FreshRenumbers(entries, j);
    assert Recovering(d, keys, nw, j);
    PrimaryWins(d, 0);
    KeysRunAhead(PendingOn(d), keys, i);
    TaskLostIff(d, keys, nw, j, i);
  }

  // ---------------------------------------------------------------- the first recovery

  /** A log without backup, and a recovery whose workers have not finished anything yet. */
  lemma FirstRecoveryLosesIff(log: seq<Record>, keys: seq<nat>, j: nat, i: nat)
    requires Orderly(log) && Ascending(Replay(map[], log), keys) && j <= |keys| && i < |keys|
    ensures var d := Disk(log, []);
            var nw := PendingRecords(EntriesAt(Replay(map[], log), keys)[..j], 1);
            Recovering(d, keys, nw, j) && (Lost(d, keys, nw, i) <==> keys[i] <= j && D(i + 1) in log)
  {
    var d := Disk(log, []);
    assert PendingOn(d) == Replay(map[], log);
    FreshRenumbers(EntriesAt(Replay(map[], log), keys), j);
    assert keys[i] in keys;
    assert OrderlyDisk(d) by { assert Replay(map[], []) == map[]; }
    PrimaryWins(d, 0);
    KeysRunAhead(PendingOn(d), keys, i);
    TaskLostIff(d, keys, PendingRecords(EntriesAt(Replay(map[], log), keys)[..j], 1), j, i);
  }

  /** With a log without backup and tasks that differ, a lost task is one whose entry no number has any more. */
  lemma LostForGoodIff(log: seq<Record>, keys: seq<nat>, nw: seq<Record>, j: nat, i: nat)
    requires Recovering(Disk(log, []), keys, nw, j) && i < |keys|
    requires forall k, l :: 0 <= k < l < |keys| ==> At(Replay(map[], log), keys[k]) != At(Replay(map[], log), keys[l])
    ensures (forall n :: At(PendingOn(Disk(nw, log)), n) != At(Replay(map[], log), keys[i])) <==>
            !Kept(Disk(log, []), keys, nw, i)
  {
    var d := Disk(log, []);
    assert PendingOn(d) == Replay(map[], log);
    assert keys[i] in keys;
    EntryGoneIff(d, keys, nw, j, Replay(map[], log)[keys[i]]);
  }

  // ---------------------------------------------------------------- any number of crashes

  lemma NewLogIsOrderly(nw: seq<Record>, entries: seq<Entry>, j: nat)
    requires Renumbers(nw, entries, j)
    ensures Orderly(nw)
  {
  }

  /** One recovery after the other, each dying somewhere; the first starts from a log without backup. */
  ghost predicate IsChain(disks: seq<Disk>)
  {
    && |disks| > 0 && Orderly(disks[0].primary) && disks[0].backup == []
    && forall k :: 0 <= k < |disks| - 1 ==> Dies(disks[k], disks[k + 1])
  }

  ghost predicate Dies(d: Disk, d': Disk) { exists keys, nw, j :: Leaves(d, keys, nw, j, d') }

  /** So the exact conditions apply to every crash of every chain. */
  lemma {:induction false} ChainIsOrderly(disks: seq<Disk>, k: nat)
    requires IsChain(disks) && k < |disks|
    ensures OrderlyDisk(disks[k])
  {
    assert Replay(map[], []) == map[];
    if k > 0 {
      ChainIsOrderly(disks, k - 1);
      assert Dies(disks[k - 1], disks[k]);
      var keys, nw, j :| Leaves(disks[k - 1], keys, nw, j, disks[k]);
      NewLogIsOrderly(nw, EntriesAt(PendingOn(disks[k - 1]), keys), j);
    }
  }

  lemma {:induction false} RequeuedAt(entries: seq<Entry>, first: nat, backup: seq<Record>, k: nat)
    requires k < |Requeued(entries, first, backup)|
    ensures |Requeued(entries, first, backup)| == |entries|
    ensures Requeued(entries, first, backup)[k] == Disk(PendingRecords(entries[..k + 1], first), backup)
  {
    var before := entries[..|entries| - 1];
    RequeuedLength(before, first, backup);
    if k < |Requeued(before, first, backup)| {
      RequeuedAt(before, first, backup, k);
      assert before[..k + 1] == entries[..k + 1];
    } else {
      assert entries[..k + 1] == entries;
    }
  }

  lemma {:induction false} RequeuedLength(entries: seq<Entry>, first: nat, backup: seq<Record>)
    ensures |Requeued(entries, first, backup)| == |entries|
  {
    if entries != [] { RequeuedLength(entries[..|entries| - 1], first, backup); }
  }

  /** Every disk that the recovering thread of a fresh process passes through is one that a crash may leave. */
  lemma TrailLeaves(d: Disk, keys: seq<nat>, k: nat)
    requires OrderlyDisk(d) && Ascending(PendingOn(d), keys)
    requires var entries := EntriesAt(PendingOn(d), keys); k < |Requeued(entries, 1, d.primary)|
    ensures var entries := EntriesAt(PendingOn(d), keys);
            && Dies(d, Disk(d.primary, [])) && Dies(d, Disk([], d.primary))
            && Dies(d, Requeued(entries, 1, d.primary)[k])
            && Dies(d, Disk(PendingRecords(entries, 1), []))
  {
    var entries := EntriesAt(PendingOn(d), keys);
    FreshRenumbers(entries, 0);
    assert PendingRecords(entries[..0], 1) == [];
    assert Leaves(d, keys, [], 0, Disk(d.primary, [])) && Leaves(d, keys, [], 0, Disk([], d.primary));
    RequeuedAt(entries, 1, d.primary, k);
    FreshRenumbers(entries, k + 1);
    assert Leaves(d, keys, PendingRecords(entries[..k + 1], 1), k + 1, Requeued(entries, 1, d.primary)[k]);
    FreshRenumbers(entries, |entries|);
    assert entries[..|entries|] == entries;
    assert Leaves(d, keys, PendingRecords(entries, 1), |entries|, Disk(PendingRecords(entries, 1), []));
  }

  lemma TwoRecords(a: Record, b: Record)
    ensures Replay(map[], [a]) == Apply(map[], a) && Replay(map[], [a, b]) == Apply(Apply(map[], a), b)
  {
    var m: Pending := map[];
    assert [a] == [] + [a] && [a, b] == [a] + [b];
    ReplaySnoc(m, [], a);
    ReplaySnoc(m, [a], b);
  }

  /** The three disks of the run below: two tasks, one re-enqueued, and the second recovery just begun. */
  lemma LossDisks(a: Entry, b: Entry)
    ensures var log := [P(1, a), P(2, b)];
            && Replay(map[], log) == map[1 := a, 2 := b] && Replay(map[], [P(1, a)]) == map[1 := a]
            && PendingOn(Disk(log, [])) == map[1 := a, 2 := b]
            && PendingOn(Disk([P(1, a)], log)) == map[1 := a, 2 := b]
            && PendingOn(Disk([], [P(1, a)])) == map[1 := a]
  {
    var log := [P(1, a), P(2, b)];
    TwoRecords(P(1, a), P(2, b));
    assert Replay(map[], []) == map[];
    assert log == [P(1, a)] + [P(2, b)] && [P(1, a)] == [] + [P(1, a)];
    ReplaySnoc(map[1 := a], [P(1, a)], P(2, b));
    ReplaySnoc(map[1 := a], [], P(1, a));
  }

  lemma LossRenumbers(a: Entry, b: Entry)
    ensures Renumbers([P(1, a)], [a, b], 1) && Renumbers([], [a, b], 0)
  {
    LossDisks(a, b);
    assert Replay(map[], []) == map[];
  }

  /**
   No D record and no number used for another task: the first recovery of two tasks dies after one
   re-enqueue and loses nothing; the second one removes the backup, which alone has task b, and dies.
   */
  lemma SecondRecoveryLoses(a: Entry, b: Entry) returns (d0: Disk, d1: Disk, d2: Disk)
    ensures IsChain([d0, d1, d2])
    ensures PendingOn(d0) == PendingOn(d1) == map[1 := a, 2 := b] && PendingOn(d2) == map[1 := a]
    ensures Recovering(d1, [1, 2], [], 0) && Lost(d1, [1, 2], [], 1)
  {
    var log := [P(1, a), P(2, b)];
    d0, d1, d2 := Disk(log, []), Disk([P(1, a)], log), Disk([], [P(1, a)]);
    LossDisks(a, b);
    LossRenumbers(a, b);
    assert Replay(map[], []) == map[];
    assert Ascending(map[1 := a, 2 := b], [1, 2]);
    assert EntriesAt(map[1 := a, 2 := b], [1, 2]) == [a, b];
    assert Leaves(d0, [1, 2], [P(1, a)], 1, d1);
    assert Leaves(d1, [1, 2], [], 0, d2);
    assert Dies(d0, d1) && Dies(d1, d2);
    TaskLostIff(d1, [1, 2], [], 0, 1);
  }
}
