/**
 The write-ahead log of DBTaskQueue as a list of records, its replay into the map of pending tasks,
 and the recovery that re-enqueues them.
 */
module WalReplay {
  import opened Basics
  import opened Sequences

  datatype Entry = Entry(kind: nat, session: nat, data: string)

  /** P is written before a task is queued, D after it was executed or cancelled. */
  datatype Record = P(number: nat, entry: Entry) | D(number: nat)

  type Pending = map<nat, Entry>

  /** One log line: the first P of a number wins, D erases. */
  function Apply(m: Pending, r: Record): Pending
  {
    match r
    case P(n, e) => if n in m then m else m[n := e]
    case D(n) => m - {n}
  }

  function Replay(m: Pending, log: seq<Record>): Pending
  {
    if log == [] then m else Apply(Replay(m, log[..|log| - 1]), log[|log| - 1])
  }

  lemma ReplaySnoc(m: Pending, log: seq<Record>, r: Record)
    ensures Replay(m, log + [r]) == Apply(Replay(m, log), r)
  {
    assert (log + [r])[..|log|] == log;
  }

  // ---------------------------------------------------------------- primary and backup together

  /** What a replay says about one number. */
  function At(m: Pending, n: nat): Maybe<Entry> { if n in m then Some(m[n]) else None }

  /**
   Replaying `log` on top of `m`, number by number: a D record in the log makes the earlier map
   irrelevant; without one the earlier map wins where it has an entry.
   */
  lemma {:induction false} ReplayByNumber(m: Pending, log: seq<Record>, n: nat)
    ensures At(Replay(m, log), n) ==
            if D(n) !in log && n in m then Some(m[n]) else At(Replay(map[], log), n)
  {
    if log != [] {
      ReplayByNumber(m, log[..|log| - 1], n);
      assert log == log[..|log| - 1] + [log[|log| - 1]];
    }
  }

  /** Number by number: exactly when the merge keeps what each of the two files says on its own. */
  lemma MergeKeepsAllIff(primary: seq<Record>, backup: seq<Record>)
    ensures var p, b := Replay(map[], primary), Replay(map[], backup);
            var merged := Replay(p, backup);
            (forall n :: (n in p ==> At(merged, n) == At(p, n)) && (n in b ==> At(merged, n) == At(b, n))) <==>
            (forall n :: n in p && (n in b || D(n) in backup) ==> At(b, n) == At(p, n))
  {
    var p, b := Replay(map[], primary), Replay(map[], backup);
    var merged := Replay(p, backup);
    forall n ensures (n in p ==> At(merged, n) == At(p, n)) && (n in b ==> At(merged, n) == At(b, n)) <==>
                     (n in p && (n in b || D(n) in backup) ==> At(b, n) == At(p, n))
    {
      ReplayByNumber(p, backup, n);
    }
  }

  /** Numbers that occur in only one of the two files are never confused. */
  lemma DisjointNumbersMerge(primary: seq<Record>, backup: seq<Record>, n: nat)
    requires forall r, q :: r in primary && q in backup ==> r.number != q.number
    ensures var p, b := Replay(map[], primary), Replay(map[], backup);
            At(Replay(p, backup), n) == if n in p then At(p, n) else At(b, n)
  {
    var p := Replay(map[], primary);
    ReplayByNumber(p, backup, n);
    if n in p {
      ReplayMentions(primary, n);
    }
  }

  lemma {:induction false} ReplayMentions(log: seq<Record>, n: nat)
    requires n in Replay(map[], log)
    ensures exists r :: r in log && r.number == n
  {
    var before, last := log[..|log| - 1], log[|log| - 1];
    assert log == before + [last];
    if n in Replay(map[], before) {
      ReplayMentions(before, n);
      var r :| r in before && r.number == n;
      assert r in log;
    } else {
      assert last in log && last.number == n;
    }
  }

  /**
   Numbers restart at 1 in every process, so a crash during re-enqueueing can lose a task although
   both files are read: here B was re-enqueued as number 1 and C as number 2, the backup is still
   there, and afterwards B is gone while C is pending twice.
   */
  lemma MergeCanLoseATask(a: Entry, b: Entry, c: Entry)
    ensures var backup := [P(1, a), D(1), P(2, b), P(3, c)];
            var primary := [P(1, b), P(2, c)];
            && Replay(map[], backup) == map[2 := b, 3 := c]
            && Ascending(map[2 := b, 3 := c], [2, 3])
            && primary == PendingRecords(EntriesAt(map[2 := b, 3 := c], [2, 3]), 1)
            && Replay(Replay(map[], primary), backup) == map[2 := c, 3 := c]
  {
    var backup := [P(1, a), D(1), P(2, b), P(3, c)];
    var m: Pending := map[];
    ReplayFour(map[], backup);
    ReplayFour(map[1 := b, 2 := c], backup);
    var primary := [P(1, b), P(2, c)];
    assert primary == [P(1, b)] + [P(2, c)] && [P(1, b)] == [] + [P(1, b)];
    ReplaySnoc(m, [P(1, b)], P(2, c));
    ReplaySnoc(m, [], P(1, b));
  }

  lemma ReplayFour(m: Pending, log: seq<Record>)
    requires |log| == 4
    ensures Replay(m, log) == Apply(Apply(Apply(Apply(m, log[0]), log[1]), log[2]), log[3])
  {
    assert log == [log[0], log[1], log[2]] + [log[3]];
    assert [log[0], log[1], log[2]] == [log[0], log[1]] + [log[2]] && [log[0], log[1]] == [log[0]] + [log[1]];
    assert [log[0]] == [] + [log[0]];
    ReplaySnoc(m, [log[0], log[1], log[2]], log[3]);
    ReplaySnoc(m, [log[0], log[1]], log[2]);
    ReplaySnoc(m, [log[0]], log[1]);
    ReplaySnoc(m, [], log[0]);
  }

  // ---------------------------------------------------------------- recovery

  /** `keys` lists the numbers of `m` in ascending order, each once. */
  ghost predicate Ascending(m: Pending, keys: seq<nat>)
  {
    && (forall i, j :: 0 <= i < j < |keys| ==> keys[i] < keys[j])
    && forall n :: n in keys <==> n in m
  }

  function EntriesAt(m: Pending, keys: seq<nat>): seq<Entry>
    requires forall i :: 0 <= i < |keys| ==> keys[i] in m
  {
    seq(|keys|, i requires 0 <= i < |keys| => m[keys[i]])
  }

  /** The pending records a run of new tasks writes, numbered from `first`. */
  function PendingRecords(entries: seq<Entry>, first: nat): seq<Record>
  {
    seq(|entries|, i requires 0 <= i < |entries| => P(first + i, entries[i]))
  }

  datatype File = NoFile | File(records: seq<Record>)

  /** The two files; a missing one is empty. */
  datatype Disk = Disk(primary: seq<Record>, backup: seq<Record>)

  function RecordsOf(f: File): seq<Record> { if f.File? then f.records else [] }

  /** A number above 0 was read from the file. */
  predicate Seen(f: File) { f.File? && exists i :: 0 <= i < |f.records| && f.records[i].number > 0 }

  class Log {
    var primary: File          // the log at mWalPath
    var backup: File           // its .bak copy
    var lastNumber: nat        // sGlobalSeq of this process
    var queued: seq<Entry>     // tasks given to the workers, in order
    var trail: seq<Disk>       // history: the disk after each change of a file

    constructor (primary: File, backup: File)
      ensures this.primary == primary && this.backup == backup && lastNumber == 0 && queued == [] && trail == []
    {
      this.primary, this.backup, lastNumber, queued, trail := primary, backup, 0, [], [];
    }

    /** A change of the files that a crash may come after. */
    method SetFiles(p: File, b: File)
      modifies this`primary, this`backup, this`trail
      ensures primary == p && backup == b && trail == old(trail) + [Disk(RecordsOf(p), RecordsOf(b))]
    {
      primary, backup := p, b;
      trail := trail + [Disk(RecordsOf(p), RecordsOf(b))];
    }

    /** parseWalFile on the parsed lines of one file. */
    method ParseFile(f: File, m0: Pending) returns (m: Pending)
      ensures m == Replay(m0, RecordsOf(f))
    {
      m := m0;
      if f.NoFile? { return; }
      for i := 0 to |f.records|
        invariant m == Replay(m0, f.records[..i])
      {
        assert f.records[..i + 1][..i] == f.records[..i];
        m := Apply(m, f.records[i]);
      }
      assert f.records[..|f.records|] == f.records;
    }

    /** EnqueueTask of a recovered task: a new number, a P record in the primary, then the queue. */
    method Enqueue(e: Entry)
      modifies this
      ensures lastNumber == old(lastNumber) + 1 && backup == old(backup)
      ensures primary == File(RecordsOf(old(primary)) + [P(lastNumber, e)])
      ensures queued == old(queued) + [e]
      ensures trail == old(trail) + [Disk(RecordsOf(primary), RecordsOf(backup))]
    {
      lastNumber := lastNumber + 1;
      SetFiles(File((if primary.File? then primary.records else []) + [P(lastNumber, e)]), backup);
      queued := queued + [e];
    }

    /**
     A recovery that completes re-enqueues every pending task of the two files once, in sequence
     order; the new primary log holds exactly their P records and the backup is gone.  Files in which
     no number above 0 was seen and nothing is pending stay as they are.
     */
    method WalRecover() returns (keys: seq<nat>)
      modifies this
      ensures var m := Replay(Replay(map[], RecordsOf(old(primary))), RecordsOf(old(backup)));
              && Ascending(m, keys)
              && queued == old(queued) + EntriesAt(m, keys)
              && lastNumber == old(lastNumber) + |keys|
              && (if keys == [] && !Seen(old(primary)) && !Seen(old(backup))
                  then primary == old(primary) && backup == old(backup)
                  else RecordsOf(primary) == PendingRecords(EntriesAt(m, keys), old(lastNumber) + 1) &&
                       RecordsOf(backup) == [])
    {
      var m := ParseFile(primary, map[]);
      m := ParseFile(backup, m);
      keys := Rebuild(m);
    }

    /** The part of the recovery behind the parsing of the two files. */
    method Rebuild(m: Pending) returns (keys: seq<nat>)
      modifies this
      ensures Ascending(m, keys)
      ensures queued == old(queued) + EntriesAt(m, keys) && lastNumber == old(lastNumber) + |keys|
      ensures if keys == [] && !Seen(old(primary)) && !Seen(old(backup))
              then primary == old(primary) && backup == old(backup)
              else RecordsOf(primary) == PendingRecords(EntriesAt(m, keys), old(lastNumber) + 1) &&
                   RecordsOf(backup) == []
      ensures keys != [] ==>
                var entries := EntriesAt(m, keys);
                trail == old(trail) + [Disk(RecordsOf(old(primary)), [])] + [Disk([], RecordsOf(old(primary)))]
                         + Requeued(entries, old(lastNumber) + 1, RecordsOf(old(primary)))
                         + [Disk(PendingRecords(entries, old(lastNumber) + 1), [])]
    {
      keys := AscendingKeys(m);
      if keys != [] { FirstKey(m, keys); }
      if m == map[] {
        NilUnit(queued);
        if !Seen(primary) && !Seen(backup) { return; }
        SetFiles(NoFile, NoFile);
        return;
      }
      SetFiles(primary, NoFile);   // the old backup is removed
      SetFiles(NoFile, primary);   // rename
      Requeue(EntriesAt(m, keys));
      SetFiles(primary, NoFile);   // the backup is removed
    }

    /** Also for a prefix of the tasks: what a crash in the middle of re-enqueueing leaves. */
    method Requeue(entries: seq<Entry>)
      requires primary == NoFile
      modifies this
      ensures queued == old(queued) + entries && lastNumber == old(lastNumber) + |entries|
      ensures RecordsOf(primary) == PendingRecords(entries, old(lastNumber) + 1) && backup == old(backup)
      ensures trail == old(trail) + Requeued(entries, old(lastNumber) + 1, RecordsOf(backup))
    {
      NilUnit(queued);
      NilUnit(trail);
      for i := 0 to |entries|
        invariant queued == old(queued) + entries[..i] && lastNumber == old(lastNumber) + i
        invariant RecordsOf(primary) == PendingRecords(entries[..i], old(lastNumber) + 1) && backup == old(backup)
        invariant trail == old(trail) + Requeued(entries[..i], old(lastNumber) + 1, RecordsOf(backup))
      {
        assert entries[..i + 1] == entries[..i] + [entries[i]];
        Assoc(old(queued), entries[..i], [entries[i]]);
        RequeuedSnoc(entries[..i], entries[i], old(lastNumber) + 1, RecordsOf(backup));
        Assoc(old(trail), Requeued(entries[..i], old(lastNumber) + 1, RecordsOf(backup)),
              [Disk(PendingRecords(entries[..i + 1], old(lastNumber) + 1), RecordsOf(backup))]);
        Enqueue(entries[i]);
      }
      assert entries[..|entries|] == entries;
    }
  }

  /** The disks while the entries are re-enqueued one by one. */
  function Requeued(entries: seq<Entry>, first: nat, backup: seq<Record>): seq<Disk>
  {
    if entries == [] then []
    else Requeued(entries[..|entries| - 1], first, backup) + [Disk(PendingRecords(entries, first), backup)]
  }

  lemma RequeuedSnoc(entries: seq<Entry>, e: Entry, first: nat, backup: seq<Record>)
    ensures Requeued(entries + [e], first, backup) ==
            Requeued(entries, first, backup) + [Disk(PendingRecords(entries + [e], first), backup)]
  {
    assert (entries + [e])[..|entries|] == entries;
  }

  lemma FirstKey(m: Pending, keys: seq<nat>)
    requires Ascending(m, keys) && keys != []
    ensures keys[0] in m
  {
    assert keys[0] in keys;
  }

  /** The iteration order of the ordered map. */
  method AscendingKeys(m: Pending) returns (keys: seq<nat>)
    ensures Ascending(m, keys)
  {
    keys := [];
    var left := m.Keys;
    while left != {}
      invariant left <= m.Keys
      invariant forall i, j :: 0 <= i < j < |keys| ==> keys[i] < keys[j]
      invariant forall n :: n in keys <==> n in m && n !in left
      invariant forall i, n :: 0 <= i < |keys| && n in left ==> keys[i] < n
      decreases left
    {
      var k := Least(left);
      keys := keys + [k];
      left := left - {k};
    }
  }

  method Least(s: set<nat>) returns (k: nat)
    requires s != {}
    ensures k in s && forall n :: n in s ==> k <= n
  {
    k :| k in s;
    var left := s - {k};
    while left != {}
      invariant k in s && left <= s
      invariant forall n :: n in s && n !in left ==> k <= n
      decreases left
    {
      var n :| n in left;
      left := left - {n};
      if n < k { k := n; }
    }
  }

  /** Replaying the freshly written log gives the re-enqueued tasks back, under their new numbers. */
  lemma {:induction false} FreshLogReplays(entries: seq<Entry>, first: nat, n: nat)
    ensures At(Replay(map[], PendingRecords(entries, first)), n) ==
            if first <= n < first + |entries| then Some(entries[n - first]) else None
  {
    if entries != [] {
      var before := entries[..|entries| - 1];
      FreshLogReplays(before, first, n);
      FreshLogReplays(before, first, first + |before|);
      assert PendingRecords(entries, first)[..|entries| - 1] == PendingRecords(before, first);
    }
  }
}
