/**
 What a bootstrap leaves behind and how every later start ends: the row of a module stays as its owner
 left it, and decides between "nothing to do" and an exception.
 */
module BootstrapEnds {
  import opened Basics
  import opened Bootstrap

  // ---------------------------------------------------------------- the row

  /** The status the owner of a row has written, by its program counter. */
  ghost predicate RowInv(db: Database, specs: seq<ModuleSpec>, k: nat, pc: Pc)
    requires k < |specs|
  {
    var m := specs[k].name;
    && (pc.Run? || pc.MarkCompleted? ==> m in db.rows && db.rows[m] == Row(specs[k].hash, InProgress))
    && (pc == Returned(true) ==> m in db.rows && db.rows[m] == Row(specs[k].hash, Completed))
  }

  predicate NeedsTable(pc: Pc) { pc.SecondRead? || pc.Insert? }

  ghost predicate RowsInv(s: State)
  {
    && Inv(s)
    && (s.db.rows != map[] ==> s.db.hasTable)
    && (forall k :: 0 <= k < |s.pcs| && NeedsTable(s.pcs[k]) ==> s.db.hasTable)
    && forall k :: 0 <= k < |s.pcs| ==> RowInv(s.db, s.specs, k, s.pcs[k])
  }

  /** An instance touches only the row that it owns or inserts. */
  lemma FireLeavesOthersRows(db: Database, specs: seq<ModuleSpec>, k: nat, pc: Pc, o: Outcome, m: string)
    requires !db.mock && TableInv(db, specs) && k < |specs| && !Finished(pc) && PcInv(db, specs, k, pc)
    requires m in db.inserter && db.inserter[m] != k
    ensures var db' := Fire(db, k, specs[k], pc, o).0;
            m in db.rows && m in db'.rows && db'.rows[m] == db.rows[m] && m in db'.inserter && db'.inserter[m] == db.inserter[m]
  {
  }

  lemma FireRow(db: Database, specs: seq<ModuleSpec>, k: nat, pc: Pc, o: Outcome)
    requires !db.mock && TableInv(db, specs) && k < |specs| && !Finished(pc) && PcInv(db, specs, k, pc)
    requires RowInv(db, specs, k, pc) && (db.rows != map[] ==> db.hasTable) && (NeedsTable(pc) ==> db.hasTable)
    ensures var (db', pc') := Fire(db, k, specs[k], pc, o);
            && RowInv(db', specs, k, pc') && (db.hasTable ==> db'.hasTable)
            && (db'.rows != map[] ==> db'.hasTable) && (NeedsTable(pc') ==> db'.hasTable)
  {
  }

  lemma OthersKeepRow(s: State, a: Action, l: nat)
    requires RowsInv(s) && Enabled(s, a) && l < |s.pcs| && l != a.inst
    ensures RowInv(Next(s, a).db, s.specs, l, s.pcs[l])
  {
    var m := s.specs[l].name;
    if Owns(s.pcs[l]) { FireLeavesOthersRows(s.db, s.specs, a.inst, s.pcs[a.inst], a.outcome, m); }
  }

  lemma RowsStep(s: State, a: Action)
    requires RowsInv(s) && Enabled(s, a)
    ensures RowsInv(Next(s, a))
  {
    InvStep(s, a);
    FireRow(s.db, s.specs, a.inst, s.pcs[a.inst], a.outcome);
    forall l | 0 <= l < |s.pcs| && l != a.inst ensures RowInv(Next(s, a).db, s.specs, l, s.pcs[l]) {
      OthersKeepRow(s, a, l);
    }
  }

  lemma {:induction false} RowsAlways(run: seq<State>, acts: seq<Action>, i: nat)
    requires IsRun(run, acts) && i < |run| && !run[0].db.mock
    ensures RowsInv(run[i]) && run[i].specs == run[0].specs
  {
    InvAlways(run, acts, i);
    if i > 0 {
      RowsAlways(run, acts, i - 1);
      RowsStep(run[i - 1], acts[i - 1]);
    }
  }

  lemma {:induction false} SpecsStay(run: seq<State>, acts: seq<Action>, i: nat)
    requires IsRun(run, acts) && i < |run|
    ensures run[i].specs == run[0].specs && |run[i].pcs| == |run[0].pcs|
  {
    if i > 0 { SpecsStay(run, acts, i - 1); }
  }

  /** Instance k inserted the row of its module, and has ended. */
  ghost predicate Settled(s: State, k: nat)
  {
    && k < |s.pcs| == |s.specs| && Finished(s.pcs[k])
    && s.specs[k].name in s.db.inserter && s.db.inserter[s.specs[k].name] == k && s.specs[k].name in s.db.rows
  }

  lemma SettledStep(s: State, a: Action, k: nat)
    requires RowsInv(s) && Enabled(s, a) && Settled(s, k)
    ensures Settled(Next(s, a), k) && Next(s, a).db.rows[s.specs[k].name] == s.db.rows[s.specs[k].name]
  {
    FireLeavesOthersRows(s.db, s.specs, a.inst, s.pcs[a.inst], a.outcome, s.specs[k].name);
  }

  /** Instance k has ended, and left this row. */
  ghost predicate SettledAs(s: State, k: nat, m: string, row: Row)
  {
    Settled(s, k) && s.specs[k].name == m && s.db.rows[m] == row
  }

  lemma SettledAt(run: seq<State>, acts: seq<Action>, n: nat, k: nat, m: string, row: Row)
    requires IsRun(run, acts) && n < |acts| && !run[0].db.mock && SettledAs(run[n], k, m, row)
    ensures SettledAs(run[n + 1], k, m, row)
  {
    RowsAlways(run, acts, n);
    SettledStep(run[n], acts[n], k);
  }

  /** Once its owner has ended, however it ended, a row never changes again. */
  lemma SettledRowStays(run: seq<State>, acts: seq<Action>, i: nat, j: nat, k: nat, m: string, row: Row)
    requires IsRun(run, acts) && i <= j < |run| && !run[0].db.mock && SettledAs(run[i], k, m, row)
    ensures SettledAs(run[j], k, m, row)
  {
    var settled := (n: nat) => n < |run| && SettledAs(run[n], k, m, row);
    forall n | i <= n < j && settled(n) ensures settled(n + 1) { SettledAt(run, acts, n, k, m, row); }
    StepByStep(settled, i, j);
  }

  /** A call that reports having run the bootstrap leaves the row COMPLETED with its own hash, for good. */
  lemma RanMeansCompleted(run: seq<State>, acts: seq<Action>, i: nat, j: nat, k: nat)
    requires IsRun(run, acts) && i <= j < |run| && !run[0].db.mock && k < |run[i].pcs| && run[i].pcs[k] == Returned(true)
    ensures k < |run[i].specs|
    ensures SettledAs(run[j], k, run[i].specs[k].name, Row(run[i].specs[k].hash, Completed))
  {
    RowsAlways(run, acts, i);
    SettledRowStays(run, acts, i, j, k, run[i].specs[k].name, Row(run[i].specs[k].hash, Completed));
  }

  /** An owner whose last update went through after a failure leaves the row FAILED, for good. */
  lemma FailedMeansFailed(run: seq<State>, acts: seq<Action>, i: nat, j: nat)
    requires IsRun(run, acts) && i < |acts| && i < j < |run| && !run[0].db.mock
    requires run[i].pcs[acts[i].inst].MarkFailed? && acts[i].outcome == Ok
    ensures acts[i].inst < |run[i].specs|
    ensures var k := acts[i].inst; SettledAs(run[j], k, run[i].specs[k].name, Row(run[i].specs[k].hash, Failed))
  {
    RowsAlways(run, acts, i);
    RowsAlways(run, acts, i + 1);
    var k := acts[i].inst;
    SettledRowStays(run, acts, i + 1, j, k, run[i].specs[k].name, Row(run[i].specs[k].hash, Failed));
  }

  // ---------------------------------------------------------------- later starts

  /** On the way to reading the row. */
  predicate Reading(pc: Pc)
  {
    pc.Start? || pc.FirstRead? || pc.EnsureTable? || pc.SecondRead? || pc.Insert? || pc.RaceRead?
  }

  /** Steps an instance may still take before it has read the row. */
  function StepsLeft(pc: Pc): nat
  {
    match pc
    case Start => 5
    case FirstRead => 4
    case EnsureTable => 3
    case SecondRead => 2
    case Insert => 2
    case RaceRead => 1
    case _ => 0
  }

  /** Steps of instance l from i on, before j. */
  ghost function StepsOf(acts: seq<Action>, l: nat, i: nat, j: nat): nat
    decreases j
  {
    if j <= i || j > |acts| then 0 else StepsOf(acts, l, i, j - 1) + (if acts[j - 1].inst == l then 1 else 0)
  }

  /** What instance l does with a settled row: it is still on its way, or has ended as the row demands. */
  ghost predicate Judged(s: State, l: nat, row: Row, most: int)
  {
    l < |s.pcs| == |s.specs| &&
    (|| (Reading(s.pcs[l]) && StepsLeft(s.pcs[l]) <= most)
     || s.pcs[l] == if row == Row(s.specs[l].hash, Completed) then Returned(false) else Threw)
  }

  lemma ReaderStep(db: Database, k: nat, spec: ModuleSpec, pc: Pc)
    requires !db.mock && db.hasTable && spec.name in db.rows && Reading(pc) && ValidSpec(spec)
    ensures var pc' := Fire(db, k, spec, pc, Ok).1;
            && StepsLeft(pc') < StepsLeft(pc)
            && (Reading(pc') || pc' == if db.rows[spec.name] == Row(spec.hash, Completed) then Returned(false) else Threw)
  {
  }

  lemma LaterStep(s: State, a: Action, l: nat, row: Row, most: int)
    requires RowsInv(s) && Enabled(s, a) && Judged(s, l, row, most) && (a.inst == l ==> a.outcome == Ok)
    requires ValidSpec(s.specs[l]) && s.specs[l].name in s.db.rows && s.db.rows[s.specs[l].name] == row
    ensures Judged(Next(s, a), l, row, most - (if a.inst == l then 1 else 0))
  {
    if a.inst == l && Reading(s.pcs[l]) { ReaderStep(s.db, l, s.specs[l], s.pcs[l]); }
  }

  lemma LaterAt(run: seq<State>, acts: seq<Action>, n: nat, k: nat, l: nat, row: Row, most: int)
    requires IsRun(run, acts) && n < |acts| && !run[0].db.mock && Judged(run[n], l, row, most)
    requires SettledAs(run[n], k, run[n].specs[l].name, row) && ValidSpec(run[n].specs[l])
    requires acts[n].inst == l ==> acts[n].outcome == Ok
    ensures Judged(run[n + 1], l, row, most - (if acts[n].inst == l then 1 else 0))
  {
    RowsAlways(run, acts, n);
    LaterStep(run[n], acts[n], l, row, most);
  }

  /**
   Every start of a settled module whose calls all go through reads the row and ends: it returns false
   if and only if the row is COMPLETED with its own manifest hash, and throws otherwise.  Five steps of
   its own are enough.
   */
  lemma {:induction false} LaterStartEnds(run: seq<State>, acts: seq<Action>, i: nat, j: nat, k: nat, l: nat, row: Row)
    requires IsRun(run, acts) && i <= j < |run| && !run[0].db.mock && l < |run[i].pcs| == |run[i].specs|
    requires SettledAs(run[i], k, run[i].specs[l].name, row) && ValidSpec(run[i].specs[l]) && Reading(run[i].pcs[l])
    requires forall n :: i <= n < j && acts[n].inst == l ==> acts[n].outcome == Ok
    ensures run[j].specs == run[i].specs && Judged(run[j], l, row, 5 - StepsOf(acts, l, i, j))
    ensures StepsOf(acts, l, i, j) >= 5 ==>
              run[j].pcs[l] == if row == Row(run[i].specs[l].hash, Completed) then Returned(false) else Threw
  {
    SpecsStay(run, acts, i);
    SpecsStay(run, acts, j);
    if i < j {
      SpecsStay(run, acts, j - 1);
      LaterStartEnds(run, acts, i, j - 1, k, l, row);
      SettledRowStays(run, acts, i, j - 1, k, run[i].specs[l].name, row);
      LaterAt(run, acts, j - 1, k, l, row, 5 - StepsOf(acts, l, i, j - 1));
    }
    NobodyReadsForever(run[j], l, row);
  }

  /** A reader has a step left. */
  lemma NobodyReadsForever(s: State, l: nat, row: Row)
    requires l < |s.pcs| == |s.specs|
    ensures Judged(s, l, row, 0) ==> s.pcs[l] == if row == Row(s.specs[l].hash, Completed) then Returned(false) else Threw
  {
  }

  // ---------------------------------------------------------------- a start that has the module to itself

  /** Steps a lone instance with n table scripts may still take. */
  function LoneSteps(pc: Pc, n: nat): nat
  {
    match pc
    case Start => n + 7
    case FirstRead => n + 6
    case EnsureTable => n + 5
    case SecondRead => n + 4
    case Insert => n + 3
    case Run(next) => if next <= n then n - next + 2 else 2
    case MarkCompleted => 1
    case _ => 0
  }

  predicate OnItsWay(pc: Pc)
  {
    pc.Start? || pc.FirstRead? || pc.EnsureTable? || pc.SecondRead? || pc.Insert? || pc.Run? || pc.MarkCompleted?
  }

  /** The row is not there before the instance has inserted it. */
  ghost predicate Alone(db: Database, spec: ModuleSpec, pc: Pc)
  {
    OnItsWay(pc) && (Owns(pc) || spec.name !in db.rows)
  }

  lemma LoneStep(db: Database, specs: seq<ModuleSpec>, k: nat, pc: Pc)
    requires !db.mock && k < |specs| && ValidSpec(specs[k]) && Alone(db, specs[k], pc)
    requires PcInv(db, specs, k, pc) && (NeedsTable(pc) || db.rows != map[] ==> db.hasTable)
    ensures var (db', pc') := Fire(db, k, specs[k], pc, Ok);
            && LoneSteps(pc', specs[k].tableScripts) < LoneSteps(pc, specs[k].tableScripts)
            && (Alone(db', specs[k], pc') || pc' == Returned(true))
  {
  }

  lemma OthersLeaveAlone(s: State, a: Action, k: nat)
    requires RowsInv(s) && Enabled(s, a) && k < |s.pcs| && a.inst != k && Alone(s.db, s.specs[k], s.pcs[k])
    requires s.specs[a.inst].name != s.specs[k].name
    ensures Alone(Next(s, a).db, s.specs[k], s.pcs[k])
  {
  }

  /** How far a lone instance is, or that it is through. */
  ghost predicate LoneAt(s: State, k: nat, most: int)
  {
    k < |s.pcs| == |s.specs| &&
    (|| s.pcs[k] == Returned(true)
     || (Alone(s.db, s.specs[k], s.pcs[k]) && LoneSteps(s.pcs[k], s.specs[k].tableScripts) <= most))
  }

  lemma LoneStateStep(s: State, a: Action, k: nat, most: int)
    requires RowsInv(s) && Enabled(s, a) && LoneAt(s, k, most) && ValidSpec(s.specs[k])
    requires a.inst < |s.specs| && s.specs[a.inst].name == s.specs[k].name ==> a == Action(k, Ok)
    ensures LoneAt(Next(s, a), k, most - (if a.inst == k then 1 else 0))
  {
    if Alone(s.db, s.specs[k], s.pcs[k]) {
      if a.inst == k { LoneStep(s.db, s.specs, k, s.pcs[k]); } else { OthersLeaveAlone(s, a, k); }
    }
  }

  /** Nobody but instance k starts its module at step n, and its calls go through. */
  ghost predicate LoneAction(specs: seq<ModuleSpec>, a: Action, k: nat)
    requires k < |specs|
  {
    a.inst < |specs| && specs[a.inst].name == specs[k].name ==> a == Action(k, Ok)
  }

  lemma LoneRunStep(run: seq<State>, acts: seq<Action>, n: nat, k: nat, most: int)
    requires IsRun(run, acts) && n < |acts| && !run[0].db.mock && LoneAt(run[n], k, most)
    requires ValidSpec(run[n].specs[k]) && LoneAction(run[n].specs, acts[n], k)
    ensures LoneAt(run[n + 1], k, most - (if acts[n].inst == k then 1 else 0))
  {
    RowsAlways(run, acts, n);
    LoneStateStep(run[n], acts[n], k, most);
  }

  /**
   An instance whose calls all go through, on a module that has no row and that no other instance starts
   meanwhile, runs the bootstrap to its end: after tableScripts + 7 steps of its own it has returned true.
   */
  lemma {:induction false} LoneStartCompletes(run: seq<State>, acts: seq<Action>, i: nat, j: nat, k: nat)
    requires IsRun(run, acts) && i <= j < |run| && !run[0].db.mock
    requires k < |run[i].pcs| == |run[i].specs| && run[i].pcs[k] == Start && ValidSpec(run[i].specs[k])
    requires run[i].specs[k].name !in run[i].db.rows
    requires forall n :: i <= n < j ==> LoneAction(run[i].specs, acts[n], k)
    ensures run[j].specs == run[i].specs && LoneAt(run[j], k, run[i].specs[k].tableScripts + 7 - StepsOf(acts, k, i, j))
    ensures StepsOf(acts, k, i, j) >= run[i].specs[k].tableScripts + 7 ==> run[j].pcs[k] == Returned(true)
  {
    SpecsStay(run, acts, i);
    SpecsStay(run, acts, j);
    if i < j {
      SpecsStay(run, acts, j - 1);
      LoneStartCompletes(run, acts, i, j - 1, k);
      LoneRunStep(run, acts, j - 1, k, run[i].specs[k].tableScripts + 7 - StepsOf(acts, k, i, j - 1));
    }
    PositiveSteps(run[j], k);
  }

  /** A lone instance on its way has a step left. */
  lemma PositiveSteps(s: State, k: nat)
    requires k < |s.pcs| == |s.specs|
    ensures LoneAt(s, k, 0) ==> s.pcs[k] == Returned(true)
  {
  }

  // ---------------------------------------------------------------- specifications

  lemma FireNeedsValidSpec(db: Database, k: nat, spec: ModuleSpec, pc: Pc, o: Outcome)
    requires !Finished(pc)
    requires !pc.Start? ==> spec.name != "" && spec.tableScripts > 0 && spec.managedScripts > 0
    ensures var pc' := Fire(db, k, spec, pc, o).1;
            pc'.Threw? || pc'.Crashed? || (spec.name != "" && spec.tableScripts > 0 && spec.managedScripts > 0)
  {
  }

  /** Beyond its start an instance has a module name, a table script and a managed script, or it has thrown. */
  lemma {:induction false} OnlyValidSpecsGoOn(run: seq<State>, acts: seq<Action>, i: nat, k: nat)
    requires IsRun(run, acts) && i < |run| && k < |run[i].pcs| == |run[i].specs|
    ensures var spec, pc := run[i].specs[k], run[i].pcs[k];
            pc.Start? || pc.Threw? || pc.Crashed? || (spec.name != "" && spec.tableScripts > 0 && spec.managedScripts > 0)
  {
    if i > 0 {
      OnlyValidSpecsGoOn(run, acts, i - 1, k);
      var s, a := run[i - 1], acts[i - 1];
      if a.inst == k { FireNeedsValidSpec(s.db, k, s.specs[k], s.pcs[k], a.outcome); }
    }
  }
}
