/**
 The run-once SQL bootstrap (SqlModuleBootstrap.h): any number of server instances race on one
 state table with an enforced primary key.  Each database call is one step; it may succeed, fail
 without effect, or take effect and still be reported as failed.  Instances may crash anywhere; a
 restarted server is simply another instance.
 */
module Bootstrap {
  datatype Status = InProgress | Completed | Failed

  datatype Row = Row(hash: string, status: Status)

  /** A module specification, with the manifest hash its managed scripts have. */
  datatype ModuleSpec = ModuleSpec(name: string, tableScripts: nat, managedScripts: nat, hash: string)

  /** One execution of a table script by an instance. */
  datatype Execution = Execution(inst: nat, script: nat, ok: bool)

  datatype Pc =
    | Start
    | FirstRead
    | EnsureTable
    | SecondRead
    | Insert
    | RaceRead
    | Run(next: nat)      // the insert succeeded: table script `next` is due
    | MarkCompleted
    | MarkFailed
    | MockRun(next: nat)  // DatabaseType::Mock: scripts without any state table
    | Returned(ran: bool)
    | Threw
    | Crashed

  datatype Database = Database(
    mock: bool,
    hasTable: bool,
    rows: map<string, Row>,
    log: seq<Execution>,            // history: every script execution
    inserter: map<string, nat>)     // history: whose insert created the row

  /** How a database call ends for its caller; a dying instance dies before the call or inside it. */
  datatype Outcome = Ok | Fails | TakesEffectButFails | Crash | CrashInside

  datatype State = State(db: Database, specs: seq<ModuleSpec>, pcs: seq<Pc>)

  datatype Action = Action(inst: nat, outcome: Outcome)

  ghost predicate Init(s: State)
  {
    && s.db.rows == map[] && s.db.log == [] && s.db.inserter == map[]
    && |s.pcs| == |s.specs|
    && forall k :: 0 <= k < |s.pcs| ==> s.pcs[k] == Start
  }

  predicate ValidSpec(spec: ModuleSpec)
  {
    spec.name != "" && spec.tableScripts > 0 && spec.managedScripts > 0
  }

  predicate Finished(pc: Pc) { pc.Returned? || pc.Threw? || pc.Crashed? }

  predicate Enabled(s: State, a: Action) { a.inst < |s.pcs| == |s.specs| && !Finished(s.pcs[a.inst]) }

  function Next(s: State, a: Action): State
    requires Enabled(s, a)
  {
    var (db', pc') := Fire(s.db, a.inst, s.specs[a.inst], s.pcs[a.inst], a.outcome);
    State(db', s.specs, s.pcs[a.inst := pc'])
  }

  /** Where a row that was read sends the caller. */
  function Judge(row: Row, hash: string): Pc
  {
    if row.status == Completed && row.hash == hash then Returned(false) else Threw
  }

  function Fire(db: Database, k: nat, spec: ModuleSpec, pc: Pc, o: Outcome): (Database, Pc)
    requires !Finished(pc)
  {
    if o == Crash then (db, Crashed)
    else if o == CrashInside then (Perform(db, k, spec, pc, TakesEffectButFails).0, Crashed)
    else Perform(db, k, spec, pc, o)
  }

  /** One call of an instance that survives it; a table script leaves its execution in the log once it has begun. */
  function Perform(db: Database, k: nat, spec: ModuleSpec, pc: Pc, o: Outcome): (Database, Pc)
    requires !Finished(pc)
  {
    var m := spec.name;
    match pc
    case Start =>
      (db, if !ValidSpec(spec) || o != Ok then Threw else if db.mock then MockRun(0) else FirstRead)
    case FirstRead =>
      (db, if o != Ok then Threw else if !db.hasTable then EnsureTable
           else if m in db.rows then Judge(db.rows[m], spec.hash) else Insert)
    case EnsureTable =>
      if o == Ok || (o == TakesEffectButFails && !db.hasTable) then
        (db.(hasTable := true), if o == Ok then SecondRead else Threw)
      else (db, Threw)
    case SecondRead =>
      (db, if o != Ok || !db.hasTable then Threw
           else if m in db.rows then Judge(db.rows[m], spec.hash) else Insert)
    case Insert =>
      if o == Fails then (db, Threw)
      else if m in db.rows then (db, RaceRead)  // the primary key refuses a second row
      else (db.(rows := db.rows[m := Row(spec.hash, InProgress)], inserter := db.inserter[m := k]),
            if o == Ok then Run(0) else Threw)
    case RaceRead =>
      (db, if o != Ok || m !in db.rows then Threw else Judge(db.rows[m], spec.hash))
    case Run(next) =>
      if next >= spec.tableScripts then (db, MarkCompleted)
      else (db.(log := db.log + [Execution(k, next, o == Ok)]), if o == Ok then Run(next + 1) else MarkFailed)
    case MarkCompleted =>
      (if o == Fails then db else Update(db, m, Row(spec.hash, Completed)),
       if o == Ok then Returned(true) else MarkFailed)
    case MarkFailed =>
      (if o == Fails then db else Update(db, m, Row(spec.hash, Failed)), Threw)
    case MockRun(next) =>
      if next >= spec.tableScripts then (db, Returned(true))
      else (db.(log := db.log + [Execution(k, next, o == Ok)]), if o == Ok then MockRun(next + 1) else Threw)
    case Returned(_) => (db, pc)
    case Threw => (db, pc)
    case Crashed => (db, pc)
  }

  /** UPDATE ... WHERE module_name = ?: changes the row only if it is there. */
  function Update(db: Database, m: string, row: Row): Database
  {
    if m in db.rows then db.(rows := db.rows[m := row]) else db
  }

  ghost predicate IsRun(run: seq<State>, acts: seq<Action>)
  {
    && |run| == |acts| + 1
    && Init(run[0])
    && forall i :: 0 <= i < |acts| ==> Enabled(run[i], acts[i]) && run[i + 1] == Next(run[i], acts[i])
  }

  // ---------------------------------------------------------------- what every step keeps

  /** Instance k executed the first n scripts successfully. */
  ghost predicate RanUpTo(db: Database, k: nat, n: nat)
  {
    forall i :: 0 <= i < n ==> Execution(k, i, true) in db.log
  }

  /** Some instance of this module with this manifest hash executed all its table scripts. */
  ghost predicate Bootstrapped(db: Database, specs: seq<ModuleSpec>, m: string, hash: string)
  {
    m in db.inserter && db.inserter[m] < |specs| &&
    var k := db.inserter[m];
    specs[k].name == m && specs[k].hash == hash && RanUpTo(db, k, specs[k].tableScripts)
  }

  /** The instance that owns the module's row, by its program counter. */
  predicate Owns(pc: Pc) { pc.Run? || pc.MarkCompleted? || pc.MarkFailed? || pc == Returned(true) }

  ghost predicate PcInv(db: Database, specs: seq<ModuleSpec>, k: nat, pc: Pc)
    requires k < |specs|
  {
    var m := specs[k].name;
    && !pc.MockRun?
    && (Owns(pc) ==> m in db.inserter && db.inserter[m] == k)
    && (pc.Run? ==> RanUpTo(db, k, pc.next) && pc.next <= specs[k].tableScripts)
    && (pc.MarkCompleted? ==> RanUpTo(db, k, specs[k].tableScripts))
    && (pc.Returned? ==> Bootstrapped(db, specs, m, specs[k].hash))
  }

  ghost predicate TableInv(db: Database, specs: seq<ModuleSpec>)
  {
    && db.rows.Keys == db.inserter.Keys
    && (forall m :: m in db.inserter ==>
          && db.inserter[m] < |specs|
          && specs[db.inserter[m]].name == m
          && db.rows[m].hash == specs[db.inserter[m]].hash)
    && (forall m :: m in db.rows && db.rows[m].status == Completed ==> Bootstrapped(db, specs, m, db.rows[m].hash))
    && (forall i :: 0 <= i < |db.log| ==>
          var k := db.log[i].inst;
          k < |specs| && specs[k].name in db.inserter && db.inserter[specs[k].name] == k)
  }

  ghost predicate Inv(s: State)
  {
    && !s.db.mock && |s.pcs| == |s.specs| && TableInv(s.db, s.specs)
    && forall k :: 0 <= k < |s.pcs| ==> PcInv(s.db, s.specs, k, s.pcs[k])
  }

  /** The table only grows: rows and owners stay, and what was executed stays executed. */
  ghost predicate Grows(db: Database, db': Database)
  {
    && db'.mock == db.mock
    && db.log <= db'.log
    && (forall m :: m in db.inserter ==> m in db'.inserter && db'.inserter[m] == db.inserter[m])
  }

  lemma PerformGrows(db: Database, specs: seq<ModuleSpec>, k: nat, pc: Pc, o: Outcome)
    requires !db.mock && TableInv(db, specs) && k < |specs| && !Finished(pc) && PcInv(db, specs, k, pc)
    ensures Grows(db, Perform(db, k, specs[k], pc, o).0)
  {
  }

  lemma FireGrows(db: Database, specs: seq<ModuleSpec>, k: nat, pc: Pc, o: Outcome)
    requires !db.mock && TableInv(db, specs) && k < |specs| && !Finished(pc) && PcInv(db, specs, k, pc)
    ensures Grows(db, Fire(db, k, specs[k], pc, o).0)
  {
    PerformGrows(db, specs, k, pc, if o == CrashInside then TakesEffectButFails else o);
  }

  lemma GrowsKeeps(db: Database, db': Database, specs: seq<ModuleSpec>)
    requires Grows(db, db')
    ensures forall k, n :: RanUpTo(db, k, n) ==> RanUpTo(db', k, n)
    ensures forall m, h :: Bootstrapped(db, specs, m, h) ==> Bootstrapped(db', specs, m, h)
    ensures forall k, pc :: 0 <= k < |specs| && PcInv(db, specs, k, pc) ==> PcInv(db', specs, k, pc)
  {
    assert forall x :: x in db.log ==> x in db'.log;
  }

  /** The only ways to touch the table: execute a script as owner, insert a missing row, update one's own row. */
  ghost predicate TableMove(db: Database, db': Database, specs: seq<ModuleSpec>, k: nat)
    requires k < |specs|
  {
    var m := specs[k].name;
    var owner := m in db.inserter && db.inserter[m] == k;
    if db'.log != db.log then
      owner && db'.rows == db.rows && db'.inserter == db.inserter &&
      |db'.log| == |db.log| + 1 && db.log <= db'.log && db'.log[|db.log|].inst == k
    else if db'.inserter != db.inserter then
      m !in db.rows && db'.rows == db.rows[m := Row(specs[k].hash, InProgress)] && db'.inserter == db.inserter[m := k]
    else
      db'.rows == db.rows ||
      (owner && m in db.rows && m in db'.rows && db'.rows == db.rows[m := db'.rows[m]] &&
       db'.rows[m].hash == specs[k].hash &&
       (db'.rows[m].status == Completed ==> RanUpTo(db, k, specs[k].tableScripts)))
  }

  lemma PerformMoves(db: Database, specs: seq<ModuleSpec>, k: nat, pc: Pc, o: Outcome)
    requires !db.mock && TableInv(db, specs) && k < |specs| && !Finished(pc) && PcInv(db, specs, k, pc)
    ensures TableMove(db, Perform(db, k, specs[k], pc, o).0, specs, k)
  {
  }

  lemma FireMoves(db: Database, specs: seq<ModuleSpec>, k: nat, pc: Pc, o: Outcome)
    requires !db.mock && TableInv(db, specs) && k < |specs| && !Finished(pc) && PcInv(db, specs, k, pc)
    ensures TableMove(db, Fire(db, k, specs[k], pc, o).0, specs, k)
  {
    PerformMoves(db, specs, k, pc, if o == CrashInside then TakesEffectButFails else o);
  }

  lemma FireKeepsTable(db: Database, db': Database, specs: seq<ModuleSpec>, k: nat)
    requires TableInv(db, specs) && k < |specs| && TableMove(db, db', specs, k) && Grows(db, db')
    ensures TableInv(db', specs)
  {
    GrowsKeeps(db, db', specs);
  }

  /** Reading: the caller goes on, or returns because the row says COMPLETED with its own hash. */
  lemma ReadKeepsPc(db: Database, specs: seq<ModuleSpec>, k: nat, pc: Pc, o: Outcome)
    requires !db.mock && TableInv(db, specs) && k < |specs| && !Finished(pc) && !Owns(pc) && PcInv(db, specs, k, pc)
    ensures var (db', pc') := Perform(db, k, specs[k], pc, o); PcInv(db', specs, k, pc')
  {
  }

  /** Owning: what the instance executed stays in the log, and one more script comes after it. */
  lemma OwnKeepsPc(db: Database, specs: seq<ModuleSpec>, k: nat, pc: Pc, o: Outcome)
    requires !db.mock && TableInv(db, specs) && k < |specs| && !Finished(pc) && Owns(pc) && PcInv(db, specs, k, pc)
    ensures var (db', pc') := Perform(db, k, specs[k], pc, o); PcInv(db', specs, k, pc')
  {
    PerformGrows(db, specs, k, pc, o);
    GrowsKeeps(db, Perform(db, k, specs[k], pc, o).0, specs);
  }

  lemma FireKeepsPc(db: Database, specs: seq<ModuleSpec>, k: nat, pc: Pc, o: Outcome)
    requires !db.mock && TableInv(db, specs) && k < |specs| && !Finished(pc) && PcInv(db, specs, k, pc)
    ensures var (db', pc') := Fire(db, k, specs[k], pc, o); PcInv(db', specs, k, pc')
  {
    if Owns(pc) { OwnKeepsPc(db, specs, k, pc, o); } else { ReadKeepsPc(db, specs, k, pc, o); }
  }

  lemma InvStep(s: State, a: Action)
    requires Inv(s) && Enabled(s, a)
    ensures Inv(Next(s, a))
  {
    var k := a.inst;
    FireGrows(s.db, s.specs, k, s.pcs[k], a.outcome);
    FireMoves(s.db, s.specs, k, s.pcs[k], a.outcome);
    FireKeepsTable(s.db, Next(s, a).db, s.specs, k);
    FireKeepsPc(s.db, s.specs, k, s.pcs[k], a.outcome);
    GrowsKeeps(s.db, Next(s, a).db, s.specs);
  }

  lemma {:induction false} InvAlways(run: seq<State>, acts: seq<Action>, i: nat)
    requires IsRun(run, acts) && i < |run| && !run[0].db.mock
    ensures Inv(run[i]) && run[i].specs == run[0].specs
  {
    if i > 0 {
      InvAlways(run, acts, i - 1);
      InvStep(run[i - 1], acts[i - 1]);
    }
  }

  // ---------------------------------------------------------------- the promises

  /** In every run at most one instance ever executes a table script of a module. */
  lemma AtMostOneStarts(run: seq<State>, acts: seq<Action>, i: nat, e: Execution, f: Execution)
    requires IsRun(run, acts) && i < |run| && !run[0].db.mock
    requires e in run[i].db.log && f in run[i].db.log && e.inst < |run[i].specs| && f.inst < |run[i].specs|
    requires run[i].specs[e.inst].name == run[i].specs[f.inst].name
    ensures e.inst == f.inst
  {
    InvAlways(run, acts, i);
  }

  /** A call returns only after one instance with the same manifest hash executed every table script. */
  lemma ReturnMeansBootstrapped(run: seq<State>, acts: seq<Action>, i: nat, k: nat)
    requires IsRun(run, acts) && i < |run| && !run[0].db.mock
    requires k < |run[i].pcs| == |run[i].specs| && run[i].pcs[k].Returned?
    ensures exists j :: 0 <= j < |run[i].specs| && run[i].specs[j].name == run[i].specs[k].name &&
                        run[i].specs[j].hash == run[i].specs[k].hash &&
                        (run[i].pcs[k].ran ==> j == k) &&
                        RanUpTo(run[i].db, j, run[i].specs[j].tableScripts)
  {
    InvAlways(run, acts, i);
    var j := run[i].db.inserter[run[i].specs[k].name];
    assert run[i].specs[j].name == run[i].specs[k].name;
  }

  /** Only one call per module ever reports that it ran the bootstrap. */
  lemma OneCallRuns(run: seq<State>, acts: seq<Action>, i: nat, k: nat, l: nat)
    requires IsRun(run, acts) && i < |run| && !run[0].db.mock
    requires k < |run[i].pcs| == |run[i].specs| && l < |run[i].pcs|
    requires run[i].specs[k].name == run[i].specs[l].name
    requires run[i].pcs[k] == Returned(true) && run[i].pcs[l] == Returned(true)
    ensures k == l
  {
    InvAlways(run, acts, i);
  }

  /**
   The guard is the database type: on a Mock database every instance runs the table scripts, so two
   instances of one module both do.
   */
  lemma MockRunsEveryTime(spec: ModuleSpec, hasTable: bool) returns (run: seq<State>, acts: seq<Action>)
    requires ValidSpec(spec)
    ensures IsRun(run, acts) && run[0].db.mock && run[0].specs == [spec, spec]
    ensures Execution(0, 0, true) in run[|acts|].db.log && Execution(1, 0, true) in run[|acts|].db.log
  {
    var specs := [spec, spec];
    var db := Database(true, hasTable, map[], [], map[]);
    var db1 := db.(log := [Execution(0, 0, true)]);
    var db2 := db.(log := [Execution(0, 0, true), Execution(1, 0, true)]);
    var s0 := State(db, specs, [Start, Start]);
    var s1 := State(db, specs, [MockRun(0), Start]);
    var s2 := State(db, specs, [MockRun(0), MockRun(0)]);
    var s3 := State(db1, specs, [MockRun(1), MockRun(0)]);
    var s4 := State(db2, specs, [MockRun(1), MockRun(1)]);
    run := [s0, s1, s2, s3, s4];
    acts := [Action(0, Ok), Action(1, Ok), Action(0, Ok), Action(1, Ok)];
    assert Next(s0, acts[0]) == s1;
    assert Next(s1, acts[1]) == s2;
    assert Next(s2, acts[2]) == s3;
    assert Next(s3, acts[3]) == s4;
  }
}
