/**
 * The embedded migration runner (apps/api/src/migrate-pglite.ts).  A transaction is one atomic
 * action; a run may crash before any of them, which is also all that a crash inside a transaction
 * can do, because it rolls back.  An SQL error rolls back too, and ends the run.
 */
module Migrations {
  import opened Options

  /** File names in the order `sort()` puts them. */
  type File = nat

  datatype Kind =
    | Ordinary
    | Superseded(checksumOk: bool)      // 330_oss_channels.sql
    | Concurrent(statements: nat)       // CREATE INDEX CONCURRENTLY statements, one at a time

  /** Why a ledger row was inserted. */
  datatype How = Committed | Aliased | Compatible | Indexed
  datatype Row = Row(file: File, how: How)

  /**
   * `tables` is the check that migration 326's tables exist, and `accepts` whether the SQL of a file,
   * or its n-th top-level statement, runs without an error; both on what has been applied so far.
   */
  datatype Spec = Spec(kind: File -> Kind, legacy: map<File, set<File>>, tables: seq<Row> -> bool, accepts: (File, nat, seq<Row>) -> bool)

  /**
   * Rows that were there before and rows inserted since; as history, the top-level statements executed
   * since and the ordinary files whose SQL was committed since, each time it was.
   */
  datatype Db = Db(initial: set<File>, rows: seq<Row>, ran: seq<(File, nat)>, sql: seq<File>)

  /** How many more actions succeed before the process dies. */
  datatype Budget = Limited(n: nat) | Unlimited
  datatype Status = Done | Crashed | Threw
  datatype Out = Out(db: Db, count: nat, budget: Budget, status: Status)

  function Inserted(rows: seq<Row>): set<File> {
    set r | r in rows :: r.file
  }

  /** The `_migrations` table. */
  function Ledger(db: Db): set<File> {
    db.initial + Inserted(db.rows)
  }

  function Spend(b: Budget): Option<Budget> {
    match b
    case Unlimited => Some(b)
    case Limited(n) => if n == 0 then None else Some(Limited(n - 1))
  }

  function Insert(db: Db, f: File, how: How): Db {
    db.(rows := db.rows + [Row(f, how)])
  }

  /** The SQL of an ordinary file, and its ledger row, in one transaction. */
  function Commit(db: Db, f: File): Db {
    Insert(db.(sql := db.sql + [f]), f, Committed)
  }

  /** One legacy name of `f` is in the ledger. */
  predicate HasLegacy(spec: Spec, db: Db, f: File) {
    f in spec.legacy && spec.legacy[f] * Ledger(db) != {}
  }

  // ---------------------------------------------------------------- one file

  /** The concurrent statements from `i` on, then the ledger row. */
  function Statements(spec: Spec, db: Db, f: File, i: nat, n: nat, b: Budget): Out
    requires i <= n
    decreases n - i
  {
    match Spend(b)
    case None => Out(db, 0, b, Crashed)
    case Some(b') =>
      if i == n then Out(Insert(db, f, Indexed), 1, b', Done)
      else if !spec.accepts(f, i, db.rows) then Out(db, 0, b', Threw)
      else Statements(spec, db.(ran := db.ran + [(f, i)]), f, i + 1, n, b')
  }

  /** The loop body after the alias check. */
  function Apply(spec: Spec, db: Db, f: File, b: Budget): Out {
    match spec.kind(f)
    case Ordinary =>
      if Spend(b).None? then Out(db, 0, b, Crashed)
      else if f in Ledger(db) then Out(db, 0, Spend(b).value, Done)
      else if !spec.accepts(f, 0, db.rows) then Out(db, 0, Spend(b).value, Threw)
      else Out(Commit(db, f), 1, Spend(b).value, Done)
    case Superseded(checksumOk) =>
      if !checksumOk then Out(db, 0, b, Threw)
      else if Spend(b).None? then Out(db, 0, b, Crashed)
      else if f in Ledger(db) then Out(db, 0, Spend(b).value, Done)
      else if !spec.tables(db.rows) then Out(db, 0, Spend(b).value, Threw)
      else Out(Insert(db, f, Compatible), 1, Spend(b).value, Done)
    case Concurrent(n) =>
      if f in Ledger(db) then Out(db, 0, b, Done) else Statements(spec, db, f, 0, n, b)
  }

  /** The loop body. */
  function One(spec: Spec, db: Db, f: File, b: Budget): Out {
    if f !in spec.legacy then Apply(spec, db, f, b)
    else match Spend(b)
      case None => Out(db, 0, b, Crashed)
      case Some(b') =>
        if f in Ledger(db) then Out(db, 0, b', Done)
        else if HasLegacy(spec, db, f) then Out(Insert(db, f, Aliased), 1, b', Done)
        else Apply(spec, db, f, b')
  }

  /** `migratePgliteExclusive` over the sorted, filtered files. */
  function Migrate(spec: Spec, db: Db, files: seq<File>, b: Budget): Out
    decreases |files|
  {
    if files == [] then Out(db, 0, b, Done)
    else
      var one := One(spec, db, files[0], b);
      if one.status != Done then one
      else
        var rest := Migrate(spec, one.db, files[1..], one.budget);
        rest.(count := one.count + rest.count)
  }

  // ---------------------------------------------------------------- what every run keeps

  /** Why each row is there. */
  ghost predicate RowOk(spec: Spec, db: Db, i: nat)
    requires i < |db.rows|
  {
    var f := db.rows[i].file;
    && f !in db.initial && f !in Inserted(db.rows[..i])
    && match db.rows[i].how
       case Committed => spec.kind(f).Ordinary? && f in db.sql && !HasLegacy(spec, db.(rows := db.rows[..i]), f)
       case Compatible => spec.kind(f) == Superseded(true) && spec.tables(db.rows[..i])
       case Aliased => HasLegacy(spec, db.(rows := db.rows[..i]), f)
       case Indexed => spec.kind(f).Concurrent? && forall k: nat | k < spec.kind(f).statements :: (f, k) in db.ran
  }

  /** A file's SQL was committed at most once, and with it its row. */
  ghost predicate SqlOk(rows: seq<Row>, sql: seq<File>) {
    && (forall i, j | 0 <= i < j < |sql| :: sql[i] != sql[j])
    && (forall f <- sql :: Row(f, Committed) in rows)
  }

  ghost predicate Inv(spec: Spec, db: Db) {
    (forall i: nat | i < |db.rows| :: RowOk(spec, db, i)) && SqlOk(db.rows, db.sql)
  }

  lemma MoreRows(rows: seq<Row>, sql: seq<File>, row: Row)
    requires SqlOk(rows, sql)
    ensures SqlOk(rows + [row], sql)
    ensures row.how.Committed? && row.file !in sql ==> SqlOk(rows + [row], sql + [row.file])
  {
    assert row in rows + [row];
  }

  lemma CommitKeeps(spec: Spec, db: Db, f: File)
    requires Inv(spec, db) && f !in Ledger(db) && spec.kind(f).Ordinary? && !HasLegacy(spec, db, f)
    ensures Inv(spec, Commit(db, f))
  {
    var d := Commit(db, f);
    NotRecorded(db, f);
    MoreRows(db.rows, db.sql, Row(f, Committed));
    forall i: nat | i < |d.rows| ensures RowOk(spec, d, i) {
      if i < |db.rows| {
        assert RowOk(spec, db, i);
        assert d.rows[..i] == db.rows[..i];
        assert Ledger(d.(rows := d.rows[..i])) == Ledger(db.(rows := db.rows[..i]));
      } else {
        assert d.rows[..i] == db.rows;
        assert Ledger(d.(rows := d.rows[..i])) == Ledger(db);
      }
    }
  }

  /** An unrecorded file's SQL was never committed. */
  lemma NotRecorded(db: Db, f: File)
    requires SqlOk(db.rows, db.sql) && f !in Ledger(db)
    ensures f !in db.sql
  {
    forall g | g in db.sql ensures g in Ledger(db) {
      assert Row(g, Committed) in db.rows;
    }
  }

  lemma InsertKeeps(spec: Spec, db: Db, f: File, how: How)
    requires Inv(spec, db)
    requires var d := Insert(db, f, how); RowOk(spec, d, |db.rows|)
    ensures Inv(spec, Insert(db, f, how))
  {
    var d := Insert(db, f, how);
    MoreRows(db.rows, db.sql, Row(f, how));
    forall i: nat | i < |d.rows| ensures RowOk(spec, d, i) {
      if i < |db.rows| {
        assert RowOk(spec, db, i);
        assert d.rows[..i] == db.rows[..i];
      }
    }
  }

  lemma RanKeeps(spec: Spec, db: Db, x: (File, nat))
    requires Inv(spec, db)
    ensures Inv(spec, db.(ran := db.ran + [x]))
  {
    var d := db.(ran := db.ran + [x]);
    forall i: nat | i < |d.rows| ensures RowOk(spec, d, i) {
      assert RowOk(spec, db, i);
      assert d.(rows := d.rows[..i]).initial == db.(rows := db.rows[..i]).initial;
    }
  }

  lemma {:induction false} StatementsKeep(spec: Spec, db: Db, f: File, i: nat, n: nat, b: Budget)
    requires Inv(spec, db) && f !in Ledger(db) && spec.kind(f) == Concurrent(n) && i <= n
    requires forall k: nat | k < i :: (f, k) in db.ran
    ensures Inv(spec, Statements(spec, db, f, i, n, b).db)
    decreases n - i
  {
    if Spend(b).Some? {
      if i == n {
        assert Insert(db, f, Indexed).rows[..|db.rows|] == db.rows;
        InsertKeeps(spec, db, f, Indexed);
      } else {
        hide RowOk;
        RanKeeps(spec, db, (f, i));
        StatementsKeep(spec, db.(ran := db.ran + [(f, i)]), f, i + 1, n, Spend(b).value);
      }
    }
  }

  lemma OneKeeps(spec: Spec, db: Db, f: File, b: Budget)
    requires Inv(spec, db)
    ensures Inv(spec, One(spec, db, f, b).db)
  {
    if f !in Ledger(db) {
      forall how: How ensures Insert(db, f, how).rows[..|db.rows|] == db.rows {
      }
      hide Statements, Inv;
      if HasLegacy(spec, db, f) {
        InsertKeeps(spec, db, f, Aliased);
      } else {
        match spec.kind(f) {
          case Ordinary => CommitKeeps(spec, db, f);
          case Superseded(checksumOk) => if checksumOk && spec.tables(db.rows) { InsertKeeps(spec, db, f, Compatible); }
          case Concurrent(n) =>
            StatementsKeep(spec, db, f, 0, n, b);
            if Spend(b).Some? { StatementsKeep(spec, db, f, 0, n, Spend(b).value); }
        }
      }
    }
  }

  lemma {:induction false} MigrateKeeps(spec: Spec, db: Db, files: seq<File>, b: Budget)
    requires Inv(spec, db)
    ensures Inv(spec, Migrate(spec, db, files, b).db)
    decreases |files|
  {
    if files != [] {
      hide Inv, One;
      OneKeeps(spec, db, files[0], b);
      var one := One(spec, db, files[0], b);
      MigrateKeeps(spec, one.db, files[1..], one.budget);
    }
  }

  /** Any number of runs, each over some prefix of the directory and with its own crash point. */
  function Runs(spec: Spec, db: Db, files: seq<File>, runs: seq<(nat, Budget)>): Db
    decreases |runs|
  {
    if runs == [] then db
    else
      var k := if runs[0].0 <= |files| then runs[0].0 else |files|;
      Runs(spec, Migrate(spec, db, files[..k], runs[0].1).db, files, runs[1..])
  }

  lemma {:induction false} RunsKeep(spec: Spec, db: Db, files: seq<File>, runs: seq<(nat, Budget)>)
    requires Inv(spec, db)
    ensures Inv(spec, Runs(spec, db, files, runs))
    decreases |runs|
  {
    if runs != [] {
      hide Inv, Migrate;
      var k := if runs[0].0 <= |files| then runs[0].0 else |files|;
      MigrateKeeps(spec, db, files[..k], runs[0].1);
      RunsKeep(spec, Migrate(spec, db, files[..k], runs[0].1).db, files, runs[1..]);
    }
  }

  /**
   * Over any sequence of runs, each ended by a crash or an error or not at all: no file is recorded
   * twice; the SQL of a file is committed at most once, and only that of an ordinary file that was not
   * recorded before; an ordinary file has a row if and only if either its SQL was committed or one of
   * its legacy names was recorded before it, and never both; and a concurrent-index file is recorded
   * only after all its statements ran.
   */
  lemma EveryRowIsEarned(spec: Spec, initial: set<File>, files: seq<File>, runs: seq<(nat, Budget)>)
    ensures
      var db := Runs(spec, Db(initial, [], [], []), files, runs);
      && (forall i: nat, j: nat | i < |db.rows| && j < |db.rows| :: db.rows[i].file == db.rows[j].file ==> i == j)
      && (forall f: File :: multiset(db.sql)[f] <= 1 && (f in db.sql ==> spec.kind(f).Ordinary? && f !in initial))
      && (forall f: File :: spec.kind(f).Ordinary? ==>
            (f in Ledger(db) - initial <==> f in db.sql || Row(f, Aliased) in db.rows) && !(f in db.sql && Row(f, Aliased) in db.rows))
      && (forall i: nat | i < |db.rows| && db.rows[i].how.Aliased? ::
            HasLegacy(spec, Db(db.initial, db.rows[..i], [], []), db.rows[i].file))
      && (forall f: File :: Row(f, Indexed) in db.rows && spec.kind(f).Concurrent? ==>
            forall k: nat | k < spec.kind(f).statements :: (f, k) in db.ran)
  {
    var start := Db(initial, [], [], []);
    assert Inv(spec, start);
    RunsKeep(spec, start, files, runs);
    var db := Runs(spec, start, files, runs);
    RunsInitial(spec, start, files, runs);
    OnceEach(db.sql);
    OneRowEach(spec, db);
    forall f: File ensures f in db.sql ==> spec.kind(f).Ordinary? && f !in initial {
      if f in db.sql { CommittedRow(spec, db, f); }
    }
    forall f: File | spec.kind(f).Ordinary?
      ensures (f in Ledger(db) - initial <==> f in db.sql || Row(f, Aliased) in db.rows) && !(f in db.sql && Row(f, Aliased) in db.rows)
    {
      OrdinaryRow(spec, db, f);
    }
    forall i: nat | i < |db.rows| && db.rows[i].how.Aliased? ensures HasLegacy(spec, Db(db.initial, db.rows[..i], [], []), db.rows[i].file) {
      assert RowOk(spec, db, i);
      assert Ledger(Db(db.initial, db.rows[..i], [], [])) == Ledger(db.(rows := db.rows[..i]));
    }
    forall f: File | Row(f, Indexed) in db.rows && spec.kind(f).Concurrent?
      ensures forall k: nat | k < spec.kind(f).statements :: (f, k) in db.ran
    {
      var i: nat :| i < |db.rows| && db.rows[i] == Row(f, Indexed);
      assert RowOk(spec, db, i);
    }
  }

  lemma OneRowEach(spec: Spec, db: Db)
    requires Inv(spec, db)
    ensures forall i: nat, j: nat | i < |db.rows| && j < |db.rows| :: db.rows[i].file == db.rows[j].file ==> i == j
  {
    forall i: nat, j: nat | i < j < |db.rows| ensures db.rows[i].file != db.rows[j].file {
      assert RowOk(spec, db, j);
      assert db.rows[..j][i] == db.rows[i];
    }
  }

  lemma OnceEach(s: seq<File>)
    requires forall i, j | 0 <= i < j < |s| :: s[i] != s[j]
    ensures forall f: File :: multiset(s)[f] <= 1
  {
    if s != [] {
      var n := |s| - 1;
      assert s == s[..n] + [s[n]];
      OnceEach(s[..n]);
    }
  }

  lemma CommittedRow(spec: Spec, db: Db, f: File)
    requires Inv(spec, db) && f in db.sql
    ensures spec.kind(f).Ordinary? && f !in db.initial && f in Ledger(db)
  {
    var i: nat :| i < |db.rows| && db.rows[i] == Row(f, Committed);
    assert RowOk(spec, db, i);
    assert db.rows[i] in db.rows;
  }

  lemma OrdinaryRow(spec: Spec, db: Db, f: File)
    requires Inv(spec, db) && spec.kind(f).Ordinary?
    ensures f in Ledger(db) - db.initial <==> f in db.sql || Row(f, Aliased) in db.rows
    ensures !(f in db.sql && Row(f, Aliased) in db.rows)
  {
    forall i: nat | i < |db.rows| && db.rows[i].file == f
      ensures f !in db.initial && ((db.rows[i] == Row(f, Committed) && f in db.sql) || db.rows[i] == Row(f, Aliased))
    {
      assert RowOk(spec, db, i);
    }
    OneRowEach(spec, db);
  }

  lemma {:induction false} RunsInitial(spec: Spec, db: Db, files: seq<File>, runs: seq<(nat, Budget)>)
    ensures Runs(spec, db, files, runs).initial == db.initial
    decreases |runs|
  {
    if runs != [] {
      hide Migrate;
      var k := if runs[0].0 <= |files| then runs[0].0 else |files|;
      MigrateGrows(spec, db, files[..k], runs[0].1);
      RunsInitial(spec, Migrate(spec, db, files[..k], runs[0].1).db, files, runs[1..]);
    }
  }

  // ---------------------------------------------------------------- how a run moves the ledger

  /** `later` has the rows of `db`, and possibly more. */
  ghost predicate Grown(db: Db, later: Db) {
    later.initial == db.initial && db.rows <= later.rows && db.sql <= later.sql
  }

  lemma {:induction false} StatementsGrow(spec: Spec, db: Db, f: File, i: nat, n: nat, b: Budget)
    requires i <= n
    ensures
      var o := Statements(spec, db, f, i, n, b);
      && Grown(db, o.db) && o.count == |o.db.rows| - |db.rows| && o.db.sql == db.sql
      && (o.status == Done ==> f in Ledger(o.db) && o.db.rows == db.rows + [Row(f, Indexed)])
      && (o.status != Done ==> o.db.rows == db.rows)
      && (b.Unlimited? ==> o.status != Crashed && o.budget == b)
    decreases n - i
  {
    if Spend(b).Some? {
      if i == n {
        InLedger(db, f, Indexed);
      } else {
        StatementsGrow(spec, db.(ran := db.ran + [(f, i)]), f, i + 1, n, Spend(b).value);
      }
    }
  }

  lemma InLedger(db: Db, f: File, how: How)
    ensures f in Ledger(Insert(db, f, how))
  {
    assert Row(f, how) in Insert(db, f, how).rows;
  }

  lemma ApplyGrows(spec: Spec, db: Db, f: File, b: Budget)
    ensures
      var o := Apply(spec, db, f, b);
      && Grown(db, o.db) && o.count == |o.db.rows| - |db.rows|
      && (o.status == Done ==> f in Ledger(o.db))
      && (o.status != Done ==> o.db.rows == db.rows && o.db.sql == db.sql)
      && (b.Unlimited? ==> o.status != Crashed && o.budget == b)
  {
    InLedger(db, f, Committed);
    InLedger(db, f, Compatible);
    if spec.kind(f).Concurrent? { StatementsGrow(spec, db, f, 0, spec.kind(f).statements, b); }
    hide Statements, Ledger;
  }

  lemma OneGrows(spec: Spec, db: Db, f: File, b: Budget)
    ensures
      var o := One(spec, db, f, b);
      && Grown(db, o.db) && o.count == |o.db.rows| - |db.rows|
      && (o.status == Done ==> f in Ledger(o.db))
      && (o.status != Done ==> o.db.rows == db.rows && o.db.sql == db.sql)
      && (b.Unlimited? ==> o.status != Crashed && o.budget == b)
  {
    InLedger(db, f, Aliased);
    ApplyGrows(spec, db, f, b);
    if Spend(b).Some? { ApplyGrows(spec, db, f, Spend(b).value); }
    hide Apply, Ledger, HasLegacy;
  }

  lemma LedgerGrows(db: Db, later: Db)
    requires Grown(db, later)
    ensures Ledger(db) <= Ledger(later)
  {
    forall r | r in db.rows ensures r in later.rows {
    }
  }

  lemma {:induction false} MigrateGrows(spec: Spec, db: Db, files: seq<File>, b: Budget)
    ensures
      var o := Migrate(spec, db, files, b);
      && Grown(db, o.db) && o.count == |o.db.rows| - |db.rows|
      && (b.Unlimited? ==> o.status != Crashed && o.budget == b)
    decreases |files|
  {
    if files != [] {
      hide One;
      OneGrows(spec, db, files[0], b);
      var one := One(spec, db, files[0], b);
      MigrateGrows(spec, one.db, files[1..], one.budget);
    }
  }

  // ---------------------------------------------------------------- crashes do not matter

  /** A recorded file is passed over, whatever has been added to the ledger since. */
  lemma RecordedIsSkipped(spec: Spec, db: Db, f: File, b: Budget, later: Db)
    requires One(spec, db, f, b).status == Done && Grown(One(spec, db, f, b).db, later)
    ensures One(spec, later, f, Unlimited) == Out(later, 0, Unlimited, Done)
  {
    OneGrows(spec, db, f, b);
    LedgerGrows(One(spec, db, f, b).db, later);
    hide Statements;
    if spec.kind(f).Superseded? && !spec.kind(f).checksumOk {
      assert f in spec.legacy;
    }
  }

  /** Concurrent statements that were already run change nothing that a run decides by. */
  lemma {:induction false} StatementsIgnoreRan(spec: Spec, db: Db, db': Db, f: File, i: nat, n: nat)
    requires i <= n && db'.initial == db.initial && db'.rows == db.rows && db'.sql == db.sql
    ensures
      var o, o' := Statements(spec, db, f, i, n, Unlimited), Statements(spec, db', f, i, n, Unlimited);
      o'.db.initial == o.db.initial && o'.db.rows == o.db.rows && o'.db.sql == o.db.sql && o'.count == o.count && o'.status == o.status && o'.budget == o.budget
    decreases n - i
  {
    if i < n {
      StatementsIgnoreRan(spec, db.(ran := db.ran + [(f, i)]), db'.(ran := db'.ran + [(f, i)]), f, i + 1, n);
    }
  }

  /** The same rows, count and status. */
  ghost predicate SameLedger(o: Out, o': Out) {
    o'.db.initial == o.db.initial && o'.db.rows == o.db.rows && o'.db.sql == o.db.sql && o'.count == o.count && o'.status == o.status && o'.budget == o.budget
  }

  lemma OneIgnoresRan(spec: Spec, db: Db, db': Db, f: File)
    requires db'.initial == db.initial && db'.rows == db.rows && db'.sql == db.sql
    ensures SameLedger(One(spec, db, f, Unlimited), One(spec, db', f, Unlimited))
  {
    if spec.kind(f).Concurrent? {
      StatementsIgnoreRan(spec, db, db', f, 0, spec.kind(f).statements);
    }
    hide Statements;
  }

  lemma {:induction false} MigrateIgnoresRan(spec: Spec, db: Db, db': Db, files: seq<File>)
    requires db'.initial == db.initial && db'.rows == db.rows && db'.sql == db.sql
    ensures SameLedger(Migrate(spec, db, files, Unlimited), Migrate(spec, db', files, Unlimited))
    decreases |files|
  {
    if files != [] {
      hide One;
      OneIgnoresRan(spec, db, db', files[0]);
      OneGrows(spec, db, files[0], Unlimited);
      MigrateIgnoresRan(spec, One(spec, db, files[0], Unlimited).db, One(spec, db', files[0], Unlimited).db, files[1..]);
    }
  }

  /** Completing one file does not depend on how much budget there was. */
  lemma DoneIsDone(spec: Spec, db: Db, f: File, b: Budget)
    requires One(spec, db, f, b).status != Crashed
    ensures
      var o, u := One(spec, db, f, b), One(spec, db, f, Unlimited);
      o.db == u.db && o.count == u.count && o.status == u.status
  {
    if spec.kind(f).Concurrent? {
      StatementsDone(spec, db, f, 0, spec.kind(f).statements, b);
      StatementsGrow(spec, db, f, 0, spec.kind(f).statements, b);
      if Spend(b).Some? { StatementsGrow(spec, db, f, 0, spec.kind(f).statements, Spend(b).value); }
      if Spend(b).Some? { StatementsDone(spec, db, f, 0, spec.kind(f).statements, Spend(b).value); }
    }
    hide Statements;
  }

  lemma {:induction false} StatementsDone(spec: Spec, db: Db, f: File, i: nat, n: nat, b: Budget)
    requires i <= n
    ensures
      var o, u := Statements(spec, db, f, i, n, b), Statements(spec, db, f, i, n, Unlimited);
      o.status != Crashed ==> o.db == u.db && o.count == u.count && o.status == u.status
    decreases n - i
  {
    if i < n && Spend(b).Some? {
      StatementsDone(spec, db.(ran := db.ran + [(f, i)]), f, i + 1, n, Spend(b).value);
    }
  }

  /**
   * A run over a prefix of the files, stopped anywhere, followed by a full run: the ledger rows, the
   * SQL committed and the order of both are those of the full run alone, and the insertions add up.
   */
  lemma {:induction false} CrashThenRun(spec: Spec, db: Db, files: seq<File>, k: nat, b: Budget)
    requires k <= |files|
    ensures
      var crashed := Migrate(spec, db, files[..k], b);
      var again := Migrate(spec, crashed.db, files, Unlimited);
      var alone := Migrate(spec, db, files, Unlimited);
      && again.db.initial == alone.db.initial && again.db.rows == alone.db.rows && again.db.sql == alone.db.sql
      && again.status == alone.status
      && crashed.count + again.count == alone.count
    decreases |files|
  {
    hide One;
    if k > 0 {
      var f := files[0];
      assert files[..k][0] == f && files[..k][1..] == files[1..][..k - 1];
      var one := One(spec, db, f, b);
      OneGrows(spec, db, f, b);
      if one.status == Done {
        DoneIsDone(spec, db, f, b);
        OneGrows(spec, db, f, Unlimited);
        MigrateGrows(spec, one.db, files[1..][..k - 1], one.budget);
        RecordedIsSkipped(spec, db, f, b, Migrate(spec, one.db, files[1..][..k - 1], one.budget).db);
        CrashThenRun(spec, one.db, files[1..], k - 1, one.budget);
      } else {
        MigrateIgnoresRan(spec, db, one.db, files);
      }
    } else {
      assert files[..0] == [];
    }
  }

  /** Any number of interrupted or partial runs, then a full one: as if only the full one had happened. */
  lemma {:induction false} AnyHistoryThenRun(spec: Spec, db: Db, files: seq<File>, runs: seq<(nat, Budget)>)
    ensures
      var alone := Migrate(spec, db, files, Unlimited);
      var after := Migrate(spec, Runs(spec, db, files, runs), files, Unlimited);
      after.db.rows == alone.db.rows && after.db.sql == alone.db.sql && after.status == alone.status
    decreases |runs|
  {
    if runs != [] {
      hide Migrate;
      var k := if runs[0].0 <= |files| then runs[0].0 else |files|;
      CrashThenRun(spec, db, files, k, runs[0].1);
      AnyHistoryThenRun(spec, Migrate(spec, db, files[..k], runs[0].1).db, files, runs[1..]);
    }
  }

  /** A completed run's count is its number of ledger insertions, and an immediate re-run inserts nothing and returns 0. */
  lemma RerunReturnsZero(spec: Spec, db: Db, files: seq<File>)
    requires Migrate(spec, db, files, Unlimited).status == Done
    ensures
      var first := Migrate(spec, db, files, Unlimited);
      var second := Migrate(spec, first.db, files, Unlimited);
      && first.count == |first.db.rows| - |db.rows|
      && second.count == 0 && second.status == Done && second.db.rows == first.db.rows && second.db.sql == first.db.sql
  {
    hide Migrate;
    assert files[..|files|] == files;
    MigrateGrows(spec, db, files, Unlimited);
    CrashThenRun(spec, db, files, |files|, Unlimited);
  }

  // ---------------------------------------------------------------- when a run completes

  /** A name it once had is recorded. */
  predicate UnderLegacyName(spec: Spec, db: Db, f: File) {
    f in spec.legacy && exists name: File :: name in spec.legacy[f] && name in Ledger(db)
  }

  lemma LegacyNameFound(spec: Spec, db: Db, f: File)
    ensures UnderLegacyName(spec, db, f) <==> HasLegacy(spec, db, f)
  {
    if HasLegacy(spec, db, f) {
      var name :| name in spec.legacy[f] * Ledger(db);
    }
    if UnderLegacyName(spec, db, f) {
      var name :| name in spec.legacy[f] && name in Ledger(db);
      assert name in spec.legacy[f] * Ledger(db);
    }
  }

  /**
   * A file's turn goes through: it is recorded, under its own or a legacy name, or its SQL is accepted,
   * all of it where it is run statement by statement.  The superseded file needs its checksum, and its tables.
   */
  ghost predicate GoesThrough(spec: Spec, db: Db, f: File) {
    || (f in spec.legacy && (f in Ledger(db) || UnderLegacyName(spec, db, f)))
    || match spec.kind(f)
       case Ordinary => f in Ledger(db) || spec.accepts(f, 0, db.rows)
       case Superseded(checksumOk) => checksumOk && (f in Ledger(db) || spec.tables(db.rows))
       case Concurrent(n) => f in Ledger(db) || forall k: nat | k < n :: spec.accepts(f, k, db.rows)
  }

  /** Why a file that was not recorded is. */
  function HowRecorded(spec: Spec, db: Db, f: File): How {
    if UnderLegacyName(spec, db, f) then Aliased
    else match spec.kind(f)
      case Ordinary => Committed
      case Superseded(_) => Compatible
      case Concurrent(_) => Indexed
  }

  lemma {:induction false} StatementsGoThrough(spec: Spec, db: Db, f: File, i: nat, n: nat)
    requires i <= n
    ensures
      var o := Statements(spec, db, f, i, n, Unlimited);
      if forall k: nat | i <= k < n :: spec.accepts(f, k, db.rows)
      then o.status == Done && o.budget.Unlimited? && o.db.rows == db.rows + [Row(f, Indexed)] && o.db.sql == db.sql
      else o.status == Threw && o.db.rows == db.rows && o.db.sql == db.sql
    decreases n - i
  {
    if i < n {
      StatementsGoThrough(spec, db.(ran := db.ran + [(f, i)]), f, i + 1, n);
      assert spec.accepts(f, i, db.rows) ==>
        ((forall k: nat | i <= k < n :: spec.accepts(f, k, db.rows)) <==> (forall k: nat | i + 1 <= k < n :: spec.accepts(f, k, db.rows)));
    }
  }

  /**
   * A file's turn that no crash interrupts: a file that goes through and was not recorded gets its row,
   * and an ordinary one has its SQL committed with it; one that does not go through is an error, and
   * nothing of it stays.
   */
  lemma TurnExactlyWhen(spec: Spec, db: Db, f: File)
    ensures
      var o := One(spec, db, f, Unlimited);
      if GoesThrough(spec, db, f)
      then
        && o.status == Done && o.budget.Unlimited?
        && (if f in Ledger(db) then o.db.rows == db.rows && o.db.sql == db.sql
            else
              && o.db.rows == db.rows + [Row(f, HowRecorded(spec, db, f))]
              && o.db.sql == if HowRecorded(spec, db, f).Committed? then db.sql + [f] else db.sql)
      else o.status == Threw && o.db.rows == db.rows && o.db.sql == db.sql
  {
    LegacyNameFound(spec, db, f);
    if spec.kind(f).Concurrent? { StatementsGoThrough(spec, db, f, 0, spec.kind(f).statements); }
    hide Statements, Ledger, UnderLegacyName, HasLegacy;
  }

  /** A run that no crash interrupts completes if and only if every file goes through, given what the files before it left. */
  lemma {:induction false} CompletesExactlyWhen(spec: Spec, db: Db, files: seq<File>)
    ensures
      Migrate(spec, db, files, Unlimited).status == Done <==>
      forall k: nat | k < |files| :: GoesThrough(spec, Migrate(spec, db, files[..k], Unlimited).db, files[k])
    decreases |files|
  {
    if files != [] {
      hide GoesThrough, One;
      var o := One(spec, db, files[0], Unlimited);
      TurnEnds(spec, db, files[0]);
      CompletesExactlyWhen(spec, o.db, files[1..]);
      FirstTurn(spec, db, files);
      if o.status == Done {
        forall k: nat | k < |files[1..]|
          ensures Migrate(spec, db, files[..k + 1], Unlimited).db == Migrate(spec, o.db, files[1..][..k], Unlimited).db && files[k + 1] == files[1..][k]
        {
          assert files[..k + 1][0] == files[0] && files[..k + 1][1..] == files[1..][..k];
        }
        ShiftTurns(spec, db, o.db, files);
      }
    }
  }

  lemma TurnEnds(spec: Spec, db: Db, f: File)
    ensures
      var o := One(spec, db, f, Unlimited);
      (o.status == Done <==> GoesThrough(spec, db, f)) && (o.status == Done ==> o.budget.Unlimited?)
  {
    hide GoesThrough, One;
    TurnExactlyWhen(spec, db, f);
  }

  lemma FirstTurn(spec: Spec, db: Db, files: seq<File>)
    requires files != []
    ensures Migrate(spec, db, files[..0], Unlimited).db == db
  {
    assert files[..0] == [];
  }

  lemma ShiftTurns(spec: Spec, db: Db, next: Db, files: seq<File>)
    requires files != [] && GoesThrough(spec, db, files[0]) && Migrate(spec, db, files[..0], Unlimited).db == db
    requires forall k: nat | k < |files[1..]| ::
      Migrate(spec, db, files[..k + 1], Unlimited).db == Migrate(spec, next, files[1..][..k], Unlimited).db && files[k + 1] == files[1..][k]
    ensures
      (forall k: nat | k < |files| :: GoesThrough(spec, Migrate(spec, db, files[..k], Unlimited).db, files[k])) <==>
      (forall k: nat | k < |files[1..]| :: GoesThrough(spec, Migrate(spec, next, files[1..][..k], Unlimited).db, files[1..][k]))
  {
    hide GoesThrough, Migrate;
    if forall k: nat | k < |files[1..]| :: GoesThrough(spec, Migrate(spec, next, files[1..][..k], Unlimited).db, files[1..][k]) {
      forall k: nat | k < |files| ensures GoesThrough(spec, Migrate(spec, db, files[..k], Unlimited).db, files[k]) {
        if k > 0 { assert GoesThrough(spec, Migrate(spec, next, files[1..][..k - 1], Unlimited).db, files[1..][k - 1]); }
      }
    }
    if forall k: nat | k < |files| :: GoesThrough(spec, Migrate(spec, db, files[..k], Unlimited).db, files[k]) {
      forall k: nat | k < |files[1..]| ensures GoesThrough(spec, Migrate(spec, next, files[1..][..k], Unlimited).db, files[1..][k]) {
        assert GoesThrough(spec, Migrate(spec, db, files[..k + 1], Unlimited).db, files[k + 1]);
      }
    }
  }

  // ---------------------------------------------------------------- where a run may crash

  /** The actions of a run that nothing interrupts: queries of the ledger, transactions, top-level statements. */
  function StatementActions(spec: Spec, rows: seq<Row>, f: File, i: nat, n: nat): nat
    requires i <= n
    decreases n - i
  {
    1 + if i < n && spec.accepts(f, i, rows) then StatementActions(spec, rows, f, i + 1, n) else 0
  }

  function ApplyActions(spec: Spec, db: Db, f: File): nat {
    match spec.kind(f)
    case Ordinary => 1
    case Superseded(checksumOk) => if checksumOk then 1 else 0
    case Concurrent(n) => if f in Ledger(db) then 0 else StatementActions(spec, db.rows, f, 0, n)
  }

  function OneActions(spec: Spec, db: Db, f: File): nat {
    if f !in spec.legacy then ApplyActions(spec, db, f)
    else 1 + if f in Ledger(db) || HasLegacy(spec, db, f) then 0 else ApplyActions(spec, db, f)
  }

  function Actions(spec: Spec, db: Db, files: seq<File>): nat
    decreases |files|
  {
    if files == [] then 0
    else
      var o := One(spec, db, files[0], Unlimited);
      OneActions(spec, db, files[0]) + if o.status == Done then Actions(spec, o.db, files[1..]) else 0
  }

  /** With `n` actions left this part crashes exactly if it needs more; otherwise it does what it does uninterrupted. */
  ghost predicate CrashesBefore(full: Out, limited: Out, actions: nat, n: nat) {
    if n < actions then limited.status == Crashed else limited == full.(budget := Limited(n - actions))
  }

  lemma {:induction false} StatementsCrash(spec: Spec, db: Db, f: File, i: nat, k: nat, n: nat)
    requires i <= k
    ensures CrashesBefore(Statements(spec, db, f, i, k, Unlimited), Statements(spec, db, f, i, k, Limited(n)), StatementActions(spec, db.rows, f, i, k), n)
    decreases k - i
  {
    if n > 0 && i < k && spec.accepts(f, i, db.rows) {
      StatementsCrash(spec, db.(ran := db.ran + [(f, i)]), f, i + 1, k, n - 1);
    }
  }

  lemma ApplyCrashes(spec: Spec, db: Db, f: File, n: nat)
    ensures CrashesBefore(Apply(spec, db, f, Unlimited), Apply(spec, db, f, Limited(n)), ApplyActions(spec, db, f), n)
  {
    hide Statements, StatementActions, Ledger, Commit, Insert;
    if spec.kind(f).Concurrent? { StatementsCrash(spec, db, f, 0, spec.kind(f).statements, n); }
  }

  lemma OneCrashes(spec: Spec, db: Db, f: File, n: nat)
    ensures CrashesBefore(One(spec, db, f, Unlimited), One(spec, db, f, Limited(n)), OneActions(spec, db, f), n)
  {
    hide Apply, ApplyActions, Ledger, HasLegacy, Insert;
    ApplyCrashes(spec, db, f, n);
    if n > 0 { ApplyCrashes(spec, db, f, n - 1); }
  }

  /**
   * A process may die before any action of a run: with so many left it crashes exactly if the run needs
   * more, and otherwise the run is the uninterrupted one.
   */
  lemma {:induction false} CrashesExactlyWhen(spec: Spec, db: Db, files: seq<File>, n: nat)
    ensures
      var full, limited := Migrate(spec, db, files, Unlimited), Migrate(spec, db, files, Limited(n));
      var actions := Actions(spec, db, files);
      if n < actions then limited.status == Crashed else limited == full.(budget := Limited(n - actions))
    decreases |files|
  {
    hide One, OneActions;
    if files != [] {
      OneCrashes(spec, db, files[0], n);
      TurnEnds(spec, db, files[0]);
      var a := OneActions(spec, db, files[0]);
      if n >= a {
        CrashesExactlyWhen(spec, One(spec, db, files[0], Unlimited).db, files[1..], n - a);
      }
    }
  }

  // ---------------------------------------------------------------- split runs

  /** `.filter(file => file <= through)`. */
  function Through(dir: seq<File>, through: File): seq<File> {
    if dir == [] then [] else (if dir[0] <= through then [dir[0]] else []) + Through(dir[1..], through)
  }

  ghost predicate Sorted(dir: seq<File>) {
    forall i, j | 0 <= i < j < |dir| :: dir[i] < dir[j]
  }

  lemma {:induction false} ThroughIsPrefix(dir: seq<File>, a: File, b: File)
    requires Sorted(dir) && a <= b
    ensures Through(dir, a) <= Through(dir, b)
  {
    if dir != [] {
      ThroughIsPrefix(dir[1..], a, b);
      if dir[0] > a {
        NothingThrough(dir, a);
      }
    }
  }

  lemma {:induction false} NothingThrough(dir: seq<File>, a: File)
    requires forall i | 0 <= i < |dir| :: dir[i] > a
    ensures Through(dir, a) == []
  {
    if dir != [] {
      NothingThrough(dir[1..], a);
    }
  }

  /** Running through `a` and then through `b` gives the ledger and the commit order of running through `b`. */
  lemma SplitRun(spec: Spec, db: Db, dir: seq<File>, a: File, b: File)
    requires Sorted(dir) && a <= b
    ensures
      var first := Migrate(spec, db, Through(dir, a), Unlimited);
      var second := Migrate(spec, first.db, Through(dir, b), Unlimited);
      var alone := Migrate(spec, db, Through(dir, b), Unlimited);
      second.db.rows == alone.db.rows && second.db.sql == alone.db.sql && second.status == alone.status
      && first.count + second.count == alone.count
  {
    hide Migrate;
    ThroughIsPrefix(dir, a, b);
    var files := Through(dir, b);
    assert files[..|Through(dir, a)|] == Through(dir, a);
    CrashThenRun(spec, db, files, |Through(dir, a)|, Unlimited);
  }

  /** The rows from `from` on name files of `files`, in their order. */
  ghost predicate InOrder(rows: seq<Row>, from: nat, files: seq<File>) {
    && (forall i | from <= i < |rows| :: rows[i].file in files)
    && (forall i, j | from <= i < j < |rows| :: rows[i].file < rows[j].file)
  }

  lemma MoreInOrder(rows: seq<Row>, from: nat, files: seq<File>)
    requires Sorted(files) && files != []
    ensures InOrder(rows, from, files[1..]) ==> InOrder(rows, from, files)
    ensures InOrder(rows, from + 1, files[1..]) && from < |rows| && rows[from].file == files[0] ==> InOrder(rows, from, files)
  {
    forall f | f in files[1..] ensures f in files && files[0] < f {
    }
    if InOrder(rows, from + 1, files[1..]) && from < |rows| && rows[from].file == files[0] {
      forall i | from <= i < |rows| ensures rows[i].file in files {
        if i > from { assert rows[i].file in files[1..]; }
      }
    }
  }

  /** One run records files in directory order. */
  lemma {:induction false} RecordedInOrder(spec: Spec, db: Db, files: seq<File>, b: Budget)
    requires Sorted(files)
    ensures InOrder(Migrate(spec, db, files, b).db.rows, |db.rows|, files)
    decreases |files|
  {
    if files != [] {
      hide One, InOrder;
      OneRecords(spec, db, files[0], b);
      var one := One(spec, db, files[0], b);
      RecordedInOrder(spec, one.db, files[1..], one.budget);
      MigrateGrows(spec, one.db, files[1..], one.budget);
      NoRows(one.db.rows, files);
      MoreInOrder(Migrate(spec, one.db, files[1..], one.budget).db.rows, |db.rows|, files);
      MoreInOrder(one.db.rows, |db.rows|, files);
      NoRows(one.db.rows, files[1..]);
    } else {
      NoRows(db.rows, files);
    }
  }

  lemma NoRows(rows: seq<Row>, files: seq<File>)
    ensures InOrder(rows, |rows|, files)
  {
  }

  lemma OneRecords(spec: Spec, db: Db, f: File, b: Budget)
    ensures
      var o := One(spec, db, f, b);
      o.db.rows == db.rows || (|o.db.rows| == |db.rows| + 1 && o.db.rows[..|db.rows|] == db.rows && o.db.rows[|db.rows|].file == f)
  {
    if spec.kind(f).Concurrent? {
      StatementsGrow(spec, db, f, 0, spec.kind(f).statements, b);
      if Spend(b).Some? { StatementsGrow(spec, db, f, 0, spec.kind(f).statements, Spend(b).value); }
    }
    hide Statements;
  }
}
