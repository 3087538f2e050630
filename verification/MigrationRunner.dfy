/** The runner's loop over files and its loop over top-level statements, on the database it updates. */
module MigrationRunner {
  import opened Options
  import opened Migrations

  class MigrationRunner {
    var db: Db
    /** How many more actions succeed before the process dies. */
    var budget: Budget

    constructor (db: Db, budget: Budget)
      ensures this.db == db && this.budget == budget
    {
      this.db, this.budget := db, budget;
    }

    /** One action reaches the database, unless the process dies first. */
    method Act() returns (alive: bool)
      modifies `budget
      ensures alive <==> Spend(old(budget)).Some?
      ensures budget == if alive then Spend(old(budget)).value else old(budget)
    {
      match budget {
        case Unlimited => alive := true;
        case Limited(n) =>
          alive := n > 0;
          if alive { budget := Limited(n - 1); }
      }
    }

    /** The transaction of an ordinary file: its SQL and its ledger row, or neither. */
    method CommitSql(file: File)
      modifies `db
      ensures db == Commit(old(db), file)
    {
      db := db.(sql := db.sql + [file]);
      db := db.(rows := db.rows + [Row(file, Committed)]);
    }

    /** `INSERT INTO public._migrations`. */
    method Record(file: File, how: How)
      modifies `db
      ensures db == Insert(old(db), file, how)
    {
      db := db.(rows := db.rows + [Row(file, how)]);
    }

    /** `for (const statement of concurrentStatements)`, then the ledger row. */
    method RunStatements(spec: Spec, file: File, n: nat) returns (count: nat, status: Status)
      modifies `db, `budget
      ensures Out(db, count, budget, status) == Statements(spec, old(db), file, 0, n, old(budget))
    {
      count := 0;
      var i := 0;
      while i < n
        invariant i <= n
        invariant Statements(spec, db, file, i, n, budget) == Statements(spec, old(db), file, 0, n, old(budget))
      {
        var alive := Act();
        if !alive { return 0, Crashed; }
        if !spec.accepts(file, i, db.rows) { return 0, Threw; }
        db := db.(ran := db.ran + [(file, i)]);
        i := i + 1;
      }
      var alive := Act();
      if !alive { return 0, Crashed; }
      Record(file, Indexed);
      return 1, Done;
    }

    /** One file after the alias check: it is recorded now or was before, or nothing has changed but statements run. */
    method ApplyFile(spec: Spec, file: File) returns (count: nat, status: Status)
      modifies `db, `budget
      ensures Out(db, count, budget, status) == Apply(spec, old(db), file, old(budget))
      ensures Settled(old(db), db, file, count, status)
    {
      ApplySettles(spec, db, file, budget);
      hide Statements, Settled;
      match spec.kind(file) {
        case Concurrent(n) =>
          if file in Ledger(db) { return 0, Done; }
          count, status := RunStatements(spec, file, n);
        case Superseded(checksumOk) =>
          if !checksumOk { return 0, Threw; }
          var alive := Act();
          if !alive { return 0, Crashed; }
          if file in Ledger(db) { return 0, Done; }
          if !spec.tables(db.rows) { return 0, Threw; }
          Record(file, Compatible);
          return 1, Done;
        case Ordinary =>
          var alive := Act();
          if !alive { return 0, Crashed; }
          if file in Ledger(db) { return 0, Done; }
          if !spec.accepts(file, 0, db.rows) { return 0, Threw; }
          CommitSql(file);
          return 1, Done;
      }
    }

    /** The loop body: an alias is recorded, or the file is applied; what the ledger promises stays true. */
    method MigrateFile(spec: Spec, file: File) returns (count: nat, status: Status)
      modifies `db, `budget
      ensures Out(db, count, budget, status) == One(spec, old(db), file, old(budget))
      ensures Settled(old(db), db, file, count, status) && (Inv(spec, old(db)) ==> Inv(spec, db))
    {
      OneSettles(spec, db, file, budget);
      if Inv(spec, db) { OneKeeps(spec, db, file, budget); }
      hide Apply, Inv, Settled;
      if file in spec.legacy {
        var alive := Act();
        if !alive { return 0, Crashed; }
        if file in Ledger(db) { return 0, Done; }
        if spec.legacy[file] * Ledger(db) != {} {
          Record(file, Aliased);
          return 1, Done;
        }
      }
      count, status := ApplyFile(spec, file);
    }

    /** `migratePgliteExclusive` over the sorted files. */
    method Run(spec: Spec, files: seq<File>) returns (count: nat, status: Status)
      modifies `db, `budget
      ensures Out(db, count, budget, status) == Migrate(spec, old(db), files, old(budget))
    {
      hide One;
      count, status := 0, Done;
      var i := 0;
      while i < |files|
        invariant i <= |files| && status == Done
        invariant
          var rest := Migrate(spec, db, files[i..], budget);
          Migrate(spec, old(db), files, old(budget)) == rest.(count := count + rest.count)
      {
        assert files[i..][0] == files[i] && files[i..][1..] == files[i + 1..];
        var applied;
        applied, status := MigrateFile(spec, files[i]);
        if status != Done {
          return count + applied, status;
        }
        count := count + applied;
        i := i + 1;
      }
      assert files[i..] == [];
    }
  }

  /**
   * What one file's turn leaves: done, the file is in the ledger; not done, ledger and committed SQL
   * are as before; the count is that of new rows, which name the file; and SQL is committed once, for
   * an unrecorded file, together with its row.
   */
  ghost predicate Settled(db: Db, db': Db, f: File, count: nat, status: Status) {
    && db'.initial == db.initial && |db'.rows| == |db.rows| + count
    && (status.Done? ==> f in Ledger(db'))
    && (!status.Done? ==> db'.rows == db.rows && db'.sql == db.sql)
    && (db'.rows == db.rows || (f !in Ledger(db) && exists how :: db'.rows == db.rows + [Row(f, how)]))
    && (db'.sql == db.sql || (db'.sql == db.sql + [f] && db'.rows == db.rows + [Row(f, Committed)]))
  }

  lemma ApplySettles(spec: Spec, db: Db, f: File, b: Budget)
    ensures var o := Apply(spec, db, f, b); Settled(db, o.db, f, o.count, o.status)
  {
    forall how: How ensures f in Ledger(Insert(db, f, how)) {
      InLedger(db, f, how);
    }
    InLedger(db.(sql := db.sql + [f]), f, Committed);
    if spec.kind(f).Concurrent? { StatementsGrow(spec, db, f, 0, spec.kind(f).statements, b); }
    hide Statements;
  }

  lemma OneSettles(spec: Spec, db: Db, f: File, b: Budget)
    ensures var o := One(spec, db, f, b); Settled(db, o.db, f, o.count, o.status)
  {
    hide Apply;
    ApplySettles(spec, db, f, b);
    InLedger(db, f, Aliased);
    if Spend(b).Some? { ApplySettles(spec, db, f, Spend(b).value); }
  }
}
