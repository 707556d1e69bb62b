/** src/utils/initialize_database.py: creating the four tables, collecting one
    error per table that could not be created, and loading the seed data in a
    single transaction that is committed whole or rolled back. */
module DatabaseInitializer {
  import opened Common
  import opened Schema
  import opened Sql
  import opened Connection
  import SeedData

  // ------------------------------------------------------ table creation

  function CreateError(t: TableName): string { "Failed to create table " + TableText(t) + "." }

  const NoConnectionError := "Unable to establish a database connection."

  /** The errors and final connection state of creating `ts` in order; each
      failed CREATE TABLE adds its error and the loop goes on. */
  function CreateAll(c: ConnState, ts: seq<TableName>, writable: bool): (res: (seq<string>, ConnState))
    decreases |ts|
  {
    if |ts| == 0 then ([], c)
    else
      var (errs, c1) := CreateAll(c, ts[..|ts| - 1], writable);
      var (ok, c2) := CreateStep(c1, ts[|ts| - 1], writable);
      (if ok then errs else errs + [CreateError(ts[|ts| - 1])], c2)
  }

  /** Whether `CREATE TABLE IF NOT EXISTS t` fails: on a closed connection, or
      when the table is missing and the file cannot be written. */
  predicate CreateFails(c: ConnState, t: TableName, writable: bool) {
    c.closed || (!c.Snapshot().Exists(t) && !writable)
  }

  /** One CREATE TABLE: whether it succeeded and the connection afterwards. It
      joins an open transaction, and is committed at once otherwise. */
  function CreateStep(c: ConnState, t: TableName, writable: bool): (bool, ConnState) {
    if CreateFails(c, t, writable) then (false, c)
    else if c.pending.Some? then (true, c.(pending := Some(c.Snapshot().Create(t))))
    else (true, c.(committed := c.committed.Create(t)))
  }

  lemma CreateStepIsExec(c: ConnState, t: TableName, writable: bool)
    ensures Exec(c, CreateTable(t), [], writable).0.Done? == CreateStep(c, t, writable).0
    ensures Exec(c, CreateTable(t), [], writable).1 == CreateStep(c, t, writable).1
  {
  }

  /** The error list of `create_tables`, stated per table: exactly the tables
      whose creation fails get an error, in creation order. */
  function ExpectedErrors(c: ConnState, ts: seq<TableName>, writable: bool): (r: seq<string>)
    ensures |r| <= |ts|
  {
    if |ts| == 0 then []
    else ExpectedErrors(c, ts[..|ts| - 1], writable)
         + (if CreateFails(c, ts[|ts| - 1], writable) then [CreateError(ts[|ts| - 1])] else [])
  }

  /** Creating some tables changes neither whether the connection is closed
      nor whether the other tables exist; and the tables created are there. */
  lemma {:induction false} CreateAllState(c: ConnState, ts: seq<TableName>, writable: bool)
    ensures CreateAll(c, ts, writable).1.closed == c.closed
    ensures forall u :: u !in ts ==> CreateAll(c, ts, writable).1.Snapshot().Exists(u) == c.Snapshot().Exists(u)
    ensures forall u :: u in ts && !CreateFails(c, u, writable) ==> CreateAll(c, ts, writable).1.Snapshot().Exists(u)
    ensures forall u :: u in ts && c.Snapshot().Exists(u) ==> CreateAll(c, ts, writable).1.Snapshot().Exists(u)
    decreases |ts|
  {
    if |ts| > 0 {
      var init := ts[..|ts| - 1];
      var last := ts[|ts| - 1];
      CreateAllState(c, init, writable);
      assert forall u :: u in ts <==> u in init || u == last;
    }
  }

  /** `create_tables` records one error per failed table, and only for those:
      a failure does not stop the loop, and one table's creation does not
      decide another's. */
  lemma {:induction false} CreateAllErrors(c: ConnState, ts: seq<TableName>, writable: bool)
    requires Distinct(ts)
    ensures CreateAll(c, ts, writable).0 == ExpectedErrors(c, ts, writable)
    decreases |ts|
  {
    if |ts| > 0 {
      var init := ts[..|ts| - 1];
      var last := ts[|ts| - 1];
      assert Distinct(init);
      assert last !in init;
      CreateAllErrors(c, init, writable);
      CreateAllState(c, init, writable);
    }
  }

  // ----------------------------------------------------------- seed data

  function Flatten<T>(groups: seq<seq<T>>): seq<T> {
    if |groups| == 0 then [] else Flatten(groups[..|groups| - 1]) + groups[|groups| - 1]
  }

  /** The seed statements applied one after another to `t` inside one
      transaction; `None` as soon as one of them fails. */
  function ApplySeeds(t: Tables, stmts: seq<SeedStatement>, writable: bool): Option<Tables>
    decreases |stmts|
  {
    if |stmts| == 0 then Some(t)
    else
      match ApplySeeds(t, stmts[..|stmts| - 1], writable)
      case None => None
      case Some(u) => SeedStep(u, stmts[|stmts| - 1], writable)
  }

  /** One seed statement inside the transaction: it fails only when a table
      it names is missing or the file is read-only. */
  function SeedStep(t: Tables, st: SeedStatement, writable: bool): Option<Tables> {
    if writable && SeedTablesExist(t, st) then Some(SeedEffect(st, t).tables) else None
  }

  /** `SeedStep` is what running the statement does. */
  lemma SeedStepIsRun(t: Tables, st: SeedStatement, writable: bool)
    ensures SeedStep(t, st, writable) == (var r := Run(Seed(st), [], t, writable); if r.Done? then Some(r.tables) else None)
  {
    SeedResolves(t, st);
  }

  lemma ApplySeedsSnoc(t: Tables, done: seq<SeedStatement>, st: SeedStatement, writable: bool)
    ensures ApplySeeds(t, done + [st], writable)
         == if ApplySeeds(t, done, writable).None? then None else SeedStep(ApplySeeds(t, done, writable).value, st, writable)
  {
    assert (done + [st])[..|done|] == done;
  }

  lemma {:induction false} ApplySeedsFailureSticks(t: Tables, a: seq<SeedStatement>, b: seq<SeedStatement>, writable: bool)
    requires ApplySeeds(t, a, writable).None?
    ensures ApplySeeds(t, a + b, writable).None?
    decreases |b|
  {
    if |b| > 0 {
      var init := a + b[..|b| - 1];
      assert (a + b)[..|a + b| - 1] == init;
      ApplySeedsFailureSticks(t, a, b[..|b| - 1], writable);
    } else {
      assert a + b == a;
    }
  }

  /** What `load_initial_data` does: it returns a flag, or raises when the
      rollback in its error handler itself fails. */
  datatype LoadOutcome = Loaded(ok: bool) | Raised(message: string)

  /** The whole of `load_initial_data` on an open or closed connection: BEGIN,
      every seed statement in order, then COMMIT; ROLLBACK on the first error. */
  function LoadState(c: ConnState, data: seq<seq<SeedStatement>>, writable: bool): (res: (LoadOutcome, ConnState))
  {
    if c.closed then (Raised(ClosedError), c)
    else if c.pending.Some? then (Loaded(false), RollbackState(c).1)
    else match ApplySeeds(c.committed, Flatten(data), writable)
      case None => (Loaded(false), RollbackState(c).1)
      case Some(t) => (Loaded(true), ConnState(t, None, false))
  }

  /** All or nothing: a successful load commits every statement's effect, a
      failed one leaves the file's tables exactly as they were, and no
      transaction stays open either way. */
  lemma AllOrNothing(c: ConnState, data: seq<seq<SeedStatement>>, writable: bool)
    requires !c.closed
    ensures LoadState(c, data, writable).1.pending.None? && !LoadState(c, data, writable).1.closed
    ensures LoadState(c, data, writable).0 == Loaded(false) ==> LoadState(c, data, writable).1.committed == c.committed
    ensures LoadState(c, data, writable).0 == Loaded(true) <==>
              c.pending.None? && ApplySeeds(c.committed, Flatten(data), writable).Some?
    ensures LoadState(c, data, writable).0 == Loaded(true) ==>
              LoadState(c, data, writable).1.committed == ApplySeeds(c.committed, Flatten(data), writable).value
  {
  }

  /** The initializer of src/utils/initialize_database.py. It captures the
      holder's connection when it is built. */
  class DatabaseInitializer {
    const conn: SqliteConnection?

    constructor (db: DatabaseConnection)
      ensures conn == db.connection
    {
      conn := db.connection;
    }

    /** `create_table`: true iff the statement raised no sqlite3.Error. */
    method CreateOne(c: SqliteConnection, t: TableName) returns (ok: bool)
      modifies c, c.file
      ensures (ok, c.State()) == CreateStep(old(c.State()), t, c.file.writable)
    {
      CreateStepIsExec(c.State(), t, c.file.writable);
      var step := c.Execute(CreateTable(t), []);
      ok := step.Done?;
    }

    /** `create_tables`: every table of TABLES_SQL is attempted in order. */
    method CreateTables() returns (success: bool, errors: seq<string>)
      modifies if conn == null then {} else {conn, conn.file}
      ensures conn == null ==> !success && errors == [NoConnectionError]
      ensures conn != null ==>
                (errors, conn.State()) == CreateAll(old(conn.State()), CreationOrder, conn.file.writable)
                && errors == ExpectedErrors(old(conn.State()), CreationOrder, conn.file.writable)
                && success == (|errors| == 0)
    {
      if conn == null {
        return false, [NoConnectionError];
      }
      ghost var c0 := conn.State();
      errors := [];
      var i := 0;
      while i < |CreationOrder|
        invariant 0 <= i <= |CreationOrder|
        invariant (errors, conn.State()) == CreateAll(c0, CreationOrder[..i], conn.file.writable)
      {
        var ok := CreateOne(conn, CreationOrder[i]);
        assert CreationOrder[..i + 1][..i] == CreationOrder[..i];
        if !ok {
          errors := errors + [CreateError(CreationOrder[i])];
        }
        i := i + 1;
      }
      assert CreationOrder[..i] == CreationOrder;
      CreateAllErrors(c0, CreationOrder, conn.file.writable);
      success := |errors| == 0;
    }

    /** `load_initial_data` over the seed groups of db_schema.py. */
    method LoadInitialData() returns (r: LoadOutcome)
      modifies if conn == null then {} else {conn, conn.file}
      ensures conn == null ==> r == Loaded(false)
      ensures conn != null ==> (r, conn.State()) == LoadState(old(conn.State()), SeedData.InitialData, conn.file.writable)
    {
      if conn == null {
        return Loaded(false);
      }
      r := LoadGroups(conn, SeedData.InitialData);
    }
  }

  /** BEGIN, the groups in order, then COMMIT, or ROLLBACK on the first error. */
  method LoadGroups(conn: SqliteConnection, data: seq<seq<SeedStatement>>) returns (r: LoadOutcome)
    modifies conn, conn.file
    ensures (r, conn.State()) == LoadState(old(conn.State()), data, conn.file.writable)
  {
    ghost var c0 := conn.State();
    var begin := conn.Execute(Begin, []);
    if begin.Failed? {
      var err := conn.Rollback();
      r := if err.Some? then Raised(err.value) else Loaded(false);
      return;
    }
    var failed := false;
    var g := 0;
    while g < |data| && !failed
      invariant 0 <= g <= |data|
      invariant !conn.State().closed && conn.State().committed == c0.committed && conn.State().pending.Some?
      invariant !failed ==> ApplySeeds(c0.committed, Flatten(data[..g]), conn.file.writable) == conn.State().pending
      invariant failed ==> ApplySeeds(c0.committed, Flatten(data), conn.file.writable).None?
    {
      FlattenSnoc(data, g);
      var ok := RunGroup(conn, data[g], c0.committed, Flatten(data[..g]));
      if !ok {
        failed := true;
        GroupFailureSticks(c0.committed, data, g, conn.file.writable);
      }
      g := g + 1;
    }
    if failed {
      var _ := conn.Rollback();
      r := Loaded(false);
    } else {
      FlattenAll(data, g);
      var _ := conn.Commit();
      r := Loaded(true);
    }
  }

  /** A seed statement executed inside an open transaction changes only the
      transaction's tables, as `SeedStep` says. */
  lemma SeedInTransaction(c: ConnState, st: SeedStatement, writable: bool)
    requires !c.closed && c.pending.Some?
    ensures Exec(c, Seed(st), [], writable).0.Failed? <==> SeedStep(c.pending.value, st, writable).None?
    ensures Exec(c, Seed(st), [], writable).1
         == if SeedStep(c.pending.value, st, writable).Some? then c.(pending := SeedStep(c.pending.value, st, writable)) else c
  {
    SeedStepIsRun(c.pending.value, st, writable);
  }

  /** `c.execute(data_sql)` for one seed statement inside the transaction,
      after the statements `before`. */
  method RunSeed(conn: SqliteConnection, st: SeedStatement, ghost base: Tables, ghost before: seq<SeedStatement>)
    returns (ok: bool)
    requires !conn.State().closed && conn.State().pending.Some?
    requires conn.State().pending == ApplySeeds(base, before, conn.file.writable)
    modifies conn, conn.file
    ensures !conn.State().closed && conn.State().pending.Some?
    ensures conn.State().committed == old(conn.State().committed)
    ensures ok ==> conn.State().pending == ApplySeeds(base, before + [st], conn.file.writable)
    ensures !ok ==> ApplySeeds(base, before + [st], conn.file.writable).None?
  {
    ApplySeedsSnoc(base, before, st, conn.file.writable);
    SeedInTransaction(conn.State(), st, conn.file.writable);
    var step := conn.Execute(Seed(st), []);
    ok := step.Done?;
  }

  /** The statements of one group, in list order, inside the open transaction;
      false at the first statement that fails. */
  method RunGroup(conn: SqliteConnection, group: seq<SeedStatement>, ghost base: Tables, ghost done: seq<SeedStatement>)
    returns (ok: bool)
    requires !conn.State().closed && conn.State().pending.Some?
    requires conn.State().pending == ApplySeeds(base, done, conn.file.writable)
    modifies conn, conn.file
    ensures !conn.State().closed && conn.State().pending.Some?
    ensures conn.State().committed == old(conn.State().committed)
    ensures ok ==> conn.State().pending == ApplySeeds(base, done + group, conn.file.writable)
    ensures !ok ==> ApplySeeds(base, done + group, conn.file.writable).None?
  {
    ghost var w := conn.file.writable;
    var k := 0;
    ghost var before := done;
    assert done + group[..k] == done;
    while k < |group|
      invariant 0 <= k <= |group| && before == done + group[..k]
      invariant !conn.closed && conn.pending.Some?
      invariant conn.file.content == old(conn.file.content)
      invariant conn.pending == ApplySeeds(base, before, w)
    {
      var stepOk := RunSeed(conn, group[k], base, before);
      PrefixSnoc(done, group, k);
      if !stepOk {
        ApplySeedsFailureSticks(base, before + [group[k]], group[k + 1..], w);
        return false;
      }
      before := before + [group[k]];
      k := k + 1;
    }
    assert group[..k] == group;
    return true;
  }

  /** One more group: its statements follow those of the groups before it. */
  lemma FlattenSnoc<T>(data: seq<seq<T>>, g: nat)
    requires g < |data|
    ensures Flatten(data[..g + 1]) == Flatten(data[..g]) + data[g]
  {
    assert data[..g + 1][..g] == data[..g];
  }

  lemma FlattenAll<T>(data: seq<seq<T>>, g: nat)
    requires g == |data|
    ensures Flatten(data[..g]) == Flatten(data)
  {
    assert data[..g] == data;
  }

  /** Once the statements of the first groups fail, so do those of all groups. */
  lemma GroupFailureSticks(t: Tables, data: seq<seq<SeedStatement>>, g: nat, writable: bool)
    requires g < |data| && ApplySeeds(t, Flatten(data[..g + 1]), writable).None?
    ensures ApplySeeds(t, Flatten(data), writable).None?
  {
    ApplySeedsFailureSticks(t, Flatten(data[..g + 1]), Flatten(data[g + 1..]), writable);
    FlattenAppend(data[..g + 1], data[g + 1..]);
    assert data[..g + 1] + data[g + 1..] == data;
  }

  lemma {:induction false} FlattenAppend<T>(a: seq<seq<T>>, b: seq<seq<T>>)
    ensures Flatten(a + b) == Flatten(a) + Flatten(b)
    decreases |b|
  {
    if |b| > 0 {
      assert (a + b)[..|a + b| - 1] == a + b[..|b| - 1];
      assert (a + b)[|a + b| - 1] == b[|b| - 1];
      FlattenAppend(a, b[..|b| - 1]);
      assert Flatten(a + b) == Flatten(a) + Flatten(b[..|b| - 1]) + b[|b| - 1];
    } else {
      assert a + b == a;
    }
  }
}
