/** src/db/connection.py: `DatabaseConnection`, a holder for one sqlite3
    connection that opens it on construction, reopens it on demand, closes it
    idempotently and runs queries through `execute_query`.

    The sqlite3 connection itself is modelled by `SqliteConnection`: the file's
    committed tables live in a `DbFile`; a connection with an open transaction
    holds its uncommitted tables. Python's sqlite3 module (in its default
    isolation level) opens a transaction implicitly before INSERT, UPDATE and
    DELETE, runs CREATE TABLE outside a transaction in autocommit, and leaves
    the transaction open until `commit` or `rollback`. */
module Connection {
  import opened Common
  import opened Schema
  import opened Sql

  /** A database file: its committed tables, whether SQLite can open it and
      whether it can be written. */
  class DbFile {
    var content: Tables
    const reachable: bool
    const writable: bool

    constructor (content: Tables, reachable: bool, writable: bool)
      ensures this.content == content && this.reachable == reachable && this.writable == writable
    {
      this.content := content;
      this.reachable := reachable;
      this.writable := writable;
    }
  }

  /** What a sqlite3 connection knows: the committed tables, the tables of
      its open transaction (if any), and whether it has been closed. */
  datatype ConnState = ConnState(committed: Tables, pending: Option<Tables>, closed: bool) {
    /** The tables a statement on this connection sees. */
    function Snapshot(): Tables { pending.GetOr(committed) }
  }

  const ClosedError := "Cannot operate on a closed database."
  const NestedBeginError := "cannot start a transaction within a transaction"

  /** `cursor.execute(s, params)` on a connection in state `c`. */
  function Exec(c: ConnState, s: Statement, params: seq<SqlValue>, writable: bool): (res: (Step, ConnState))
    ensures c.closed ==> res.0.Failed? && res.1 == c
    ensures res.1.closed == c.closed
    ensures IsQuery(s) ==> res.1 == c
    ensures res.0.Done? ==> res.1.Snapshot() == res.0.tables
    ensures res.0.Done? && IsQuery(s) ==> res.0 == Run(s, params, c.Snapshot(), writable)
    ensures IsDml(s) ==> res.1.committed == c.committed
    ensures res.0.Failed? ==> res.1.Snapshot() == c.Snapshot()
  {
    if c.closed then (Failed(ClosedError), c)
    else if s.Begin? then ExecBegin(c, params, writable)
    else ExecStatement(c, s, params, writable)
  }

  /** BEGIN: opens a transaction, or fails when one is already open. */
  function ExecBegin(c: ConnState, params: seq<SqlValue>, writable: bool): (res: (Step, ConnState))
    requires !c.closed
    ensures res.1.closed == c.closed
    ensures res.0.Done? ==> res.1 == c.(pending := Some(c.committed)) && c.pending.None?
    ensures res.0.Done? ==> res.0.tables == c.committed
    ensures res.0.Failed? ==> res.1 == c
  {
    var r := Run(Begin, params, c.Snapshot(), writable);
    if r.Failed? then (r, c)
    else if c.pending.Some? then (Failed(NestedBeginError), c)
    else (r, c.(pending := Some(c.committed)))
  }

  /** Any other statement: an implicit BEGIN precedes a data change once the
      statement has been prepared and bound; the result joins the open
      transaction, or is committed at once when none is open. */
  function ExecStatement(c: ConnState, s: Statement, params: seq<SqlValue>, writable: bool): (res: (Step, ConnState))
    requires !c.closed && !s.Begin?
    ensures res.1.closed == c.closed
    ensures IsQuery(s) ==> res.1 == c
    ensures res.0.Done? ==> res.1.Snapshot() == res.0.tables
    ensures res.0 == Run(s, params, c.Snapshot(), writable)
    ensures IsDml(s) ==> res.1.committed == c.committed
    ensures res.0.Failed? ==> res.1.Snapshot() == c.Snapshot()
  {
    var prepared := Resolves(c.Snapshot(), Scopes(s)) && |params| == Placeholders(s);
    var c1 := if prepared && IsDml(s) && c.pending.None? then c.(pending := Some(c.committed)) else c;
    assert c1.Snapshot() == c.Snapshot();
    var r := Run(s, params, c1.Snapshot(), writable);
    match r
    case Failed(_) => (r, c1)
    case Done(t, _, _, _) => (r, if c1.pending.Some? then c1.(pending := Some(t)) else c1.(committed := t))
  }

  /** Whether a select cannot be prepared on this connection: it is closed,
      a table or column it names is missing, or the parameters do not match. */
  predicate QueryFails(c: ConnState, s: Statement, params: seq<SqlValue>) {
    c.closed || !Resolves(c.Snapshot(), Scopes(s)) || |params| != Placeholders(s)
  }

  /** A select leaves the connection as it was, fails exactly when it cannot be
      prepared, and otherwise yields its result over the visible tables. */
  lemma ExecQuery(c: ConnState, s: Statement, params: seq<SqlValue>, writable: bool)
    requires IsQuery(s)
    ensures Exec(c, s, params, writable).1 == c
    ensures Exec(c, s, params, writable).0.Failed? <==> QueryFails(c, s, params)
    ensures !QueryFails(c, s, params) ==> Exec(c, s, params, writable).0 == Effect(s, params, c.Snapshot(), writable)
  {
  }

  /** A data change that can be prepared, on a writable file, and whose effect
      succeeds: its result joins a transaction, opened implicitly if need be. */
  lemma ExecDmlDone(c: ConnState, s: Statement, params: seq<SqlValue>, writable: bool)
    requires IsDml(s) && !c.closed && writable
    requires Resolves(c.Snapshot(), Scopes(s)) && |params| == Placeholders(s)
    requires Effect(s, params, c.Snapshot(), writable).Done?
    ensures Exec(c, s, params, writable)
         == (Effect(s, params, c.Snapshot(), writable),
             c.(pending := Some(Effect(s, params, c.Snapshot(), writable).tables)))
  {
    assert ResolveError(c.Snapshot(), Scopes(s)).None?;
  }

  /** The rows a select fetches on `db`, or `None` when there is no
      connection or the select raises. */
  function Fetch(db: Option<ConnState>, s: Statement, params: seq<SqlValue>): Option<seq<seq<SqlValue>>>
    requires IsQuery(s)
  {
    match db
    case None => None
    case Some(c) =>
      if QueryFails(c, s, params) then None else Some(Effect(s, params, c.Snapshot(), false).rows)
  }

  /** The tables a query on `db` sees, when it can run at all. */
  function Visible(db: Option<ConnState>): Tables {
    match db
    case None => NoTables
    case Some(c) => c.Snapshot()
  }

  /** `connection.commit()`: the transaction's tables become the file's. */
  function CommitState(c: ConnState): (res: (Option<string>, ConnState))
    ensures c.closed ==> res == (Some(ClosedError), c)
    ensures !c.closed ==> res.0.None? && res.1 == ConnState(c.Snapshot(), None, false)
  {
    if c.closed then (Some(ClosedError), c) else (None, ConnState(c.Snapshot(), None, false))
  }

  /** `connection.rollback()`: the transaction's tables are dropped. */
  function RollbackState(c: ConnState): (res: (Option<string>, ConnState))
    ensures c.closed ==> res == (Some(ClosedError), c)
    ensures !c.closed ==> res.0.None? && res.1 == ConnState(c.committed, None, false)
  {
    if c.closed then (Some(ClosedError), c) else (None, c.(pending := None))
  }

  /** A sqlite3.Connection to one file. */
  class SqliteConnection {
    const file: DbFile
    var pending: Option<Tables>
    var closed: bool

    function State(): ConnState
      reads this, file
    {
      ConnState(file.content, pending, closed)
    }

    /** `sqlite3.connect(file)` when the file can be opened. */
    constructor (file: DbFile)
      ensures this.file == file && pending == None && !closed
    {
      this.file := file;
      pending := None;
      closed := false;
    }

    method Execute(s: Statement, params: seq<SqlValue>) returns (r: Step)
      modifies this, file
      ensures (r, State()) == Exec(old(State()), s, params, file.writable)
    {
      var res := Exec(State(), s, params, file.writable);
      r := res.0;
      file.content, pending, closed := res.1.committed, res.1.pending, res.1.closed;
    }

    method Commit() returns (err: Option<string>)
      modifies this, file
      ensures (err, State()) == CommitState(old(State()))
    {
      var res := CommitState(State());
      err := res.0;
      file.content, pending, closed := res.1.committed, res.1.pending, res.1.closed;
    }

    method Rollback() returns (err: Option<string>)
      modifies this
      ensures (err, State()) == RollbackState(old(State()))
    {
      var res := RollbackState(State());
      err := res.0;
      pending := res.1.pending;
    }

    /** `connection.close()` does not commit: an open transaction is lost. */
    method Close()
      modifies this
      ensures State() == ConnState(old(file.content), None, true)
    {
      pending := None;
      closed := true;
    }
  }

  /** What `execute_query` hands back: fetched rows for a select, the
      affected-row count otherwise. */
  datatype QueryResult = FetchedRows(rows: seq<seq<SqlValue>>) | RowCount(count: int)

  /** The outcome of `execute_query`: a value, the RuntimeError it raises for
      any sqlite3.Error, or the AttributeError of calling `cursor()` on None. */
  datatype QueryOutcome = Returned(result: QueryResult) | RuntimeError(message: string) | AttributeError

  /** `execute_query(query, params, is_select)` on an open sqlite3 connection.
      Empty `params` is Python's falsy case: the statement is executed without
      parameters, which binds nothing, exactly as binding an empty tuple. */
  function ExecuteQueryState(c: ConnState, query: Statement, params: seq<SqlValue>, isSelect: bool, writable: bool): (res: (QueryOutcome, ConnState))
  {
    var (step, c1) := Exec(c, query, params, writable);
    match step
    case Failed(e) => (RuntimeError("Database operation failed: " + e), c1)
    case Done(_, rows, n, _) =>
      if isSelect then (Returned(FetchedRows(rows)), c1)
      else (Returned(RowCount(n)), CommitState(c1).1)
  }

  /** A select run with `is_select` returns the statement's rows and leaves the
      connection as it was: nothing is committed. */
  lemma SelectDoesNotCommit(c: ConnState, query: Statement, params: seq<SqlValue>, writable: bool)
    requires IsQuery(query) && !c.closed
    requires Run(query, params, c.Snapshot(), writable).Done?
    ensures ExecuteQueryState(c, query, params, true, writable)
         == (Returned(FetchedRows(Run(query, params, c.Snapshot(), writable).rows)), c)
  {
  }

  /** Without `is_select` a statement that succeeds is committed at once: no
      transaction is left open and the file holds what the statement produced. */
  lemma WriteCommits(c: ConnState, query: Statement, params: seq<SqlValue>, writable: bool)
    requires ExecuteQueryState(c, query, params, false, writable).0.Returned?
    ensures ExecuteQueryState(c, query, params, false, writable).1.pending.None?
    ensures ExecuteQueryState(c, query, params, false, writable).1.committed == Exec(c, query, params, writable).0.tables
    ensures ExecuteQueryState(c, query, params, false, writable).0.result == RowCount(Exec(c, query, params, writable).0.rowcount)
  {
  }

  /** With `is_select` a write is run but never committed: on a connection
      with no transaction open, the file keeps its old tables while the
      change waits in a transaction. */
  lemma SelectFlagLeavesWritePending(c: ConnState, query: Statement, params: seq<SqlValue>, writable: bool)
    requires IsDml(query) && !c.closed && c.pending.None?
    requires Exec(c, query, params, writable).0.Done?
    ensures ExecuteQueryState(c, query, params, true, writable).1.committed == c.committed
    ensures ExecuteQueryState(c, query, params, true, writable).1.pending == Some(Exec(c, query, params, writable).0.tables)
  {
  }

  /** Any statement error surfaces as a RuntimeError carrying its message. */
  lemma ErrorsBecomeRuntimeErrors(c: ConnState, query: Statement, params: seq<SqlValue>, isSelect: bool, writable: bool)
    requires Exec(c, query, params, writable).0.Failed?
    ensures ExecuteQueryState(c, query, params, isSelect, writable).0
         == RuntimeError("Database operation failed: " + Exec(c, query, params, writable).0.message)
  {
  }

  /** The holder of src/db/connection.py. */
  class DatabaseConnection {
    const dbFile: DbFile
    var connection: SqliteConnection?
    /** The connect error `__init__` re-raised, if any: an object with an
        error here stands for the exception, and no caller keeps it. */
    var openError: Option<string>

    /** `__init__`: no connection, then `open_connection`. When
        `sqlite3.connect` fails the error propagates out of the constructor;
        the model records it in `openError`. */
    constructor (dbFile: DbFile)
      ensures this.dbFile == dbFile
      ensures openError.None? <==> dbFile.reachable
      ensures openError.None? ==> connection != null && fresh(connection) && connection.file == dbFile
                                  && connection.pending.None? && !connection.closed
      ensures openError.Some? ==> connection == null
    {
      this.dbFile := dbFile;
      connection := null;
      openError := None;
      new;
      openError := OpenConnection();
    }

    /** `open_connection`: a no-op while a connection is held; otherwise a new
        connection, or the connect error (re-raised) with `connection` left None. */
    method OpenConnection() returns (err: Option<string>)
      modifies this
      ensures old(connection) != null ==> connection == old(connection) && err.None?
      ensures old(connection) == null && dbFile.reachable ==>
                err.None? && connection != null && fresh(connection) && connection.file == dbFile
                && connection.pending.None? && !connection.closed
      ensures old(connection) == null && !dbFile.reachable ==> err.Some? && connection == null
    {
      err := None;
      if connection == null {
        if dbFile.reachable {
          connection := new SqliteConnection(dbFile);
        } else {
          err := Some("unable to open database file");
        }
      }
    }

    /** `close_connection`: closes the held connection, if any, and forgets it. */
    method CloseConnection()
      modifies this, connection
      ensures connection == null
      ensures old(connection) != null ==> old(connection).closed && old(connection).pending.None?
    {
      if connection != null {
        connection.Close();
        connection := null;
      }
    }

    /** `__enter__`: opens if needed and yields the connection. */
    method Enter() returns (c: SqliteConnection?, err: Option<string>)
      modifies this
      ensures old(connection) != null ==> c == old(connection) && err.None?
      ensures err.None? ==> c == connection && c != null
      ensures old(connection) == null && !dbFile.reachable ==> err.Some?
    {
      err := OpenConnection();
      c := connection;
    }

    /** `__exit__`: closes. */
    method Exit()
      modifies this, connection
      ensures connection == null
      ensures old(connection) != null ==> old(connection).closed
    {
      CloseConnection();
    }

    method ExecuteQuery(query: Statement, params: seq<SqlValue>, isSelect: bool) returns (r: QueryOutcome)
      modifies if connection == null then {} else {connection, connection.file}
      ensures connection == old(connection)
      ensures old(connection) == null ==> r == AttributeError
      ensures old(connection) != null ==>
                (r, connection.State()) == ExecuteQueryState(old(connection.State()), query, params, isSelect, connection.file.writable)
    {
      if connection == null {
        r := AttributeError;
        return;
      }
      var step := connection.Execute(query, params);
      match step
      case Failed(e) =>
        r := RuntimeError("Database operation failed: " + e);
      case Done(_, rows, n, _) =>
        if isSelect {
          r := Returned(FetchedRows(rows));
        } else {
          var _ := connection.Commit();
          r := Returned(RowCount(n));
        }
    }
  }
}
