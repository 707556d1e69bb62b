/** src/models/snippet_model.py: create, update, delete and read snippets.
    Each write builds its parameter tuple from the form's dict (a missing key
    raises KeyError before the `try`), runs one statement, commits, and turns
    any other error into None or False. Three of the statements name a column
    or a table alias the schema does not define; the column lists are
    parameters here so that the statements as written and as intended can be
    compared. */
module SnippetModel {
  import opened Common
  import opened Schema
  import opened Sql
  import opened Connection

  /** The form's dict, as key/value pairs. */
  type SnippetData = seq<(string, SqlValue)>

  /** A value, or the KeyError raised while building the parameters. */
  datatype Outcome<T> = Ok(value: T) | KeyError(key: string)

  /** The column list of the INSERT and UPDATE as written. */
  const WrittenColumns: seq<string> := ["title", "language", "code", "category_id"]
  /** The column list the schema calls for. */
  const IntendedColumns: seq<string> := ["title", "language_id", "code", "category_id"]
  /** The select list of `get_snippets_by_category` as written. */
  const WrittenCategoryColumns: seq<string> := ["id", "title", "language", "code"]
  /** The table alias `get_all_snippets` orders by, as written. */
  const WrittenOrderQualifier := "s"
  /** The select list the schema calls for. */
  const IntendedCategoryColumns: seq<string> := ["id", "title", "language_id", "code"]
  /** The table `get_all_snippets` means to order by. */
  const IntendedOrderQualifier := "snippets"

  /** `(d['title'], d['language'], d['code'], d.get('category_id'))`: the
      first missing required key raises. */
  function WriteParams(data: SnippetData): (r: Outcome<seq<SqlValue>>)
    ensures r.Ok? ==> |r.value| == 4
    ensures r.Ok? <==> HasKey(data, "title") && HasKey(data, "language") && HasKey(data, "code")
  {
    match (Lookup(data, "title"), Lookup(data, "language"), Lookup(data, "code"))
    case (None, _, _) => KeyError("title")
    case (Some(_), None, _) => KeyError("language")
    case (Some(_), Some(_), None) => KeyError("code")
    case (Some(t), Some(l), Some(c)) => Ok([t, l, c, Lookup(data, "category_id").GetOr(Null)])
  }

  // ------------------------------------------------- specification functions

  /** `add_snippet(data)` on `db` with INSERT column list `cols`: the new row
      id after a commit, or None when the statement (or the missing
      connection) raises. */
  function AddState(db: Option<ConnState>, data: SnippetData, cols: seq<string>, writable: bool): (Outcome<Option<int>>, Option<ConnState>)
  {
    match WriteParams(data)
    case KeyError(k) => (KeyError(k), db)
    case Ok(params) =>
      match db
      case None => (Ok(None), db)
      case Some(c) =>
        var (step, c1) := Exec(c, InsertSnippet(cols), params, writable);
        if step.Failed? then (Ok(None), Some(c1))
        else
          var (err, c2) := CommitState(c1);
          (Ok(if err.Some? then None else step.lastRowId), Some(c2))
  }

  /** `update_snippet(id, data)`: True when the committed UPDATE changed a row. */
  function UpdateState(db: Option<ConnState>, id: SqlValue, data: SnippetData, cols: seq<string>, writable: bool): (Outcome<bool>, Option<ConnState>)
  {
    match WriteParams(data)
    case KeyError(k) => (KeyError(k), db)
    case Ok(params) =>
      match db
      case None => (Ok(false), db)
      case Some(c) =>
        var (step, c1) := Exec(c, UpdateSnippet(cols), params + [id], writable);
        if step.Failed? then (Ok(false), Some(c1))
        else
          var (err, c2) := CommitState(c1);
          (Ok(err.None? && step.rowcount > 0), Some(c2))
  }

  /** `delete_snippet(id)`: True when the committed DELETE removed a row. */
  function DeleteState(db: Option<ConnState>, id: SqlValue, writable: bool): (bool, Option<ConnState>)
  {
    match db
    case None => (false, db)
    case Some(c) =>
      var (step, c1) := Exec(c, DeleteSnippet, [id], writable);
      if step.Failed? then (false, Some(c1))
      else
        var (err, c2) := CommitState(c1);
        (err.None? && step.rowcount > 0, Some(c2))
  }

  /** The five-key dict of `get_snippet` and `get_all_snippets`. */
  datatype NamedRecord = NamedRecord(id: SqlValue, title: SqlValue, code: SqlValue, language: SqlValue, category: SqlValue)

  function NamedRecordOf(x: JoinRow): NamedRecord {
    NamedRecord(Int(x.snippet.id), Text(x.snippet.title), Text(x.snippet.code), Text(x.language.name), Text(x.category.name))
  }

  /** `get_snippet(id)`: the first joined row with that id, as a record. */
  function NamedSnippet(db: Option<ConnState>, id: SqlValue): Option<NamedRecord> {
    if Fetch(db, SelectNamedSnippet, [id]).None? then None
    else
      var hits := WithSnippetId(Join(Visible(db)), id);
      if |hits| == 0 then None else Some(NamedRecordOf(hits[0]))
  }

  /** `get_all_snippets` with ORDER BY qualifier `q`. */
  function NamedSnippets(db: Option<ConnState>, q: string): seq<NamedRecord> {
    if Fetch(db, SelectNamedSnippets(q), []).None? then []
    else var rows := SortByTitle(Join(Visible(db)));
         seq(|rows|, i requires 0 <= i < |rows| => NamedRecordOf(rows[i]))
  }

  /** The four-key dict of `get_snippets_by_category`. */
  datatype CategorySnippet = CategorySnippet(id: SqlValue, title: SqlValue, language: SqlValue, code: SqlValue)

  /** `get_snippets_by_category(category_id)` with select list `cols`. */
  function SnippetsInCategory(db: Option<ConnState>, category: SqlValue, cols: seq<string>): seq<CategorySnippet>
    requires |cols| == 4
  {
    if Fetch(db, SelectSnippetsByCategory(cols), [category]).None? then []
    else
      CategoryRecords(SortSnippetsByTitle(InCategory(Snips(Visible(db)), category)), cols)
  }

  /** One four-key dict per row, holding the row's values of `cols`. */
  function CategoryRecords(rows: seq<Snippet>, cols: seq<string>): seq<CategorySnippet>
    requires |cols| == 4
  {
    seq(|rows|, i requires 0 <= i < |rows| =>
      CategorySnippet(SnippetColumn(rows[i], cols[0]), SnippetColumn(rows[i], cols[1]),
                      SnippetColumn(rows[i], cols[2]), SnippetColumn(rows[i], cols[3])))
  }

  // ------------------------------------------------------------------ model

  class SnippetModel {
    /** `db_connection.connection`: the raw sqlite3 connection, or None. */
    const conn: SqliteConnection?

    constructor (db: DatabaseConnection)
      ensures conn == db.connection
    {
      conn := db.connection;
    }

    function Db(): Option<ConnState>
      reads this, conn, if conn == null then {} else {conn.file}
    {
      if conn == null then None else Some(conn.State())
    }

    predicate Writable()
      reads this, conn
    {
      conn != null && conn.file.writable
    }

    method AddSnippet(data: SnippetData) returns (r: Outcome<Option<int>>)
      modifies if conn == null then {} else {conn, conn.file}
      ensures (r, Db()) == AddState(old(Db()), data, WrittenColumns, Writable())
    {
      var p := WriteParams(data);
      if p.KeyError? {
        return KeyError(p.key);
      }
      if conn == null {
        return Ok(None);
      }
      var step := conn.Execute(InsertSnippet(WrittenColumns), p.value);
      if step.Failed? {
        return Ok(None);
      }
      var err := conn.Commit();
      r := Ok(if err.Some? then None else step.lastRowId);
    }

    method UpdateSnippet(id: SqlValue, data: SnippetData) returns (r: Outcome<bool>)
      modifies if conn == null then {} else {conn, conn.file}
      ensures (r, Db()) == UpdateState(old(Db()), id, data, WrittenColumns, Writable())
    {
      var p := WriteParams(data);
      if p.KeyError? {
        return KeyError(p.key);
      }
      if conn == null {
        return Ok(false);
      }
      var step := conn.Execute(Sql.UpdateSnippet(WrittenColumns), p.value + [id]);
      if step.Failed? {
        return Ok(false);
      }
      var err := conn.Commit();
      r := Ok(err.None? && step.rowcount > 0);
    }

    method DeleteSnippet(id: SqlValue) returns (deleted: bool)
      modifies if conn == null then {} else {conn, conn.file}
      ensures (deleted, Db()) == DeleteState(old(Db()), id, Writable())
    {
      if conn == null {
        return false;
      }
      var step := conn.Execute(Sql.DeleteSnippet, [id]);
      if step.Failed? {
        return false;
      }
      var err := conn.Commit();
      deleted := err.None? && step.rowcount > 0;
    }

    method GetSnippet(id: SqlValue) returns (snippet: Option<NamedRecord>)
      ensures snippet == NamedSnippet(Db(), id)
    {
      if conn == null {
        return None;
      }
      var step := Exec(conn.State(), SelectNamedSnippet, [id], false).0;
      ExecQuery(conn.State(), SelectNamedSnippet, [id], false);
      if step.Failed? || |step.rows| == 0 {
        return None;
      }
      var row := step.rows[0];
      snippet := Some(NamedRecord(row[0], row[1], row[2], row[3], row[4]));
    }

    method GetAllSnippets() returns (snippets: seq<NamedRecord>)
      ensures snippets == NamedSnippets(Db(), WrittenOrderQualifier)
    {
      if conn == null {
        return [];
      }
      var step := Exec(conn.State(), SelectNamedSnippets(WrittenOrderQualifier), [], false).0;
      ExecQuery(conn.State(), SelectNamedSnippets(WrittenOrderQualifier), [], false);
      if step.Failed? {
        return [];
      }
      var rows := step.rows;
      snippets := seq(|rows|, i requires 0 <= i < |rows| && |rows[i]| >= 5 => NamedRecord(rows[i][0], rows[i][1], rows[i][2], rows[i][3], rows[i][4]));
    }

    method GetSnippetsByCategory(category: SqlValue) returns (snippets: seq<CategorySnippet>)
      ensures snippets == SnippetsInCategory(Db(), category, WrittenCategoryColumns)
    {
      if conn == null {
        return [];
      }
      var s := SelectSnippetsByCategory(WrittenCategoryColumns);
      var step := Exec(conn.State(), s, [category], false).0;
      ExecQuery(conn.State(), s, [category], false);
      if step.Failed? {
        return [];
      }
      var rows := step.rows;
      snippets := seq(|rows|, i requires 0 <= i < |rows| && |rows[i]| >= 4 => CategorySnippet(rows[i][0], rows[i][1], rows[i][2], rows[i][3]));
    }
  }

  // ------------------------------------------------ the statements as written

  /** The snippets table declares no `language` column, so the INSERT and the
      UPDATE as written cannot be prepared against any database. */
  lemma WrittenWritesNeverResolve(t: Tables)
    ensures !Resolves(t, Scopes(InsertSnippet(WrittenColumns)))
    ensures !Resolves(t, Scopes(Sql.UpdateSnippet(WrittenColumns)))
    ensures !Resolves(t, Scopes(SelectSnippetsByCategory(WrittenCategoryColumns)))
  {
    var srcs := [Plain(Snippets)];
    assert srcs[1..] == [];
    assert !Binds(srcs, Col("language"));
    assert Scopes(InsertSnippet(WrittenColumns))[0].refs[1] == Col("language");
    assert Scopes(Sql.UpdateSnippet(WrittenColumns))[0].refs[1] == Col("language");
    assert Scopes(SelectSnippetsByCategory(WrittenCategoryColumns))[0].refs[2] == Col("language");
  }

  /** No table of the join is called or aliased `s`. */
  lemma WrittenOrderNeverResolves(t: Tables)
    ensures !Resolves(t, Scopes(SelectNamedSnippets(WrittenOrderQualifier)))
  {
    var scope := Scopes(SelectNamedSnippets(WrittenOrderQualifier))[0];
    assert scope.refs[|scope.refs| - 1] == Qualified("s", "title");
    assert !Binds(scope.sources, Qualified("s", "title"));
  }

  /** `add_snippet` as written never inserts: it raises KeyError or returns
      None, and the database is left exactly as it was. */
  lemma AddSnippetNeverInserts(db: Option<ConnState>, data: SnippetData, writable: bool)
    ensures AddState(db, data, WrittenColumns, writable).0 in {KeyError("title"), KeyError("language"), KeyError("code"), Ok(None)}
    ensures AddState(db, data, WrittenColumns, writable).1 == db
  {
    if db.Some? {
      WrittenWritesNeverResolve(db.value.Snapshot());
    }
  }

  /** `update_snippet` as written never updates: KeyError or False, nothing changed. */
  lemma UpdateSnippetNeverUpdates(db: Option<ConnState>, id: SqlValue, data: SnippetData, writable: bool)
    ensures UpdateState(db, id, data, WrittenColumns, writable).0 in {KeyError("title"), KeyError("language"), KeyError("code"), Ok(false)}
    ensures UpdateState(db, id, data, WrittenColumns, writable).1 == db
  {
    if db.Some? {
      WrittenWritesNeverResolve(db.value.Snapshot());
    }
  }

  /** `get_snippets_by_category` as written always returns []. */
  lemma SnippetsByCategoryAlwaysEmpty(db: Option<ConnState>, category: SqlValue)
    ensures SnippetsInCategory(db, category, WrittenCategoryColumns) == []
  {
    if db.Some? {
      WrittenWritesNeverResolve(db.value.Snapshot());
    }
  }

  /** `get_all_snippets` as written always returns []. */
  lemma AllNamedSnippetsAlwaysEmpty(db: Option<ConnState>)
    ensures NamedSnippets(db, WrittenOrderQualifier) == []
  {
    if db.Some? {
      WrittenOrderNeverResolves(db.value.Snapshot());
    }
  }

  // ----------------------------------------------- the statements as intended

  /** With the declared columns the INSERT and UPDATE resolve whenever the
      snippets table exists. */
  lemma IntendedWritesResolve(t: Tables)
    requires t.snippets.Some?
    ensures Resolves(t, Scopes(InsertSnippet(IntendedColumns)))
    ensures Resolves(t, Scopes(Sql.UpdateSnippet(IntendedColumns)))
  {
    var srcs := [Plain(Snippets)];
    SnippetColumnsBind();
    var refs := Cols(IntendedColumns);
    SingleScopeResolves(t, srcs, refs);
    SingleScopeResolves(t, srcs, refs + [Col("id")]);
  }

  /** Every declared column of `snippets` names exactly one source. */
  lemma SnippetColumnsBind()
    ensures forall c :: c in IntendedColumns + ["id"] ==> Binds([Plain(Snippets)], Col(c))
  {
    var srcs := [Plain(Snippets)];
    assert srcs[1..] == [];
  }

  /** Ordering by `snippets.title` names a table of the join, so the select
      can be prepared whenever the three tables exist. */
  lemma IntendedOrderResolves(t: Tables)
    requires t.snippets.Some? && t.languages.Some? && t.categories.Some?
    ensures Resolves(t, Scopes(SelectNamedSnippets(IntendedOrderQualifier)))
  {
    var srcs := JoinSources;
    assert srcs[0].alias == "snippets" && srcs[1].alias == "languages" && srcs[2].alias == "categories";
    var refs := FiveColumns + JoinRefs + [Qualified(IntendedOrderQualifier, "title")];
    assert forall j :: 0 <= j < |refs| ==> Binds(srcs, refs[j]);
    SingleScopeResolves(t, srcs, refs);
  }

  /** Corrected `get_all_snippets`: on an open connection to a database with
      the three tables, one record per joined row, ascending by title. */
  lemma IntendedAllSnippetsListed(c: ConnState)
    requires !c.closed && c.Snapshot().snippets.Some? && c.Snapshot().languages.Some? && c.Snapshot().categories.Some?
    ensures var rs := NamedSnippets(Some(c), IntendedOrderQualifier);
            && |rs| == |Join(c.Snapshot())|
            && (forall x :: x in Join(c.Snapshot()) ==> NamedRecordOf(x) in rs)
            && (forall i :: 0 <= i < |rs| ==> rs[i].title.Text?)
            && (forall i :: 0 <= i < |rs| - 1 ==> TitleLe(rs[i].title.s, rs[i + 1].title.s))
  {
    var t := c.Snapshot();
    IntendedOrderResolves(t);
    assert !QueryFails(c, SelectNamedSnippets(IntendedOrderQualifier), []);
    NamedRecordsByTitle(Join(t));
  }

  /** The records of rows sorted by title: one per row, ascending by title. */
  lemma NamedRecordsByTitle(rows: seq<JoinRow>)
    ensures var sorted := SortByTitle(rows);
            var rs := seq(|sorted|, i requires 0 <= i < |sorted| => NamedRecordOf(sorted[i]));
            && |rs| == |rows|
            && (forall x :: x in rows ==> NamedRecordOf(x) in rs)
            && (forall i :: 0 <= i < |rs| ==> rs[i].title.Text?)
            && (forall i :: 0 <= i < |rs| - 1 ==> TitleLe(rs[i].title.s, rs[i + 1].title.s))
  {
    var sorted := SortByTitle(rows);
    SortByTitleCorrect(rows);
    var rs := seq(|sorted|, i requires 0 <= i < |sorted| => NamedRecordOf(sorted[i]));
    assert |sorted| == |multiset(sorted)| == |multiset(rows)| == |rows|;
    forall x | x in rows
      ensures NamedRecordOf(x) in rs
    {
      assert x in multiset(sorted);
      var i :| 0 <= i < |sorted| && sorted[i] == x;
      assert rs[i] == NamedRecordOf(x);
    }
  }

  /** Selecting `language_id` in place of `language` names only declared
      columns, so the select can be prepared whenever the snippets table
      exists. */
  lemma IntendedCategoryResolves(t: Tables)
    requires t.snippets.Some?
    ensures Resolves(t, Scopes(SelectSnippetsByCategory(IntendedCategoryColumns)))
  {
    SnippetColumnsBind();
    SingleScopeResolves(t, [Plain(Snippets)], Cols(IntendedCategoryColumns) + [Col("category_id"), Col("title")]);
  }

  /** Corrected `get_snippets_by_category`: on an open connection to a
      database with the snippets table, a record is listed exactly when it is
      the id, title, language id and code of a snippet in the category. */
  lemma IntendedCategoryListed(c: ConnState, category: SqlValue, r: CategorySnippet)
    requires !c.closed && c.Snapshot().snippets.Some?
    ensures r in SnippetsInCategory(Some(c), category, IntendedCategoryColumns) <==>
              exists s :: s in Snips(c.Snapshot()) && ColumnEquals(s.categoryId, category)
                          && r == CategorySnippet(Int(s.id), Text(s.title), s.languageId, Text(s.code))
  {
    var t := c.Snapshot();
    IntendedCategoryResolves(t);
    assert !QueryFails(c, SelectSnippetsByCategory(IntendedCategoryColumns), [category]);
    CategoryRecordsMembers(Snips(t), category, r);
  }

  /** The corrected records of a category's rows, sorted by title: a record
      is listed exactly when it is the id, title, language id and code of a
      row in that category. */
  lemma CategoryRecordsMembers(ss: seq<Snippet>, category: SqlValue, r: CategorySnippet)
    ensures r in CategoryRecords(SortSnippetsByTitle(InCategory(ss, category)), IntendedCategoryColumns) <==>
              exists s :: s in ss && ColumnEquals(s.categoryId, category)
                          && r == CategorySnippet(Int(s.id), Text(s.title), s.languageId, Text(s.code))
  {
    var inCat := InCategory(ss, category);
    var rows := SortSnippetsByTitle(inCat);
    SortedRowsMembers(inCat);
    IntendedCategoryRecords(rows);
    var rs := CategoryRecords(rows, IntendedCategoryColumns);
    if r in rs {
      var i :| 0 <= i < |rs| && rs[i] == r;
      InCategoryMembers(ss, category, rows[i]);
    }
    if exists s :: s in ss && ColumnEquals(s.categoryId, category)
                   && r == CategorySnippet(Int(s.id), Text(s.title), s.languageId, Text(s.code)) {
      var s :| s in ss && ColumnEquals(s.categoryId, category)
               && r == CategorySnippet(Int(s.id), Text(s.title), s.languageId, Text(s.code));
      InCategoryMembers(ss, category, s);
      var i :| 0 <= i < |rows| && rows[i] == s;
      assert rs[i] == r;
    }
  }

  /** With the declared columns, the i-th record holds the i-th row's id, title,
      language and code. */
  lemma IntendedCategoryRecords(rows: seq<Snippet>)
    ensures |CategoryRecords(rows, IntendedCategoryColumns)| == |rows|
    ensures forall i :: 0 <= i < |rows| ==>
              CategoryRecords(rows, IntendedCategoryColumns)[i]
              == CategorySnippet(Int(rows[i].id), Text(rows[i].title), rows[i].languageId, Text(rows[i].code))
  {
  }

  /** Sorting by title keeps exactly the rows it was given. */
  lemma SortedRowsMembers(rows: seq<Snippet>)
    ensures forall s :: s in SortSnippetsByTitle(rows) <==> s in rows
  {
    SortSnippetsKeepsRows(rows);
    var sorted := SortSnippetsByTitle(rows);
    forall s
      ensures s in sorted <==> s in rows
    {
      assert s in sorted <==> s in multiset(sorted);
      assert s in rows <==> s in multiset(rows);
    }
  }

  /** A row is in the category's rows exactly when it is a row of that category. */
  lemma {:induction false} InCategoryMembers(ss: seq<Snippet>, category: SqlValue, s: Snippet)
    ensures s in InCategory(ss, category) <==> s in ss && ColumnEquals(s.categoryId, category)
  {
    if |ss| > 0 {
      InCategoryMembers(ss[1..], category, s);
      assert s in ss <==> s == ss[0] || s in ss[1..];
    }
  }

  /** Sorting by title keeps every row, as often as it occurs. */
  lemma {:induction false} SortSnippetsKeepsRows(rows: seq<Snippet>)
    ensures multiset(SortSnippetsByTitle(rows)) == multiset(rows)
  {
    if |rows| > 0 {
      SortSnippetsKeepsRows(rows[1..]);
      InsertSnippetKeepsRows(rows[0], SortSnippetsByTitle(rows[1..]));
      assert rows == [rows[0]] + rows[1..];
    }
  }

  lemma {:induction false} InsertSnippetKeepsRows(x: Snippet, rows: seq<Snippet>)
    ensures multiset(InsertSnippetByTitle(x, rows)) == multiset(rows) + multiset{x}
  {
    if |rows| > 0 && !TitleLe(x.title, rows[0].title) {
      InsertSnippetKeepsRows(x, rows[1..]);
      assert rows == [rows[0]] + rows[1..];
    }
  }

  /** One scope resolves when its tables exist and its references bind. */
  lemma SingleScopeResolves(t: Tables, srcs: seq<Source>, refs: seq<ColumnRef>)
    requires forall i :: 0 <= i < |srcs| ==> t.Exists(srcs[i].table)
    requires forall j :: 0 <= j < |refs| ==> Binds(srcs, refs[j])
    ensures Resolves(t, [Scope(srcs, refs)])
  {
  }

  /** The values a complete form supplies. */
  function Field(data: SnippetData, key: string): SqlValue {
    Lookup(data, key).GetOr(Null)
  }

  /** The snippets table `update_snippet` means to leave: every row carrying
      the id takes the form's title, code, language and category, and every
      other row is kept as it was. */
  function FormUpdated(ss: seq<Snippet>, data: SnippetData, id: SqlValue): seq<Snippet>
    requires !Field(data, "title").Null? && !Field(data, "code").Null?
  {
    seq(|ss|, i requires 0 <= i < |ss| =>
      if ColumnEquals(Int(ss[i].id), id) then
        ss[i].(title := TextAffinity(Field(data, "title")).value, code := TextAffinity(Field(data, "code")).value,
               languageId := IntegerAffinity(Field(data, "language")),
               categoryId := IntegerAffinity(Lookup(data, "category_id").GetOr(Null)))
      else ss[i])
  }

  /** With the declared columns, `add_snippet` on a writable database inserts
      one committed row holding the form's values under a fresh id, and
      returns that id. */
  lemma IntendedAddInserts(c: ConnState, data: SnippetData, writable: bool)
    requires WriteParams(data).Ok? && !c.closed && c.Snapshot().snippets.Some? && writable
    requires !Field(data, "title").Null? && !Field(data, "code").Null?
    ensures var (r, db) := AddState(Some(c), data, IntendedColumns, writable);
            var ss := Snips(c.Snapshot());
            r.Ok? && r.value.Some? && db.Some? && db.value.pending.None? && !db.value.closed
            && r.value.value !in SnippetIds(ss)
            && db.value.committed == c.Snapshot().(
                 snippets := Some(ss + [Snippet(r.value.value,
                                                TextAffinity(Field(data, "title")).value,
                                                TextAffinity(Field(data, "code")).value,
                                                IntegerAffinity(Field(data, "language")),
                                                IntegerAffinity(Lookup(data, "category_id").GetOr(Null)))]),
                 snippetSeq := r.value.value)
  {
    var t := c.Snapshot();
    var params := WriteParams(data).value;
    assert params == [Field(data, "title"), Field(data, "language"), Field(data, "code"),
                      Lookup(data, "category_id").GetOr(Null)];
    IntendedWritesResolve(t);
    IntendedInsertRow(t, params);
    AddStateDone(c, data, IntendedColumns, writable);
  }

  /** An INSERT that can be prepared and succeeds is committed at once, and
      `add_snippet` returns the new row's id. */
  lemma AddStateDone(c: ConnState, data: SnippetData, cols: seq<string>, writable: bool)
    requires WriteParams(data).Ok? && !c.closed && writable && |cols| == 4
    requires Resolves(c.Snapshot(), Scopes(InsertSnippet(cols)))
    requires InsertSnippetEffect(c.Snapshot(), cols, WriteParams(data).value).Done?
    ensures var e := InsertSnippetEffect(c.Snapshot(), cols, WriteParams(data).value);
            AddState(Some(c), data, cols, writable) == (Ok(e.lastRowId), Some(ConnState(e.tables, None, false)))
  {
    ExecDmlDone(c, InsertSnippet(cols), WriteParams(data).value, writable);
  }

  /** The row the INSERT with the declared columns adds, under a fresh id. */
  lemma IntendedInsertRow(t: Tables, params: seq<SqlValue>)
    requires |params| == 4 && !params[0].Null? && !params[2].Null?
    ensures var id := NextAutoId(SnippetIds(Snips(t)), t.snippetSeq);
            && id !in SnippetIds(Snips(t))
            && InsertSnippetEffect(t, IntendedColumns, params)
               == Done(t.(snippets := Some(Snips(t) + [Snippet(id, TextAffinity(params[0]).value, TextAffinity(params[2]).value,
                                                                IntegerAffinity(params[1]), IntegerAffinity(params[3]))]),
                          snippetSeq := id), [], 1, Some(id))
  {
    GivenIntended(params);
  }

  /** Where each value of the intended column list goes. */
  lemma GivenIntended(vals: seq<SqlValue>)
    requires |vals| == 4
    ensures Given(IntendedColumns, vals, "title") == Some(vals[0])
    ensures Given(IntendedColumns, vals, "language_id") == Some(vals[1])
    ensures Given(IntendedColumns, vals, "code") == Some(vals[2])
    ensures Given(IntendedColumns, vals, "category_id") == Some(vals[3])
  {
    var cols := IntendedColumns;
    assert cols[1..][1..][1..] == ["category_id"] && vals[1..][1..][1..] == [vals[3]];
    assert Given(cols[1..][1..][1..], vals[1..][1..][1..], "category_id") == Some(vals[3]);
    assert Given(cols[1..][1..], vals[1..][1..], "category_id") == Some(vals[3]);
    assert Given(cols[1..], vals[1..], "category_id") == Some(vals[3]);
    assert Given(cols[1..][1..], vals[1..][1..], "code") == Some(vals[2]);
    assert Given(cols[1..], vals[1..], "language_id") == Some(vals[1]);
  }

  /** How many rows the UPDATE changes is positive exactly when a row has the id. */
  lemma {:induction false} UpdateRowsCount(ss: seq<Snippet>, cols: seq<string>, vals: seq<SqlValue>, idv: SqlValue)
    requires |cols| == |vals|
    requires Given(cols, vals, "title").Some? && !Given(cols, vals, "title").value.Null?
    requires Given(cols, vals, "code").Some? && !Given(cols, vals, "code").value.Null?
    ensures UpdateRows(ss, cols, vals, idv).Some?
    ensures UpdateRows(ss, cols, vals, idv).value.1 > 0 <==> exists i :: 0 <= i < |ss| && ColumnEquals(Int(ss[i].id), idv)
  {
    if |ss| > 0 {
      UpdateRowsCount(ss[1..], cols, vals, idv);
      if exists i :: 0 <= i < |ss| && ColumnEquals(Int(ss[i].id), idv) {
        var i :| 0 <= i < |ss| && ColumnEquals(Int(ss[i].id), idv);
        if i > 0 {
          assert ss[1..][i - 1] == ss[i];
        }
      }
      if exists i :: 0 <= i < |ss| - 1 && ColumnEquals(Int(ss[1..][i].id), idv) {
        var i :| 0 <= i < |ss| - 1 && ColumnEquals(Int(ss[1..][i].id), idv);
        assert ss[i + 1] == ss[1..][i];
      }
    }
  }

  /** With the declared columns, `update_snippet` on a writable database
      returns True exactly when a row with the id exists, and commits a
      snippets table in which only the rows carrying the id have changed,
      to the form's values. */
  lemma IntendedUpdateReportsMatch(c: ConnState, id: SqlValue, data: SnippetData, writable: bool)
    requires WriteParams(data).Ok? && !c.closed && c.Snapshot().snippets.Some? && writable
    requires !Field(data, "title").Null? && !Field(data, "code").Null?
    ensures var (r, db) := UpdateState(Some(c), id, data, IntendedColumns, writable);
            var ss := Snips(c.Snapshot());
            r == Ok(exists i :: 0 <= i < |ss| && ColumnEquals(Int(ss[i].id), id))
            && db.Some? && db.value.pending.None?
            && db == Some(ConnState(c.Snapshot().(snippets := Some(FormUpdated(ss, data, id))), None, false))
  {
    var params := WriteParams(data).value;
    var ss := Snips(c.Snapshot());
    assert params == [Field(data, "title"), Field(data, "language"), Field(data, "code"),
                      Lookup(data, "category_id").GetOr(Null)];
    IntendedWritesResolve(c.Snapshot());
    GivenIntended(params);
    UpdateRowsCount(ss, IntendedColumns, params, id);
    IntendedUpdateRows(ss, data, id);
    UpdateStateDone(c, id, data, IntendedColumns, writable);
  }

  /** With the declared columns, the rows the UPDATE leaves are the form's
      values on the rows carrying the id and the old rows elsewhere. */
  lemma IntendedUpdateRows(ss: seq<Snippet>, data: SnippetData, id: SqlValue)
    requires WriteParams(data).Ok?
    requires !Field(data, "title").Null? && !Field(data, "code").Null?
    ensures UpdateRows(ss, IntendedColumns, WriteParams(data).value, id).Some?
    ensures UpdateRows(ss, IntendedColumns, WriteParams(data).value, id).value.0 == FormUpdated(ss, data, id)
  {
    var params := WriteParams(data).value;
    assert params == [Field(data, "title"), Field(data, "language"), Field(data, "code"),
                      Lookup(data, "category_id").GetOr(Null)];
    GivenIntended(params);
    UpdateRowsEach(ss, IntendedColumns, params, id);
    var rows := UpdateRows(ss, IntendedColumns, params, id).value.0;
    assert rows == FormUpdated(ss, data, id);
  }

  /** An UPDATE that can be prepared and succeeds is committed at once, and
      `update_snippet` reports whether it changed a row. */
  lemma UpdateStateDone(c: ConnState, id: SqlValue, data: SnippetData, cols: seq<string>, writable: bool)
    requires WriteParams(data).Ok? && !c.closed && writable && |cols| == 4
    requires Resolves(c.Snapshot(), Scopes(Sql.UpdateSnippet(cols)))
    requires UpdateRows(Snips(c.Snapshot()), cols, WriteParams(data).value, id).Some?
    ensures var (rows, n) := UpdateRows(Snips(c.Snapshot()), cols, WriteParams(data).value, id).value;
            UpdateState(Some(c), id, data, cols, writable)
            == (Ok(n > 0), Some(ConnState(c.Snapshot().(snippets := Some(rows)), None, false)))
  {
    var params := WriteParams(data).value;
    UpdateParams(params, id);
    ExecDmlDone(c, Sql.UpdateSnippet(cols), params + [id], writable);
  }

  lemma UpdateParams(params: seq<SqlValue>, id: SqlValue)
    requires |params| == 4
    ensures (params + [id])[..4] == params && (params + [id])[4] == id
  {
  }

  /** Deleting removes a row exactly when one has the id. */
  lemma {:induction false} WithoutIdShrinks(ss: seq<Snippet>, idv: SqlValue)
    ensures |WithoutId(ss, idv)| < |ss| <==> exists i :: 0 <= i < |ss| && ColumnEquals(Int(ss[i].id), idv)
    ensures |WithoutId(ss, idv)| == |ss| ==> WithoutId(ss, idv) == ss
  {
    if |ss| > 0 {
      WithoutIdShrinks(ss[1..], idv);
      IdRowSplit(ss, idv);
      assert ss == [ss[0]] + ss[1..];
    }
  }

  /** A row with the id is the first row or a row of the rest. */
  lemma IdRowSplit(ss: seq<Snippet>, idv: SqlValue)
    requires |ss| > 0
    ensures (exists i :: 0 <= i < |ss| && ColumnEquals(Int(ss[i].id), idv)) <==>
            ColumnEquals(Int(ss[0].id), idv) || exists i :: 0 <= i < |ss| - 1 && ColumnEquals(Int(ss[1..][i].id), idv)
  {
    if exists i :: 0 <= i < |ss| && ColumnEquals(Int(ss[i].id), idv) {
      var i :| 0 <= i < |ss| && ColumnEquals(Int(ss[i].id), idv);
      if i > 0 {
        assert ss[1..][i - 1] == ss[i];
      }
    }
    if exists i :: 0 <= i < |ss| - 1 && ColumnEquals(Int(ss[1..][i].id), idv) {
      var i :| 0 <= i < |ss| - 1 && ColumnEquals(Int(ss[1..][i].id), idv);
      assert ss[i + 1] == ss[1..][i];
    }
  }

  /** `delete_snippet` on a writable database returns True exactly when a row
      with the id existed, commits, and removes the rows with that id and no
      other; an absent id changes nothing. */
  lemma DeleteRemovesOnlyThatRow(c: ConnState, id: SqlValue, writable: bool)
    requires !c.closed && c.Snapshot().snippets.Some? && writable
    ensures var (deleted, db) := DeleteState(Some(c), id, writable);
            var ss := Snips(c.Snapshot());
            (deleted <==> exists i :: 0 <= i < |ss| && ColumnEquals(Int(ss[i].id), id))
            && db == Some(ConnState(c.Snapshot().(snippets := Some(WithoutId(ss, id))), None, false))
            && (!deleted ==> db.value.committed == c.Snapshot())
  {
    var srcs := [Plain(Snippets)];
    assert srcs[1..] == [];
    assert Binds(srcs, Col("id"));
    var ss := Snips(c.Snapshot());
    WithoutIdShrinks(ss, id);
    ExecDmlDone(c, Sql.DeleteSnippet, [id], writable);
    assert !(exists i :: 0 <= i < |ss| && ColumnEquals(Int(ss[i].id), id)) ==> c.Snapshot().(snippets := Some(WithoutId(ss, id))) == c.Snapshot();
  }

  /** Every write that reports success has been committed: no transaction is
      left open, and the file holds exactly the tables the statement produced. */
  lemma SuccessfulWritesCommitted(db: Option<ConnState>, id: SqlValue, data: SnippetData, cols: seq<string>, writable: bool)
    ensures AddState(db, data, cols, writable).0.Ok? && AddState(db, data, cols, writable).0.value.Some? ==>
              db.Some? && var step := Exec(db.value, InsertSnippet(cols), WriteParams(data).value, writable).0;
              step.Done? && AddState(db, data, cols, writable).1 == Some(ConnState(step.tables, None, false))
    ensures UpdateState(db, id, data, cols, writable).0 == Ok(true) ==>
              db.Some? && var step := Exec(db.value, Sql.UpdateSnippet(cols), WriteParams(data).value + [id], writable).0;
              step.Done? && UpdateState(db, id, data, cols, writable).1 == Some(ConnState(step.tables, None, false))
    ensures DeleteState(db, id, writable).0 ==>
              db.Some? && var step := Exec(db.value, DeleteSnippet, [id], writable).0;
              step.Done? && DeleteState(db, id, writable).1 == Some(ConnState(step.tables, None, false))
  {
  }

  /** `get_snippet` returns a record exactly when a joined row carries the id;
      an absent snippet, a dangling reference or a failed query gives None. */
  lemma NamedSnippetFound(db: Option<ConnState>, id: SqlValue)
    ensures NamedSnippet(db, id).Some? <==>
              Fetch(db, SelectNamedSnippet, [id]).Some?
              && exists x :: x in Join(Visible(db)) && ColumnEquals(Int(x.snippet.id), id)
    ensures NamedSnippet(db, id).Some? ==>
              exists x :: x in Join(Visible(db)) && ColumnEquals(Int(x.snippet.id), id)
                          && NamedSnippet(db, id).value == NamedRecordOf(x)
  {
    var hits := WithSnippetId(Join(Visible(db)), id);
    if |hits| > 0 {
      assert hits[0] in hits;
    }
  }
}
