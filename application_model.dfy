/** src/models/application_model.py: the read-only queries behind the main
    window. Each method runs one select on the sqlite3 connection it was
    given, turns the fetched tuples into records, and swallows every error
    (the missing connection included) by returning what it has built so far. */
module ApplicationModel {
  import opened Common
  import opened Schema
  import opened Sql
  import opened Connection

  /** The seven-key dict of `get_all_snippets` and `get_snippet`. */
  datatype SnippetRecord = SnippetRecord(
    id: SqlValue, title: SqlValue, code: SqlValue,
    languageId: SqlValue, language: SqlValue,
    categoryId: SqlValue, category: SqlValue)

  /** The `{'id', 'name'}` dict of the category queries. */
  datatype CategoryRecord = CategoryRecord(id: SqlValue, name: SqlValue)

  /** The record a join row turns into. */
  function RecordOf(x: JoinRow): SnippetRecord {
    SnippetRecord(Int(x.snippet.id), Text(x.snippet.title), Text(x.snippet.code),
                  x.snippet.languageId, Text(x.language.name),
                  x.snippet.categoryId, Text(x.category.name))
  }

  function RecordsOf(rows: seq<JoinRow>): (r: seq<SnippetRecord>)
    ensures |r| == |rows| && forall i :: 0 <= i < |rows| ==> r[i] == RecordOf(rows[i])
  {
    seq(|rows|, i requires 0 <= i < |rows| => RecordOf(rows[i]))
  }

  // ------------------------------------------------- specification functions

  /** What `get_all_snippets` returns: every snippet whose language and
      category both exist, joined with their names and ordered by title. */
  function AllSnippets(db: Option<ConnState>): seq<SnippetRecord> {
    if Fetch(db, SelectJoinedSnippets, []).None? then []
    else RecordsOf(SortByTitle(Join(Visible(db))))
  }

  /** What `get_snippet(id)` returns: the first joined row with that id. */
  function SnippetById(db: Option<ConnState>, id: SqlValue): Option<SnippetRecord> {
    if Fetch(db, SelectJoinedSnippet, [id]).None? then None
    else
      var hits := WithSnippetId(Join(Visible(db)), id);
      if |hits| == 0 then None else Some(RecordOf(hits[0]))
  }

  /** Every fetched tuple has at least the two selected columns. */
  predicate Pairs(rows: seq<seq<SqlValue>>) {
    forall i :: 0 <= i < |rows| ==> |rows[i]| >= 2
  }

  function CategoryRecords(rows: seq<seq<SqlValue>>): (r: seq<CategoryRecord>)
    requires Pairs(rows)
    ensures |r| == |rows|
  {
    if |rows| == 0 then [] else [CategoryRecord(rows[0][0], rows[0][1])] + CategoryRecords(rows[1..])
  }

  lemma {:induction false} CategoryRecordsAppend(a: seq<seq<SqlValue>>, b: seq<seq<SqlValue>>)
    requires Pairs(a) && Pairs(b)
    ensures Pairs(a + b) && CategoryRecords(a + b) == CategoryRecords(a) + CategoryRecords(b)
  {
    if |a| == 0 {
      assert a + b == b;
    } else {
      assert (a + b)[1..] == a[1..] + b;
      assert Pairs(a[1..]);
      CategoryRecordsAppend(a[1..], b);
    }
  }

  /** The categories linked to a language: one record per link row naming the
      language, in link order. */
  function SpecificCategories(db: Option<ConnState>, lang: SqlValue): seq<CategoryRecord> {
    if Fetch(db, SelectSpecificCategories, [lang]).None? then []
    else Specific(Links(Visible(db)), Cats(Visible(db)), lang)
  }

  function Specific(ks: seq<Link>, cs: seq<Category>, lang: SqlValue): seq<CategoryRecord> {
    if |ks| == 0 then []
    else
      (if ColumnEquals(ks[0].languageId, lang) then CategoriesWithId(cs, ks[0].categoryId) else [])
      + Specific(ks[1..], cs, lang)
  }

  function CategoriesWithId(cs: seq<Category>, v: SqlValue): seq<CategoryRecord> {
    if |cs| == 0 then []
    else (if v == Int(cs[0].id) then [CategoryRecord(Int(cs[0].id), Text(cs[0].name))] else [])
         + CategoriesWithId(cs[1..], v)
  }

  /** The categories no link row names, in rowid order. */
  function GeneralCategories(db: Option<ConnState>): seq<CategoryRecord> {
    if Fetch(db, SelectGeneralCategories, []).None? then []
    else General(Cats(Visible(db)), Links(Visible(db)))
  }

  function General(cs: seq<Category>, ks: seq<Link>): seq<CategoryRecord> {
    if |cs| == 0 then []
    else (if Unlinked(cs[0].id, ks) then [CategoryRecord(Int(cs[0].id), Text(cs[0].name))] else [])
         + General(cs[1..], ks)
  }

  /** `get_all_language_ids`: the ids in rowid order. */
  function LanguageIdList(db: Option<ConnState>): seq<SqlValue> {
    if Fetch(db, SelectLanguageIds, []).None? then []
    else var ls := Langs(Visible(db)); seq(|ls|, i requires 0 <= i < |ls| => Int(ls[i].id))
  }

  /** `get_all_languages`: a dict from id to name, built row by row. */
  function LanguageMap(db: Option<ConnState>): seq<(SqlValue, SqlValue)> {
    if Fetch(db, SelectLanguages, []).None? then []
    else NameMap(Langs(Visible(db)))
  }

  function NameMap(ls: seq<Language>): seq<(SqlValue, SqlValue)> {
    if |ls| == 0 then []
    else Put(NameMap(ls[..|ls| - 1]), Int(ls[|ls| - 1].id), Text(ls[|ls| - 1].name))
  }

  // ------------------------------------------------ result rows of each select

  lemma {:induction false} CategoryRowsAgree(cs: seq<Category>, v: SqlValue)
    ensures Pairs(CategoryRowsWithId(cs, v))
    ensures CategoryRecords(CategoryRowsWithId(cs, v)) == CategoriesWithId(cs, v)
  {
    if |cs| > 0 {
      CategoryRowsAgree(cs[1..], v);
      var head: seq<seq<SqlValue>> := if v == Int(cs[0].id) then [[Int(cs[0].id), Text(cs[0].name)]] else [];
      CategoryRecordsAppend(head, CategoryRowsWithId(cs[1..], v));
    }
  }

  lemma {:induction false} SpecificRowsAgree(ks: seq<Link>, cs: seq<Category>, lang: SqlValue)
    ensures Pairs(SpecificCategoryRows(ks, cs, lang))
    ensures CategoryRecords(SpecificCategoryRows(ks, cs, lang)) == Specific(ks, cs, lang)
  {
    if |ks| > 0 {
      CategoryRowsAgree(cs, ks[0].categoryId);
      SpecificRowsAgree(ks[1..], cs, lang);
      var head := if ColumnEquals(ks[0].languageId, lang) then CategoryRowsWithId(cs, ks[0].categoryId) else [];
      CategoryRecordsAppend(head, SpecificCategoryRows(ks[1..], cs, lang));
    }
  }

  lemma {:induction false} GeneralRowsAgree(cs: seq<Category>, ks: seq<Link>)
    ensures Pairs(GeneralCategoryRows(cs, ks))
    ensures CategoryRecords(GeneralCategoryRows(cs, ks)) == General(cs, ks)
  {
    if |cs| > 0 {
      GeneralRowsAgree(cs[1..], ks);
      var head: seq<seq<SqlValue>> := if Unlinked(cs[0].id, ks) then [[Int(cs[0].id), Text(cs[0].name)]] else [];
      CategoryRecordsAppend(head, GeneralCategoryRows(cs[1..], ks));
    }
  }

  lemma FetchSpecific(db: Option<ConnState>, lang: SqlValue)
    ensures Fetch(db, SelectSpecificCategories, [lang]).Some? ==>
              Pairs(Fetch(db, SelectSpecificCategories, [lang]).value)
              && CategoryRecords(Fetch(db, SelectSpecificCategories, [lang]).value) == SpecificCategories(db, lang)
  {
    SpecificRowsAgree(Links(Visible(db)), Cats(Visible(db)), lang);
  }

  lemma FetchGeneral(db: Option<ConnState>)
    ensures Fetch(db, SelectGeneralCategories, []).Some? ==>
              Pairs(Fetch(db, SelectGeneralCategories, []).value)
              && CategoryRecords(Fetch(db, SelectGeneralCategories, []).value) == GeneralCategories(db)
  {
    GeneralRowsAgree(Cats(Visible(db)), Links(Visible(db)));
  }

  /** The loop shared by the two category queries: one `{'id', 'name'}`
      dict per fetched tuple, in fetch order. */
  method CategoryList(rows: seq<seq<SqlValue>>) returns (categories: seq<CategoryRecord>)
    requires Pairs(rows)
    ensures categories == CategoryRecords(rows)
  {
    categories := [];
    var i := 0;
    while i < |rows|
      invariant 0 <= i <= |rows|
      invariant Pairs(rows[..i]) && categories == CategoryRecords(rows[..i])
    {
      assert rows[..i + 1] == rows[..i] + [rows[i]];
      CategoryRecordsAppend(rows[..i], [rows[i]]);
      categories := categories + [CategoryRecord(rows[i][0], rows[i][1])];
      i := i + 1;
    }
    assert rows[..i] == rows;
  }

  // ------------------------------------------------------------------ model

  class ApplicationModel {
    /** `db_connection.connection`: the raw sqlite3 connection, or None. */
    const conn: SqliteConnection?

    constructor (db: DatabaseConnection)
      ensures conn == db.connection
    {
      conn := db.connection;
    }

    function Db(): Option<ConnState>
      reads this, conn, if conn == null then {} else {conn.file}
    {
      if conn == null then None else Some(conn.State())
    }

    /** `cursor.execute(query, params)` followed by `fetchall()`; a select
        changes nothing on the connection, so it is evaluated in place. */
    method FetchAll(s: Statement, params: seq<SqlValue>) returns (rows: Option<seq<seq<SqlValue>>>)
      requires IsQuery(s)
      ensures rows == Fetch(Db(), s, params)
    {
      if conn == null {
        return None;   // AttributeError on `None.cursor()`, caught
      }
      var step := Exec(conn.State(), s, params, conn.file.writable).0;
      ExecQuery(conn.State(), s, params, conn.file.writable);
      if step.Failed? {
        return None;
      }
      rows := Some(step.rows);
    }

    method GetAllSnippets() returns (snippets: seq<SnippetRecord>)
      ensures snippets == AllSnippets(Db())
    {
      snippets := [];
      var fetched := FetchAll(SelectJoinedSnippets, []);
      if fetched.None? {
        return;
      }
      var rows := fetched.value;
      ghost var joined := SortByTitle(Join(Visible(Db())));
      assert rows == JoinedTuples(joined);
      var i := 0;
      while i < |rows|
        invariant 0 <= i <= |rows|
        invariant snippets == RecordsOf(joined[..i])
      {
        var row := rows[i];
        snippets := snippets + [SnippetRecord(row[0], row[1], row[2], row[3], row[4], row[5], row[6])];
        i := i + 1;
      }
      assert joined[..i] == joined;
    }

    method GetSnippet(id: SqlValue) returns (snippet: Option<SnippetRecord>)
      ensures snippet == SnippetById(Db(), id)
    {
      var fetched := FetchAll(SelectJoinedSnippet, [id]);
      if fetched.None? || |fetched.value| == 0 {
        return None;
      }
      var row := fetched.value[0];
      snippet := Some(SnippetRecord(row[0], row[1], row[2], row[3], row[4], row[5], row[6]));
    }

    method GetLanguageSpecificCategories(lang: SqlValue) returns (categories: seq<CategoryRecord>)
      ensures categories == SpecificCategories(Db(), lang)
    {
      categories := [];
      var fetched := FetchAll(SelectSpecificCategories, [lang]);
      if fetched.None? {
        return;
      }
      var rows := fetched.value;
      FetchSpecific(Db(), lang);
      categories := CategoryList(rows);
    }

    method GetGeneralCategories() returns (categories: seq<CategoryRecord>)
      ensures categories == GeneralCategories(Db())
    {
      categories := [];
      var fetched := FetchAll(SelectGeneralCategories, []);
      if fetched.None? {
        return;
      }
      var rows := fetched.value;
      FetchGeneral(Db());
      categories := CategoryList(rows);
    }

    method GetAllLanguageIds() returns (ids: seq<SqlValue>)
      ensures ids == LanguageIdList(Db())
    {
      ids := [];
      var fetched := FetchAll(SelectLanguageIds, []);
      if fetched.None? {
        return;
      }
      var rows := fetched.value;
      ghost var ls := Langs(Visible(Db()));
      var i := 0;
      while i < |rows|
        invariant 0 <= i <= |rows|
        invariant ids == seq(i, k requires 0 <= k < i => Int(ls[k].id))
      {
        ids := ids + [rows[i][0]];
        i := i + 1;
      }
    }

    method GetAllLanguages() returns (languages: seq<(SqlValue, SqlValue)>)
      ensures languages == LanguageMap(Db())
    {
      languages := [];
      var fetched := FetchAll(SelectLanguages, []);
      if fetched.None? {
        return;
      }
      var rows := fetched.value;
      ghost var ls := Langs(Visible(Db()));
      var i := 0;
      while i < |rows|
        invariant 0 <= i <= |rows|
        invariant languages == NameMap(ls[..i])
      {
        assert ls[..i + 1][..i] == ls[..i];
        languages := Put(languages, rows[i][0], rows[i][1]);
        i := i + 1;
      }
      assert ls[..i] == ls;
    }
  }

  // -------------------------------------------------------------- properties

  /** `get_all_snippets` is an inner join: a record is returned exactly when
      some snippet, language and category row match on both references. */
  lemma AllSnippetsInnerJoin(db: Option<ConnState>, r: SnippetRecord)
    ensures r in AllSnippets(db) <==>
              Fetch(db, SelectJoinedSnippets, []).Some?
              && exists x: JoinRow :: x.snippet in Snips(Visible(db)) && x.language in Langs(Visible(db))
                                     && x.category in Cats(Visible(db)) && Joins(x) && r == RecordOf(x)
  {
    var t := Visible(db);
    if Fetch(db, SelectJoinedSnippets, []).Some? {
      SortByTitleCorrect(Join(t));
      if r in AllSnippets(db) {
        var i :| 0 <= i < |AllSnippets(db)| && AllSnippets(db)[i] == r;
        var x := SortByTitle(Join(t))[i];
        assert x in multiset(Join(t));
        JoinAllMembers(Snips(t), Langs(t), Cats(t), x);
      }
      if exists x: JoinRow :: x.snippet in Snips(t) && x.language in Langs(t) && x.category in Cats(t) && Joins(x) && r == RecordOf(x) {
        var x: JoinRow :| x.snippet in Snips(t) && x.language in Langs(t) && x.category in Cats(t) && Joins(x) && r == RecordOf(x);
        JoinAllMembers(Snips(t), Langs(t), Cats(t), x);
        assert x in multiset(SortByTitle(Join(t)));
        var i :| 0 <= i < |SortByTitle(Join(t))| && SortByTitle(Join(t))[i] == x;
        assert AllSnippets(db)[i] == r;
      }
    }
  }

  /** `get_all_snippets` is ordered by title (`ORDER BY snippets.title ASC`). */
  lemma AllSnippetsByTitle(db: Option<ConnState>)
    ensures forall i :: 0 <= i < |AllSnippets(db)| ==> AllSnippets(db)[i].title.Text?
    ensures forall i :: 0 <= i < |AllSnippets(db)| - 1 ==>
              TitleLe(AllSnippets(db)[i].title.s, AllSnippets(db)[i + 1].title.s)
  {
    if Fetch(db, SelectJoinedSnippets, []).Some? {
      SortByTitleCorrect(Join(Visible(db)));
    }
  }

  /** `get_snippet` finds a record exactly when a joined row carries the id,
      and the record it returns is such a row's; a failed query gives None. */
  lemma SnippetByIdFound(db: Option<ConnState>, id: SqlValue)
    ensures Fetch(db, SelectJoinedSnippet, [id]).None? ==> SnippetById(db, id).None?
    ensures Fetch(db, SelectJoinedSnippet, [id]).Some? ==>
              (SnippetById(db, id).Some? <==> exists x :: x in Join(Visible(db)) && ColumnEquals(Int(x.snippet.id), id))
    ensures SnippetById(db, id).Some? ==>
              exists x :: x in Join(Visible(db)) && ColumnEquals(Int(x.snippet.id), id) && SnippetById(db, id).value == RecordOf(x)
  {
    var hits := WithSnippetId(Join(Visible(db)), id);
    if |hits| > 0 {
      assert hits[0] in hits;
    }
  }

  lemma {:induction false} CategoriesWithIdMembers(cs: seq<Category>, v: SqlValue, r: CategoryRecord)
    ensures r in CategoriesWithId(cs, v) <==>
              exists c :: c in cs && v == Int(c.id) && r == CategoryRecord(Int(c.id), Text(c.name))
  {
    if |cs| > 0 {
      CategoriesWithIdMembers(cs[1..], v, r);
      assert forall c :: c in cs <==> c == cs[0] || c in cs[1..];
    }
  }

  lemma {:induction false} SpecificMembers(ks: seq<Link>, cs: seq<Category>, lang: SqlValue, r: CategoryRecord)
    ensures r in Specific(ks, cs, lang) <==>
              exists j, c :: 0 <= j < |ks| && c in cs && ColumnEquals(ks[j].languageId, lang)
                             && ks[j].categoryId == Int(c.id) && r == CategoryRecord(Int(c.id), Text(c.name))
  {
    if |ks| > 0 {
      SpecificMembers(ks[1..], cs, lang, r);
      CategoriesWithIdMembers(cs, ks[0].categoryId, r);
      if exists j, c :: 0 <= j < |ks| && c in cs && ColumnEquals(ks[j].languageId, lang)
                        && ks[j].categoryId == Int(c.id) && r == CategoryRecord(Int(c.id), Text(c.name)) {
        var j, c :| 0 <= j < |ks| && c in cs && ColumnEquals(ks[j].languageId, lang)
                    && ks[j].categoryId == Int(c.id) && r == CategoryRecord(Int(c.id), Text(c.name));
        if j > 0 {
          assert ks[1..][j - 1] == ks[j];
        }
      }
      if r in Specific(ks[1..], cs, lang) {
        var j, c :| 0 <= j < |ks| - 1 && c in cs && ColumnEquals(ks[1..][j].languageId, lang)
                    && ks[1..][j].categoryId == Int(c.id) && r == CategoryRecord(Int(c.id), Text(c.name));
        assert ks[j + 1] == ks[1..][j];
      }
    }
  }

  lemma {:induction false} GeneralMembers(cs: seq<Category>, ks: seq<Link>, r: CategoryRecord)
    ensures r in General(cs, ks) <==>
              exists c :: c in cs && Unlinked(c.id, ks) && r == CategoryRecord(Int(c.id), Text(c.name))
  {
    if |cs| > 0 {
      GeneralMembers(cs[1..], ks, r);
      assert forall c :: c in cs <==> c == cs[0] || c in cs[1..];
    }
  }

  /** `get_language_specific_categories(L)` returns the categories named by
      a link row for L, and only those. */
  lemma SpecificCategoriesExactly(db: Option<ConnState>, lang: SqlValue, r: CategoryRecord)
    ensures r in SpecificCategories(db, lang) <==>
              Fetch(db, SelectSpecificCategories, [lang]).Some?
              && exists j, c :: 0 <= j < |Links(Visible(db))| && c in Cats(Visible(db))
                                && ColumnEquals(Links(Visible(db))[j].languageId, lang)
                                && Links(Visible(db))[j].categoryId == Int(c.id)
                                && r == CategoryRecord(Int(c.id), Text(c.name))
  {
    SpecificMembers(Links(Visible(db)), Cats(Visible(db)), lang, r);
  }

  /** `get_general_categories` returns exactly the categories no link row names. */
  lemma GeneralCategoriesExactly(db: Option<ConnState>, r: CategoryRecord)
    ensures r in GeneralCategories(db) <==>
              Fetch(db, SelectGeneralCategories, []).Some?
              && exists c :: c in Cats(Visible(db)) && Unlinked(c.id, Links(Visible(db)))
                             && r == CategoryRecord(Int(c.id), Text(c.name))
  {
    GeneralMembers(Cats(Visible(db)), Links(Visible(db)), r);
  }

  /** No category id is both general and specific to a language. */
  lemma SpecificNeverGeneral(db: Option<ConnState>, lang: SqlValue, r: CategoryRecord, g: CategoryRecord)
    requires r in SpecificCategories(db, lang) && g in GeneralCategories(db)
    ensures r.id != g.id
  {
    var ks := Links(Visible(db));
    SpecificCategoriesExactly(db, lang, r);
    GeneralCategoriesExactly(db, g);
    var j, c :| 0 <= j < |ks| && c in Cats(Visible(db)) && ColumnEquals(ks[j].languageId, lang)
                && ks[j].categoryId == Int(c.id) && r == CategoryRecord(Int(c.id), Text(c.name));
    var c' :| c' in Cats(Visible(db)) && Unlinked(c'.id, ks) && g == CategoryRecord(Int(c'.id), Text(c'.name));
    assert ks[j].categoryId != Int(c'.id);
  }

  /** With distinct ids, the id-to-name dict has one entry per language, in
      rowid order. */
  lemma {:induction false} NameMapEntries(ls: seq<Language>)
    requires forall i, j :: 0 <= i < j < |ls| ==> ls[i].id != ls[j].id
    ensures NameMap(ls) == seq(|ls|, i requires 0 <= i < |ls| => (Int(ls[i].id), Text(ls[i].name)))
  {
    if |ls| > 0 {
      var init := ls[..|ls| - 1];
      NameMapEntries(init);
      var last := ls[|ls| - 1];
      assert Int(last.id) !in KeysOf(NameMap(init));
      PutAppends(NameMap(init), Int(last.id), Text(last.name));
    }
  }

  lemma {:induction false} PutAppends<K, V>(d: seq<(K, V)>, k: K, v: V)
    requires k !in KeysOf(d)
    ensures Put(d, k, v) == d + [(k, v)]
  {
    if |d| > 0 {
      assert KeysOf(d[1..]) == KeysOf(d)[1..];
      PutAppends(d[1..], k, v);
    }
  }

  /** `get_all_languages` and `get_all_language_ids` agree: the dict's keys
      are the ids, in the same order, and each id maps to its language's name. */
  lemma LanguagesAgree(db: Option<ConnState>)
    requires UniqueIds(Visible(db))
    ensures KeysOf(LanguageMap(db)) == LanguageIdList(db)
    ensures forall l :: l in Langs(Visible(db)) && LanguageMap(db) != [] ==> Lookup(LanguageMap(db), Int(l.id)) == Some(Text(l.name))
  {
    LanguageFetchesAgree(db);
    NameMapAgrees(Langs(Visible(db)));
  }

  /** The two language selects fail together. */
  lemma LanguageFetchesAgree(db: Option<ConnState>)
    ensures Fetch(db, SelectLanguageIds, []).None? <==> Fetch(db, SelectLanguages, []).None?
  {
    LanguageSelectsResolve(Visible(db));
  }

  /** The id-to-name dict of languages with distinct ids: its keys are the
      ids in order and each id maps to its own name. */
  lemma NameMapAgrees(ls: seq<Language>)
    requires forall i, j :: 0 <= i < j < |ls| ==> ls[i].id != ls[j].id
    ensures KeysOf(NameMap(ls)) == seq(|ls|, i requires 0 <= i < |ls| => Int(ls[i].id))
    ensures forall l :: l in ls ==> Lookup(NameMap(ls), Int(l.id)) == Some(Text(l.name))
  {
    NameMapEntries(ls);
    forall l | l in ls
      ensures Lookup(NameMap(ls), Int(l.id)) == Some(Text(l.name))
    {
      var i :| 0 <= i < |ls| && ls[i] == l;
      LookupDistinct(NameMap(ls), i);
    }
  }

  /** Both language selects can be prepared exactly when the table exists. */
  lemma LanguageSelectsResolve(t: Tables)
    ensures Resolves(t, Scopes(SelectLanguageIds)) <==> t.languages.Some?
    ensures Resolves(t, Scopes(SelectLanguages)) <==> t.languages.Some?
  {
    var srcs := [Plain(Languages)];
    assert srcs[1..] == [];
    assert Providers(srcs, "id") == 1 && Providers(srcs, "name") == 1;
    if t.languages.Some? {
      assert Binds(srcs, Col("id")) && Binds(srcs, Col("name"));
      assert Scopes(SelectLanguages)[0].refs == [Col("id"), Col("name")];
    } else {
      assert !t.Exists(Scopes(SelectLanguageIds)[0].sources[0].table);
      assert !t.Exists(Scopes(SelectLanguages)[0].sources[0].table);
    }
  }

  /** In a dict with distinct keys, looking up the i-th key finds the i-th value. */
  lemma {:induction false} LookupDistinct<K, V>(d: seq<(K, V)>, i: nat)
    requires i < |d| && Distinct(KeysOf(d))
    ensures Lookup(d, d[i].0) == Some(d[i].1)
  {
    if i > 0 {
      assert KeysOf(d)[0] != KeysOf(d)[i];
      assert KeysOf(d[1..]) == KeysOf(d)[1..];
      LookupDistinct(d[1..], i - 1);
    }
  }
}
