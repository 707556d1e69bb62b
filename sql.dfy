/** The SQL statements the application sends to SQLite, each as an operation
    on the tables of `Schema` with an explicit failure outcome. A statement
    first has its table and column names resolved against the schema (SQLite
    refuses to prepare a statement that names an unknown table, column or
    qualifier), then has its parameters bound, and only then runs. */
module Sql {
  import opened Common
  import opened Schema

  // ------------------------------------------------------------ values

  /** The value of a non-empty run of decimal digits. */
  function DigitsValue(s: string): nat
    requires forall i :: 0 <= i < |s| ==> IsDigit(s[i])
  {
    if |s| == 0 then 0
    else
      assert IsDigit(s[|s| - 1]);
      10 * DigitsValue(s[..|s| - 1]) + (s[|s| - 1] as int - '0' as int)
  }

  /** Text that reads as an integer: an optional minus sign and one or more digits. */
  function ParseInteger(s: string): (r: Option<int>)
    ensures r.Some? ==> |s| > 0
  {
    if |s| > 0 && s[0] == '-' then
      if |s| > 1 && forall i :: 1 <= i < |s| ==> IsDigit(s[i]) then Some(0 - DigitsValue(s[1..]) as int) else None
    else if |s| > 0 && forall i :: 0 <= i < |s| ==> IsDigit(s[i]) then Some(DigitsValue(s))
    else None
  }

  lemma {:induction false} DigitsValueOfNatToString(n: nat)
    ensures DigitsValue(NatToString(n)) == n
  {
    if n >= 10 {
      var s := NatToString(n);
      assert s[..|s| - 1] == NatToString(n / 10);
      DigitsValueOfNatToString(n / 10);
    }
  }

  /** Integers survive a round trip through their decimal text. */
  lemma ParseIntegerOfIntToString(i: int)
    ensures ParseInteger(IntToString(i)) == Some(i)
  {
    IntToStringSign(i);
    if i < 0 {
      assert IntToString(i)[1..] == NatToString(-i);
      DigitsValueOfNatToString(-i);
    } else {
      DigitsValueOfNatToString(i);
    }
  }

  /** INTEGER column affinity: text that reads as an integer is stored as one. */
  function IntegerAffinity(v: SqlValue): (r: SqlValue)
    ensures r.Null? <==> v.Null?
    ensures v.Int? ==> r == v
  {
    match v
    case Text(s) => (match ParseInteger(s) case Some(i) => Int(i) case None => v)
    case _ => v
  }

  /** `column = ?` for a column of INTEGER affinity: the parameter is given the
      column's affinity first, and NULL equals nothing. */
  predicate ColumnEquals(stored: SqlValue, param: SqlValue) {
    !stored.Null? && IntegerAffinity(param) == stored
  }

  /** TEXT column affinity; `None` is NULL. */
  function TextAffinity(v: SqlValue): (r: Option<string>)
    ensures r.None? <==> v.Null?
    ensures v.Text? ==> r == Some(v.s)
  {
    match v
    case Null => None
    case Int(i) => Some(IntToString(i))
    case Text(s) => Some(s)
  }

  // --------------------------------------------------------- row identity

  function Max(s: seq<int>): (m: int)
    requires |s| > 0
    ensures m in s && forall x :: x in s ==> x <= m
  {
    if |s| == 1 then s[0]
    else
      var m := Max(s[1..]);
      assert forall x :: x in s ==> x == s[0] || x in s[1..];
      if s[0] >= m then s[0] else m
  }

  /** The rowid SQLite gives a row inserted into a table without AUTOINCREMENT:
      one more than the largest rowid present, or 1 in an empty table. */
  function NextRowId(ids: seq<int>): (r: int)
    ensures forall x :: x in ids ==> x < r
  {
    if |ids| == 0 then 1 else Max(ids) + 1
  }

  /** With AUTOINCREMENT the largest rowid ever used is remembered as well. */
  function NextAutoId(ids: seq<int>, sequence: int): (r: int)
    ensures forall x :: x in ids ==> x < r
    ensures sequence < r
  {
    NextRowId([sequence] + ids)
  }

  function LanguageIds(ls: seq<Language>): (r: seq<int>)
    ensures |r| == |ls| && forall i :: 0 <= i < |ls| ==> r[i] == ls[i].id
  { seq(|ls|, i requires 0 <= i < |ls| => ls[i].id) }

  function CategoryIds(cs: seq<Category>): (r: seq<int>)
    ensures |r| == |cs| && forall i :: 0 <= i < |cs| ==> r[i] == cs[i].id
  { seq(|cs|, i requires 0 <= i < |cs| => cs[i].id) }

  function LinkIds(ks: seq<Link>): (r: seq<int>)
    ensures |r| == |ks| && forall i :: 0 <= i < |ks| ==> r[i] == ks[i].id
  { seq(|ks|, i requires 0 <= i < |ks| => ks[i].id) }

  function SnippetIds(ss: seq<Snippet>): (r: seq<int>)
    ensures |r| == |ss| && forall i :: 0 <= i < |ss| ==> r[i] == ss[i].id
  { seq(|ss|, i requires 0 <= i < |ss| => ss[i].id) }

  /** The ids of a row followed by more rows. */
  lemma SnippetIdsCons(s: Snippet, rest: seq<Snippet>)
    ensures SnippetIds([s] + rest) == [s.id] + SnippetIds(rest)
  {
  }

  lemma SnippetIdsSplit(ss: seq<Snippet>)
    requires |ss| > 0
    ensures SnippetIds(ss) == [ss[0].id] + SnippetIds(ss[1..])
  {
  }

  // ------------------------------------------------------ name resolution

  /** A table in a FROM clause, under its alias (its own name when it has none). */
  datatype Source = Source(table: TableName, alias: string)

  function Plain(t: TableName): Source { Source(t, TableText(t)) }

  datatype ColumnRef = Col(column: string) | Qualified(qualifier: string, column: string)

  /** One SELECT (or the target of an INSERT/UPDATE/DELETE): the tables it can
      see and the column references it makes. */
  datatype Scope = Scope(sources: seq<Source>, refs: seq<ColumnRef>)

  /** How many visible tables declare column `c`. */
  function Providers(sources: seq<Source>, c: string): nat {
    if |sources| == 0 then 0
    else (if c in Columns(sources[0].table) then 1 else 0) + Providers(sources[1..], c)
  }

  predicate Binds(sources: seq<Source>, r: ColumnRef) {
    match r
    case Col(c) => Providers(sources, c) == 1
    case Qualified(q, c) => exists i :: 0 <= i < |sources| && sources[i].alias == q && c in Columns(sources[i].table)
  }

  predicate Resolves(t: Tables, scopes: seq<Scope>) {
    forall k :: 0 <= k < |scopes| ==>
      (forall i :: 0 <= i < |scopes[k].sources| ==> t.Exists(scopes[k].sources[i].table))
      && (forall j :: 0 <= j < |scopes[k].refs| ==> Binds(scopes[k].sources, scopes[k].refs[j]))
  }

  function MissingTable(t: Tables, sources: seq<Source>): (r: Option<string>)
    ensures r.None? <==> forall i :: 0 <= i < |sources| ==> t.Exists(sources[i].table)
  {
    if |sources| == 0 then None
    else if !t.Exists(sources[0].table) then Some("no such table: " + TableText(sources[0].table))
    else
      var r := MissingTable(t, sources[1..]);
      assert forall i :: 1 <= i < |sources| ==> sources[i] == sources[1..][i - 1];
      r
  }

  function RefText(r: ColumnRef): string {
    match r
    case Col(c) => c
    case Qualified(q, c) => q + "." + c
  }

  function UnboundRef(sources: seq<Source>, refs: seq<ColumnRef>): (r: Option<string>)
    ensures r.None? <==> forall j :: 0 <= j < |refs| ==> Binds(sources, refs[j])
  {
    if |refs| == 0 then None
    else if !Binds(sources, refs[0]) then
      Some(if refs[0].Col? && Providers(sources, refs[0].column) > 1
           then "ambiguous column name: " + refs[0].column
           else "no such column: " + RefText(refs[0]))
    else
      var r := UnboundRef(sources, refs[1..]);
      assert forall j :: 1 <= j < |refs| ==> refs[j] == refs[1..][j - 1];
      r
  }

  /** The error SQLite reports while preparing a statement, if any. */
  function ResolveError(t: Tables, scopes: seq<Scope>): (r: Option<string>)
    ensures r.None? <==> Resolves(t, scopes)
  {
    if |scopes| == 0 then None
    else
      match MissingTable(t, scopes[0].sources)
      case Some(e) => Some(e)
      case None =>
        match UnboundRef(scopes[0].sources, scopes[0].refs)
        case Some(e) => Some(e)
        case None =>
          var r := ResolveError(t, scopes[1..]);
          assert forall k :: 1 <= k < |scopes| ==> scopes[k] == scopes[1..][k - 1];
          r
  }

  // ------------------------------------------------------------ statements

  /** Every statement text of the data layer. Those that list columns are
      parameterised by that list, so that the text as written and a corrected
      text are two values of the same constructor. */
  datatype Statement =
    | CreateTable(table: TableName)                     // db_schema.py TABLES_SQL
    | Begin                                             // BEGIN
    | Seed(seed: SeedStatement)                         // db_schema.py INITIAL_DATA_SQL
    | SelectJoinedSnippets                              // application_model.py get_all_snippets
    | SelectJoinedSnippet                               // application_model.py get_snippet
    | SelectSpecificCategories                          // application_model.py get_language_specific_categories
    | SelectGeneralCategories                           // application_model.py get_general_categories
    | SelectLanguageIds                                 // application_model.py get_all_language_ids
    | SelectLanguages                                   // application_model.py get_all_languages
    | InsertSnippet(columns: seq<string>)               // snippet_model.py add_snippet
    | UpdateSnippet(columns: seq<string>)               // snippet_model.py update_snippet
    | DeleteSnippet                                     // snippet_model.py delete_snippet
    | SelectNamedSnippet                                // snippet_model.py get_snippet
    | SelectNamedSnippets(orderQualifier: string)       // snippet_model.py get_all_snippets
    | SelectSnippetsByCategory(columns: seq<string>)    // snippet_model.py get_snippets_by_category

  predicate IsQuery(s: Statement) {
    s.SelectJoinedSnippets? || s.SelectJoinedSnippet? || s.SelectSpecificCategories?
    || s.SelectGeneralCategories? || s.SelectLanguageIds? || s.SelectLanguages?
    || s.SelectNamedSnippet? || s.SelectNamedSnippets? || s.SelectSnippetsByCategory?
  }

  /** INSERT, UPDATE and DELETE: the statements before which Python's sqlite3
      module opens a transaction implicitly. */
  predicate IsDml(s: Statement) {
    s.Seed? || s.InsertSnippet? || s.UpdateSnippet? || s.DeleteSnippet?
  }

  /** The number of `?` placeholders in the statement text. */
  function Placeholders(s: Statement): nat {
    match s
    case SelectJoinedSnippet => 1
    case SelectSpecificCategories => 1
    case InsertSnippet(cols) => |cols|
    case UpdateSnippet(cols) => |cols| + 1
    case DeleteSnippet => 1
    case SelectNamedSnippet => 1
    case SelectSnippetsByCategory(_) => 1
    case _ => 0
  }

  function Cols(cs: seq<string>): (r: seq<ColumnRef>)
    ensures |r| == |cs| && forall i :: 0 <= i < |cs| ==> r[i] == Col(cs[i])
  { seq(|cs|, i requires 0 <= i < |cs| => Col(cs[i])) }

  function Sn(c: string): ColumnRef { Qualified("snippets", c) }

  /** The column references of the three-table join, without its ORDER BY or WHERE. */
  const JoinRefs: seq<ColumnRef> :=
    [Sn("language_id"), Qualified("languages", "id"), Sn("category_id"), Qualified("categories", "id")]

  const JoinSources: seq<Source> := [Plain(Snippets), Plain(Languages), Plain(Categories)]

  const SevenColumns: seq<ColumnRef> :=
    [Sn("id"), Sn("title"), Sn("code"), Sn("language_id"), Qualified("languages", "name"),
     Sn("category_id"), Qualified("categories", "name")]

  const FiveColumns: seq<ColumnRef> :=
    [Sn("id"), Sn("title"), Sn("code"), Qualified("languages", "name"), Qualified("categories", "name")]

  function Scopes(s: Statement): seq<Scope> {
    match s
    case CreateTable(_) => []
    case Begin => []
    case Seed(SeedLanguage(_)) => [Scope([Plain(Languages)], [Col("name")])]
    case Seed(SeedCategory(_, _)) => [Scope([Plain(Categories)], [Col("name"), Col("description")])]
    case Seed(SeedLinks(_, _)) =>
      [Scope([Plain(LanguagesCategories)], [Col("language_id"), Col("category_id")]),
       Scope([Plain(Languages), Plain(Categories)],
             [Qualified("languages", "id"), Qualified("categories", "id"),
              Qualified("languages", "name"), Qualified("categories", "name")])]
    case Seed(SeedSnippet(_, _, _, _)) =>
      [Scope([Plain(Snippets)], [Col("title"), Col("code"), Col("language_id"), Col("category_id")]),
       Scope([Plain(Languages)], [Col("id"), Col("name")]),
       Scope([Plain(Categories)], [Col("id"), Col("name")])]
    case SelectJoinedSnippets => [Scope(JoinSources, SevenColumns + JoinRefs + [Sn("title")])]
    case SelectJoinedSnippet => [Scope(JoinSources, SevenColumns + JoinRefs + [Sn("id")])]
    case SelectSpecificCategories =>
      [Scope([Source(Categories, "c"), Source(LanguagesCategories, "lc")],
             [Qualified("c", "id"), Qualified("c", "name"), Qualified("c", "id"),
              Qualified("lc", "category_id"), Qualified("lc", "language_id")])]
    case SelectGeneralCategories =>
      [Scope([Source(Categories, "c")], [Qualified("c", "id"), Qualified("c", "name")]),
       Scope([Source(LanguagesCategories, "lc"), Source(Categories, "c")],
             [Qualified("lc", "category_id"), Qualified("c", "id")])]
    case SelectLanguageIds => [Scope([Plain(Languages)], [Col("id")])]
    case SelectLanguages => [Scope([Plain(Languages)], [Col("id"), Col("name")])]
    case InsertSnippet(cols) => [Scope([Plain(Snippets)], Cols(cols))]
    case UpdateSnippet(cols) => [Scope([Plain(Snippets)], Cols(cols) + [Col("id")])]
    case DeleteSnippet => [Scope([Plain(Snippets)], [Col("id")])]
    case SelectNamedSnippet => [Scope(JoinSources, FiveColumns + JoinRefs + [Sn("id")])]
    case SelectNamedSnippets(q) => [Scope(JoinSources, FiveColumns + JoinRefs + [Qualified(q, "title")])]
    case SelectSnippetsByCategory(cols) =>
      [Scope([Plain(Snippets)], Cols(cols) + [Col("category_id"), Col("title")])]
  }

  /** What one `cursor.execute` reports: the sqlite3.Error it raises, or the
      new table state, the fetched rows, `rowcount` and `lastrowid`. */
  datatype Step =
    | Failed(message: string)
    | Done(tables: Tables, rows: seq<seq<SqlValue>>, rowcount: int, lastRowId: Option<int>)

  const ReadOnlyError := "attempt to write a readonly database"

  function BindingError(expected: nat, supplied: nat): string {
    "Incorrect number of bindings supplied. The current statement uses " + IntToString(expected)
    + ", and there are " + IntToString(supplied) + " supplied."
  }

  /** One statement against table state `t` in a file that may be read-only. */
  function Run(s: Statement, params: seq<SqlValue>, t: Tables, writable: bool): (r: Step)
    ensures !Resolves(t, Scopes(s)) ==> r.Failed?
    ensures |params| != Placeholders(s) ==> r.Failed?
    ensures IsQuery(s) && r.Done? ==> r.tables == t && r.rowcount == -1
    ensures !writable && r.Done? ==> r.tables == t
  {
    match ResolveError(t, Scopes(s))
    case Some(e) => Failed(e)
    case None =>
      if |params| != Placeholders(s) then Failed(BindingError(Placeholders(s), |params|))
      else if IsDml(s) && !writable then Failed(ReadOnlyError)
      else Effect(s, params, t, writable)
  }

  function Effect(s: Statement, params: seq<SqlValue>, t: Tables, writable: bool): (r: Step)
    requires |params| == Placeholders(s)
    ensures IsQuery(s) && r.Done? ==> r.tables == t && r.rowcount == -1
    ensures !writable && !IsDml(s) && r.Done? ==> r.tables == t
  {
    if IsQuery(s) then Done(t, QueryRows(s, params, t), -1, None)
    else ChangeEffect(s, params, t, writable)
  }

  /** The rows a select fetches from `t`. */
  function QueryRows(s: Statement, params: seq<SqlValue>, t: Tables): seq<seq<SqlValue>>
    requires IsQuery(s) && |params| == Placeholders(s)
  {
    match s
    case SelectJoinedSnippets => JoinedTuples(SortByTitle(Join(t)))
    case SelectJoinedSnippet => JoinedTuples(WithSnippetId(Join(t), params[0]))
    case SelectSpecificCategories => SpecificCategoryRows(Links(t), Cats(t), params[0])
    case SelectGeneralCategories => GeneralCategoryRows(Cats(t), Links(t))
    case SelectLanguageIds => LanguageIdRows(Langs(t))
    case SelectLanguages => LanguageRows(Langs(t))
    case SelectNamedSnippet => NamedTuples(WithSnippetId(Join(t), params[0]))
    case SelectNamedSnippets(_) => NamedTuples(SortByTitle(Join(t)))
    case SelectSnippetsByCategory(cols) => ProjectAll(SortSnippetsByTitle(InCategory(Snips(t), params[0])), cols)
  }

  /** The effect of a statement other than a select. */
  function ChangeEffect(s: Statement, params: seq<SqlValue>, t: Tables, writable: bool): (r: Step)
    requires !IsQuery(s) && |params| == Placeholders(s)
    ensures !writable && !IsDml(s) && r.Done? ==> r.tables == t
  {
    match s
    case CreateTable(tb) =>
      if t.Exists(tb) then Done(t, [], -1, None)
      else if !writable then Failed(ReadOnlyError)
      else Done(t.Create(tb), [], -1, None)
    case Begin => Done(t, [], -1, None)
    case Seed(st) => SeedEffect(st, t)
    case InsertSnippet(cols) => InsertSnippetEffect(t, cols, params)
    case UpdateSnippet(cols) => UpdateSnippetEffect(t, cols, params[..|cols|], params[|cols|])
    case DeleteSnippet =>
      var kept := WithoutId(Snips(t), params[0]);
      Done(t.(snippets := Some(kept)), [], |Snips(t)| - |kept|, None)
  }

  /** A select that can be bound always succeeds. */
  lemma QueryEffectDone(s: Statement, params: seq<SqlValue>, t: Tables, writable: bool)
    requires IsQuery(s) && |params| == Placeholders(s)
    ensures Effect(s, params, t, writable).Done?
  {
  }

  /** A select fails exactly when it cannot be prepared and otherwise yields its effect. */
  lemma RunQuery(s: Statement, params: seq<SqlValue>, t: Tables, writable: bool)
    requires IsQuery(s)
    ensures Run(s, params, t, writable).Failed? <==> !Resolves(t, Scopes(s)) || |params| != Placeholders(s)
    ensures Resolves(t, Scopes(s)) && |params| == Placeholders(s) ==>
              Run(s, params, t, writable) == Effect(s, params, t, writable)
  {
    if Resolves(t, Scopes(s)) && |params| == Placeholders(s) {
      RunPrepared(s, params, t, writable);
      QueryEffectDone(s, params, t, writable);
    }
  }

  /** A statement that can be prepared and bound, and is allowed on the file, has its effect. */
  lemma RunPrepared(s: Statement, params: seq<SqlValue>, t: Tables, writable: bool)
    requires Resolves(t, Scopes(s)) && |params| == Placeholders(s) && (IsDml(s) ==> writable)
    ensures Run(s, params, t, writable) == Effect(s, params, t, writable)
  {
    assert ResolveError(t, Scopes(s)).None?;
  }

  function Langs(t: Tables): seq<Language> { t.languages.GetOr([]) }
  function Cats(t: Tables): seq<Category> { t.categories.GetOr([]) }
  function Links(t: Tables): seq<Link> { t.links.GetOr([]) }
  function Snips(t: Tables): seq<Snippet> { t.snippets.GetOr([]) }

  // --------------------------------------------------------------- joins

  datatype JoinRow = JoinRow(snippet: Snippet, language: Language, category: Category)

  /** The join condition `snippets.language_id = languages.id AND
      snippets.category_id = categories.id`. */
  predicate Joins(r: JoinRow) {
    r.snippet.languageId == Int(r.language.id) && r.snippet.categoryId == Int(r.category.id)
  }

  function JoinCategories(s: Snippet, l: Language, cs: seq<Category>): (r: seq<JoinRow>)
    ensures forall x :: x in r <==> x.snippet == s && x.language == l && x.category in cs && s.categoryId == Int(x.category.id)
  {
    if |cs| == 0 then []
    else
      (if s.categoryId == Int(cs[0].id) then [JoinRow(s, l, cs[0])] else [])
      + JoinCategories(s, l, cs[1..])
  }

  function JoinLanguages(s: Snippet, ls: seq<Language>, cs: seq<Category>): (r: seq<JoinRow>)
    ensures forall x :: x in r <==> x.snippet == s && x.language in ls && x.category in cs && Joins(x)
  {
    if |ls| == 0 then []
    else
      (if s.languageId == Int(ls[0].id) then JoinCategories(s, ls[0], cs) else [])
      + JoinLanguages(s, ls[1..], cs)
  }

  /** The inner join, snippets scanned in rowid order. */
  function JoinAll(ss: seq<Snippet>, ls: seq<Language>, cs: seq<Category>): seq<JoinRow> {
    if |ss| == 0 then [] else JoinLanguages(ss[0], ls, cs) + JoinAll(ss[1..], ls, cs)
  }

  function Join(t: Tables): seq<JoinRow> { JoinAll(Snips(t), Langs(t), Cats(t)) }

  /** The join keeps exactly the combinations whose references match. */
  lemma {:induction false} JoinAllMembers(ss: seq<Snippet>, ls: seq<Language>, cs: seq<Category>, x: JoinRow)
    ensures x in JoinAll(ss, ls, cs) <==> x.snippet in ss && x.language in ls && x.category in cs && Joins(x)
  {
    if |ss| > 0 {
      JoinAllMembers(ss[1..], ls, cs, x);
      assert x.snippet in ss <==> x.snippet == ss[0] || x.snippet in ss[1..];
    }
  }

  /** A snippet with no matching language or category row yields no join row. */
  lemma DanglingSnippetNotJoined(t: Tables, x: JoinRow)
    requires x in Join(t)
    ensures x.snippet in Snips(t) && x.language in Langs(t) && x.category in Cats(t)
    ensures x.snippet.languageId == Int(x.language.id) && x.snippet.categoryId == Int(x.category.id)
  {
    JoinAllMembers(Snips(t), Langs(t), Cats(t), x);
  }

  function WithSnippetId(rows: seq<JoinRow>, idv: SqlValue): (r: seq<JoinRow>)
    ensures forall x :: x in r <==> x in rows && ColumnEquals(Int(x.snippet.id), idv)
  {
    if |rows| == 0 then []
    else (if ColumnEquals(Int(rows[0].snippet.id), idv) then [rows[0]] else []) + WithSnippetId(rows[1..], idv)
  }

  // ------------------------------------------------------------- ordering

  /** `ORDER BY title` under SQLite's default BINARY collation, which for
      these strings compares code point by code point. */
  predicate TitleLe(a: string, b: string) {
    |a| == 0 || (|b| > 0 && (a[0] < b[0] || (a[0] == b[0] && TitleLe(a[1..], b[1..]))))
  }

  lemma {:induction false} TitleLeTotal(a: string, b: string)
    ensures TitleLe(a, b) || TitleLe(b, a)
  {
    if |a| > 0 && |b| > 0 && a[0] == b[0] {
      TitleLeTotal(a[1..], b[1..]);
    }
  }

  predicate SortedByTitle(rows: seq<JoinRow>) {
    forall i :: 0 <= i < |rows| - 1 ==> TitleLe(rows[i].snippet.title, rows[i + 1].snippet.title)
  }

  function InsertByTitle(x: JoinRow, rows: seq<JoinRow>): seq<JoinRow> {
    if |rows| == 0 || TitleLe(x.snippet.title, rows[0].snippet.title) then [x] + rows
    else [rows[0]] + InsertByTitle(x, rows[1..])
  }

  /** An insertion sort that keeps equal titles in scan order. */
  function SortByTitle(rows: seq<JoinRow>): seq<JoinRow> {
    if |rows| == 0 then [] else InsertByTitle(rows[0], SortByTitle(rows[1..]))
  }

  lemma {:induction false} InsertByTitleSorted(x: JoinRow, rows: seq<JoinRow>)
    requires SortedByTitle(rows)
    ensures SortedByTitle(InsertByTitle(x, rows))
    ensures multiset(InsertByTitle(x, rows)) == multiset(rows) + multiset{x}
    ensures |rows| > 0 ==> InsertByTitle(x, rows)[0] == x || InsertByTitle(x, rows)[0] == rows[0]
  {
    if |rows| > 0 && !TitleLe(x.snippet.title, rows[0].snippet.title) {
      TitleLeTotal(x.snippet.title, rows[0].snippet.title);
      InsertByTitleSorted(x, rows[1..]);
      assert rows == [rows[0]] + rows[1..];
    }
  }

  /** The sorted result is ascending by title and holds the same rows. */
  lemma {:induction false} SortByTitleCorrect(rows: seq<JoinRow>)
    ensures SortedByTitle(SortByTitle(rows))
    ensures multiset(SortByTitle(rows)) == multiset(rows)
  {
    if |rows| > 0 {
      SortByTitleCorrect(rows[1..]);
      InsertByTitleSorted(rows[0], SortByTitle(rows[1..]));
      assert rows == [rows[0]] + rows[1..];
    }
  }

  function InsertSnippetByTitle(x: Snippet, rows: seq<Snippet>): seq<Snippet> {
    if |rows| == 0 || TitleLe(x.title, rows[0].title) then [x] + rows
    else [rows[0]] + InsertSnippetByTitle(x, rows[1..])
  }

  function SortSnippetsByTitle(rows: seq<Snippet>): seq<Snippet> {
    if |rows| == 0 then [] else InsertSnippetByTitle(rows[0], SortSnippetsByTitle(rows[1..]))
  }

  // ---------------------------------------------------------- result rows

  /** The seven columns of application_model's join, in SELECT order. */
  function JoinedTuple(r: JoinRow): seq<SqlValue> {
    [Int(r.snippet.id), Text(r.snippet.title), Text(r.snippet.code), r.snippet.languageId,
     Text(r.language.name), r.snippet.categoryId, Text(r.category.name)]
  }

  function JoinedTuples(rows: seq<JoinRow>): (r: seq<seq<SqlValue>>)
    ensures |r| == |rows| && forall i :: 0 <= i < |rows| ==> r[i] == JoinedTuple(rows[i])
  { seq(|rows|, i requires 0 <= i < |rows| => JoinedTuple(rows[i])) }

  /** The five columns of snippet_model's join. */
  function NamedTuple(r: JoinRow): seq<SqlValue> {
    [Int(r.snippet.id), Text(r.snippet.title), Text(r.snippet.code), Text(r.language.name), Text(r.category.name)]
  }

  function NamedTuples(rows: seq<JoinRow>): (r: seq<seq<SqlValue>>)
    ensures |r| == |rows| && forall i :: 0 <= i < |rows| ==> r[i] == NamedTuple(rows[i])
  { seq(|rows|, i requires 0 <= i < |rows| => NamedTuple(rows[i])) }

  /** `SELECT c.id, c.name FROM categories c JOIN languages_categories lc ...
      WHERE lc.language_id = ?`: link rows in rowid order, each joined to its category. */
  function SpecificCategoryRows(ks: seq<Link>, cs: seq<Category>, lang: SqlValue): seq<seq<SqlValue>> {
    if |ks| == 0 then []
    else
      (if ColumnEquals(ks[0].languageId, lang) then CategoryRowsWithId(cs, ks[0].categoryId) else [])
      + SpecificCategoryRows(ks[1..], cs, lang)
  }

  function CategoryRowsWithId(cs: seq<Category>, v: SqlValue): seq<seq<SqlValue>> {
    if |cs| == 0 then []
    else (if v == Int(cs[0].id) then [[Int(cs[0].id), Text(cs[0].name)]] else []) + CategoryRowsWithId(cs[1..], v)
  }

  /** No link row names category `id`. */
  predicate Unlinked(id: int, ks: seq<Link>) {
    forall k :: 0 <= k < |ks| ==> ks[k].categoryId != Int(id)
  }

  function GeneralCategoryRows(cs: seq<Category>, ks: seq<Link>): seq<seq<SqlValue>> {
    if |cs| == 0 then []
    else (if Unlinked(cs[0].id, ks) then [[Int(cs[0].id), Text(cs[0].name)]] else []) + GeneralCategoryRows(cs[1..], ks)
  }

  function LanguageIdRows(ls: seq<Language>): (r: seq<seq<SqlValue>>)
    ensures |r| == |ls| && forall i :: 0 <= i < |ls| ==> r[i] == [Int(ls[i].id)]
  { seq(|ls|, i requires 0 <= i < |ls| => [Int(ls[i].id)]) }

  function LanguageRows(ls: seq<Language>): (r: seq<seq<SqlValue>>)
    ensures |r| == |ls| && forall i :: 0 <= i < |ls| ==> r[i] == [Int(ls[i].id), Text(ls[i].name)]
  { seq(|ls|, i requires 0 <= i < |ls| => [Int(ls[i].id), Text(ls[i].name)]) }

  function InCategory(ss: seq<Snippet>, cat: SqlValue): seq<Snippet> {
    if |ss| == 0 then []
    else (if ColumnEquals(ss[0].categoryId, cat) then [ss[0]] else []) + InCategory(ss[1..], cat)
  }

  /** The value a snippet row holds in a declared column; the creation
      timestamp is not part of this model. */
  function SnippetColumn(s: Snippet, c: string): SqlValue {
    if c == "id" then Int(s.id)
    else if c == "title" then Text(s.title)
    else if c == "code" then Text(s.code)
    else if c == "language_id" then s.languageId
    else if c == "category_id" then s.categoryId
    else Null
  }

  function Project(s: Snippet, cols: seq<string>): (r: seq<SqlValue>)
    ensures |r| == |cols|
  { seq(|cols|, i requires 0 <= i < |cols| => SnippetColumn(s, cols[i])) }

  function ProjectAll(ss: seq<Snippet>, cols: seq<string>): seq<seq<SqlValue>> {
    seq(|ss|, i requires 0 <= i < |ss| => Project(ss[i], cols))
  }

  // ---------------------------------------------------------------- writes

  /** The value given for column `c` by an INSERT or UPDATE column list. */
  function Given(cols: seq<string>, vals: seq<SqlValue>, c: string): Option<SqlValue>
    requires |cols| == |vals|
  {
    if |cols| == 0 then None
    else if cols[0] == c then Some(vals[0])
    else Given(cols[1..], vals[1..], c)
  }

  function NotNullError(c: string): string { "NOT NULL constraint failed: snippets." + c }

  function InsertSnippetEffect(t: Tables, cols: seq<string>, vals: seq<SqlValue>): (r: Step)
    requires |cols| == |vals|
    ensures r.Done? ==> r.rowcount == 1 && r.lastRowId.Some?
  {
    var title := TextAffinity(Given(cols, vals, "title").GetOr(Null));
    var code := TextAffinity(Given(cols, vals, "code").GetOr(Null));
    if title.None? then Failed(NotNullError("title"))
    else if code.None? then Failed(NotNullError("code"))
    else
      var id := NextAutoId(SnippetIds(Snips(t)), t.snippetSeq);
      var row := Snippet(id, title.value, code.value,
                         IntegerAffinity(Given(cols, vals, "language_id").GetOr(Null)),
                         IntegerAffinity(Given(cols, vals, "category_id").GetOr(Null)));
      Done(t.(snippets := Some(Snips(t) + [row]), snippetSeq := id), [], 1, Some(id))
  }

  /** A TEXT NOT NULL column after `SET c = v`, or `None` when v is NULL. */
  function SetText(current: string, given: Option<SqlValue>): Option<string> {
    match given
    case None => Some(current)
    case Some(v) => TextAffinity(v)
  }

  function SetInteger(current: SqlValue, given: Option<SqlValue>): SqlValue {
    match given
    case None => current
    case Some(v) => IntegerAffinity(v)
  }

  /** One row as the UPDATE's SET clause leaves it; `None` when its title or
      code would become NULL. */
  function SetRow(s: Snippet, cols: seq<string>, vals: seq<SqlValue>): Option<Snippet>
    requires |cols| == |vals|
  {
    var title := SetText(s.title, Given(cols, vals, "title"));
    var code := SetText(s.code, Given(cols, vals, "code"));
    if title.None? || code.None? then None
    else Some(s.(title := title.value, code := code.value,
                 languageId := SetInteger(s.languageId, Given(cols, vals, "language_id")),
                 categoryId := SetInteger(s.categoryId, Given(cols, vals, "category_id"))))
  }

  /** The rows of `ss` after the UPDATE, and how many it changed; `None`
      when a changed row would break a NOT NULL constraint. */
  function UpdateRows(ss: seq<Snippet>, cols: seq<string>, vals: seq<SqlValue>, idv: SqlValue): (r: Option<(seq<Snippet>, nat)>)
    requires |cols| == |vals|
    ensures r.Some? ==> |r.value.0| == |ss| && SnippetIds(r.value.0) == SnippetIds(ss)
  {
    if |ss| == 0 then Some(([], 0))
    else
      match UpdateRows(ss[1..], cols, vals, idv)
      case None => None
      case Some((rest, n)) =>
        SnippetIdsSplit(ss);
        if !ColumnEquals(Int(ss[0].id), idv) then
          SnippetIdsCons(ss[0], rest);
          Some(([ss[0]] + rest, n))
        else
          match SetRow(ss[0], cols, vals)
          case None => None
          case Some(row) =>
            SnippetIdsCons(row, rest);
            Some(([row] + rest, n + 1))
  }

  /** The UPDATE fails exactly when a row carrying the id cannot take the
      SET values; otherwise each row carrying the id is replaced by its SET
      form and every other row stays as it was. */
  lemma {:induction false} UpdateRowsEach(ss: seq<Snippet>, cols: seq<string>, vals: seq<SqlValue>, idv: SqlValue)
    requires |cols| == |vals|
    ensures UpdateRows(ss, cols, vals, idv).Some? <==>
              forall i :: 0 <= i < |ss| && ColumnEquals(Int(ss[i].id), idv) ==> SetRow(ss[i], cols, vals).Some?
    ensures UpdateRows(ss, cols, vals, idv).Some? ==>
              forall i :: 0 <= i < |ss| ==>
                UpdateRows(ss, cols, vals, idv).value.0[i]
                == if ColumnEquals(Int(ss[i].id), idv) then SetRow(ss[i], cols, vals).value else ss[i]
  {
    if |ss| > 0 {
      UpdateRowsEach(ss[1..], cols, vals, idv);
      assert forall i :: 0 < i < |ss| ==> ss[1..][i - 1] == ss[i];
    }
  }

  function UpdateSnippetEffect(t: Tables, cols: seq<string>, vals: seq<SqlValue>, idv: SqlValue): Step
    requires |cols| == |vals|
  {
    match UpdateRows(Snips(t), cols, vals, idv)
    case None => Failed(NotNullError(if Given(cols, vals, "title") == Some(Null) then "title" else "code"))
    case Some((rows, n)) => Done(t.(snippets := Some(rows)), [], n, None)
  }

  /** The snippets left by `DELETE FROM snippets WHERE id = ?`. */
  function WithoutId(ss: seq<Snippet>, idv: SqlValue): (r: seq<Snippet>)
    ensures |r| <= |ss|
    ensures forall x :: x in r <==> x in ss && !ColumnEquals(Int(x.id), idv)
  {
    if |ss| == 0 then []
    else (if ColumnEquals(Int(ss[0].id), idv) then [] else [ss[0]]) + WithoutId(ss[1..], idv)
  }

  // ------------------------------------------------------------ seed data

  /** `(SELECT id FROM t WHERE name = ...)`: the first match in rowid order, or NULL. */
  function LanguageNamed(ls: seq<Language>, name: string): SqlValue {
    if |ls| == 0 then Null else if ls[0].name == name then Int(ls[0].id) else LanguageNamed(ls[1..], name)
  }

  function CategoryNamed(cs: seq<Category>, name: string): SqlValue {
    if |cs| == 0 then Null else if cs[0].name == name then Int(cs[0].id) else CategoryNamed(cs[1..], name)
  }

  /** The link rows of `INSERT ... SELECT languages.id, categories.id FROM
      languages, categories WHERE ...`: languages outer, categories inner,
      numbered from `next`. */
  function LinkPairs(ls: seq<Language>, cs: seq<Category>, language: string, names: seq<string>, next: int): seq<Link>
    decreases |ls|
  {
    if |ls| == 0 then []
    else
      var first := if ls[0].name == language then LinkCategories(ls[0].id, cs, names, next) else [];
      first + LinkPairs(ls[1..], cs, language, names, next + |first|)
  }

  function LinkCategories(lang: int, cs: seq<Category>, names: seq<string>, next: int): seq<Link>
  {
    if |cs| == 0 then []
    else if cs[0].name in names then [Link(next, Int(lang), Int(cs[0].id))] + LinkCategories(lang, cs[1..], names, next + 1)
    else LinkCategories(lang, cs[1..], names, next)
  }

  /** The tables a seed statement names. */
  predicate SeedTablesExist(t: Tables, st: SeedStatement) {
    match st
    case SeedLanguage(_) => t.languages.Some?
    case SeedCategory(_, _) => t.categories.Some?
    case SeedLinks(_, _) => t.links.Some? && t.languages.Some? && t.categories.Some?
    case SeedSnippet(_, _, _, _) => t.snippets.Some? && t.languages.Some? && t.categories.Some?
  }

  /** Every column a seed statement names is declared: only a missing table
      can stop it from being prepared. */
  lemma SeedResolves(t: Tables, st: SeedStatement)
    ensures Resolves(t, Scopes(Seed(st))) <==> SeedTablesExist(t, st)
  {
    var scopes := Scopes(Seed(st));
    if SeedTablesExist(t, st) {
      forall k | 0 <= k < |scopes|
        ensures forall j :: 0 <= j < |scopes[k].refs| ==> Binds(scopes[k].sources, scopes[k].refs[j])
      {
        var srcs := scopes[k].sources;
        forall j | 0 <= j < |scopes[k].refs|
          ensures Binds(srcs, scopes[k].refs[j])
        {
          var r := scopes[k].refs[j];
          if r.Qualified? {
            assert exists i :: 0 <= i < |srcs| && srcs[i].alias == r.qualifier && r.column in Columns(srcs[i].table) by {
              if srcs[0].alias == r.qualifier && r.column in Columns(srcs[0].table) {
                assert 0 < |srcs|;
              } else {
                assert srcs[1].alias == r.qualifier && r.column in Columns(srcs[1].table);
              }
            }
          }
        }
      }
    } else {
      assert !Resolves(t, scopes) by {
        match st
        case SeedLanguage(_) => assert !t.Exists(scopes[0].sources[0].table);
        case SeedCategory(_, _) => assert !t.Exists(scopes[0].sources[0].table);
        case SeedLinks(_, _) =>
          assert !t.Exists(scopes[0].sources[0].table) || !t.Exists(scopes[1].sources[0].table)
              || !t.Exists(scopes[1].sources[1].table);
        case SeedSnippet(_, _, _, _) =>
          assert !t.Exists(scopes[0].sources[0].table) || !t.Exists(scopes[1].sources[0].table)
              || !t.Exists(scopes[2].sources[0].table);
      }
    }
  }

  function SeedEffect(st: SeedStatement, t: Tables): Step {
    match st
    case SeedLanguage(name) =>
      var id := NextRowId(LanguageIds(Langs(t)));
      Done(t.(languages := Some(Langs(t) + [Language(id, name)])), [], 1, Some(id))
    case SeedCategory(name, description) =>
      var id := NextRowId(CategoryIds(Cats(t)));
      Done(t.(categories := Some(Cats(t) + [Category(id, name, Some(description))])), [], 1, Some(id))
    case SeedLinks(language, names) =>
      var added := LinkPairs(Langs(t), Cats(t), language, names, NextRowId(LinkIds(Links(t))));
      Done(t.(links := Some(Links(t) + added)), [], |added|,
           if |added| == 0 then None else Some(added[|added| - 1].id))
    case SeedSnippet(title, code, language, category) =>
      var id := NextAutoId(SnippetIds(Snips(t)), t.snippetSeq);
      var row := Snippet(id, title, code, LanguageNamed(Langs(t), language), CategoryNamed(Cats(t), category));
      Done(t.(snippets := Some(Snips(t) + [row]), snippetSeq := id), [], 1, Some(id))
  }
}
