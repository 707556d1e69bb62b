/** The relational layout of src/db/db_schema.py: four tables, their columns,
    the order in which they are created, and the seed statements' shapes.
    A table that has not been created yet is `None`; rows are kept in rowid
    order, which is the order SQLite scans them. */
module Schema {
  import opened Common

  datatype TableName = Categories | Languages | LanguagesCategories | Snippets

  function TableText(t: TableName): string {
    match t
    case Categories => "categories"
    case Languages => "languages"
    case LanguagesCategories => "languages_categories"
    case Snippets => "snippets"
  }

  /** The iteration order of TABLES_SQL, which `create_tables` follows. */
  const CreationOrder: seq<TableName> := [Categories, Languages, LanguagesCategories, Snippets]

  /** The declared columns of each table. */
  function Columns(t: TableName): set<string> {
    match t
    case Categories => {"id", "name", "description"}
    case Languages => {"id", "name"}
    case LanguagesCategories => {"id", "language_id", "category_id"}
    case Snippets => {"id", "title", "code", "language_id", "category_id", "created_at"}
  }

  /** A value bound to a statement parameter or stored in an untyped column. */
  datatype SqlValue = Null | Int(i: int) | Text(s: string)

  datatype Language = Language(id: int, name: string)
  datatype Category = Category(id: int, name: string, description: Option<string>)
  /** The foreign-key columns are plain INTEGER columns: nothing stops them
      from holding NULL or an id that names no row. */
  datatype Link = Link(id: int, languageId: SqlValue, categoryId: SqlValue)
  datatype Snippet = Snippet(id: int, title: string, code: string, languageId: SqlValue, categoryId: SqlValue)

  datatype Tables = Tables(
    languages: Option<seq<Language>>,
    categories: Option<seq<Category>>,
    links: Option<seq<Link>>,
    snippets: Option<seq<Snippet>>,
    snippetSeq: int)   // the sqlite_sequence entry that AUTOINCREMENT keeps for snippets
  {
    predicate Exists(t: TableName) {
      match t
      case Categories => categories.Some?
      case Languages => languages.Some?
      case LanguagesCategories => links.Some?
      case Snippets => snippets.Some?
    }

    /** `CREATE TABLE IF NOT EXISTS`: an existing table is left as it is. */
    function Create(t: TableName): (r: Tables)
      ensures r.Exists(t)
      ensures forall u :: u != t ==> r.Exists(u) == Exists(u)
      ensures Exists(t) ==> r == this
    {
      if Exists(t) then this
      else match t
        case Categories => this.(categories := Some([]))
        case Languages => this.(languages := Some([]))
        case LanguagesCategories => this.(links := Some([]))
        case Snippets => this.(snippets := Some([]))
    }
  }

  /** A database file that has never had a table created in it. */
  const NoTables := Tables(None, None, None, None, 0)

  /** Primary keys are unique in every table. */
  predicate UniqueIds(t: Tables) {
    && (t.languages.Some? ==> forall i, j :: 0 <= i < j < |t.languages.value| ==> t.languages.value[i].id != t.languages.value[j].id)
    && (t.categories.Some? ==> forall i, j :: 0 <= i < j < |t.categories.value| ==> t.categories.value[i].id != t.categories.value[j].id)
    && (t.links.Some? ==> forall i, j :: 0 <= i < j < |t.links.value| ==> t.links.value[i].id != t.links.value[j].id)
    && (t.snippets.Some? ==> forall i, j :: 0 <= i < j < |t.snippets.value| ==> t.snippets.value[i].id != t.snippets.value[j].id)
  }

  /** One INSERT of INITIAL_DATA_SQL; subqueries select by name. */
  datatype SeedStatement =
    | SeedLanguage(name: string)
    | SeedCategory(name: string, description: string)
    | SeedLinks(language: string, categories: seq<string>)
    | SeedSnippet(title: string, code: string, language: string, category: string)
}
