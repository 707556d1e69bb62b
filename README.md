# CodeKeeper core in Dafny

CodeKeeper is a desktop application for storing and browsing code snippets.
Snippets are organised by programming language and by category. A category
is *general* when no language is linked to it, and *specific* to each
language it is linked to. This project models the logic under the Tk
widgets and proves what that logic does:

- **Relational store.** The four tables of `src/db/db_schema.py` are
  in-memory relations (module `Schema`). Each SQL statement the application
  sends is an operation over them with an explicit failure outcome
  (module `Sql`). A statement fails when it names a table, column or
  qualifier the schema does not define, when its parameters do not match,
  or when it writes to a read-only file.
- **sqlite3 connection.** Committed tables live in the database file and
  uncommitted ones in the connection (module `Connection`).
  `DatabaseConnection` is a class with an open/closed lifecycle, context
  enter/exit and select-versus-write dispatch in `execute_query`.
- **Database initialisation.** Table creation collects one error per table
  that fails. The seed data (module `SeedData`) is loaded in one
  transaction that is committed whole or rolled back
  (module `DatabaseInitializer`).
- **Queries and CRUD.** The main window's read queries are in
  `ApplicationModel`; snippet create, read, update and delete are in
  `SnippetModel`. Each runs its statement as written, so statements that
  name a column or alias the schema lacks fail and return None, False or [].
- **Tree aggregation.** `PrepareTreeviewData` (module `ApplicationController`) builds
  the language → category key → snippet list structure, together with node
  classification by depth and snippet-id parsing.
- **Snippet form controller.** Field validation, add/edit mode, a
  synchronous `submit_snippet` and the post-submission cleanup
  (module `SnippetController`). View requests are recorded in order.
- **Configuration and themes.** The key/value preference store
  (`ConfigurationManager`), the named configurations with their fallback,
  write guard and validator (`ConfigurationModel`), and the theme store,
  its structure check and file filter (`ThemeModel`). Also modelled: the
  theme controller's `current_theme` guard (`ThemeController`) and the theme
  editor's colour/font classification and widget map (`ThemeView`). All of
  these work over an abstract file system (module `Files`) of JSON
  documents (module `JsonValue`).
- **Views.** The preferences window's tree data, search filter, breadcrumb
  and details paths are in `ConfigurationView`. The main window's
  click-toggle and selection-change state machine, node lookup and
  maximise/restore are in `ApplicationView`. Both run over a model of a
  ttk treeview (module `Treeview`).
- **Logger registry.** One instance per logger name, plus the rewrite of
  handler file names into the logs directory (module `CustomLogger`).

Methods that change state are proved against specification functions of the
old state. Lemmas state the properties the code promises: the tree
aggregator's seeding, membership and drop rules; the all-or-nothing seed
load; delete removing exactly the matching row; set-then-get on the
configuration store; the search filter's grouping and order; and the other
rows below. Where the code misbehaves, the model follows the code, and
"## Findings" pairs each such behaviour with a corrected definition and
its intended property.

## Model

| member | source | states |
|---|---|---|
| Schema.Create | src/db/db_schema.py:24-50 | `CREATE TABLE IF NOT EXISTS` creates the named table, leaves every other table as it was, and changes nothing when the table already exists |
| Sql.IntegerAffinity | src/db/db_schema.py:45-46 | an INTEGER column stores NULL as NULL and an integer unchanged; plain decimal text (an optional minus sign and digits) becomes that integer |
| Sql.ParseIntegerOfIntToString | src/db/db_schema.py:45-46 | the decimal text of any integer is read back as that integer by the INTEGER affinity |
| Sql.TextAffinity | src/db/db_schema.py:43-44 | a TEXT column keeps text as it is and NULL as NULL |
| Sql.NextRowId | src/db/db_schema.py:35 | the rowid given to a new row of a table without AUTOINCREMENT is larger than every rowid present |
| Sql.NextAutoId | src/db/db_schema.py:42 | the AUTOINCREMENT rowid of a new snippet is larger than every rowid present and than every rowid ever used |
| Sql.MissingTable | src/db/connection.py:99-105 | a statement reports no missing table exactly when every table it reads or writes exists |
| Sql.UnboundRef | src/db/connection.py:99-105 | a statement reports no unknown column exactly when every column reference binds to one of its tables |
| Sql.ResolveError | src/db/connection.py:99-105 | preparing a statement fails exactly when it does not resolve against the schema |
| Sql.Run | src/db/connection.py:99-105 | executing a statement fails when it does not resolve or the parameter count is wrong; a select changes no table and reports rowcount -1; a read-only file keeps every table |
| Sql.Effect | src/db/connection.py:107-113 | a prepared select leaves the tables alone with rowcount -1; only DML may be refused by a read-only file |
| Sql.ChangeEffect | src/db/connection.py:110-113 | a non-select statement other than DML leaves a read-only file's tables unchanged whenever it succeeds |
| Sql.QueryEffectDone | src/db/connection.py:107-109 | a select whose parameters bind always yields its rows |
| Sql.RunQuery | src/db/connection.py:99-109 | a select fails exactly when it cannot be prepared or its parameter count is wrong, and otherwise yields its effect |
| Sql.RunPrepared | src/db/connection.py:99-113 | a statement that is prepared and bound, and allowed on the file, has exactly its effect |
| Sql.JoinCategories | src/models/application_model.py:56 | the join of one snippet and one language with the categories keeps exactly the categories whose id matches the snippet's `category_id` |
| Sql.JoinLanguages | src/models/application_model.py:56 | the join of one snippet keeps exactly the language and category pairs both of whose ids match the snippet's references |
| Sql.JoinAllMembers | src/models/application_model.py:56 | `snippets JOIN languages JOIN categories` holds exactly the combinations of rows whose references match |
| Sql.DanglingSnippetNotJoined | src/models/application_model.py:56 | every joined row comes from rows present in the three tables whose ids match, so a snippet whose language or category is missing is left out |
| Sql.WithSnippetId | src/models/application_model.py:92 | `WHERE snippets.id = ?` keeps exactly the joined rows whose snippet id equals the parameter |
| Sql.TitleLeTotal | src/models/application_model.py:56 | the title order is total |
| Sql.InsertByTitleSorted | src/models/application_model.py:56 | inserting a row into rows sorted by title keeps them sorted and adds exactly that row |
| Sql.SortByTitleCorrect | src/models/application_model.py:56 | `ORDER BY snippets.title ASC` gives rows ascending by title that are a permutation of the joined rows |
| Sql.JoinedTuples | src/models/application_model.py:56 | each joined row yields the seven selected columns, one tuple per row in order |
| Sql.NamedTuples | src/models/snippet_model.py:119 | each joined row yields id, title, code, language name and category name, one tuple per row in order |
| Sql.LanguageIdRows | src/models/application_model.py:151 | `SELECT id FROM languages` yields one one-column tuple per language, in table order |
| Sql.LanguageRows | src/models/application_model.py:169 | `SELECT id, name FROM languages` yields one (id, name) tuple per language, in table order |
| Sql.Project | src/models/snippet_model.py:169 | a projected snippet row has one value per selected column |
| Sql.InsertSnippetEffect | src/models/snippet_model.py:51-58 | a successful insert into snippets adds one row and reports its rowid |
| Sql.UpdateRows | src/models/snippet_model.py:74-81 | an UPDATE keeps the number of snippets and every rowid, or fails on a NOT NULL column |
| Sql.UpdateRowsEach | src/models/snippet_model.py:74-81 | an UPDATE succeeds exactly when every row with the id accepts the new values; each such row takes the named columns' values, with the column affinities, and every other row is left unchanged |
| Sql.WithoutId | src/models/snippet_model.py:96-103 | `DELETE FROM snippets WHERE id = ?` keeps exactly the snippets whose id differs from the parameter |
| Sql.SeedResolves | src/db/db_schema.py:53-92 | every column the seed statements name is declared, so a seed statement can be prepared exactly when its tables exist |
| Connection.Exec | src/db/connection.py:99-105 | `cursor.execute` fails on a closed connection without changing it; a select leaves the connection alone; a data change never touches the committed tables by itself; a failure leaves the visible tables unchanged |
| Connection.ExecBegin | src/utils/initialize_database.py:101 | BEGIN opens a transaction over the committed tables, or fails and changes nothing when one is already open |
| Connection.ExecStatement | src/db/connection.py:99-105 | any other statement yields what it yields on the visible tables; a data change lands in the transaction, never in the committed tables |
| Connection.ExecQuery | src/db/connection.py:99-109 | a select leaves the connection as it was, fails exactly when it cannot be prepared, and otherwise yields its result over the visible tables |
| Connection.ExecDmlDone | src/models/snippet_model.py:55-56 | a data change that succeeds joins a transaction, opened implicitly if none is open, holding its result |
| Connection.CommitState | src/db/connection.py:111 | `commit()` makes the visible tables the file's and closes the transaction; on a closed connection it raises |
| Connection.RollbackState | src/utils/initialize_database.py:109 | `rollback()` drops the transaction and keeps the committed tables; on a closed connection it raises |
| Connection.SqliteConnection.constructor | src/db/connection.py:58 | a new connection is open with no transaction |
| Connection.SqliteConnection.Execute | src/db/connection.py:99-105 | executing a statement moves the connection as `Exec` says |
| Connection.SqliteConnection.Commit | src/db/connection.py:111 | committing moves the connection and file as `CommitState` says |
| Connection.SqliteConnection.Rollback | src/utils/initialize_database.py:109 | rolling back moves the connection as `RollbackState` says |
| Connection.SqliteConnection.Close | src/db/connection.py:67 | closing does not commit: the open transaction is lost and the file keeps its tables |
| Connection.SelectDoesNotCommit | src/db/connection.py:107-109 | a select run with `is_select` returns the statement's rows and leaves the connection untouched |
| Connection.WriteCommits | src/db/connection.py:110-113 | without `is_select` a statement that succeeds is committed at once and its rowcount returned |
| Connection.SelectFlagLeavesWritePending | src/db/connection.py:107-109 | a write run with `is_select` is never committed: the file keeps its tables and the change waits in a transaction |
| Connection.ErrorsBecomeRuntimeErrors | src/db/connection.py:115-117 | every statement error surfaces as a RuntimeError whose text carries the error |
| Connection.DatabaseConnection.constructor | src/db/connection.py:43-62 | the constructor opens the file at once; the connect error is re-raised (recorded in `openError`) exactly when the file cannot be opened, and otherwise a fresh open connection with no transaction is held |
| Connection.DatabaseConnection.OpenConnection | src/db/connection.py:54-62 | opening is a no-op while a connection is held; otherwise it makes a fresh open connection or re-raises with none held |
| Connection.DatabaseConnection.CloseConnection | src/db/connection.py:64-69 | closing closes the held connection and forgets it |
| Connection.DatabaseConnection.Enter | src/db/connection.py:71-73 | entering opens if needed and yields the held connection |
| Connection.DatabaseConnection.Exit | src/db/connection.py:75-76 | leaving closes the connection |
| Connection.DatabaseConnection.ExecuteQuery | src/db/connection.py:78-117 | with no connection the call fails with AttributeError; otherwise the result and new connection state are those of `ExecuteQueryState` |
| DatabaseInitializer.CreateStepIsExec | src/utils/initialize_database.py:56-63 | one `create_table` call succeeds exactly when its CREATE statement executes, with the same new connection state |
| DatabaseInitializer.ExpectedErrors | src/utils/initialize_database.py:77-80 | there is at most one error per table attempted |
| DatabaseInitializer.CreateAllState | src/utils/initialize_database.py:77-81 | creating the tables keeps the connection open or closed as it was, leaves tables outside the list alone, and every table whose creation does not fail exists afterwards |
| DatabaseInitializer.CreateAllErrors | src/utils/initialize_database.py:77-83 | the error list holds one "Failed to create table" entry for exactly the tables whose creation fails, in creation order: a failure does not stop the loop |
| DatabaseInitializer.SeedStepIsRun | src/utils/initialize_database.py:104 | one seed step is what executing that seed statement does |
| DatabaseInitializer.ApplySeedsSnoc | src/utils/initialize_database.py:102-104 | running one more seed statement continues from the tables the earlier ones produced, unless they already failed |
| DatabaseInitializer.ApplySeedsFailureSticks | src/utils/initialize_database.py:102-109 | once a seed statement fails, running more statements cannot recover |
| DatabaseInitializer.AllOrNothing | src/utils/initialize_database.py:98-111 | `load_initial_data` either commits the effect of every seed statement in order or leaves the file's tables exactly as they were; no transaction stays open either way |
| DatabaseInitializer.DatabaseInitializer.constructor | src/utils/initialize_database.py:36-43 | the initializer keeps the connection object of the connection manager |
| DatabaseInitializer.DatabaseInitializer.CreateOne | src/utils/initialize_database.py:45-63 | `create_table` answers whether the CREATE statement raised, and moves the connection as executing it does |
| DatabaseInitializer.DatabaseInitializer.CreateTables | src/utils/initialize_database.py:65-83 | with no connection the result is (False, ["Unable to establish a database connection."]); otherwise every table of TABLES_SQL is attempted in order, the errors are exactly those of the failed tables, and success means no error |
| DatabaseInitializer.DatabaseInitializer.LoadInitialData | src/utils/initialize_database.py:85-111 | with no connection the result is False; otherwise the outcome and connection state are those of the all-or-nothing load of the seed groups |
| DatabaseInitializer.LoadGroups | src/utils/initialize_database.py:98-111 | BEGIN, every statement of every group in order, then COMMIT, or ROLLBACK at the first error |
| DatabaseInitializer.SeedInTransaction | src/utils/initialize_database.py:104 | a seed statement inside the open transaction changes only the transaction's tables, and fails exactly when its step fails |
| DatabaseInitializer.RunSeed | src/utils/initialize_database.py:104 | one seed statement extends the transaction by its step, or reports that the statements so far cannot all succeed |
| DatabaseInitializer.RunGroup | src/utils/initialize_database.py:103-104 | the statements of one group run in list order inside the transaction, stopping at the first failure, and the committed tables stay as they were |
| DatabaseInitializer.GroupFailureSticks | src/utils/initialize_database.py:102-109 | once the statements of the first groups fail, the whole load fails |
| ApplicationModel.RecordsOf | src/models/application_model.py:63-73 | one snippet dict per fetched row, in fetch order, each holding that row's seven columns |
| ApplicationModel.CategoryRecords | src/models/application_model.py:124-125 | one `{'id', 'name'}` dict per fetched pair |
| ApplicationModel.CategoryRecordsAppend | src/models/application_model.py:124-125 | the dicts of two runs of rows are the dicts of each run, concatenated |
| ApplicationModel.CategoryRowsAgree | src/models/application_model.py:117 | the category rows the join reaches through one link become exactly the categories with that id |
| ApplicationModel.SpecificRowsAgree | src/models/application_model.py:117 | the rows of the language-specific query become exactly the categories linked to the language |
| ApplicationModel.GeneralRowsAgree | src/models/application_model.py:135 | the rows of the general query become exactly the categories no link names |
| ApplicationModel.FetchSpecific | src/models/application_model.py:119-125 | when the language-specific query succeeds, its rows are pairs and become the specific categories |
| ApplicationModel.FetchGeneral | src/models/application_model.py:137-142 | when the general query succeeds, its rows are pairs and become the general categories |
| ApplicationModel.CategoryList | src/models/application_model.py:124-125 | the loop builds one dict per fetched pair, in fetch order |
| ApplicationModel.ApplicationModel.constructor | src/models/application_model.py:39-46 | the model keeps the connection object of the connection manager |
| ApplicationModel.ApplicationModel.FetchAll | src/models/application_model.py:59-61 | `execute` then `fetchall` yields the rows of the select over the visible tables, or nothing when it raises |
| ApplicationModel.ApplicationModel.GetAllSnippets | src/models/application_model.py:48-79 | the result is the joined, title-ordered records, or [] when the query fails |
| ApplicationModel.ApplicationModel.GetSnippet | src/models/application_model.py:81-111 | the result is the first joined record with the id, or None when there is none or the query fails |
| ApplicationModel.ApplicationModel.GetLanguageSpecificCategories | src/models/application_model.py:113-130 | the result is the categories linked to the language, or [] when the query fails |
| ApplicationModel.ApplicationModel.GetGeneralCategories | src/models/application_model.py:132-147 | the result is the categories no link names, or [] when the query fails |
| ApplicationModel.ApplicationModel.GetAllLanguageIds | src/models/application_model.py:149-165 | the result is the language ids in table order, or [] when the query fails |
| ApplicationModel.ApplicationModel.GetAllLanguages | src/models/application_model.py:167-183 | the result is the id-to-name dict built row by row, or {} when the query fails |
| ApplicationModel.AllSnippetsInnerJoin | src/models/application_model.py:56 | a record is returned exactly when some snippet, language and category row match on both references |
| ApplicationModel.AllSnippetsByTitle | src/models/application_model.py:56 | the records are ordered by title, ascending |
| ApplicationModel.SnippetByIdFound | src/models/application_model.py:92-111 | a record is found exactly when a joined row carries the id, and it is such a row's; a failed query gives None |
| ApplicationModel.CategoriesWithIdMembers | src/models/application_model.py:117 | the categories with an id are exactly the category rows carrying it |
| ApplicationModel.SpecificMembers | src/models/application_model.py:117 | a category is specific to a language exactly when a link row joins them |
| ApplicationModel.GeneralMembers | src/models/application_model.py:135 | a category is general exactly when no link row names it |
| ApplicationModel.SpecificCategoriesExactly | src/models/application_model.py:113-130 | `get_language_specific_categories(L)` returns the categories named by a link row for L, and only those |
| ApplicationModel.GeneralCategoriesExactly | src/models/application_model.py:132-147 | `get_general_categories` returns exactly the categories no link row names |
| ApplicationModel.SpecificNeverGeneral | src/models/application_model.py:117-135 | no category is both general and specific to a language |
| ApplicationModel.NameMapEntries | src/models/application_model.py:177-178 | with distinct ids the dict has one entry per language, in table order |
| ApplicationModel.LanguagesAgree | src/models/application_model.py:149-183 | the keys of `get_all_languages` are the ids of `get_all_language_ids`, in the same order, and each id maps to its language's name |
| ApplicationModel.LanguageFetchesAgree | src/models/application_model.py:151-169 | the two language selects fail together |
| ApplicationModel.NameMapAgrees | src/models/application_model.py:177-178 | the keys of the id-to-name dict are the ids in order and each id maps to its own name |
| ApplicationModel.LanguageSelectsResolve | src/models/application_model.py:151-169 | both language selects can be prepared exactly when the languages table exists |
| SnippetModel.WriteParams | src/models/snippet_model.py:52 | the parameters exist exactly when the form holds `title`, `language` and `code`; there are then four of them |
| SnippetModel.SnippetModel.constructor | src/models/snippet_model.py:32-39 | the model keeps the connection object of the connection manager |
| SnippetModel.SnippetModel.AddSnippet | src/models/snippet_model.py:41-61 | the result and the new database are those of the INSERT as written on the old database |
| SnippetModel.SnippetModel.UpdateSnippet | src/models/snippet_model.py:63-84 | the result and the new database are those of the UPDATE as written on the old database |
| SnippetModel.SnippetModel.DeleteSnippet | src/models/snippet_model.py:86-106 | the result and the new database are those of the DELETE on the old database |
| SnippetModel.SnippetModel.GetSnippet | src/models/snippet_model.py:108-136 | the result is the named record of the joined row with the id, or None |
| SnippetModel.SnippetModel.GetAllSnippets | src/models/snippet_model.py:138-157 | the result is the named records of the select as written |
| SnippetModel.SnippetModel.GetSnippetsByCategory | src/models/snippet_model.py:159-182 | the result is the rows of the category select as written |
| SnippetModel.WrittenWritesNeverResolve | src/models/snippet_model.py:51-74 | the INSERT, the UPDATE and the category select name a `language` column the snippets table does not have, so none can be prepared |
| SnippetModel.WrittenOrderNeverResolves | src/models/snippet_model.py:145 | `ORDER BY s.title` names a table no source of the join is called or aliased |
| SnippetModel.AddSnippetNeverInserts | src/models/snippet_model.py:41-61 | `add_snippet` raises KeyError or returns None and leaves the database unchanged |
| SnippetModel.UpdateSnippetNeverUpdates | src/models/snippet_model.py:63-84 | `update_snippet` raises KeyError or returns False and leaves the database unchanged |
| SnippetModel.SnippetsByCategoryAlwaysEmpty | src/models/snippet_model.py:159-182 | `get_snippets_by_category` always returns [] |
| SnippetModel.AllNamedSnippetsAlwaysEmpty | src/models/snippet_model.py:138-157 | `get_all_snippets` always returns [] |
| SnippetModel.IntendedWritesResolve | src/models/snippet_model.py:51-74 | with the declared columns the INSERT and the UPDATE can be prepared whenever the snippets table exists |
| SnippetModel.SnippetColumnsBind | src/models/snippet_model.py:51-74 | every declared column of the snippets table, and `id`, binds against the table alone |
| SnippetModel.IntendedAddInserts | src/models/snippet_model.py:51-58 | with the declared columns a writable database gains one committed row with the form's values under a fresh id, and that id is returned |
| SnippetModel.AddStateDone | src/models/snippet_model.py:54-58 | a successful INSERT is committed at once and the new row's id is returned |
| SnippetModel.IntendedInsertRow | src/models/snippet_model.py:51 | the INSERT with the declared columns appends one row with the given values under an id no row has |
| SnippetModel.UpdateRowsCount | src/models/snippet_model.py:74-81 | the UPDATE's row count is positive exactly when some row has the id |
| SnippetModel.IntendedUpdateReportsMatch | src/models/snippet_model.py:74-81 | with the declared columns `update_snippet` returns True exactly when a row has the id, and commits a snippets table in which exactly the rows with the id carry the form's title, language, code and category, the other rows and tables being unchanged |
| SnippetModel.UpdateStateDone | src/models/snippet_model.py:77-81 | a successful UPDATE commits exactly the updated snippets table, leaving no transaction open, and the result says whether it changed a row |
| SnippetModel.IntendedUpdateRows | src/models/snippet_model.py:74-81 | with the declared columns, the UPDATE never fails on a NOT NULL column when title and code are given, and leaves the form's values on the rows with the id and the old rows elsewhere |
| SnippetModel.WithoutIdShrinks | src/models/snippet_model.py:96 | deleting by id removes a row exactly when one has the id, and otherwise leaves the rows as they were |
| SnippetModel.DeleteRemovesOnlyThatRow | src/models/snippet_model.py:86-106 | `delete_snippet` returns True exactly when a row had the id, commits, and removes the rows with that id and no other |
| SnippetModel.SuccessfulWritesCommitted | src/models/snippet_model.py:57-102 | every add, update or delete reporting success has committed exactly the tables its statement produced, leaving no transaction open |
| SnippetModel.NamedSnippetFound | src/models/snippet_model.py:108-136 | a record is returned exactly when a joined row carries the id, and it is that row's record |
| SnippetModel.IntendedOrderResolves | src/models/snippet_model.py:145 | ordering by `snippets.title` names a table of the join, so the select can be prepared whenever the three tables exist |
| SnippetModel.IntendedAllSnippetsListed | src/models/snippet_model.py:138-157 | with the corrected ORDER BY, an open connection lists one record per joined snippet, every joined snippet's record appears, and the records ascend by title |
| SnippetModel.NamedRecordsByTitle | src/models/snippet_model.py:145-152 | the records of the title-sorted join rows are one per row, cover every row, and ascend by title |
| SnippetModel.IntendedCategoryResolves | src/models/snippet_model.py:169 | selecting `language_id` names only declared columns, so the category select can be prepared whenever the snippets table exists |
| SnippetModel.IntendedCategoryListed | src/models/snippet_model.py:159-182 | with the corrected select list a record is listed exactly when it holds the id, title, language id and code of a snippet in that category |
| SnippetModel.InCategoryMembers | src/models/snippet_model.py:169 | `WHERE category_id = ?` keeps a row exactly when it is a row whose category equals the parameter |
| SnippetModel.SortSnippetsKeepsRows | src/models/snippet_model.py:169 | `ORDER BY title` keeps every row as often as it occurs |
| SnippetModel.CategoryRecordsMembers | src/models/snippet_model.py:169-177 | with the corrected select list, the title-sorted records of a category hold exactly the id, title, language id and code of each snippet in it |
| SnippetController.ValidSnippetDataExactly | src/controllers/snippet_controller.py:27-44 | a form is valid exactly when title, language and code are present and truthy; the category is not looked at |
| SnippetController.ValidWritesHaveParams | src/controllers/snippet_controller.py:88-96 | a valid form never makes the model raise KeyError |
| SnippetController.CleanupFiresOneCallback | src/controllers/snippet_controller.py:117-152 | a failure only shows an error; a success clears the form, shows the message, looks up exactly one of the three main-window callbacks, and closes the form only when that callback exists |
| SnippetController.SubmitCleanupRaises | src/controllers/snippet_controller.py:99-146 | the cleanup `submit_snippet` schedules passes no data, so a success looks up `refresh_display`, which the main window does not register, and raises |
| SnippetController.InvalidSubmissionTouchesNothing | src/controllers/snippet_controller.py:88-91 | an invalid form only shows the validation message; no model method runs and the database is unchanged |
| SnippetController.SubmitNeverSaves | src/controllers/snippet_controller.py:83-101 | with the model as written a valid form is never saved: "Failed to save snippet." is shown in both modes and the database is unchanged |
| SnippetController.SnippetController.constructor | src/controllers/snippet_controller.py:47-64 | the mode is edit exactly when an item is selected, the snippet is the model's record for it, and the controller's own callback table is set |
| SnippetController.SnippetController.SetView | src/controllers/snippet_controller.py:70-77 | an edit form is filled with the snippet; an add form is left empty |
| SnippetController.SnippetController.SubmitSnippet | src/controllers/snippet_controller.py:83-101 | events, database and success flag are those of the submission function on the old database |
| SnippetController.SnippetController.CallModel | src/controllers/snippet_controller.py:93-96 | add mode runs `add_snippet`, edit mode `update_snippet` on the selected item |
| SnippetController.SnippetController.PostSubmissionCleanup | src/controllers/snippet_controller.py:117-152 | the events appended are the cleanup's, and the success flag is unchanged |
| SnippetController.SnippetController.CreateSnippet | src/controllers/snippet_controller.py:154-171 | the answer is always False, since the controller's callback table has no `add-snippet-treeview`; the database changes as `add_snippet` changes it |
| SnippetController.SnippetController.UpdateSnippet | src/controllers/snippet_controller.py:173-189 | the answer is True exactly when the form has the three required keys, whatever the model answered |
| SnippetController.IntendedCleanupCloses | src/controllers/snippet_controller.py:117-146 | given the submitted form as `snippet_data`, a successful cleanup clears the form, shows the success, fires the add or update callback the main window registers and closes the form |
| ApplicationController.AddCategoriesLookup | src/controllers/application_controller.py:135-147 | after a category loop the node keys are the old ones plus `prefix + str(id)` for each record, and the added nodes are empty |
| ApplicationController.SkeletonLookup | src/controllers/application_controller.py:127-147 | each language gets one node holding its name and its general and specific categories |
| ApplicationController.SkeletonNode | src/controllers/application_controller.py:127-147 | before filing, node `k` of language `L` exists exactly when `L` is a language and `k` is `general-<id>` of a general category or `specific-<id>` of a category linked to `L`; every such node is empty |
| ApplicationController.FileNode | src/controllers/application_controller.py:159-160 | filing one snippet appends it to the node of its language and key when that node exists, and changes no other node |
| ApplicationController.FileShape | src/controllers/application_controller.py:159-160 | filing one snippet adds, removes and renames no language or category |
| ApplicationController.FileAllNode | src/controllers/application_controller.py:151-160 | filing a list appends to each existing node exactly the snippets that belong to it, in list order |
| ApplicationController.FileAllShape | src/controllers/application_controller.py:151-160 | filing a list never adds, removes, renames or reorders a language or a category |
| ApplicationController.TreeDataContents | src/controllers/application_controller.py:115-164 | the built tree has the skeleton's languages and categories, and node `k` of language `L` holds exactly the fetched snippets of `L` whose key, decided by the last language's specific categories, is `k` |
| ApplicationController.FiledNodeContents | src/controllers/application_controller.py:151-160 | filing into empty nodes keeps the shape and leaves each node with exactly the snippets of its language and key |
| ApplicationController.TreeDataFails | src/controllers/application_controller.py:150-155 | `prepare_treeview_data` raises exactly when there is a snippet to file but no language has ever been loaded |
| ApplicationController.SpecificIdNotGeneral | src/models/application_model.py:117-135 | a specific category's id is never rendered like a general category's id |
| ApplicationController.LinkedHasNoGeneralNode | src/controllers/application_controller.py:135-138 | no language has a `general-<id>` node for a category linked to some language |
| ApplicationController.WrittenDropsSnippet | src/controllers/application_controller.py:142-160 | as written, a snippet whose category is linked to its own language but not to the language loaded last appears in no node |
| ApplicationController.IntendedFilesEverySnippet | src/controllers/application_controller.py:150-160 | keyed by its own language's categories, every snippet of a loaded language whose category is general or linked to that language is filed under that language |
| ApplicationController.IntendedNodesHoldTheirOwn | src/controllers/application_controller.py:150-160 | in the corrected tree a node holds exactly the snippets of its language keyed to it |
| ApplicationController.EditTarget | src/controllers/application_controller.py:175-193 | nothing selected and a non-snippet selection are reported as such; otherwise the id is the selection with the prefix removed |
| ApplicationController.EditTargetRoundTrip | src/controllers/application_controller.py:188-193 | a node named `snippet-<id>` leads the editor back to `<id>` |
| ApplicationController.ApplicationController.constructor | src/controllers/application_controller.py:64-95 | the controller starts with no specific categories loaded and no item selected |
| ApplicationController.ApplicationController.PrepareTreeviewData | src/controllers/application_controller.py:115-164 | the data is the tree function of the database, and the attribute is left holding the last language's specific categories |
| ApplicationController.ApplicationController.LoadLanguages | src/controllers/application_controller.py:127-147 | the language loop builds the skeleton and leaves the attribute holding the last language's specific categories |
| ApplicationController.ApplicationController.OnTreeSelect | src/controllers/application_controller.py:245-259 | a top-level node is a language, a node under one a category, anything deeper a snippet whose code is shown from the joined row with its first value as id; a missing value or snippet is the failure it raises |
| ApplicationController.ApplicationController.EditSnippet | src/controllers/application_controller.py:175-202 | the request is the edit target of the selection, and the first selected item is remembered when there is one |
| ApplicationController.AddGeneral | src/controllers/application_controller.py:135-139 | the first inner loop adds a `general-<id>` node per general category |
| ApplicationController.AddSpecific | src/controllers/application_controller.py:142-147 | the second inner loop adds a `specific-<id>` node per specific category |
| ApplicationController.FileSnippets | src/controllers/application_controller.py:151-160 | the snippet loop files each snippet by the written key |
| ConfigurationManager.Get | src/utils/configuration_manager.py:75-86 | a dict answers the stored value for a present key and the default otherwise; any other document raises |
| ConfigurationManager.Set | src/utils/configuration_manager.py:96 | a dict keeps its keys when the key is present and gains the key at the end otherwise; any other document raises |
| ConfigurationManager.GetAfterSet | src/utils/configuration_manager.py:75-97 | after `set_configuration(key, value)`, `get_configuration` answers `value` for that key and the old answer for every other key |
| ConfigurationManager.FalsyValueIsReturned | src/utils/configuration_manager.py:86 | a stored value is returned as it is, however falsy, and never replaced by the default |
| ConfigurationManager.DottedKeyIsLiteral | src/utils/configuration_manager.py:86 | a dotted key is not a path: `a.b` does not reach `b` inside `a` |
| ConfigurationManager.ConfigurationManager.constructor | src/utils/configuration_manager.py:41-51 | the user file is `user_<name>.json`, the default file `default_<name>.json`, and the document is loaded by the fallback rule |
| ConfigurationManager.ConfigurationManager.LoadConfigurations | src/utils/configuration_manager.py:53-73 | the user file when it parses, else the default file when it parses, else an empty dict |
| ConfigurationManager.ConfigurationManager.SetConfiguration | src/utils/configuration_manager.py:88-97 | the document gains the value and the whole document is saved to the user file when its folder is writable; a non-dict document raises before either |
| ConfigurationManager.ConfigurationManager.SaveConfigurations | src/utils/configuration_manager.py:99-107 | the user file holds the document exactly when its folder is writable; otherwise no file changes |
| ConfigurationModel.ConfigPath | src/models/configuration_management_model.py:40-50 | a user path lies in the user's config folder and starts `user_`, a default path lies in the default folder and starts `default_`; both end `<name>_config.json` |
| ConfigurationModel.ConfigPathInjective | src/models/configuration_management_model.py:46-50 | different names never share a file, and a user file is never a default file |
| ConfigurationModel.Read | src/models/configuration_management_model.py:52-67 | the user file when it exists, else the default file when it exists, else an empty dict; an existing file that is not JSON raises |
| ConfigurationModel.WriteThenRead | src/models/configuration_management_model.py:52-76 | what `write_config` stored is what `read_config` returns next |
| ConfigurationModel.MissingKeyErrors | src/models/configuration_management_model.py:110-112 | the messages are at most one per key, and a document that is not a container raises at the first key |
| ConfigurationModel.MissingKeyErrorsOfDict | src/models/configuration_management_model.py:110-112 | for a dict, the message of a required key is reported exactly when the key is absent |
| ConfigurationModel.MessageInjective | src/models/configuration_management_model.py:112 | the message for a key names that key and no other |
| ConfigurationModel.ConfigErrorsOfDict | src/models/configuration_management_model.py:104-121 | for a dict: one message per absent required key and one for a present but unknown level, so at most four, and none exactly when every key is there with an allowed level |
| ConfigurationModel.MissingAreMessages | src/models/configuration_management_model.py:110-112 | every message reported is the message of a key that is not in the document |
| ConfigurationModel.ConfigurationModel.constructor | src/models/configuration_management_model.py:37-38 | the model keeps the default configuration folder |
| ConfigurationModel.ConfigurationModel.ReadConfig | src/models/configuration_management_model.py:52-67 | the result is the fallback read of the user and default paths |
| ConfigurationModel.ConfigurationModel.WriteConfig | src/models/configuration_management_model.py:69-79 | the user file is written exactly when its folder passes the write-permission probe; otherwise no file changes |
| ConfigurationModel.ValidateConfig | src/models/configuration_management_model.py:104-121 | the errors are the validation messages, and the document is valid exactly when there are none; a document that is not a container raises |
| Files.NamesIn | src/models/theme_management_model.py:41 | the listing holds exactly the names of the files in the folder |
| Files.Disk.Dump | src/models/theme_management_model.py:53-54 | the file holds the document exactly when its folder is writable; otherwise no file changes |
| Files.Disk.Copy | src/models/theme_management_model.py:103 | the target holds the source's content exactly when the source exists and the target folder is writable; otherwise no file changes |
| Files.DumpThenLoad | src/models/theme_management_model.py:46-54 | a document written to a path is what loading that path gives back, and every other path loads as before |
| ThemeModel.Stem | src/models/theme_management_model.py:43 | the stem is the name itself or the name without its `.json` |
| ThemeModel.ThemeNamesMembers | src/models/theme_management_model.py:38-44 | a name is listed exactly when some `.json` file other than `template_theme.json` has it as its stem |
| ThemeModel.BackupIsListed | src/models/theme_management_model.py:42-43 | a backup file passes the theme-file filter and is listed as `<name>_backup` |
| ThemeModel.BackupListedAsTheme | src/models/theme_management_model.py:38-44 | once a backup is written into the themes folder, `get_themes` reports it as a theme of its own |
| ThemeModel.BackupRestoreRoundTrip | src/models/theme_management_model.py:98-111 | backing a theme up and restoring it straight away leaves the theme's file as it was |
| ThemeModel.FirstMissing | src/models/theme_management_model.py:63-70 | the checks pass exactly when every key is in the container; a container that is not one raises TypeError at the first key |
| ThemeModel.CheckColors | src/models/theme_management_model.py:75-77 | the check passes exactly when every color is a string or a dict |
| ThemeModel.CheckFonts | src/models/theme_management_model.py:82-84 | the check passes exactly when every font is a list of strings and integers |
| ThemeModel.CheckStyles | src/models/theme_management_model.py:89-91 | the check passes exactly when every style has a `configure` or a `map` key |
| ThemeModel.SectionChecks | src/models/theme_management_model.py:67-91 | the section checks pass exactly for well-formed sections |
| ThemeModel.ColorsPass | src/models/theme_management_model.py:73-77 | the color loop passes exactly when every entry is a color |
| ThemeModel.FontsPass | src/models/theme_management_model.py:80-84 | the font loop passes exactly when every entry is a font |
| ThemeModel.StylesPass | src/models/theme_management_model.py:87-91 | the style loop passes exactly when every entry is styled |
| ThemeModel.ValidateIffWellFormed | src/models/theme_management_model.py:56-96 | `ValidateThemeData`, the function that follows `validate_theme_data` check by check, returns normally exactly for themes satisfying the independent `WellFormedTheme` predicate (this lemma is the contract of that function) |
| ThemeModel.FirstMissingReportsFirst | src/models/theme_management_model.py:63-70 | the first absent key is the one reported |
| ThemeModel.FirstMissingKeyReported | src/models/theme_management_model.py:63-65 | the first required top-level key that is absent is named in the ValueError |
| ThemeModel.EmptySectionsPass | src/models/theme_management_model.py:60 | the color-and-font key list is never enforced: empty color, font and style sections pass |
| ThemeModel.ThemeModel.constructor | src/models/theme_management_model.py:35-36 | the model keeps the themes folder |
| ThemeModel.ThemeModel.GetThemes | src/models/theme_management_model.py:38-44 | the names of the theme files in the folder, or a failure when the folder cannot be listed |
| ThemeModel.ThemeModel.GetThemeData | src/models/theme_management_model.py:46-49 | the parsed file `<name>.json`, or a failure when it is missing or not JSON |
| ThemeModel.ThemeModel.SaveThemeData | src/models/theme_management_model.py:51-54 | `<name>.json` holds the data exactly when the folder is writable; otherwise no file changes |
| ThemeModel.ThemeModel.BackupThemeData | src/models/theme_management_model.py:98-104 | `<name>_backup.json` receives the theme's content exactly when the theme file exists and the folder is writable |
| ThemeModel.ThemeModel.RestoreThemeDataFromBackup | src/models/theme_management_model.py:106-111 | the theme file receives the backup's content exactly when the backup exists and the folder is writable |
| ThemeController.ThemeController.constructor | src/controllers/theme_management_controller.py:33-42 | the controller starts with no view attached, no theme selected and nothing shown |
| ThemeController.ThemeController.SetView | src/controllers/theme_management_controller.py:54-56 | `set_view` attaches the editor window and changes nothing else |
| ThemeController.ThemeController.ApplyTheme | src/controllers/theme_management_controller.py:44-52 | the application's `apply_theme` callback is called when registered; otherwise the KeyError is shown as a failure |
| ThemeController.ThemeController.LoadThemes | src/controllers/theme_management_controller.py:62-70 | the model's theme names go to the view unchanged; a folder that cannot be listed is only printed |
| ThemeController.ThemeController.ThemeSelected | src/controllers/theme_management_controller.py:78-85 | the name is recorded first; a theme that cannot be read ends in the failure message; a read theme is handed to the editor, which shows its pages when it can, and the failure message follows when the display raises |
| ThemeController.SelectionEvents | src/controllers/theme_management_controller.py:78-85 | the failure message is shown exactly when the theme cannot be read or cannot be displayed, and the data reaches the editor exactly when it was read |
| ThemeController.SavedThemeReopensWithError | src/controllers/theme_management_controller.py:78-96 | a non-empty theme the editor saved is read back as written, and selecting it again ends in the failure message: the editor cannot reopen what it saved |
| ThemeController.ThemeController.SaveTheme | src/controllers/theme_management_controller.py:87-96 | with no theme selected nothing is written and "No theme selected." is shown; otherwise the data is saved under the selected name and success is reported unless the write is refused |
| ThemeView.Classify | src/views/theme_management_view.py:206-213 | a setting is a colour exactly when its lower-cased key mentions "color" or its text is a hex colour, otherwise a font exactly when the key mentions "font" |
| ThemeView.FontColorIsColor | src/views/theme_management_view.py:206-210 | a key mentioning both colour and font is a colour |
| ThemeView.HexValueIsColor | src/views/theme_management_view.py:206 | a 3- or 6-digit hex value makes any setting a colour, with at most one trailing newline |
| ThemeView.PutAllHasKey | src/views/theme_management_view.py:216 | after storing a run of settings, a key has an entry exactly when it had one or one of the settings has it |
| ThemeView.LastSettingWins | src/views/theme_management_view.py:216 | entries are stored by bare key, so the last setting with a key decides its entry |
| ThemeView.CategoryIsLeaves | src/views/theme_management_view.py:183-195 | a dict page gets one entry per non-dict value under it, in depth-first order |
| ThemeView.CategoryMembersAreLeaves | src/views/theme_management_view.py:186-195 | the loop over a page's members stores exactly the leaves under those members |
| ThemeView.Rendered | src/views/theme_management_view.py:218-222 | each member's key is paired with the text of its value, in order |
| ThemeView.Capitalize | src/views/theme_management_view.py:122 | a tab title has the length of its category name |
| ThemeView.SavedTheme | src/views/theme_management_view.py:296-300 | the saved dict has the entries' keys in order, each with its entry's text as a str |
| ThemeView.SavedThemeNotDisplayed | src/views/theme_management_view.py:104-130 | a non-empty saved theme cannot be displayed again, because its first category holds a str and every renderer iterates its value's items |
| ThemeView.SavedThemeNeverValid | src/views/theme_management_view.py:296-300 | what the view saves never passes the theme validation, because it is flat |
| ThemeView.ThemeView.constructor | src/views/theme_management_view.py:40-56 | the view starts with no entries and no tabs |
| ThemeView.ThemeView.DisplayThemeData | src/views/theme_management_view.py:97-130 | tabs and entries are cleared, then each category adds its capitalized tab and its page's entries; a theme that is not a dict, or a page that cannot be iterated, fails |
| ThemeView.ThemeView.SaveTheme | src/views/theme_management_view.py:296-300 | the data handed over is the saved dict of the entries |
| Treeview.FindItem | src/views/application_view.py:477 | an item is found exactly when its id is in use, and the item found carries that id |
| Treeview.AutoIidInjective | src/views/application_view.py:480 | different serial numbers give different generated ids |
| Treeview.NameTaken | src/views/application_view.py:480 | each generated name Tk skips because it is taken is a distinct name in use, so the search for a free name ends |
| Treeview.ChildrenOfAppend | src/views/application_view.py:480 | appending an item adds it at the end of its parent's children and changes no other list of children |
| Treeview.WellFormedAppend | src/views/application_view.py:480 | an item with a fresh, non-empty id under the top level or an existing item keeps the tree well formed |
| Treeview.Lineage | src/views/configuration_management_view.py:377-396 | the texts from the topmost ancestor down to the item end with the item's own text |
| Treeview.LineageStep | src/views/configuration_management_view.py:390-395 | one step up the lineage is the parent's lineage followed by the item's text, and the parent comes earlier |
| Treeview.ItemDisplayed | src/views/application_view.py:407 | every item of a well-formed tree appears in the display order |
| Treeview.SelectionIsSelected | src/views/application_view.py:388-407 | `selection()` holds exactly the selected items |
| Treeview.Tree.Insert | src/views/application_view.py:480 | an insert without an id appends one item under a fresh, generated id and leaves the selection alone |
| Treeview.Tree.InsertWithId | src/views/configuration_management_view.py:307 | an insert with an id appends the item exactly when the id is non-empty and unused; otherwise nothing changes |
| Treeview.Tree.DeleteAll | src/views/configuration_management_view.py:549-550 | deleting every top-level item leaves an empty tree and an empty selection |
| Treeview.Tree.SelectionSet | src/views/application_view.py:397 | the selection becomes exactly the item |
| Treeview.Tree.SelectionAdd | src/views/application_view.py:394 | the item joins the selection |
| Treeview.Tree.SelectionRemove | src/views/application_view.py:392 | the item leaves the selection |
| ConfigurationView.CategoryEntries | src/views/configuration_management_view.py:299-315 | a category contributes its own record and one record per key |
| ConfigurationView.LayoutRecords | src/views/configuration_management_view.py:280-315 | every record of the set-up data is a category, or a key of one whose id and text are the key, filed under that category's id |
| ConfigurationView.LayoutHasKeys | src/views/configuration_management_view.py:306-315 | every key of every category has its record in the set-up data |
| ConfigurationView.GroupLookup | src/views/configuration_management_view.py:558-566 | the group of a parent holds exactly its matching item records, in order; a parent without matches has no group |
| ConfigurationView.GroupKeys | src/views/configuration_management_view.py:558-566 | the groups come in the order of each parent's first match |
| ConfigurationView.GroupMembers | src/views/configuration_management_view.py:560-566 | every record in a group is an item record that matches the query and belongs to that group's parent, and no group is empty |
| ConfigurationView.FirstText | src/views/configuration_management_view.py:571-572 | a text is found exactly when some record has the id |
| ConfigurationView.FilterListsOnlyMatches | src/views/configuration_management_view.py:557-577 | the filter lists only items whose text contains the query, ignoring case |
| ConfigurationView.FilterListsEveryMatch | src/views/configuration_management_view.py:557-577 | the filter lists every matching item whose parent record has a non-empty text |
| ConfigurationView.ShownSnoc | src/views/configuration_management_view.py:569-577 | one more group adds its block (copy, then records) at the end of the filtered tree |
| ConfigurationView.ShownChildIds | src/views/configuration_management_view.py:569-578 | in the filtered tree, the ids below the top level are exactly the matched ids, in order |
| ConfigurationView.ShownItemsKinds | src/views/configuration_management_view.py:569-577 | every item of the filtered tree is a top-level copy carrying a titled group parent's text, or a record of a group with its own id and text below the top level |
| ConfigurationView.FilterShowsOnlyMatches | src/views/configuration_management_view.py:541-577 | a search displays nothing but copies of parents with a matching record, each with its parent's text, and the matching records themselves with their own ids and texts |
| ConfigurationView.SearchOverSetupData | src/views/configuration_management_view.py:280-315 | searching the records `setup_treeview` builds lists every key containing the query, under its own category |
| ConfigurationView.FirstSearchFindsNothing | src/views/configuration_management_view.py:146-163 | on a window that opened, the first non-blank search succeeds and shows no item, because the records were cleared after the tree was built |
| ConfigurationView.ConfigData | src/views/configuration_management_view.py:317-325 | the value comes from the first of preferences, application and logging holding the key, and is absent exactly when none does |
| ConfigurationView.IsValidInteger | src/views/configuration_management_view.py:481-486 | a text is accepted exactly when it has no character other than an ASCII digit |
| ConfigurationView.LastSegment | src/views/configuration_management_view.py:436 | the last segment of a path holds no `/` |
| ConfigurationView.DetailsExtendPath | src/views/configuration_management_view.py:398-436 | below a non-empty path every widget's path is that path or extends it by `/` and more |
| ConfigurationView.TopLevelPaths | src/views/configuration_management_view.py:409-427 | at the top level a key's path is the key itself, while a list's first element gets `/0` |
| ConfigurationView.GroupMatches | src/views/configuration_management_view.py:558-566 | the grouping loop computes the groups of the records by parent |
| ConfigurationView.BreadcrumbStep | src/views/configuration_management_view.py:390-395 | one turn of the breadcrumb loop prepends the item's text and moves to its parent, keeping the lineage |
| ConfigurationView.ConfigurationView.constructor | src/views/configuration_management_view.py:146-170 | the window builds the tree; when that raises the constructor stops before the breadcrumb is set; otherwise no key belongs to two configurations, "Application" is shown in the breadcrumb and the records the search works on are cleared |
| ConfigurationView.KeysApartStep | src/views/configuration_management_view.py:295-315 | keys absent from the tree when their category is added share no key with the earlier categories |
| ConfigurationView.ConfigurationView.SetupTreeview | src/views/configuration_management_view.py:280-315 | the records are rebuilt as the layout of the three categories, whose items become the new top-level items; a rebuild that completes had no key in two categories, since Tk refuses an item id in use |
| ConfigurationView.ConfigurationView.SetupCategory | src/views/configuration_management_view.py:295-315 | one category adds a top-level item and its records, and one child per key; when it completes, each key was absent from the tree before and is present after |
| ConfigurationView.ConfigurationView.FilterTreeview | src/views/configuration_management_view.py:540-583 | the tree is emptied; a blank query rebuilds it in full; any other query leaves exactly the filtered tree `Shown` of the groups (a copy of each titled parent and its matching records under it, nothing else), the ids below the top level are exactly the matched ids, and the first is selected; with no records, a non-blank query leaves the tree empty |
| ConfigurationView.ConfigurationView.ShowMatches | src/views/configuration_management_view.py:557-583 | the non-blank branch appends exactly the filtered tree of the groups of the records, reports the matched ids, selects the first and leaves the records alone |
| ConfigurationView.ConfigurationView.ShowGroups | src/views/configuration_management_view.py:569-577 | the re-population loop appends, group by group, exactly each titled parent's copy followed by its records, and reports the ids of every group whose parent has a non-empty text |
| ConfigurationView.ConfigurationView.ShowGroup | src/views/configuration_management_view.py:570-577 | a group whose parent has a non-empty text appends a fresh top-level copy carrying that text, then its records under the copy; any other group leaves the tree unchanged |
| ConfigurationView.ConfigurationView.InsertGroup | src/views/configuration_management_view.py:576-578 | the items of a group are appended in order under the parent's copy, each with its own id and text |
| ConfigurationView.ConfigurationView.ConstructBreadcrumbPath | src/views/configuration_management_view.py:377-396 | the root is the topmost ancestor's text and the path the texts below it down to the item |
| ConfigurationView.ConfigurationView.OnTreeSelection | src/views/configuration_management_view.py:327-357 | a top-level item shows its own text and no details; any other item shows its breadcrumb and the details of its value; an empty selection raises |
| ApplicationView.RestoreAfterMaximize | src/views/application_view.py:299-314 | maximizing sets the full-screen geometry, and restoring straight after gives back the geometry the window had |
| ApplicationView.ClickCases | src/views/application_view.py:377-399 | a click on no row forgets the last click and keeps the selection; a repeated click toggles that item alone; a click on another item selects exactly it |
| ApplicationView.DoubleClick | src/views/application_view.py:382-399 | clicking an item twice restores the selection when it was already the last click, and otherwise ends with nothing selected |
| ApplicationView.FirstTitled | src/views/application_view.py:476-478 | the position found is the first child titled `title`, and none is found exactly when no child has that title |
| ApplicationView.FirstTitledAt | src/views/application_view.py:476-478 | a titled child with no titled child before it is the one found |
| ApplicationView.FirstTitledNone | src/views/application_view.py:476-478 | with no titled child, none is found |
| ApplicationView.ApplicationView.constructor | src/views/application_view.py:74-90 | nothing is clicked or selected yet, the code text is empty, and the window has its initial size and is not maximized |
| ApplicationView.ApplicationView.MaximizeRestore | src/views/application_view.py:299-314 | the window state is toggled, and nothing else changes |
| ApplicationView.ApplicationView.DisplaySnippetCode | src/views/application_view.py:217-222 | the code text shows exactly the code, and nothing else changes |
| ApplicationView.ApplicationView.OnTreeClick | src/views/application_view.py:377-399 | a click on no row forgets the last click; a repeated click toggles the item in the selection; another item becomes the whole selection; the items are unchanged |
| ApplicationView.ApplicationView.OnSelectionChange | src/views/application_view.py:401-421 | the first selected item in display order goes to the controller when it differs from the last one sent; an empty selection clears the code text and forgets the last one |
| ApplicationView.ApplicationView.FindOrCreateNode | src/views/application_view.py:473-480 | the result is the first child of the parent titled `title`, leaving the tree as it was, or else a new last child with that title under a fresh id |
| CustomLogger.DictHandlerRewrite | src/utils/custom_logger.py:81-88 | a dict handler keeps its keys in order and changes only `filename`, when it has one, to the logs folder plus its log file |
| CustomLogger.ErrorLogSeparate | src/utils/custom_logger.py:84-88 | an ERROR handler and any other handler log to different files, unless the logger itself is called "error" |
| CustomLogger.OtherHandler | src/utils/custom_logger.py:81-82 | a handler that is not a dict passes unchanged exactly when the `in` test finds no `filename` in it, and otherwise raises |
| CustomLogger.ConfigPath | src/utils/custom_logger.py:65-73 | the user's file when it exists, else the default file |
| CustomLogger.RewriteHandlers | src/utils/custom_logger.py:81-88 | the loop succeeds exactly when every handler can be rewritten, and then gives each handler rewritten |
| CustomLogger.RewriteAll | src/utils/custom_logger.py:81-88 | handlers that can all be rewritten give each handler rewritten, in order |
| CustomLogger.RewrittenUnique | src/utils/custom_logger.py:81-88 | the rewritten handlers are determined by the handlers they came from |
| CustomLogger.LoadedConfigMeaning | src/utils/custom_logger.py:62-91 | the configuration fails exactly when the chosen file is missing or not JSON, has no dict of handlers, or has a handler that cannot be rewritten; otherwise it is that file with every handler rewritten and every other key kept |
| CustomLogger.HandlersReplaced | src/utils/custom_logger.py:81 | putting the rewritten handlers back keeps every other key |
| CustomLogger.CustomLogger.constructor | src/utils/custom_logger.py:53 | a new instance has its name and is not yet initialised |
| CustomLogger.CustomLogger.LoadLoggingConfig | src/utils/custom_logger.py:62-91 | the result is the loaded configuration of the logger's name |
| CustomLogger.CustomLogger.InitLogger | src/utils/custom_logger.py:57-60 | the configuration is applied and then the level set, or, when it cannot be loaded, neither happens |
| CustomLogger.Registry.constructor | src/utils/custom_logger.py:39 | the registry starts empty |
| CustomLogger.Registry.Get | src/utils/custom_logger.py:41-55 | a registered name gives back its instance untouched; a new name is registered before it is initialised, so it stays registered, uninitialised, when the initialisation raises |

## Left out

- Tk widgets: window set-up, the title bar, dragging, minimising, images, menus, styles and fonts. Of the main window only the treeview selection, node lookup and maximise/restore state are modelled; window geometry strings are kept abstract, as the values the window reports back.
- The Windows taskbar calls: these are foreign calls through ctypes.
- The ids Tk generates for items inserted without one are modelled as a serial counter. Tk's own hexadecimal spelling of those ids is not.
- Tk runs its class binding for `<Button-1>` after `on_tree_click`. That ordering is not modelled; the model applies the click handler's own selection changes only.
- Threads: `submit_snippet_async` and `invoke_in_main_thread` are modelled as a synchronous `submit_snippet`. Callbacks scheduled with `after(0, ...)` run in the order they are scheduled.
- A view that is None is not modelled. In that case the code raises AttributeError on the first view call; ThemeController.ThemeController.ThemeSelected therefore requires a view attached by `set_view`.
- Exception and log message texts are kept abstract. The model records which error path was taken, not the wording of the message.
- ConfigurationView: the three configurations the preferences window is opened with are taken to be JSON objects (key/value lists). A configuration of another kind is not modelled there; the stores, the validators and the theme controller do model documents of every kind.
- Strings are ASCII only: `lower()` and `str.isdigit` are modelled on ASCII, without Unicode case folding or Unicode digits.
- File and directory paths that come from platform path resolution (`src/utils/path_utils.py`) are parameters. So is the directory a `ConfigurationManager` is given. Creating the logs directory in `get_file_path` is not modelled.
- `backup_config` and `restore_backup` of the configuration model call `.with_suffix` on a str path, which raises before any file is touched. They are not modelled.
- `logging.config.dictConfig`: its effect on Python's logging module (including `disable_existing_loggers`) is not modelled. The configuration dict handed to it is recorded instead.
- ThemeView.DisplayThemeData: the state after a renderer raises part-way is not modelled. The method covers the dispatch of a well-formed theme.
- `on_theme_selected` of the theme editor only forwards a listbox selection to the controller. It is not modelled.
- ConfigurationView.ConfigurationView.SetupTreeview: a failure while building the tree is stated only as a failed outcome. The partial tree left behind is not described.
- ConfigurationView.ConfigurationView.FilterTreeview: the breadcrumb and details that a search refreshes through `on_tree_selection` are updated by the model but not stated in the ensures of FilterTreeview and ShowMatches. Exceptions out of `on_tree_selection` are not propagated. The detail widgets built by `populate_details_ui` are not modelled beyond the paths they are keyed by.
- ConfigurationView.ConfigurationView.constructor: when building the tree raises, the constructor records that the window never opened; the partial tree and records left behind are not described.
- Sql.IntegerAffinity: only text of the form `-?digits` is converted. SQLite also converts text with a leading `+`, surrounding spaces or a real value that is integral, such as "5.0" or "1e3", and stores integer text beyond 64 bits as REAL; those cases are not modelled. Rowids are unbounded integers.
- Python and OS details kept abstract: `str()` and `repr()` of a JSON value always use single quotes without escaping, and a float prints as its source text; a folder lists only its files, in creation order, where `os.listdir` also lists sub-folders, in an arbitrary order; for a JSON object with a repeated key, lookups take the first occurrence where `json.load` keeps the last; a writable folder need not be one that exists.
- ApplicationView: the effect of the `on_tree_select` callback is recorded as a call, not modelled. `refresh_treeview` and the main window's other widget methods are not modelled.
- `src/controllers/application_view_bup.py` is a stale copy of the main window and is not part of this model.
- The startup sequence, the update checker, the syntax highlighter, the shipped-theme loader and the thin configuration controller are not part of this model.
- SQLite itself is not modelled: SQL parsing and the query planner are replaced by one operation per statement. Foreign keys are not enforced, as SQLite does not enforce them by default. Rows are scanned in rowid order.

## Findings

| source | as written | input that shows it | evidently intended | confidence | as-written member | corrected member |
|---|---|---|---|---|---|---|
| src/models/snippet_model.py:51-75 | INSERT and UPDATE name a column `language`, which the snippets table does not have | any `add_snippet` or `update_snippet` call on a database made by the initialiser | the column `language_id` | not executed | SnippetModel.AddSnippetNeverInserts | SnippetModel.IntendedAddInserts |
| src/models/snippet_model.py:145 | `get_all_snippets` orders by `s.title`, but no table has the alias `s` | any call on a database with the three tables | `ORDER BY snippets.title` | not executed | SnippetModel.AllNamedSnippetsAlwaysEmpty | SnippetModel.IntendedAllSnippetsListed |
| src/models/snippet_model.py:169 | `get_snippets_by_category` selects a column `language` the snippets table lacks | any category id | select `language_id` | not executed | SnippetModel.SnippetsByCategoryAlwaysEmpty | SnippetModel.IntendedCategoryListed |
| src/controllers/application_controller.py:142-156 | a snippet's general/specific prefix is decided by the categories of the language loaded last | two languages, each linked to its own category, and a snippet of the first language in its category: it is filed nowhere | decide by the categories of the snippet's own language | not executed | ApplicationController.WrittenDropsSnippet | ApplicationController.IntendedFilesEverySnippet |
| src/views/configuration_management_view.py:157-163 | `original_treeview_data` is cleared after `create_widgets` has filled it | a first non-blank search in a freshly opened preferences window | keep the records `setup_treeview` built | not executed | ConfigurationView.FirstSearchFindsNothing | ConfigurationView.SearchOverSetupData |
| src/controllers/snippet_controller.py:98, 117-146 | the cleanup is scheduled without the submitted data, so a success looks up the `refresh_display` callback, which the main window does not register | any successful submission | pass the submitted data to the cleanup | not executed | SnippetController.SubmitCleanupRaises | SnippetController.IntendedCleanupCloses |
