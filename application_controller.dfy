/** src/controllers/application_controller.py: the main window's controller.
    `prepare_treeview_data` builds the language / category / snippet tree the
    main window displays; `on_tree_select` classifies a selected node by its
    depth; `edit_snippet` recovers a snippet id from a treeview item id. */
module ApplicationController {
  import opened Common
  import opened Schema
  import opened Sql
  import opened Connection
  import opened ApplicationModel
  import opened Treeview

  /** `str(v)` / an f-string of a fetched value. */
  function Render(v: SqlValue): string {
    match v
    case Null => "None"
    case Int(i) => IntToString(i)
    case Text(s) => s
  }

  function GeneralKey(id: SqlValue): string { "general-" + Render(id) }

  function SpecificKey(id: SqlValue): string { "specific-" + Render(id) }

  /** `{'name': ..., 'snippets': [...]}` */
  datatype CategoryNode = CategoryNode(name: SqlValue, snippets: seq<SnippetRecord>)

  /** `{'name': ..., 'categories': {key: CategoryNode}}` */
  datatype LanguageNode = LanguageNode(name: SqlValue, categories: seq<(string, CategoryNode)>)

  /** `structured_data`: language id to language node, in insertion order. */
  type Structured = seq<(SqlValue, LanguageNode)>

  // -------------------------------------------------------- the tree skeleton

  /** Adds one empty category node per record, keyed `prefix + str(id)`. */
  function AddCategories(d: seq<(string, CategoryNode)>, prefix: string, cats: seq<CategoryRecord>)
    : seq<(string, CategoryNode)>
  {
    if |cats| == 0 then d
    else
      var c := cats[|cats| - 1];
      Put(AddCategories(d, prefix, cats[..|cats| - 1]), prefix + Render(c.id), CategoryNode(c.name, []))
  }

  /** The category nodes of one language: every general category, then the
      categories specific to the language. */
  function Categories(db: Option<ConnState>, lang: SqlValue, general: seq<CategoryRecord>)
    : seq<(string, CategoryNode)>
  {
    AddCategories(AddCategories([], "general-", general), "specific-", SpecificCategories(db, lang))
  }

  /** The tree before any snippet is filed: one node per language. */
  function Skeleton(db: Option<ConnState>, langs: seq<(SqlValue, SqlValue)>, general: seq<CategoryRecord>)
    : Structured
  {
    if |langs| == 0 then []
    else
      var (id, name) := langs[|langs| - 1];
      Put(Skeleton(db, langs[..|langs| - 1], general), id, LanguageNode(name, Categories(db, id, general)))
  }

  /** `self.language_specific_categories` once the language loop is over:
      the list fetched for the last language, or what it held before. */
  function LastSpecific(db: Option<ConnState>, langs: seq<(SqlValue, SqlValue)>,
                        prior: Option<seq<CategoryRecord>>): Option<seq<CategoryRecord>>
  {
    if |langs| == 0 then prior else Some(SpecificCategories(db, langs[|langs| - 1].0))
  }

  // ------------------------------------------------------- filing the snippets

  function Ids(cats: seq<CategoryRecord>): (r: seq<SqlValue>)
    ensures forall v :: v in r <==> exists c :: c in cats && c.id == v
  {
    if |cats| == 0 then []
    else
      var r := [cats[0].id] + Ids(cats[1..]);
      assert forall c :: c in cats <==> c == cats[0] || c in cats[1..];
      r
  }

  /** The category key a snippet is filed under, given the list of
      language-specific categories the prefix is decided by. */
  function KeyFor(s: SnippetRecord, specific: seq<CategoryRecord>): string {
    (if s.categoryId in Ids(specific) then "specific-" else "general-") + Render(s.categoryId)
  }

  /** As written: every snippet is keyed by one list, the last language's. */
  function WrittenKey(specific: seq<CategoryRecord>): SnippetRecord -> string {
    (s: SnippetRecord) => KeyFor(s, specific)
  }

  /** Appends `s` to the node `key` of its language, when both exist. */
  function File(d: Structured, s: SnippetRecord, key: string): Structured {
    match Lookup(d, s.languageId)
    case None => d
    case Some(ln) =>
      match Lookup(ln.categories, key)
      case None => d
      case Some(cn) =>
        Put(d, s.languageId, ln.(categories := Put(ln.categories, key, cn.(snippets := cn.snippets + [s]))))
  }

  function FileAll(d: Structured, ss: seq<SnippetRecord>, keyOf: SnippetRecord -> string): Structured {
    if |ss| == 0 then d
    else File(FileAll(d, ss[..|ss| - 1], keyOf), ss[|ss| - 1], keyOf(ss[|ss| - 1]))
  }

  /** What `prepare_treeview_data` hands to the view; None when it raises an
      AttributeError because no language ever set the attribute the snippet
      loop reads. */
  function TreeData(db: Option<ConnState>, prior: Option<seq<CategoryRecord>>): Option<Structured> {
    var langs := LanguageMap(db);
    var skeleton := Skeleton(db, langs, GeneralCategories(db));
    var last := LastSpecific(db, langs, prior);
    var ss := AllSnippets(db);
    if |ss| > 0 && last.None? then None
    else Some(FileAll(skeleton, ss, WrittenKey(last.GetOr([]))))
  }

  /** The node `k` of language `L`. */
  function Node(d: Structured, L: SqlValue, k: string): Option<CategoryNode> {
    match Lookup(d, L)
    case None => None
    case Some(ln) => Lookup(ln.categories, k)
  }

  /** The snippets of `ss` that belong to node `k` of language `L`, in order. */
  function Matching(ss: seq<SnippetRecord>, L: SqlValue, k: string, keyOf: SnippetRecord -> string)
    : seq<SnippetRecord>
  {
    if |ss| == 0 then []
    else
      var s := ss[|ss| - 1];
      Matching(ss[..|ss| - 1], L, k, keyOf) + (if s.languageId == L && keyOf(s) == k then [s] else [])
  }

  /** The tree with every snippet list emptied: its languages and categories. */
  function MapValues<K, V>(d: seq<(K, V)>, f: V -> V): (r: seq<(K, V)>)
    ensures |r| == |d| && forall i :: 0 <= i < |d| ==> r[i] == (d[i].0, f(d[i].1))
  {
    seq(|d|, i requires 0 <= i < |d| => (d[i].0, f(d[i].1)))
  }

  function EmptyNode(cn: CategoryNode): CategoryNode { cn.(snippets := []) }

  function EmptyLanguage(ln: LanguageNode): LanguageNode {
    ln.(categories := MapValues(ln.categories, EmptyNode))
  }

  function Shape(d: Structured): Structured { MapValues(d, EmptyLanguage) }

  // ------------------------------------------------------------ the corrected tree

  /** Intended: a snippet's prefix is decided by its own language's list. */
  function IntendedKey(db: Option<ConnState>): SnippetRecord -> string {
    (s: SnippetRecord) => KeyFor(s, SpecificCategories(db, s.languageId))
  }

  function IntendedTreeData(db: Option<ConnState>): Structured {
    FileAll(Skeleton(db, LanguageMap(db), GeneralCategories(db)), AllSnippets(db), IntendedKey(db))
  }

  // ----------------------------------------------------------- dict lemmas

  lemma {:induction false} LookupSnoc<K, V>(d: seq<(K, V)>, x: (K, V), k: K)
    ensures Lookup(d + [x], k) ==
              if Lookup(d, k).Some? then Lookup(d, k) else if x.0 == k then Some(x.1) else None
  {
    if |d| > 0 {
      assert (d + [x])[1..] == d[1..] + [x];
      LookupSnoc(d[1..], x, k);
    }
  }

  /** `d[k] = v` on a present key replaces the value in place. */
  lemma {:induction false} PutAt<K, V>(d: seq<(K, V)>, k: K, v: V) returns (i: nat)
    requires Lookup(d, k).Some?
    ensures i < |d| && d[i].0 == k && Lookup(d, k) == Some(d[i].1) && Put(d, k, v) == d[i := (k, v)]
  {
    if d[0].0 == k {
      i := 0;
      assert Put(d, k, v) == [(k, v)] + d[1..];
    } else {
      var j := PutAt(d[1..], k, v);
      i := j + 1;
      assert Put(d, k, v) == [d[0]] + d[1..][j := (k, v)];
    }
  }

  /** Replacing the value of a present key keeps whatever `f` sees. */
  lemma PutMapValues<K, V>(d: seq<(K, V)>, k: K, v: V, f: V -> V)
    requires Lookup(d, k).Some? && f(v) == f(Lookup(d, k).value)
    ensures MapValues(Put(d, k, v), f) == MapValues(d, f)
  {
    var i := PutAt(d, k, v);
    var a, b := MapValues(Put(d, k, v), f), MapValues(d, f);
    assert forall j :: 0 <= j < |d| ==> a[j] == b[j];
  }

  lemma {:induction false} NameMapDistinct(ls: seq<Language>)
    ensures Distinct(KeysOf(NameMap(ls)))
  {
    if |ls| > 0 {
      var n := |ls| - 1;
      NameMapDistinct(ls[..n]);
      PutDistinct(NameMap(ls[..n]), Int(ls[n].id), Text(ls[n].name));
    }
  }

  // --------------------------------------------------------- skeleton lemmas

  /** The category keys of a node list after `AddCategories`: the old ones
      and `prefix + str(id)` for each record; the added nodes are empty. */
  lemma {:induction false} AddCategoriesLookup(d: seq<(string, CategoryNode)>, prefix: string,
                                                cats: seq<CategoryRecord>, k: string)
    ensures Lookup(AddCategories(d, prefix, cats), k).Some? <==>
              Lookup(d, k).Some? || exists c :: c in cats && k == prefix + Render(c.id)
    ensures (Lookup(d, k).Some? ==> Lookup(d, k).value.snippets == []) ==>
              (Lookup(AddCategories(d, prefix, cats), k).Some? ==>
                 Lookup(AddCategories(d, prefix, cats), k).value.snippets == [])
  {
    if |cats| > 0 {
      var n := |cats| - 1;
      AddCategoriesLookup(d, prefix, cats[..n], k);
      PutLookup(AddCategories(d, prefix, cats[..n]), prefix + Render(cats[n].id), CategoryNode(cats[n].name, []), k);
      assert cats == cats[..n] + [cats[n]];
      assert forall c :: c in cats <==> c in cats[..n] || c == cats[n];
    }
  }

  /** Each language of `langs` gets its node, with its name and categories. */
  lemma {:induction false} SkeletonLookup(db: Option<ConnState>, langs: seq<(SqlValue, SqlValue)>,
                                           general: seq<CategoryRecord>, L: SqlValue)
    requires Distinct(KeysOf(langs))
    ensures Lookup(Skeleton(db, langs, general), L) ==
              match Lookup(langs, L)
              case None => None
              case Some(name) => Some(LanguageNode(name, Categories(db, L, general)))
  {
    if |langs| > 0 {
      var n := |langs| - 1;
      var pre := langs[..n];
      assert forall i :: 0 <= i < n ==> KeysOf(pre)[i] == KeysOf(langs)[i];
      SkeletonLookup(db, pre, general, L);
      PutLookup(Skeleton(db, pre, general), langs[n].0, LanguageNode(langs[n].1, Categories(db, langs[n].0, general)), L);
      assert langs == pre + [langs[n]];
      LookupSnoc(pre, langs[n], L);
    }
  }

  /** Before filing, node `k` of language `L` exists exactly when `L` is a
      language and `k` is `general-<id>` of a general category or
      `specific-<id>` of a category linked to `L`; every such node is empty. */
  lemma SkeletonNode(db: Option<ConnState>, L: SqlValue, k: string)
    ensures Node(Skeleton(db, LanguageMap(db), GeneralCategories(db)), L, k).Some? <==>
              Lookup(LanguageMap(db), L).Some?
              && ((exists g :: g in GeneralCategories(db) && k == GeneralKey(g.id))
                  || (exists c :: c in SpecificCategories(db, L) && k == SpecificKey(c.id)))
    ensures Node(Skeleton(db, LanguageMap(db), GeneralCategories(db)), L, k).Some? ==>
              Node(Skeleton(db, LanguageMap(db), GeneralCategories(db)), L, k).value.snippets == []
  {
    var langs := LanguageMap(db);
    var general := GeneralCategories(db);
    if Fetch(db, SelectLanguages, []).Some? {
      NameMapDistinct(Langs(Visible(db)));
    }
    SkeletonLookup(db, langs, general, L);
    AddCategoriesLookup([], "general-", general, k);
    AddCategoriesLookup(AddCategories([], "general-", general), "specific-", SpecificCategories(db, L), k);
  }

  // ----------------------------------------------------------- filing lemmas

  lemma FileNode(d: Structured, s: SnippetRecord, key: string, L: SqlValue, k: string)
    ensures Node(File(d, s, key), L, k) ==
              if Node(d, L, k).Some? && s.languageId == L && key == k
              then Some(Node(d, L, k).value.(snippets := Node(d, L, k).value.snippets + [s]))
              else Node(d, L, k)
  {
    match Lookup(d, s.languageId)
    case None =>
    case Some(ln) =>
      match Lookup(ln.categories, key)
      case None =>
      case Some(cn) =>
        var ln' := ln.(categories := Put(ln.categories, key, cn.(snippets := cn.snippets + [s])));
        PutLookup(d, s.languageId, ln', L);
        PutLookup(ln.categories, key, cn.(snippets := cn.snippets + [s]), k);
  }

  lemma FileShape(d: Structured, s: SnippetRecord, key: string)
    ensures Shape(File(d, s, key)) == Shape(d)
  {
    match Lookup(d, s.languageId)
    case None =>
    case Some(ln) =>
      match Lookup(ln.categories, key)
      case None =>
      case Some(cn) =>
        var cn' := cn.(snippets := cn.snippets + [s]);
        PutMapValues(ln.categories, key, cn', EmptyNode);
        PutMapValues(d, s.languageId, ln.(categories := Put(ln.categories, key, cn')), EmptyLanguage);
  }

  /** Filing a list of snippets appends to each existing node exactly the
      snippets that belong to it, in list order. */
  lemma {:induction false} FileAllNode(d: Structured, ss: seq<SnippetRecord>, keyOf: SnippetRecord -> string,
                                        L: SqlValue, k: string)
    ensures Node(FileAll(d, ss, keyOf), L, k).Some? <==> Node(d, L, k).Some?
    ensures Node(d, L, k).Some? ==>
              Node(FileAll(d, ss, keyOf), L, k).value ==
                Node(d, L, k).value.(snippets := Node(d, L, k).value.snippets + Matching(ss, L, k, keyOf))
  {
    if |ss| == 0 {
      if Node(d, L, k).Some? {
        var cn := Node(d, L, k).value;
        assert cn.snippets + [] == cn.snippets;
        assert cn.(snippets := cn.snippets + []) == cn;
      }
    } else {
      var n := |ss| - 1;
      FileAllNode(d, ss[..n], keyOf, L, k);
      FileNode(FileAll(d, ss[..n], keyOf), ss[n], keyOf(ss[n]), L, k);
      var extra := if ss[n].languageId == L && keyOf(ss[n]) == k then [ss[n]] else [];
      assert Matching(ss, L, k, keyOf) == Matching(ss[..n], L, k, keyOf) + extra;
      if Node(d, L, k).Some? {
        var cn := Node(d, L, k).value;
        assert cn.snippets + Matching(ss[..n], L, k, keyOf) + extra == cn.snippets + Matching(ss, L, k, keyOf);
      }
    }
  }

  /** Filing never adds, removes, renames or reorders a language or a category. */
  lemma {:induction false} FileAllShape(d: Structured, ss: seq<SnippetRecord>, keyOf: SnippetRecord -> string)
    ensures Shape(FileAll(d, ss, keyOf)) == Shape(d)
  {
    if |ss| > 0 {
      var n := |ss| - 1;
      FileAllShape(d, ss[..n], keyOf);
      FileShape(FileAll(d, ss[..n], keyOf), ss[n], keyOf(ss[n]));
    }
  }

  lemma {:induction false} MatchingMembers(ss: seq<SnippetRecord>, L: SqlValue, k: string,
                                            keyOf: SnippetRecord -> string, x: SnippetRecord)
    ensures x in Matching(ss, L, k, keyOf) <==> x in ss && x.languageId == L && keyOf(x) == k
  {
    if |ss| > 0 {
      var n := |ss| - 1;
      MatchingMembers(ss[..n], L, k, keyOf, x);
      assert ss == ss[..n] + [ss[n]];
    }
  }

  // ------------------------------------------------------ what the tree holds

  /** The tree `prepare_treeview_data` builds has the skeleton's languages
      and categories, and node `k` of language `L` holds exactly the fetched
      snippets of language `L` whose key, decided by the last language's
      specific categories, is `k`. */
  lemma TreeDataContents(db: Option<ConnState>, prior: Option<seq<CategoryRecord>>, L: SqlValue, k: string)
    requires TreeData(db, prior).Some?
    ensures Shape(TreeData(db, prior).value) == Shape(Skeleton(db, LanguageMap(db), GeneralCategories(db)))
    ensures Node(TreeData(db, prior).value, L, k).Some? <==>
              Node(Skeleton(db, LanguageMap(db), GeneralCategories(db)), L, k).Some?
    ensures Node(TreeData(db, prior).value, L, k).Some? ==>
              forall x :: x in Node(TreeData(db, prior).value, L, k).value.snippets <==>
                x in AllSnippets(db) && x.languageId == L
                && KeyFor(x, LastSpecific(db, LanguageMap(db), prior).GetOr([])) == k
  {
    var skeleton := Skeleton(db, LanguageMap(db), GeneralCategories(db));
    var specific := LastSpecific(db, LanguageMap(db), prior).GetOr([]);
    SkeletonNode(db, L, k);
    FiledNodeContents(skeleton, AllSnippets(db), specific, L, k);
  }

  /** Filing `ss` into a tree whose nodes are empty, by the keys of one list
      of specific categories: the shape is kept and a node holds exactly the
      snippets of its language and key. */
  lemma FiledNodeContents(skeleton: Structured, ss: seq<SnippetRecord>, specific: seq<CategoryRecord>, L: SqlValue, k: string)
    requires Node(skeleton, L, k).Some? ==> Node(skeleton, L, k).value.snippets == []
    ensures Shape(FileAll(skeleton, ss, WrittenKey(specific))) == Shape(skeleton)
    ensures Node(FileAll(skeleton, ss, WrittenKey(specific)), L, k).Some? <==> Node(skeleton, L, k).Some?
    ensures Node(skeleton, L, k).Some? ==>
              forall x :: x in Node(FileAll(skeleton, ss, WrittenKey(specific)), L, k).value.snippets <==>
                x in ss && x.languageId == L && KeyFor(x, specific) == k
  {
    var keyOf := WrittenKey(specific);
    FileAllShape(skeleton, ss, keyOf);
    FileAllNode(skeleton, ss, keyOf, L, k);
    forall x {
      MatchingMembers(ss, L, k, keyOf, x);
    }
  }

  /** `prepare_treeview_data` raises exactly when there is a snippet to file
      but no language has ever been loaded. */
  lemma TreeDataFails(db: Option<ConnState>, prior: Option<seq<CategoryRecord>>)
    ensures TreeData(db, prior).None? <==> |AllSnippets(db)| > 0 && |LanguageMap(db)| == 0 && prior.None?
  {
  }

  /** A specific category's id is never the id of a general category, and
      both are integers. */
  lemma SpecificIdNotGeneral(db: Option<ConnState>, L: SqlValue, v: SqlValue, g: CategoryRecord)
    requires v in Ids(SpecificCategories(db, L)) && g in GeneralCategories(db)
    ensures Render(v) != Render(g.id)
  {
    var r :| r in SpecificCategories(db, L) && r.id == v;
    SpecificCategoriesExactly(db, L, r);
    GeneralCategoriesExactly(db, g);
    SpecificNeverGeneral(db, L, r, g);
    if Render(v) == Render(g.id) {
      IntToStringInjective(v.i, g.id.i);
    }
  }

  /** No language has a `general-<id>` node for a category linked to a language. */
  lemma LinkedHasNoGeneralNode(db: Option<ConnState>, L: SqlValue, v: SqlValue, L': SqlValue)
    requires v in Ids(SpecificCategories(db, L))
    ensures Node(Skeleton(db, LanguageMap(db), GeneralCategories(db)), L', GeneralKey(v)).None?
  {
    var k := GeneralKey(v);
    SkeletonNode(db, L', k);
    assert k[0] == 'g';
    assert forall c :: SpecificKey(c)[0] == 's';
    if g :| g in GeneralCategories(db) && k == GeneralKey(g.id) {
      assert Render(v) == k[8..] == Render(g.id);
      SpecificIdNotGeneral(db, L, v, g);
    }
  }

  /** As written, a snippet whose category is linked to its own language but
      not to the language loaded last is keyed `general-<id>`, a key no
      language has for that category: the snippet appears nowhere in the tree. */
  lemma WrittenDropsSnippet(db: Option<ConnState>, prior: Option<seq<CategoryRecord>>, s: SnippetRecord)
    requires TreeData(db, prior).Some? && s in AllSnippets(db)
    requires |LanguageMap(db)| > 0 && LanguageMap(db)[|LanguageMap(db)| - 1].0 != s.languageId
    requires s.categoryId in Ids(SpecificCategories(db, s.languageId))
    requires s.categoryId !in Ids(SpecificCategories(db, LanguageMap(db)[|LanguageMap(db)| - 1].0))
    ensures forall L, k :: Node(TreeData(db, prior).value, L, k).Some? ==>
              s !in Node(TreeData(db, prior).value, L, k).value.snippets
  {
    var langs := LanguageMap(db);
    var last := SpecificCategories(db, langs[|langs| - 1].0);
    var r := TreeData(db, prior).value;
    assert KeyFor(s, last) == GeneralKey(s.categoryId);
    forall L, k | Node(r, L, k).Some?
      ensures s !in Node(r, L, k).value.snippets
    {
      TreeDataContents(db, prior, L, k);
      if s in Node(r, L, k).value.snippets {
        LinkedHasNoGeneralNode(db, s.languageId, s.categoryId, L);
      }
    }
  }

  /** Corrected: with each snippet keyed by its own language's categories,
      every fetched snippet whose language is loaded and whose category is
      general or linked to that language is filed under that language, and a
      node holds only snippets of its language keyed to it. */
  lemma IntendedFilesEverySnippet(db: Option<ConnState>, s: SnippetRecord)
    requires s in AllSnippets(db) && Lookup(LanguageMap(db), s.languageId).Some?
    requires s.categoryId in Ids(SpecificCategories(db, s.languageId)) || s.categoryId in Ids(GeneralCategories(db))
    ensures Node(IntendedTreeData(db), s.languageId, IntendedKey(db)(s)).Some?
    ensures s in Node(IntendedTreeData(db), s.languageId, IntendedKey(db)(s)).value.snippets
  {
    var skeleton := Skeleton(db, LanguageMap(db), GeneralCategories(db));
    var L, k := s.languageId, IntendedKey(db)(s);
    SkeletonNode(db, L, k);
    if s.categoryId in Ids(SpecificCategories(db, L)) {
      var c :| c in SpecificCategories(db, L) && c.id == s.categoryId;
      assert k == SpecificKey(c.id);
    } else {
      var g :| g in GeneralCategories(db) && g.id == s.categoryId;
      assert k == GeneralKey(g.id);
    }
    FileAllNode(skeleton, AllSnippets(db), IntendedKey(db), L, k);
    MatchingMembers(AllSnippets(db), L, k, IntendedKey(db), s);
  }

  lemma IntendedNodesHoldTheirOwn(db: Option<ConnState>, L: SqlValue, k: string, x: SnippetRecord)
    requires Node(IntendedTreeData(db), L, k).Some?
    ensures x in Node(IntendedTreeData(db), L, k).value.snippets <==>
              x in AllSnippets(db) && x.languageId == L && KeyFor(x, SpecificCategories(db, L)) == k
  {
    var skeleton := Skeleton(db, LanguageMap(db), GeneralCategories(db));
    FileAllNode(skeleton, AllSnippets(db), IntendedKey(db), L, k);
    SkeletonNode(db, L, k);
    MatchingMembers(AllSnippets(db), L, k, IntendedKey(db), x);
  }

  // ------------------------------------------------------- tree selection

  /** What selecting a node does. */
  datatype TreeSelection =
    | LanguageSelected(text: string)   // logs the language name
    | CategorySelected(text: string)   // logs the category name
    | CodeShown(code: SqlValue)        // shows the snippet's code
    | NoValues                         // IndexError: the node has no values
    | NoSnippet                        // TypeError: get_snippet returned None

  /** What `edit_snippet` does with the current selection. */
  datatype EditRequest =
    | NothingSelected                  // "Selection Required" error box
    | NotASnippet                      // "Invalid Selection" error box
    | EditSnippetId(id: string)        // opens the editor on this id

  /** The id `edit_snippet` passes on: every occurrence of the prefix removed. */
  function EditTarget(selection: seq<string>): (r: EditRequest)
    ensures r.NothingSelected? <==> |selection| == 0
    ensures r.NotASnippet? <==> |selection| > 0 && !StartsWith(selection[0], "snippet-")
  {
    if |selection| == 0 then NothingSelected
    else if !StartsWith(selection[0], "snippet-") then NotASnippet
    else EditSnippetId(ReplaceAll(selection[0], "snippet-", ""))
  }

  lemma {:induction false} ReplaceAbsent(s: string, p: string, r: string)
    requires |p| > 0 && forall i :: 0 <= i < |s| ==> s[i] != p[0]
    ensures ReplaceAll(s, p, r) == s
    decreases |s|
  {
    if |s| > 0 {
      assert !StartsWith(s, p) by { assert s[0] != p[0]; }
      ReplaceAbsent(s[1..], p, r);
    }
  }

  /** A snippet node named `snippet-<id>` leads the editor back to `<id>`. */
  lemma EditTargetRoundTrip(id: int, rest: seq<string>)
    ensures EditTarget(["snippet-" + IntToString(id)] + rest) == EditSnippetId(IntToString(id))
  {
    var digits := IntToString(id);
    var item := "snippet-" + digits;
    assert item[..8] == "snippet-";
    assert item[8..] == digits;
    assert forall i :: 0 <= i < |digits| ==> digits[i] == '-' || IsDigit(digits[i]) by {
      if id < 0 {
        assert digits == "-" + NatToString(-id);
        assert forall i :: 1 <= i < |digits| ==> digits[i] == NatToString(-id)[i - 1];
      }
    }
    ReplaceAbsent(digits, "snippet-", "");
  }

  class ApplicationController {
    const model: ApplicationModel
    /** `self.language_specific_categories`, unset until a language is loaded. */
    var languageSpecificCategories: Option<seq<CategoryRecord>>
    /** `self.selected_item`, unset until `edit_snippet` sees a selection. */
    var selectedItem: Option<string>

    constructor (model: ApplicationModel)
      ensures this.model == model && languageSpecificCategories == None && selectedItem == None
    {
      this.model := model;
      languageSpecificCategories := None;
      selectedItem := None;
    }

    /** `prepare_treeview_data`. */
    method PrepareTreeviewData() returns (data: Option<Structured>)
      modifies this
      ensures data == TreeData(model.Db(), old(languageSpecificCategories))
      ensures languageSpecificCategories ==
                LastSpecific(model.Db(), LanguageMap(model.Db()), old(languageSpecificCategories))
      ensures selectedItem == old(selectedItem)
    {
      var languages := model.GetAllLanguages();
      var general := model.GetGeneralCategories();
      var structured := LoadLanguages(languages, general);
      var snippets := model.GetAllSnippets();
      if |snippets| > 0 && languageSpecificCategories.None? {
        return None;
      }
      structured := FileSnippets(structured, snippets, languageSpecificCategories.GetOr([]));
      data := Some(structured);
    }

    /** The language loop: one node per language, and the attribute left
        holding the last language's specific categories. */
    method LoadLanguages(languages: seq<(SqlValue, SqlValue)>, general: seq<CategoryRecord>)
      returns (structured: Structured)
      modifies this
      ensures structured == Skeleton(model.Db(), languages, general)
      ensures languageSpecificCategories == LastSpecific(model.Db(), languages, old(languageSpecificCategories))
      ensures selectedItem == old(selectedItem)
    {
      ghost var db := model.Db();
      structured := [];
      var i := 0;
      while i < |languages|
        invariant 0 <= i <= |languages| && model.Db() == db && selectedItem == old(selectedItem)
        invariant structured == Skeleton(db, languages[..i], general)
        invariant languageSpecificCategories == LastSpecific(db, languages[..i], old(languageSpecificCategories))
      {
        var (id, name) := languages[i];
        var categories := AddGeneral(general);
        var specific := model.GetLanguageSpecificCategories(id);
        languageSpecificCategories := Some(specific);
        categories := AddSpecific(categories, specific);
        structured := Put(structured, id, LanguageNode(name, categories));
        assert languages[..i + 1][..i] == languages[..i];
        i := i + 1;
      }
      assert languages[..i] == languages;
    }

    /** `on_tree_select`: a top-level node is a language, a node under one a
        category, anything deeper a snippet whose first value is its id. */
    method OnTreeSelect(tree: Tree, item: string) returns (r: TreeSelection)
      ensures r.LanguageSelected? <==> tree.Parent(item) == ""
      ensures r.CategorySelected? <==> tree.Parent(item) != "" && tree.Parent(tree.Parent(item)) == ""
      ensures r.LanguageSelected? || r.CategorySelected? ==> r.text == tree.Text(item)
      ensures r.NoValues? <==>
                tree.Parent(item) != "" && tree.Parent(tree.Parent(item)) != "" && |tree.Values(item)| == 0
      ensures r.NoSnippet? <==>
                tree.Parent(item) != "" && tree.Parent(tree.Parent(item)) != "" && |tree.Values(item)| > 0
                && SnippetById(model.Db(), tree.Values(item)[0]).None?
      ensures r.CodeShown? ==>
                exists x :: x in Join(Visible(model.Db()))
                            && ColumnEquals(Int(x.snippet.id), tree.Values(item)[0])
                            && r.code == Text(x.snippet.code)
    {
      var parent := tree.Parent(item);
      var grandparent := if parent != "" then tree.Parent(parent) else "";
      if parent == "" {
        r := LanguageSelected(tree.Text(item));
      } else if grandparent == "" {
        r := CategorySelected(tree.Text(item));
      } else {
        var values := tree.Values(item);
        if |values| == 0 {
          return NoValues;
        }
        var details := model.GetSnippet(values[0]);
        if details.None? {
          return NoSnippet;
        }
        SnippetByIdFound(model.Db(), values[0]);
        r := CodeShown(details.value.code);
      }
    }

    /** `edit_snippet`: the first selected item, when it names a snippet,
        gives the id the editor opens on. */
    method EditSnippet(tree: Tree) returns (r: EditRequest)
      modifies this
      ensures r == EditTarget(tree.Selection())
      ensures selectedItem == if |tree.Selection()| == 0 then old(selectedItem) else Some(tree.Selection()[0])
      ensures languageSpecificCategories == old(languageSpecificCategories)
    {
      var selection := tree.Selection();
      if |selection| == 0 {
        return NothingSelected;
      }
      selectedItem := Some(selection[0]);
      if !StartsWith(selection[0], "snippet-") {
        return NotASnippet;
      }
      r := EditSnippetId(ReplaceAll(selection[0], "snippet-", ""));
    }
  }

  /** The general categories' nodes of one language (the first inner loop). */
  method AddGeneral(general: seq<CategoryRecord>) returns (categories: seq<(string, CategoryNode)>)
    ensures categories == AddCategories([], "general-", general)
  {
    categories := [];
    var j := 0;
    while j < |general|
      invariant 0 <= j <= |general|
      invariant categories == AddCategories([], "general-", general[..j])
    {
      categories := Put(categories, "general-" + Render(general[j].id), CategoryNode(general[j].name, []));
      assert general[..j + 1][..j] == general[..j];
      j := j + 1;
    }
    assert general[..j] == general;
  }

  /** The specific categories' nodes (the second inner loop). */
  method AddSpecific(categories0: seq<(string, CategoryNode)>, specific: seq<CategoryRecord>)
    returns (categories: seq<(string, CategoryNode)>)
    ensures categories == AddCategories(categories0, "specific-", specific)
  {
    categories := categories0;
    var j := 0;
    while j < |specific|
      invariant 0 <= j <= |specific|
      invariant categories == AddCategories(categories0, "specific-", specific[..j])
    {
      categories := Put(categories, "specific-" + Render(specific[j].id), CategoryNode(specific[j].name, []));
      assert specific[..j + 1][..j] == specific[..j];
      j := j + 1;
    }
    assert specific[..j] == specific;
  }

  /** The snippet loop: each snippet appended to the node its key names,
      when its language and that node exist. */
  method FileSnippets(skeleton: Structured, snippets: seq<SnippetRecord>, specific: seq<CategoryRecord>)
    returns (structured: Structured)
    ensures structured == FileAll(skeleton, snippets, WrittenKey(specific))
  {
    structured := skeleton;
    var j := 0;
    while j < |snippets|
      invariant 0 <= j <= |snippets|
      invariant structured == FileAll(skeleton, snippets[..j], WrittenKey(specific))
    {
      var s := snippets[j];
      var key := KeyFor(s, specific);
      var entry := Lookup(structured, s.languageId);
      if entry.Some? {
        var node := Lookup(entry.value.categories, key);
        if node.Some? {
          var ln := entry.value;
          structured := Put(structured, s.languageId,
                            ln.(categories := Put(ln.categories, key, node.value.(snippets := node.value.snippets + [s]))));
        }
      }
      assert snippets[..j + 1][..j] == snippets[..j];
      j := j + 1;
    }
    assert snippets[..j] == snippets;
  }
}
