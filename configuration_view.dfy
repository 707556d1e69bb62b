/** The preferences window: a tree with one category per configuration
    (Application, Preferences, Logging) and one item per key, a search box
    that filters the tree, a breadcrumb for the selected item and a details
    pane built from the selected value. */
module ConfigurationView {
  import opened Common
  import opened JsonValue
  import opened Treeview

  // ------------------------------------------------------------ tree data

  datatype EntryKind = CategoryEntry | ItemEntry
  /** One record of `original_treeview_data`. */
  datatype Entry = Entry(id: string, text: string, parent: string, kind: EntryKind)

  const CategoryNames: seq<string> := ["Application", "Preferences", "Logging"]

  /** The records of one category: the category, then one item per key. */
  function CategoryEntries(name: string, categoryId: string, keys: seq<string>): (r: seq<Entry>)
    ensures |r| == |keys| + 1
  {
    [Entry(categoryId, name, "", CategoryEntry)] +
    seq(|keys|, i requires 0 <= i < |keys| => Entry(keys[i], keys[i], categoryId, ItemEntry))
  }

  /** One more key adds one more item record. */
  lemma CategoryEntriesSnoc(name: string, categoryId: string, keys: seq<string>, k: nat)
    requires k < |keys|
    ensures CategoryEntries(name, categoryId, keys[..k + 1]) ==
            CategoryEntries(name, categoryId, keys[..k]) + [Entry(keys[k], keys[k], categoryId, ItemEntry)]
  {
  }

  /** The records for categories `cats` (name and keys) whose tree ids are `ids`. */
  function Layout(cats: seq<(string, seq<string>)>, ids: seq<string>): seq<Entry>
    requires |ids| == |cats|
  {
    if |cats| == 0 then []
    else Layout(cats[..|cats| - 1], ids[..|ids| - 1]) +
         CategoryEntries(cats[|cats| - 1].0, ids[|ids| - 1], cats[|cats| - 1].1)
  }

  /** Every record of the layout is a category of `cats` or a key of one,
      filed under that category's id. */
  lemma {:induction false} LayoutRecords(cats: seq<(string, seq<string>)>, ids: seq<string>, e: Entry)
    requires |ids| == |cats| && e in Layout(cats, ids)
    ensures exists c :: 0 <= c < |cats| &&
              (e == Entry(ids[c], cats[c].0, "", CategoryEntry) ||
               (e.kind == ItemEntry && e.id == e.text && e.text in cats[c].1 && e.parent == ids[c]))
  {
    var n := |cats| - 1;
    if e in Layout(cats[..n], ids[..n]) {
      LayoutRecords(cats[..n], ids[..n], e);
      var c :| 0 <= c < n &&
              (e == Entry(ids[..n][c], cats[..n][c].0, "", CategoryEntry) ||
               (e.kind == ItemEntry && e.id == e.text && e.text in cats[..n][c].1 && e.parent == ids[..n][c]));
      assert cats[..n][c] == cats[c] && ids[..n][c] == ids[c];
    } else {
      var here := CategoryEntries(cats[n].0, ids[n], cats[n].1);
      assert e in here;
      if e != here[0] {
        var i :| 0 <= i < |here| && here[i] == e;
        assert e.text == cats[n].1[i - 1];
      }
    }
  }

  /** Every key of every category has its record in the layout. */
  lemma {:induction false} LayoutHasKeys(cats: seq<(string, seq<string>)>, ids: seq<string>, c: nat, key: string)
    requires |ids| == |cats| && c < |cats| && key in cats[c].1
    ensures Entry(key, key, ids[c], ItemEntry) in Layout(cats, ids)
  {
    var n := |cats| - 1;
    if c < n {
      LayoutHasKeys(cats[..n], ids[..n], c, key);
    } else {
      var k :| 0 <= k < |cats[c].1| && cats[c].1[k] == key;
      assert CategoryEntries(cats[n].0, ids[n], cats[n].1)[k + 1] == Entry(key, key, ids[c], ItemEntry);
    }
  }

  // ---------------------------------------------------------------- search

  /** `not query.strip()`: nothing but (ASCII) whitespace. */
  predicate Blank(query: string) {
    forall i :: 0 <= i < |query| ==> query[i] in {' ', '\t', '\n', '\r', '\U{0b}', '\U{0c}', '\U{1c}', '\U{1d}', '\U{1e}', '\U{1f}'}
  }

  /** An item record whose lower-cased text contains the lower-cased query. */
  predicate Matches(e: Entry, query: string) {
    e.kind == ItemEntry && Contains(Lower(e.text), Lower(query))
  }

  type Groups = seq<(string, seq<Entry>)>

  /** `filtered_data_by_category`: the matching records grouped by parent, a
      new parent appended, a known one extended. */
  function Group(data: seq<Entry>, query: string): Groups {
    if |data| == 0 then []
    else
      var g := Group(data[..|data| - 1], query);
      var e := data[|data| - 1];
      if Matches(e, query) then Put(g, e.parent, Lookup(g, e.parent).GetOr([]) + [e]) else g
  }

  /** The matching records under parent `p`, in their original order. */
  function MatchesUnder(data: seq<Entry>, query: string, p: string): seq<Entry> {
    if |data| == 0 then []
    else
      var e := data[|data| - 1];
      MatchesUnder(data[..|data| - 1], query, p) + (if Matches(e, query) && e.parent == p then [e] else [])
  }

  /** The parents of the matching records, each once, in order of first match. */
  function FirstParents(data: seq<Entry>, query: string): seq<string> {
    if |data| == 0 then []
    else
      var ps := FirstParents(data[..|data| - 1], query);
      var e := data[|data| - 1];
      if Matches(e, query) && e.parent !in ps then ps + [e.parent] else ps
  }

  /** The group of a parent holds exactly its matching records, in order;
      a parent without matches has no group. */
  lemma {:induction false} GroupLookup(data: seq<Entry>, query: string, p: string)
    ensures Lookup(Group(data, query), p) ==
              if |MatchesUnder(data, query, p)| == 0 then None else Some(MatchesUnder(data, query, p))
  {
    if |data| > 0 {
      var front := data[..|data| - 1];
      var e := data[|data| - 1];
      var g := Group(front, query);
      GroupLookup(front, query, p);
      if Matches(e, query) {
        PutLookup(g, e.parent, Lookup(g, e.parent).GetOr([]) + [e], p);
        if e.parent == p {
          assert Lookup(g, p).GetOr([]) == MatchesUnder(front, query, p);
          assert MatchesUnder(data, query, p) == MatchesUnder(front, query, p) + [e];
        } else {
          assert MatchesUnder(data, query, p) == MatchesUnder(front, query, p) + [];
          assert MatchesUnder(data, query, p) == MatchesUnder(front, query, p);
        }
      } else {
        assert MatchesUnder(data, query, p) == MatchesUnder(front, query, p) + [];
        assert MatchesUnder(data, query, p) == MatchesUnder(front, query, p);
      }
    }
  }

  /** The groups come in order of each parent's first match. */
  lemma {:induction false} GroupKeys(data: seq<Entry>, query: string)
    ensures KeysOf(Group(data, query)) == FirstParents(data, query)
  {
    if |data| > 0 {
      var front := data[..|data| - 1];
      var e := data[|data| - 1];
      var g := Group(front, query);
      GroupKeys(front, query);
      if Matches(e, query) {
        PutKeys(g, e.parent, Lookup(g, e.parent).GetOr([]) + [e]);
      }
    }
  }

  /** `next(text for item in data if item['id'] == id, None)` */
  function FirstText(data: seq<Entry>, id: string): (r: Option<string>)
    ensures r.Some? <==> exists i :: 0 <= i < |data| && data[i].id == id
  {
    if |data| == 0 then None
    else if data[0].id == id then Some(data[0].text)
    else
      var r := FirstText(data[1..], id);
      assert forall i :: 1 <= i < |data| ==> data[1..][i - 1] == data[i];
      r
  }

  /** The ids the filtered tree shows as matches, group by group; a group
      whose parent text is missing or empty is skipped. */
  function MatchedIds(groups: Groups, data: seq<Entry>): seq<string> {
    if |groups| == 0 then []
    else
      (if Titled(data, groups[0].0) then IdsOf(groups[0].1) else []) + MatchedIds(groups[1..], data)
  }

  /** One group further: its ids, when its parent has a text, follow those matched so far. */
  lemma MatchedIdsStep(groups: Groups, data: seq<Entry>, j: nat, matched: seq<string>)
    requires j < |groups| && MatchedIds(groups, data) == matched + MatchedIds(groups[j..], data)
    ensures MatchedIds(groups, data)
            == (matched + (if Titled(data, groups[j].0) then IdsOf(groups[j].1) else [])) + MatchedIds(groups[j + 1..], data)
  {
    assert groups[j..][1..] == groups[j + 1..];
    var shown := if Titled(data, groups[j].0) then IdsOf(groups[j].1) else [];
    assert (matched + shown) + MatchedIds(groups[j + 1..], data) == matched + (shown + MatchedIds(groups[j + 1..], data));
  }

  /** Ids already shown stay shown when more items are inserted. */
  lemma ShownKept(matched: seq<string>, ids: seq<string>, before: set<string>, after: set<string>)
    requires (forall m :: m in matched ==> m in before) && before <= after
    requires forall m :: m in ids ==> m in after
    ensures forall m :: m in matched + ids ==> m in after
  {
  }

  /** The ids of inserted records are in the tree. */
  lemma GroupIdsShown(es: seq<Entry>, after: set<string>)
    requires forall e :: e in es ==> e.id in after
    ensures forall m :: m in IdsOf(es) ==> m in after
  {
    forall m | m in IdsOf(es)
      ensures m in after
    {
      var i :| 0 <= i < |IdsOf(es)| && IdsOf(es)[i] == m;
      assert es[i] in es;
    }
  }

  function IdsOf(es: seq<Entry>): (r: seq<string>)
    ensures |r| == |es| && forall i :: 0 <= i < |es| ==> r[i] == es[i].id
  {
    seq(|es|, i requires 0 <= i < |es| => es[i].id)
  }

  /** A parent record the filter can show again: it is found, and its text
      is not empty. */
  predicate Titled(data: seq<Entry>, id: string) {
    FirstText(data, id).Some? && FirstText(data, id).value != ""
  }

  /** The records of a group as the filter re-inserts them: their own ids
      and texts, under the parent's copy `copy`. */
  function UnderCopy(copy: string, es: seq<Entry>): (r: seq<Item>)
    ensures |r| == |es|
    ensures forall i :: 0 <= i < |es| ==> r[i] == Item(es[i].id, copy, es[i].text, [])
  {
    seq(|es|, i requires 0 <= i < |es| => Item(es[i].id, copy, es[i].text, []))
  }

  /** What one group adds to the filtered tree: nothing when its parent is
      not titled; otherwise a top-level copy `copy` carrying the parent's
      text, followed by the group's records under it. */
  function GroupBlock(group: (string, seq<Entry>), data: seq<Entry>, copy: string): seq<Item> {
    if Titled(data, group.0) then [Item(copy, "", FirstText(data, group.0).value, [])] + UnderCopy(copy, group.1)
    else []
  }

  /** One id per group for its parent's copy, and a real one for every
      group that is shown. */
  predicate CopiesNamed(groups: Groups, data: seq<Entry>, copies: seq<string>) {
    |copies| == |groups| && forall j :: 0 <= j < |groups| && Titled(data, groups[j].0) ==> copies[j] != ""
  }

  /** The whole filtered tree, group by group; `copies[j]` is the id Tk
      gave to the copy of group j's parent. */
  function Shown(groups: Groups, data: seq<Entry>, copies: seq<string>): seq<Item>
    requires |copies| == |groups|
  {
    if |groups| == 0 then [] else GroupBlock(groups[0], data, copies[0]) + Shown(groups[1..], data, copies[1..])
  }

  /** The ids of the items below the top level, in order. */
  function ChildIds(items: seq<Item>): seq<string> {
    if |items| == 0 then [] else (if items[0].parent != "" then [items[0].iid] else []) + ChildIds(items[1..])
  }

  lemma {:induction false} ChildIdsAppend(a: seq<Item>, b: seq<Item>)
    ensures ChildIds(a + b) == ChildIds(a) + ChildIds(b)
  {
    if |a| == 0 {
      assert a + b == b;
    } else {
      assert (a + b)[1..] == a[1..] + b;
      ChildIdsAppend(a[1..], b);
    }
  }

  /** Under a real copy, every re-inserted record is below the top level. */
  lemma {:induction false} ChildIdsUnderCopy(copy: string, es: seq<Entry>)
    requires copy != ""
    ensures ChildIds(UnderCopy(copy, es)) == IdsOf(es)
  {
    if |es| > 0 {
      var under := UnderCopy(copy, es);
      assert under[1..] == UnderCopy(copy, es[1..]);
      ChildIdsUnderCopy(copy, es[1..]);
      assert ChildIds(under) == [es[0].id] + ChildIds(under[1..]);
      assert IdsOf(es) == [es[0].id] + IdsOf(es[1..]);
    }
  }

  /** Adding a group at the end adds its block at the end of the tree. */
  lemma {:induction false} ShownSnoc(groups: Groups, data: seq<Entry>, copies: seq<string>,
                                     group: (string, seq<Entry>), copy: string)
    requires |copies| == |groups|
    ensures Shown(groups + [group], data, copies + [copy]) == Shown(groups, data, copies) + GroupBlock(group, data, copy)
  {
    if |groups| == 0 {
      assert (groups + [group])[1..] == [];
    } else {
      assert (groups + [group])[1..] == groups[1..] + [group];
      assert (copies + [copy])[1..] == copies[1..] + [copy];
      ShownSnoc(groups[1..], data, copies[1..], group, copy);
    }
  }

  /** The items below the copies are exactly the matched ids, in order. */
  lemma {:induction false} ShownChildIds(groups: Groups, data: seq<Entry>, copies: seq<string>)
    requires CopiesNamed(groups, data, copies)
    ensures ChildIds(Shown(groups, data, copies)) == MatchedIds(groups, data)
  {
    if |groups| > 0 {
      assert forall j :: 0 <= j < |groups| - 1 ==> groups[1..][j] == groups[j + 1] && copies[1..][j] == copies[j + 1];
      ShownChildIds(groups[1..], data, copies[1..]);
      var block := GroupBlock(groups[0], data, copies[0]);
      ChildIdsAppend(block, Shown(groups[1..], data, copies[1..]));
      if Titled(data, groups[0].0) {
        ChildIdsAppend([block[0]], UnderCopy(copies[0], groups[0].1));
        ChildIdsUnderCopy(copies[0], groups[0].1);
      }
    }
  }

  /** Every item of the filtered tree is either a top-level copy carrying
      the text of a titled group parent, or a record of some group, with
      its own id and text, below the top level. */
  lemma {:induction false} ShownItemsKinds(groups: Groups, data: seq<Entry>, copies: seq<string>, it: Item)
    requires CopiesNamed(groups, data, copies) && it in Shown(groups, data, copies)
    ensures it.parent == "" ==> exists g :: g in groups && Titled(data, g.0) && FirstText(data, g.0).value == it.text
    ensures it.parent != "" ==> exists g, e :: g in groups && e in g.1 && it.iid == e.id && it.text == e.text
  {
    assert |groups| > 0;
    var block := GroupBlock(groups[0], data, copies[0]);
    assert groups[0] in groups;
    if it in block {
      var under := UnderCopy(copies[0], groups[0].1);
      assert block == [block[0]] + under;
      if it != block[0] {
        var i :| 0 <= i < |under| && under[i] == it;
        assert groups[0].1[i] in groups[0].1;
      }
    } else {
      assert forall j :: 0 <= j < |groups| - 1 ==> groups[1..][j] == groups[j + 1] && copies[1..][j] == copies[j + 1];
      ShownItemsKinds(groups[1..], data, copies[1..], it);
      assert forall g :: g in groups[1..] ==> g in groups;
    }
  }

  /** Every record in a group matches the query and belongs to that
      group's parent, and no group is empty. */
  lemma {:induction false} GroupMembers(data: seq<Entry>, query: string)
    ensures forall g, e :: g in Group(data, query) && e in g.1 ==> e in data && Matches(e, query) && e.parent == g.0
    ensures forall g :: g in Group(data, query) ==> |g.1| > 0
  {
    if |data| > 0 {
      var front := data[..|data| - 1];
      var last := data[|data| - 1];
      var groups := Group(front, query);
      GroupMembers(front, query);
      assert forall e :: e in front ==> e in data;
      if Matches(last, query) {
        var prior := Lookup(groups, last.parent);
        var v := prior.GetOr([]) + [last];
        PutEntries(groups, last.parent, v);
        forall g, e | g in Group(data, query) && e in g.1
          ensures e in data && Matches(e, query) && e.parent == g.0
        {
          if g !in groups {
            assert g == (last.parent, v);
            if e != last {
              assert e in prior.value;
              var i :| 0 <= i < |groups| && groups[i] == (last.parent, prior.value);
              assert groups[i] in groups;
            }
          }
        }
      }
    }
  }

  /** Every group whose parent has a non-empty text contributes all its ids. */
  lemma {:induction false} MatchedIdsCover(groups: Groups, data: seq<Entry>, i: nat, e: Entry)
    requires i < |groups| && e in groups[i].1
    requires Titled(data, groups[i].0)
    ensures e.id in MatchedIds(groups, data)
  {
    if i == 0 {
      var k :| 0 <= k < |groups[0].1| && groups[0].1[k] == e;
      assert IdsOf(groups[0].1)[k] == e.id;
    } else {
      MatchedIdsCover(groups[1..], data, i - 1, e);
    }
  }

  /** Every id the filtered tree lists comes from one of its groups. */
  lemma {:induction false} MatchedIdsFromGroups(groups: Groups, data: seq<Entry>, m: string)
    requires m in MatchedIds(groups, data)
    ensures exists g, e :: g in groups && e in g.1 && e.id == m
  {
    if m in IdsOf(groups[0].1) && Titled(data, groups[0].0) {
      var k :| 0 <= k < |groups[0].1| && IdsOf(groups[0].1)[k] == m;
      assert groups[0] in groups && groups[0].1[k] in groups[0].1;
    } else {
      MatchedIdsFromGroups(groups[1..], data, m);
      var g, e :| g in groups[1..] && e in g.1 && e.id == m;
      assert g in groups;
    }
  }

  /** The filter lists only items whose text contains the query. */
  lemma FilterListsOnlyMatches(data: seq<Entry>, query: string, m: string)
    requires m in MatchedIds(Group(data, query), data)
    ensures exists e :: e in data && Matches(e, query) && e.id == m
  {
    MatchedIdsFromGroups(Group(data, query), data, m);
    GroupMembers(data, query);
  }

  /** The filter lists every matching item whose parent record has a
      non-empty text. */
  lemma FilterListsEveryMatch(data: seq<Entry>, query: string, e: Entry)
    requires e in data && Matches(e, query)
    requires Titled(data, e.parent)
    ensures e.id in MatchedIds(Group(data, query), data)
  {
    var groups := Group(data, query);
    GroupLookup(data, query, e.parent);
    MatchesUnderMembers(data, query, e.parent, e);
    var v := Lookup(groups, e.parent).value;
    var i :| 0 <= i < |groups| && groups[i] == (e.parent, v);
    MatchedIdsCover(groups, data, i, e);
  }

  /** A search displays nothing but copies of parents with a matching
      record, each carrying its parent's text, and the matching records
      themselves, with their own ids and texts. */
  lemma FilterShowsOnlyMatches(data: seq<Entry>, query: string, copies: seq<string>, it: Item)
    requires CopiesNamed(Group(data, query), data, copies) && it in Shown(Group(data, query), data, copies)
    ensures it.parent == "" ==>
              exists e :: e in data && Matches(e, query) && Titled(data, e.parent) && FirstText(data, e.parent).value == it.text
    ensures it.parent != "" ==> exists e :: e in data && Matches(e, query) && e.id == it.iid && e.text == it.text
  {
    var groups := Group(data, query);
    ShownItemsKinds(groups, data, copies, it);
    GroupMembers(data, query);
    if it.parent == "" {
      var g :| g in groups && Titled(data, g.0) && FirstText(data, g.0).value == it.text;
      var e := g.1[0];
      assert e in g.1;
      assert e in data && Matches(e, query) && e.parent == g.0;
    } else {
      var g, e :| g in groups && e in g.1 && it.iid == e.id && it.text == e.text;
      assert e in data && Matches(e, query);
    }
  }

  /** Had the records of the set-up tree been kept, a search would list
      every key that contains the query, under its own category. */
  lemma SearchOverSetupData(cats: seq<(string, seq<string>)>, ids: seq<string>, query: string, c: nat, key: string)
    requires |ids| == |cats| && c < |cats| && key in cats[c].1
    requires Contains(Lower(key), Lower(query))
    ensures Lookup(Group(Layout(cats, ids), query), ids[c]).Some?
    ensures Entry(key, key, ids[c], ItemEntry) in Lookup(Group(Layout(cats, ids), query), ids[c]).value
  {
    var data := Layout(cats, ids);
    LayoutHasKeys(cats, ids, c, key);
    MatchesUnderMembers(data, query, ids[c], Entry(key, key, ids[c], ItemEntry));
    GroupLookup(data, query, ids[c]);
  }

  lemma {:induction false} MatchesUnderMembers(data: seq<Entry>, query: string, p: string, e: Entry)
    ensures e in MatchesUnder(data, query, p) <==> e in data && Matches(e, query) && e.parent == p
  {
    if |data| > 0 {
      MatchesUnderMembers(data[..|data| - 1], query, p, e);
      assert data == data[..|data| - 1] + [data[|data| - 1]];
    }
  }

  // --------------------------------------------------------------- details

  /** `get_config_data(item)`: preferences first, then application, then
      logging; None when no configuration has the key. */
  function ConfigData(preferences: seq<(string, Json)>, application: seq<(string, Json)>,
                      logging: seq<(string, Json)>, item: string): (r: Option<Json>)
    ensures r.Some? <==> HasKey(preferences, item) || HasKey(application, item) || HasKey(logging, item)
    ensures HasKey(preferences, item) ==> r == Lookup(preferences, item)
    ensures !HasKey(preferences, item) && HasKey(application, item) ==> r == Lookup(application, item)
  {
    if HasKey(preferences, item) then Lookup(preferences, item)
    else if HasKey(application, item) then Lookup(application, item)
    else Lookup(logging, item)
  }

  /** `is_valid_integer(P)`: the empty text or `str.isdigit` (ASCII digits):
      together, exactly the texts with no non-digit. */
  function IsValidInteger(p: string): (r: bool)
    ensures r <==> forall i :: 0 <= i < |p| ==> IsDigit(p[i])
  {
    p == "" || (|p| > 0 && forall i :: 0 <= i < |p| ==> IsDigit(p[i]))
  }

  /** The widgets `populate_details_ui` creates, with the path of each. */
  datatype Field =
    | DynamicField(caption: string, path: string)
    | Section(caption: string, path: string)
    | ListItem(index: nat, path: string)
    | ConfigWidget(caption: string, path: string, value: Json)
  {
    function PathOf(): string {
      match this
      case DynamicField(_, p) => p
      case Section(_, p) => p
      case ListItem(_, p) => p
      case ConfigWidget(_, p, _) => p
    }
  }

  /** `path.split('/')[-1]` */
  function LastSegment(path: string): (r: string)
    ensures '/' !in r
  {
    if |path| == 0 then ""
    else if path[|path| - 1] == '/' then ""
    else LastSegment(path[..|path| - 1]) + [path[|path| - 1]]
  }

  /** `populate_details_ui(parent, data, path)` */
  function Details(data: Json, path: string): seq<Field>
    decreases data, 1
  {
    match data
    case JObj(ms) => DictDetails(ms, path, data)
    case JArr(items) => ListDetails(items, 0, path, data)
    case _ => [ConfigWidget(if path != "" then LastSegment(path) else "Value", path, data)]
  }

  /** A key's path is `path/key`, or the key alone at the top level. */
  function DictDetails(ms: seq<(string, Json)>, path: string, ghost parent: Json): seq<Field>
    requires forall i :: 0 <= i < |ms| ==> ms[i].1 < parent
    decreases parent, 0, |ms|
  {
    if |ms| == 0 then []
    else
      assert forall i :: 0 <= i < |ms| - 1 ==> ms[1..][i] == ms[i + 1];
      var key := ms[0].0;
      var value := ms[0].1;
      var newPath := if path != "" then path + "/" + key else key;
      var here :=
        if value.JObj? && HasKey(value.members, "type") then [DynamicField(key, newPath)]
        else if value.JObj? || value.JArr? then [Section(key, newPath)] + Details(value, newPath)
        else [ConfigWidget(key, newPath, value)];
      here + DictDetails(ms[1..], path, parent)
  }

  /** An element's path is always `path/index`, even at the top level; a
      nested element gets an "Item <index>" subsection before its own fields. */
  function ListDetails(items: seq<Json>, index: nat, path: string, ghost parent: Json): seq<Field>
    requires forall x :: x in items ==> x < parent
    decreases parent, 0, |items|
  {
    if |items| == 0 then []
    else
      assert items[0] in items;
      assert forall x :: x in items[1..] ==> x in items;
      var item := items[0];
      var newPath := path + "/" + NatToString(index);
      var here :=
        [ListItem(index, newPath)] +
        (if item.JObj? || item.JArr? then [Section("Item " + NatToString(index), newPath)] + Details(item, newPath)
         else [ConfigWidget("Item " + NatToString(index), newPath, item)]);
      here + ListDetails(items[1..], index + 1, path, parent)
  }

  /** Below a non-empty path every widget's path is that path or extends it
      by "/" and more. */
  lemma {:induction false} DetailsExtendPath(data: Json, path: string)
    requires path != ""
    ensures forall f :: f in Details(data, path) ==> f.PathOf() == path || StartsWith(f.PathOf(), path + "/")
    decreases data, 1
  {
    match data
    case JObj(ms) => DictDetailsExtendPath(ms, path, data);
    case JArr(items) => ListDetailsExtendPath(items, 0, path, data);
    case _ =>
  }

  lemma {:induction false} DictDetailsExtendPath(ms: seq<(string, Json)>, path: string, parent: Json)
    requires path != "" && forall i :: 0 <= i < |ms| ==> ms[i].1 < parent
    ensures forall f :: f in DictDetails(ms, path, parent) ==> StartsWith(f.PathOf(), path + "/")
    decreases parent, 0, |ms|
  {
    if |ms| > 0 {
      assert forall i :: 0 <= i < |ms| - 1 ==> ms[1..][i] == ms[i + 1];
      var value := ms[0].1;
      var newPath := path + "/" + ms[0].0;
      assert StartsWith(newPath, path + "/");
      if value.JObj? || value.JArr? {
        DetailsExtendPath(value, newPath);
        ExtendTransitive(path + "/", newPath);
      }
      DictDetailsExtendPath(ms[1..], path, parent);
    }
  }

  lemma {:induction false} ListDetailsExtendPath(items: seq<Json>, index: nat, path: string, parent: Json)
    requires path != "" && forall x :: x in items ==> x < parent
    ensures forall f :: f in ListDetails(items, index, path, parent) ==> StartsWith(f.PathOf(), path + "/")
    decreases parent, 0, |items|
  {
    if |items| > 0 {
      assert items[0] in items;
      assert forall x :: x in items[1..] ==> x in items;
      var item := items[0];
      var newPath := path + "/" + NatToString(index);
      assert StartsWith(newPath, path + "/");
      if item.JObj? || item.JArr? {
        DetailsExtendPath(item, newPath);
        ExtendTransitive(path + "/", newPath);
      }
      ListDetailsExtendPath(items[1..], index + 1, path, parent);
    }
  }

  /** A path that extends `q` (itself extending `p`) extends `p`. */
  lemma ExtendTransitive(p: string, q: string)
    requires StartsWith(q, p)
    ensures forall s :: s == q || StartsWith(s, q + "/") ==> StartsWith(s, p)
  {
  }

  /** At the top level a key's path is the key itself, while a list's first
      element gets "/0". */
  lemma TopLevelPaths(key: string, v: string, x: string)
    ensures Details(JObj([(key, JStr(v))]), "") == [ConfigWidget(key, key, JStr(v))]
    ensures |Details(JArr([JStr(x)]), "")| > 0 && Details(JArr([JStr(x)]), "")[0] == ListItem(0, "/0")
  {
    assert NatToString(0) == "0";
    var d := JObj([(key, JStr(v))]);
    assert DictDetails([(key, JStr(v))][1..], "", d) == [];
    var a := JArr([JStr(x)]);
    assert ListDetails([JStr(x)], 0, "", a)[0] == ListItem(0, "/0");
  }

  /** The grouping loop of `filter_treeview`. */
  method GroupMatches(data: seq<Entry>, query: string) returns (groups: Groups)
    ensures groups == Group(data, query)
  {
    groups := [];
    var i := 0;
    while i < |data|
      invariant 0 <= i <= |data|
      invariant groups == Group(data[..i], query)
    {
      var e := data[i];
      assert data[..i + 1][..i] == data[..i] && data[..i + 1][i] == e;
      if e.kind == ItemEntry && Contains(Lower(e.text), Lower(query)) {
        groups := Put(groups, e.parent, Lookup(groups, e.parent).GetOr([]) + [e]);
      }
      i := i + 1;
    }
    assert data[..i] == data;
  }

  /** No key belongs to two of the categories: each key can be its own
      item id. */
  predicate KeysApart(cats: seq<(string, seq<string>)>) {
    forall c, d, k :: 0 <= c < d < |cats| && k in cats[c].1 ==> k !in cats[d].1
  }

  /** Keys that were all absent when their category was added keep the
      categories apart. */
  lemma KeysApartStep(cats: seq<(string, seq<string>)>, c: nat, present: set<string>)
    requires c < |cats| && KeysApart(cats[..c])
    requires forall b, k :: 0 <= b < c && k in cats[b].1 ==> k in present
    requires forall k :: k in cats[c].1 ==> k !in present
    ensures KeysApart(cats[..c + 1])
  {
    var next := cats[..c + 1];
    forall b, d, k | 0 <= b < d < |next| && k in next[b].1
      ensures k !in next[d].1
    {
      if d < c {
        assert cats[..c][b] == next[b] && cats[..c][d] == next[d];
      }
    }
  }

  // ------------------------------------------------------------------ view

  class ConfigurationView {
    const applicationConfig: seq<(string, Json)>
    const preferencesConfig: seq<(string, Json)>
    const loggingConfig: seq<(string, Json)>
    const tree: Tree
    var originalTreeviewData: seq<Entry>
    var breadcrumb: string
    var details: seq<Field>
    /** Whether `__init__` returned: a TclError from `setup_treeview`
        escapes it, and the window is never shown. */
    var built: bool

    /** The categories in the order `setup_treeview` builds them. */
    function Categories(): seq<(string, seq<string>)>
      reads this
    {
      [("Application", KeysOf(applicationConfig)),
       ("Preferences", KeysOf(preferencesConfig)),
       ("Logging", KeysOf(loggingConfig))]
    }

    /** Opening the window builds the tree and then clears the records the
        search works on. When building the tree raises, so does the
        constructor, before the breadcrumb is set. */
    constructor (application: seq<(string, Json)>, preferences: seq<(string, Json)>, logging: seq<(string, Json)>)
      ensures applicationConfig == application && preferencesConfig == preferences && loggingConfig == logging
      ensures tree.Valid() && fresh(tree) && details == []
      ensures built ==> KeysApart(Categories())
      ensures built ==> originalTreeviewData == [] && breadcrumb == "Application"
      ensures !built ==> breadcrumb == ""
    {
      applicationConfig := application;
      preferencesConfig := preferences;
      loggingConfig := logging;
      tree := new Tree();
      originalTreeviewData := [];
      breadcrumb := "";
      details := [];
      built := false;
      new;
      built := SetupTreeview();
      if !built {
        return;
      }
      breadcrumb := "Application";
      originalTreeviewData := [];
    }

    /** `setup_treeview()`: the records are rebuilt from scratch, a category
        with its keys at a time. A key Tk already knows as an item id stops
        the rebuild (a TclError). */
    method SetupTreeview() returns (ok: bool)
      requires tree.Valid()
      modifies this, tree
      ensures tree.Valid() && breadcrumb == old(breadcrumb) && details == old(details)
      ensures tree.selected == old(tree.selected)
      ensures ok ==> exists ids :: |ids| == 3 && originalTreeviewData == Layout(Categories(), ids) &&
                                   tree.Children("") == old(tree.Children("")) + ids
      ensures ok ==> KeysApart(Categories())
      ensures built == old(built)
    {
      originalTreeviewData := [];
      var cats := Categories();
      ghost var ids: seq<string> := [];
      var c := 0;
      while c < 3
        invariant 0 <= c <= 3 && |ids| == c
        invariant tree.Valid() && breadcrumb == old(breadcrumb) && details == old(details)
        invariant tree.selected == old(tree.selected)
        invariant originalTreeviewData == Layout(cats[..c], ids)
        invariant tree.Children("") == old(tree.Children("")) + ids
        invariant KeysApart(cats[..c])
        invariant forall b, k :: 0 <= b < c && k in cats[b].1 ==> k in IidsOf(tree.items)
        invariant built == old(built)
      {
        ghost var present := IidsOf(tree.items);
        var added, categoryId := SetupCategory(cats[c].0, cats[c].1);
        if !added {
          return false;
        }
        KeysApartStep(cats, c, present);
        assert cats[..c + 1][..c] == cats[..c] && cats[..c + 1][c] == cats[c];
        assert (ids + [categoryId])[..c] == ids;
        ids := ids + [categoryId];
        c := c + 1;
      }
      assert cats[..3] == cats;
      ok := true;
    }

    /** One category of `setup_treeview`: a top-level item with a generated
        id, then one child per key whose id and text are the key. */
    method SetupCategory(name: string, keys: seq<string>) returns (ok: bool, categoryId: string)
      requires tree.Valid()
      modifies this, tree
      ensures tree.Valid() && breadcrumb == old(breadcrumb) && details == old(details)
      ensures tree.selected == old(tree.selected)
      ensures ok ==> originalTreeviewData == old(originalTreeviewData) + CategoryEntries(name, categoryId, keys)
      ensures ok ==> tree.Children("") == old(tree.Children("")) + [categoryId]
      ensures ok ==> forall k :: k in keys ==> k !in old(IidsOf(tree.items)) && k in IidsOf(tree.items)
      ensures old(IidsOf(tree.items)) <= IidsOf(tree.items)
      ensures built == old(built)
    {
      ghost var before := tree.items;
      ghost var known := IidsOf(before);
      categoryId := tree.Insert("", name, []);
      ChildrenOfAppend(before, Item(categoryId, "", name, []), "");
      IidsAppend(before, Item(categoryId, "", name, []));
      var data := originalTreeviewData + [Entry(categoryId, name, "", CategoryEntry)];
      var k := 0;
      while k < |keys|
        modifies tree
        invariant 0 <= k <= |keys|
        invariant tree.Valid() && tree.Exists(categoryId) && categoryId != ""
        invariant tree.selected == old(tree.selected)
        invariant data == old(originalTreeviewData) + CategoryEntries(name, categoryId, keys[..k])
        invariant tree.Children("") == old(tree.Children("")) + [categoryId]
        invariant forall j :: 0 <= j < k ==> keys[j] !in known && keys[j] in IidsOf(tree.items)
        invariant known <= IidsOf(tree.items)
      {
        ghost var beforeKey := tree.items;
        ghost var idsBefore := IidsOf(beforeKey);
        var inserted := tree.InsertWithId(categoryId, keys[k], keys[k]);
        if !inserted {
          break;
        }
        ChildrenOfAppend(beforeKey, Item(keys[k], categoryId, keys[k], []), "");
        IidsAppend(beforeKey, Item(keys[k], categoryId, keys[k], []));
        assert IidsOf(tree.items) == idsBefore + {keys[k]};
        assert keys[k] !in known;
        CategoryEntriesSnoc(name, categoryId, keys, k);
        var entry := Entry(keys[k], keys[k], categoryId, ItemEntry);
        ConcatAssoc(old(originalTreeviewData), CategoryEntries(name, categoryId, keys[..k]), [entry]);
        data := data + [entry];
        k := k + 1;
      }
      originalTreeviewData := data;
      ok := k == |keys|;
      if ok {
        assert keys[..k] == keys;
      }
    }

    /** `filter_treeview(query)`: the tree is emptied; a blank query sets it
        up again in full, any other query shows, under a fresh copy of each
        parent, the items whose text contains the query (ignoring case), and
        selects the first of them. `matched` lists the ids shown, in order;
        `copies` names the parent copies Tk created. */
    method FilterTreeview(query: string) returns (ok: bool, matched: seq<string>, ghost copies: seq<string>)
      requires tree.Valid()
      modifies this, tree
      ensures tree.Valid()
      ensures Blank(query) ==> matched == [] && tree.selected == {}
      ensures Blank(query) && ok ==> exists ids :: |ids| == 3 && originalTreeviewData == Layout(Categories(), ids) &&
                                                   tree.Children("") == ids
      ensures !Blank(query) ==> originalTreeviewData == old(originalTreeviewData)
      ensures !Blank(query) && ok ==>
                matched == MatchedIds(Group(originalTreeviewData, query), originalTreeviewData)
      ensures !Blank(query) && ok ==>
                CopiesNamed(Group(originalTreeviewData, query), originalTreeviewData, copies) &&
                tree.items == Shown(Group(originalTreeviewData, query), originalTreeviewData, copies)
      ensures !Blank(query) && ok ==> ChildIds(tree.items) == matched
      ensures ok ==> forall m :: m in matched ==> tree.Exists(m)
      ensures !Blank(query) && ok && |matched| > 0 ==> tree.selected == {matched[0]}
      ensures !Blank(query) && ok && |matched| == 0 ==> tree.selected == {}
      ensures !Blank(query) && old(originalTreeviewData) == [] ==> ok && matched == [] && tree.items == []
    {
      tree.DeleteAll();
      matched, copies := [], [];
      if Blank(query) {
        ok := SetupTreeview();
        return;
      }
      ok, matched, copies := ShowMatches(query);
      if ok {
        ShownChildIds(Group(originalTreeviewData, query), originalTreeviewData, copies);
      }
    }

    /** The non-blank branch of `filter_treeview`, on an emptied tree. */
    method ShowMatches(query: string) returns (ok: bool, matched: seq<string>, ghost copies: seq<string>)
      requires tree.Valid() && tree.selected == {}
      modifies this, tree
      ensures tree.Valid() && originalTreeviewData == old(originalTreeviewData)
      ensures ok ==> matched == MatchedIds(Group(originalTreeviewData, query), originalTreeviewData)
      ensures ok ==> CopiesNamed(Group(originalTreeviewData, query), originalTreeviewData, copies) &&
                     tree.items == old(tree.items) + Shown(Group(originalTreeviewData, query), originalTreeviewData, copies)
      ensures ok ==> forall m :: m in matched ==> tree.Exists(m)
      ensures ok && |matched| > 0 ==> tree.selected == {matched[0]}
      ensures ok && |matched| == 0 ==> tree.selected == {}
      ensures originalTreeviewData == [] ==> ok && matched == [] && tree.items == old(tree.items)
    {
      var groups := GroupMatches(originalTreeviewData, query);
      ok, matched, copies := ShowGroups(groups, originalTreeviewData);
      if ok && |matched| > 0 {
        tree.SelectionSet(matched[0]);
        var _ := OnTreeSelection();
      }
    }

    /** The re-population loop of `filter_treeview`: each group whose parent
        record has a non-empty text gets a new top-level item with that text
        and its items under it, and nothing else is inserted. */
    method ShowGroups(groups: Groups, data: seq<Entry>) returns (ok: bool, matched: seq<string>, ghost copies: seq<string>)
      requires tree.Valid() && tree.selected == {}
      modifies tree
      ensures tree.Valid() && tree.selected == {}
      ensures ok ==> matched == MatchedIds(groups, data)
      ensures ok ==> CopiesNamed(groups, data, copies) && tree.items == old(tree.items) + Shown(groups, data, copies)
      ensures ok ==> forall m :: m in matched ==> tree.Exists(m)
      ensures groups == [] ==> ok && matched == [] && tree.items == old(tree.items)
    {
      matched, copies := [], [];
      var j := 0;
      while j < |groups|
        invariant 0 <= j <= |groups|
        invariant tree.Valid() && tree.selected == {}
        invariant MatchedIds(groups, data) == matched + MatchedIds(groups[j..], data)
        invariant forall m :: m in matched ==> tree.Exists(m)
        invariant CopiesNamed(groups[..j], data, copies)
        invariant tree.items == old(tree.items) + Shown(groups[..j], data, copies)
      {
        ghost var before := IidsOf(tree.items);
        var shown, ids, copy := ShowGroup(groups[j], data);
        if !shown {
          return false, matched, copies;
        }
        MatchedIdsStep(groups, data, j, matched);
        ShownKept(matched, ids, before, IidsOf(tree.items));
        assert groups[..j + 1] == groups[..j] + [groups[j]];
        ShownSnoc(groups[..j], data, copies, groups[j], copy);
        ConcatAssoc(old(tree.items), Shown(groups[..j], data, copies), GroupBlock(groups[j], data, copy));
        matched := matched + ids;
        copies := copies + [copy];
        j := j + 1;
      }
      assert groups[..j] == groups;
      ok := true;
    }

    /** One group: a copy of its parent at the top level, then its items
        under that copy; a group whose parent has no text is skipped and
        the tree is left as it was. `copy` is the id of the parent's copy. */
    method ShowGroup(group: (string, seq<Entry>), data: seq<Entry>) returns (ok: bool, ids: seq<string>, copy: string)
      requires tree.Valid()
      modifies tree
      ensures tree.Valid() && tree.selected == old(tree.selected)
      ensures IidsOf(old(tree.items)) <= IidsOf(tree.items)
      ensures ok ==> ids == if Titled(data, group.0) then IdsOf(group.1) else []
      ensures ok ==> forall m :: m in ids ==> tree.Exists(m)
      ensures Titled(data, group.0) ==> copy != "" && copy !in IidsOf(old(tree.items))
      ensures !Titled(data, group.0) ==> ok && tree.items == old(tree.items)
      ensures ok ==> tree.items == old(tree.items) + GroupBlock(group, data, copy)
    {
      var parentText := FirstText(data, group.0);
      if parentText.Some? && parentText.value != "" {
        ghost var before := tree.items;
        copy := tree.Insert("", parentText.value, []);
        IidsAppend(before, Item(copy, "", parentText.value, []));
        ok := InsertGroup(copy, group.1);
        ids := IdsOf(group.1);
        if ok {
          GroupIdsShown(group.1, IidsOf(tree.items));
          ConcatAssoc(before, [Item(copy, "", parentText.value, [])], UnderCopy(copy, group.1));
        }
      } else {
        ok, ids, copy := true, [], "";
      }
    }

    /** The items of one group, re-inserted under the parent's new copy with
        their own ids and texts; a duplicate id stops the insertion (a
        TclError). */
    method InsertGroup(parentInTree: string, items: seq<Entry>) returns (ok: bool)
      requires tree.Valid() && tree.Exists(parentInTree)
      modifies tree
      ensures tree.Valid() && tree.selected == old(tree.selected)
      ensures IidsOf(old(tree.items)) <= IidsOf(tree.items)
      ensures ok ==> forall e :: e in items ==> tree.Exists(e.id)
      ensures ok ==> tree.items == old(tree.items) + UnderCopy(parentInTree, items)
    {
      var k := 0;
      while k < |items|
        invariant 0 <= k <= |items|
        invariant tree.Valid() && tree.selected == old(tree.selected)
        invariant IidsOf(old(tree.items)) <= IidsOf(tree.items)
        invariant forall e :: e in items[..k] ==> tree.Exists(e.id)
        invariant tree.items == old(tree.items) + UnderCopy(parentInTree, items[..k])
      {
        ghost var before := tree.items;
        var inserted := tree.InsertWithId(parentInTree, items[k].id, items[k].text);
        if !inserted {
          return false;
        }
        var it := Item(items[k].id, parentInTree, items[k].text, []);
        IidsAppend(before, it);
        assert items[..k + 1] == items[..k] + [items[k]];
        assert UnderCopy(parentInTree, items[..k + 1]) == UnderCopy(parentInTree, items[..k]) + [it];
        ConcatAssoc(old(tree.items), UnderCopy(parentInTree, items[..k]), [it]);
        k := k + 1;
      }
      assert items[..k] == items;
      ok := true;
    }

    /** `construct_breadcrumb_path(item)`: the topmost ancestor's text and
        the texts below it down to the item. */
    method ConstructBreadcrumbPath(item: string) returns (root: string, path: seq<string>)
      requires tree.Valid() && (item == "" || tree.Exists(item))
      ensures item == "" ==> root == "" && path == []
      ensures item != "" ==> root == Lineage(tree.items, item)[0] && path == Lineage(tree.items, item)[1..]
    {
      root := "";
      if item == "" {
        return root, [];
      }
      ghost var items := tree.items;
      var acc: seq<string> := [];
      var current := item;
      while current != ""
        invariant current == "" || current in IidsOf(items)
        invariant current != "" ==> Lineage(items, current) + acc == Lineage(items, item)
        invariant current == "" ==> acc == Lineage(items, item)
        invariant root == (if |acc| == 0 then "" else acc[0])
        decreases if current == "" then 0 else FindIndex(items, current) + 1
      {
        var text := tree.Text(current);
        var parent := tree.Parent(current);
        BreadcrumbStep(items, current, Item(current, parent, text, FindItem(items, current).value.values), acc);
        acc := [text] + acc;
        root := text;
        current := parent;
      }
      path := if |acc| == 0 then [] else acc[1..];
    }

    /** `on_tree_selection`: a top-level item shows its own text and no
        details; any other item shows its breadcrumb and the details of the
        value its key holds. An empty selection raises (IndexError). */
    method OnTreeSelection() returns (raised: bool)
      requires tree.Valid()
      modifies this
      ensures raised <==> |tree.Selection()| == 0
      ensures originalTreeviewData == old(originalTreeviewData)
      ensures raised ==> breadcrumb == old(breadcrumb) && details == old(details)
      ensures !raised && tree.Parent(tree.Selection()[0]) == "" ==>
                breadcrumb == tree.Text(tree.Selection()[0]) && details == []
      ensures !raised && tree.Parent(tree.Selection()[0]) != "" ==>
                breadcrumb == Lineage(tree.items, tree.Selection()[0])[0] + " > " +
                              JoinWith(Lineage(tree.items, tree.Selection()[0])[1..], " > ")
      ensures !raised && tree.Parent(tree.Selection()[0]) != "" ==>
                details == Details(ConfigData(preferencesConfig, applicationConfig, loggingConfig,
                                              tree.Selection()[0]).GetOr(JNull), "")
    {
      var selection := tree.Selection();
      if |selection| == 0 {
        return true;
      }
      raised := false;
      var selected := selection[0];
      if tree.Parent(selected) == "" {
        breadcrumb := tree.Text(selected);
        details := [];
        return;
      }
      assert selected in IidsOf(tree.items);
      var root, path := ConstructBreadcrumbPath(selected);
      breadcrumb := root + " > " + JoinWith(path, " > ");
      var data := ConfigData(preferencesConfig, applicationConfig, loggingConfig, selected);
      details := Details(data.GetOr(JNull), "");
    }
  }

  /** As the window opens, the records are cleared after the tree is built
      by `__init__`, so the first search, whatever its non-blank query,
      shows nothing until a blank query rebuilds the records. */
  method FirstSearchFindsNothing(application: seq<(string, Json)>, preferences: seq<(string, Json)>,
                                 logging: seq<(string, Json)>, query: string)
    returns (built: bool, ok: bool, shown: seq<string>)
    requires !Blank(query)
    ensures built ==> ok && shown == []
  {
    var view := new ConfigurationView(application, preferences, logging);
    built, ok, shown := view.built, false, [];
    if built {
      ghost var copies;
      ok, shown, copies := view.FilterTreeview(query);
    }
  }

  /** One step of the breadcrumb loop: the item's text prepended to what
      lies below it, and then its parent's lineage, is its own lineage. */
  lemma BreadcrumbStep(items: seq<Item>, current: string, it: Item, acc: seq<string>)
    requires WellFormed(items) && current in IidsOf(items) && FindItem(items, current) == Some(it)
    ensures it.parent != "" ==> it.parent in IidsOf(items) && FindIndex(items, it.parent) < FindIndex(items, current)
    ensures it.parent != "" ==> Lineage(items, it.parent) + ([it.text] + acc) == Lineage(items, current) + acc
    ensures it.parent == "" ==> [it.text] + acc == Lineage(items, current) + acc
  {
    if it.parent != "" {
      ParentLineage(items, current, it);
      ConcatAssoc(Lineage(items, it.parent), [it.text], acc);
    }
  }

  lemma ParentLineage(items: seq<Item>, current: string, it: Item)
    requires WellFormed(items) && current in IidsOf(items) && FindItem(items, current) == Some(it)
    requires it.parent != ""
    ensures it.parent in IidsOf(items) && FindIndex(items, it.parent) < FindIndex(items, current)
    ensures Lineage(items, it.parent) + [it.text] == Lineage(items, current)
  {
    ParentEarlier(items, current);
  }

  /** `sep.join(parts)` */
  function JoinWith(parts: seq<string>, sep: string): string {
    if |parts| == 0 then ""
    else if |parts| == 1 then parts[0]
    else parts[0] + sep + JoinWith(parts[1..], sep)
  }
}
