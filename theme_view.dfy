/** The theme editor window: it shows a theme as tabs of settings, keeps one
    entry field per setting key, classifies each setting as a colour, a font
    or plain text, and hands the entries back as the theme to save. */
module ThemeView {
  import opened Common
  import opened JsonValue
  import opened ThemeModel

  // --------------------------------------------------------- classification

  /** `re.match(r'^#(?:[0-9a-fA-F]{3}){1,2}$', s)`: '#' and three or six hex
      digits; `$` also matches before one final newline. */
  predicate HexColor(s: string) {
    var body := if |s| > 0 && s[|s| - 1] == '\n' then s[..|s| - 1] else s;
    (|body| == 4 || |body| == 7) && body[0] == '#' && forall i :: 1 <= i < |body| ==> IsHexDigit(body[i])
  }

  datatype SettingKind = ColorSetting | FontSetting | PlainSetting

  /** How `create_setting_widget` treats a setting: a colour when the
      lower-cased key mentions "color" or the value's text is a hex colour,
      otherwise a font when the key mentions "font". */
  function Classify(key: string, value: Json): (k: SettingKind)
    ensures k == ColorSetting <==> Contains(Lower(key), "color") || HexColor(Str(value))
    ensures k == FontSetting <==> !Contains(Lower(key), "color") && !HexColor(Str(value)) && Contains(Lower(key), "font")
  {
    if Contains(Lower(key), "color") || HexColor(Str(value)) then ColorSetting
    else if Contains(Lower(key), "font") then FontSetting
    else PlainSetting
  }

  /** Colour wins: a key that mentions both is a colour. */
  lemma FontColorIsColor(value: Json)
    ensures Classify("font_color", value) == ColorSetting
  {
    assert Lower("font_color") == "font_color";
    ContainsAt("font_color", "color", 5);
  }

  /** A hex value makes any setting a colour, with or without one trailing
      newline; a second newline is too many. */
  lemma HexValueIsColor(key: string)
    ensures Classify(key, JStr("#1a2B3c")) == ColorSetting
    ensures Classify(key, JStr("#fff\n")) == ColorSetting
    ensures !HexColor("#fff\n\n") && !HexColor("#ffff")
  {
    var six := "#1a2B3c";
    assert six[|six| - 1] != '\n';
    assert forall i :: 1 <= i < |six| ==> IsHexDigit(six[i]);
    assert HexColor(six);
    var three := "#fff\n";
    assert three[..4] == "#fff";
    assert forall i :: 1 <= i < 4 ==> IsHexDigit(three[..4][i]);
    assert HexColor(three);
    assert "#fff\n\n"[..5] == "#fff\n";
  }

  // ---------------------------------------------------------------- widgets

  /** The entry fields by setting key, with the text each was filled with. */
  type Widgets = seq<(string, string)>

  /** Storing `(key, text)` pairs one after another into the widget map. */
  function PutAll(w: Widgets, kvs: seq<(string, string)>): Widgets {
    if |kvs| == 0 then w
    else
      var last := kvs[|kvs| - 1];
      Put(PutAll(w, kvs[..|kvs| - 1]), last.0, last.1)
  }

  lemma {:induction false} PutAllAppend(w: Widgets, a: seq<(string, string)>, b: seq<(string, string)>)
    ensures PutAll(PutAll(w, a), b) == PutAll(w, a + b)
    decreases |b|
  {
    if |b| > 0 {
      PutAllAppend(w, a, b[..|b| - 1]);
      assert (a + b)[..|a + b| - 1] == a + b[..|b| - 1];
      assert (a + b)[|a + b| - 1] == b[|b| - 1];
    } else {
      assert a + b == a;
    }
  }

  /** A key has an entry exactly when it had one or one of the pairs has it. */
  lemma {:induction false} PutAllHasKey(w: Widgets, kvs: seq<(string, string)>, k: string)
    ensures HasKey(PutAll(w, kvs), k) <==> HasKey(w, k) || exists i :: 0 <= i < |kvs| && kvs[i].0 == k
    decreases |kvs|
  {
    if |kvs| > 0 {
      var front := kvs[..|kvs| - 1];
      PutAllHasKey(w, front, k);
      PutLookup(PutAll(w, front), kvs[|kvs| - 1].0, kvs[|kvs| - 1].1, k);
      if exists i :: 0 <= i < |kvs| && kvs[i].0 == k {
        var i :| 0 <= i < |kvs| && kvs[i].0 == k;
        if i < |kvs| - 1 { assert front[i].0 == k; }
      }
      if exists i :: 0 <= i < |front| && front[i].0 == k {
        var i :| 0 <= i < |front| && front[i].0 == k;
        assert kvs[i].0 == k;
      }
    }
  }

  /** Widgets are stored by bare key: the last setting with a key decides
      its entry, whatever came before. */
  lemma {:induction false} LastSettingWins(w: Widgets, a: seq<(string, string)>, k: string, text: string, b: seq<(string, string)>)
    requires forall i :: 0 <= i < |b| ==> b[i].0 != k
    ensures Lookup(PutAll(w, a + [(k, text)] + b), k) == Some(text)
    decreases |b|
  {
    var s := a + [(k, text)];
    if |b| == 0 {
      assert s + b == s;
      assert s[..|s| - 1] == a && s[|s| - 1] == (k, text);
      PutLookup(PutAll(w, a), k, text, k);
    } else {
      var front := b[..|b| - 1];
      LastSettingWins(w, a, k, text, front);
      assert (s + b)[..|s + b| - 1] == s + front && (s + b)[|s + b| - 1] == b[|b| - 1];
      PutLookup(PutAll(w, s + front), b[|b| - 1].0, b[|b| - 1].1, k);
    }
  }

  // --------------------------------------------------------- category pages

  /** The non-dict settings of a dict, depth first, as (key, text) pairs. */
  function Leaves(settings: Json): seq<(string, string)>
    decreases settings, 1
  {
    if settings.JObj? then LeavesOf(settings.members, settings) else []
  }

  function LeavesOf(members: seq<(string, Json)>, ghost parent: Json): seq<(string, string)>
    requires forall i :: 0 <= i < |members| ==> members[i].1 < parent
    decreases parent, 0, |members|
  {
    if |members| == 0 then []
    else
      assert forall i :: 0 <= i < |members| - 1 ==> members[1..][i] == members[i + 1];
      var v := members[0].1;
      (if v.JObj? then Leaves(v) else [(members[0].0, Str(v))]) + LeavesOf(members[1..], parent)
  }

  /** `display_category_settings(frame, settings)`: a dict value opens a
      nested frame and recurses, any other value gets an entry. Settings
      that are not a dict have no `items` (None). */
  function CategorySettings(w: Widgets, settings: Json): Option<Widgets>
    decreases settings, 1
  {
    if settings.JObj? then CategoryMembers(w, settings.members, settings) else None
  }

  function CategoryMembers(w: Widgets, members: seq<(string, Json)>, ghost parent: Json): Option<Widgets>
    requires forall i :: 0 <= i < |members| ==> members[i].1 < parent
    decreases parent, 0, |members|
  {
    if |members| == 0 then Some(w)
    else
      assert forall i :: 0 <= i < |members| - 1 ==> members[1..][i] == members[i + 1];
      var v := members[0].1;
      var next := if v.JObj? then CategorySettings(w, v) else Some(Put(w, members[0].0, Str(v)));
      if next.None? then None else CategoryMembers(next.value, members[1..], parent)
  }

  /** A dict page gets exactly one entry per non-dict value under it, in
      depth-first order. */
  lemma {:induction false} CategoryIsLeaves(w: Widgets, settings: Json)
    requires settings.JObj?
    ensures CategorySettings(w, settings) == Some(PutAll(w, Leaves(settings)))
    decreases settings, 1
  {
    CategoryMembersAreLeaves(w, settings.members, settings);
  }

  lemma {:induction false} CategoryMembersAreLeaves(w: Widgets, members: seq<(string, Json)>, parent: Json)
    requires forall i :: 0 <= i < |members| ==> members[i].1 < parent
    ensures CategoryMembers(w, members, parent) == Some(PutAll(w, LeavesOf(members, parent)))
    decreases parent, 0, |members|
  {
    if |members| > 0 {
      assert forall i :: 0 <= i < |members| - 1 ==> members[1..][i] == members[i + 1];
      var v := members[0].1;
      var here := if v.JObj? then Leaves(v) else [(members[0].0, Str(v))];
      if v.JObj? {
        CategoryIsLeaves(w, v);
      } else {
        assert PutAll(w, here) == Put(PutAll(w, []), members[0].0, Str(v));
      }
      var next := PutAll(w, here);
      CategoryMembersAreLeaves(next, members[1..], parent);
      PutAllAppend(w, here, LeavesOf(members[1..], parent));
    }
  }

  /** `display_colors_in_notebook`: a dict entry becomes a sub-tab whose
      values each get an entry without further nesting; any other entry gets
      an entry itself. */
  function ColorsSettings(w: Widgets, colors: Json): Option<Widgets> {
    if colors.JObj? then Some(PutAll(w, ColorLeaves(colors.members))) else None
  }

  /** The (key, text) pairs `display_colors_in_notebook` stores, in order. */
  function ColorLeaves(members: seq<(string, Json)>): seq<(string, string)> {
    if |members| == 0 then []
    else
      var v := members[0].1;
      (if v.JObj? then Rendered(v.members) else [(members[0].0, Str(v))]) + ColorLeaves(members[1..])
  }

  /** Each member's key with the text of its value. */
  function Rendered(members: seq<(string, Json)>): (r: seq<(string, string)>)
    ensures |r| == |members| && forall i :: 0 <= i < |r| ==> r[i] == (members[i].0, Str(members[i].1))
  {
    seq(|members|, i requires 0 <= i < |members| => (members[i].0, Str(members[i].1)))
  }

  /** The entries one state list of a `map` style produces: each element
      must be a dict of state to value. Iterating anything else either yields
      nothing (an empty dict or string) or an element without `items`. */
  function StateLeaves(states: Json): Option<seq<(string, string)>> {
    match states
    case JArr(items) => StateDicts(items)
    case JObj(ms) => if |ms| == 0 then Some([]) else None
    case JStr(s) => if s == "" then Some([]) else None
    case _ => None
  }

  function StateDicts(items: seq<Json>): Option<seq<(string, string)>> {
    if |items| == 0 then Some([])
    else if !items[0].JObj? then None
    else
      var rest := StateDicts(items[1..]);
      if rest.None? then None else Some(Rendered(items[0].members) + rest.value)
  }

  /** `display_map_settings`: every state of every setting gets an entry. */
  function MapLeaves(members: seq<(string, Json)>): Option<seq<(string, string)>> {
    if |members| == 0 then Some([])
    else
      var here := StateLeaves(members[0].1);
      var rest := MapLeaves(members[1..]);
      if here.None? || rest.None? then None else Some(here.value + rest.value)
  }

  /** `display_ttk_styles_settings`: per style, the `configure` settings as
      a category page, then the `map` settings. `in` on a value that is not
      a container, or a str subscript on a list or str, raises (None). */
  function StyleSettings(w: Widgets, details: Json): Option<Widgets> {
    var hasConfigure := PyIn("configure", details);
    var hasMap := PyIn("map", details);
    if hasConfigure.None? || hasMap.None? then None
    else if (hasConfigure.value || hasMap.value) && !details.JObj? then None
    else
      var afterConfigure :=
        if hasConfigure.value then CategorySettings(w, Lookup(details.members, "configure").value) else Some(w);
      if afterConfigure.None? then None
      else if !hasMap.value then afterConfigure
      else
        var mapSettings := Lookup(details.members, "map").value;
        if !mapSettings.JObj? then None
        else
          var states := MapLeaves(mapSettings.members);
          if states.None? then None else Some(PutAll(afterConfigure.value, states.value))
  }

  function StylesSettings(w: Widgets, styles: Json): Option<Widgets> {
    if styles.JObj? then StyleMembers(w, styles.members) else None
  }

  function StyleMembers(w: Widgets, members: seq<(string, Json)>): Option<Widgets>
    decreases |members|
  {
    if |members| == 0 then Some(w)
    else
      var next := StyleSettings(w, members[0].1);
      if next.None? then None else StyleMembers(next.value, members[1..])
  }

  /** The renderer `display_theme_data` picks for a category. */
  function CategoryPage(w: Widgets, category: string, settings: Json): Option<Widgets> {
    if category == "ttkStyles" then StylesSettings(w, settings)
    else if category == "colors" then ColorsSettings(w, settings)
    else CategorySettings(w, settings)
  }

  /** Every category in turn, from the widget map `w`. */
  function AllPages(w: Widgets, categories: seq<(string, Json)>): Option<Widgets>
    decreases |categories|
  {
    if |categories| == 0 then Some(w)
    else
      var next := CategoryPage(w, categories[0].0, categories[0].1);
      if next.None? then None else AllPages(next.value, categories[1..])
  }

  /** `str.capitalize()` on ASCII text: first letter upper-cased, the rest
      lower-cased. */
  function Capitalize(s: string): (r: string)
    ensures |r| == |s|
  {
    if |s| == 0 then ""
    else [if 'a' <= s[0] <= 'z' then (s[0] as int - 32) as char else s[0]] + Lower(s[1..])
  }

  /** The saved theme: one str value per stored key. */
  function SavedTheme(w: Widgets): (data: Json)
    ensures data.JObj? && KeysOf(data.members) == KeysOf(w)
    ensures forall i :: 0 <= i < |data.members| ==> data.members[i].1 == JStr(w[i].1)
  {
    JObj(seq(|w|, i requires 0 <= i < |w| => (w[i].0, JStr(w[i].1))))
  }

  /** What `save_theme` hands over is flat: it never passes the theme
      validation, because its `colors` entry, if any, is a str. */
  lemma SavedThemeNeverValid(w: Widgets)
    ensures ValidateThemeData(SavedTheme(w)) != Passed
  {
    var data := SavedTheme(w);
    ValidateIffWellFormed(data);
  }

  /** `display_theme_data` runs to its end on `data`: a dict whose every
      category page can be rendered. */
  predicate Displays(data: Json) {
    data.JObj? && AllPages([], data.members).Some?
  }

  /** A non-empty saved theme cannot be shown again: its first category's
      value is a str, and every renderer iterates the items of its value. */
  lemma SavedThemeNotDisplayed(w: Widgets)
    requires |w| > 0
    ensures !Displays(SavedTheme(w))
  {
    var data := SavedTheme(w);
    assert data.members[0] == (w[0].0, JStr(w[0].1));
    assert CategoryPage([], w[0].0, JStr(w[0].1)).None?;
  }

  class ThemeView {
    var widgets: Widgets
    var tabs: seq<string>

    constructor ()
      ensures widgets == [] && tabs == []
    {
      widgets := [];
      tabs := [];
    }

    /** `display_theme_data(theme_data)`: the tabs and entries are cleared,
        then each category adds a tab and its page. */
    method DisplayThemeData(themeData: Json) returns (ok: bool)
      modifies this
      ensures ok <==> Displays(themeData)
      ensures ok ==> widgets == AllPages([], themeData.members).value
      ensures ok ==> tabs == seq(|themeData.members|, i requires 0 <= i < |themeData.members| =>
                                 Capitalize(themeData.members[i].0))
    {
      tabs := [];
      widgets := [];
      if !themeData.JObj? {
        return false;
      }
      var categories := themeData.members;
      var i := 0;
      while i < |categories|
        invariant 0 <= i <= |categories|
        invariant AllPages(widgets, categories[i..]) == AllPages([], categories)
        invariant tabs == seq(i, j requires 0 <= j < i => Capitalize(categories[j].0))
      {
        var category := categories[i].0;
        tabs := tabs + [Capitalize(category)];
        assert categories[i..][1..] == categories[i + 1..];
        var next := CategoryPage(widgets, category, categories[i].1);
        if next.None? {
          return false;
        }
        widgets := next.value;
        i := i + 1;
      }
      ok := true;
    }

    /** `save_theme()`: the entries as a dict of str values. */
    method SaveTheme() returns (data: Json)
      ensures data == SavedTheme(widgets)
    {
      var w := widgets;
      var members: seq<(string, Json)> := [];
      var i := 0;
      while i < |w|
        invariant 0 <= i <= |w|
        invariant members == seq(i, j requires 0 <= j < i => (w[j].0, JStr(w[j].1)))
      {
        members := members + [(w[i].0, JStr(w[i].1))];
        i := i + 1;
      }
      data := JObj(members);
    }
  }
}
