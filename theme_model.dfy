/** The theme store: one JSON file per theme in the themes folder, listed by
    file name, loaded and saved whole, checked against the structure the
    theme editor relies on, and backed up next to the original. */
module ThemeModel {
  import opened Common
  import opened JsonValue
  import opened Files

  const TemplateFile := "template_theme.json"
  const RequiredKeys: seq<string> := ["theme_info", "colors", "fonts", "ttkStyles"]
  const ThemeInfoKeys: seq<string> := ["name", "author", "version", "last_modified", "description"]
  /** Declared by the validator and never consulted. */
  const ColorAndFontKeys: seq<string> := ["default", "button", "treeview", "tabs", "menu"]

  // ------------------------------------------------------------ theme files

  /** A directory entry `get_themes` reports. */
  predicate IsThemeFile(n: string) {
    EndsWith(n, ".json") && n != TemplateFile
  }

  /** `os.path.splitext(n)[0]` for a name ending in ".json": the extension
      is split off only when a character other than '.' precedes it, so
      ".json" and "..json" are kept whole. */
  function Stem(n: string): (r: string)
    requires EndsWith(n, ".json")
    ensures r == n || r + ".json" == n
  {
    var root := n[..|n| - 5];
    if exists i :: 0 <= i < |root| && root[i] != '.' then
      assert root + ".json" == n;
      root
    else n
  }

  /** The theme names of a directory listing, in listing order. */
  function ThemeNames(names: seq<string>): seq<string> {
    if |names| == 0 then []
    else
      var last := names[|names| - 1];
      ThemeNames(names[..|names| - 1]) + (if IsThemeFile(last) then [Stem(last)] else [])
  }

  /** A name is listed exactly when some theme file in the listing has it
      as its stem. */
  lemma {:induction false} ThemeNamesMembers(names: seq<string>, t: string)
    ensures t in ThemeNames(names) <==> exists n :: n in names && IsThemeFile(n) && Stem(n) == t
  {
    if |names| > 0 {
      var front := names[..|names| - 1];
      ThemeNamesMembers(front, t);
      assert names == front + [names[|names| - 1]];
      if exists n :: n in names && IsThemeFile(n) && Stem(n) == t {
        var n :| n in names && IsThemeFile(n) && Stem(n) == t;
        if n != names[|names| - 1] {
          assert n in front;
        }
      }
    }
  }

  /** The file a backup of `name` is written to. */
  function BackupFile(name: string): string { name + "_backup.json" }

  /** A backup file is a theme file, listed under `<name>_backup`. */
  lemma BackupIsListed(name: string)
    ensures IsThemeFile(BackupFile(name))
    ensures Stem(BackupFile(name)) == name + "_backup"
  {
    var b := BackupFile(name);
    assert b[|b| - 5..] == ".json";
    assert b[|b| - 11] == 'b' && TemplateFile[8] == '_';
    assert b[..|b| - 5] == name + "_backup";
    var root := b[..|b| - 5];
    assert root[|root| - 1] == 'p';
  }

  /** Once a backup has been written into the themes folder, `get_themes`
      reports it as a theme of its own. */
  lemma BackupListedAsTheme(files: seq<(Path, Option<Json>)>, dir: string, name: string, content: Option<Json>)
    ensures name + "_backup" in ThemeNames(NamesIn(Put(files, Path(dir, BackupFile(name)), content), dir))
  {
    var after := Put(files, Path(dir, BackupFile(name)), content);
    PutLookup(files, Path(dir, BackupFile(name)), content, Path(dir, BackupFile(name)));
    assert BackupFile(name) in NamesIn(after, dir);
    BackupIsListed(name);
    ThemeNamesMembers(NamesIn(after, dir), name + "_backup");
  }

  /** Backing a theme up and restoring it straight away leaves the theme's
      file as it was. */
  lemma BackupRestoreRoundTrip(files: seq<(Path, Option<Json>)>, dir: string, name: string)
    requires HasKey(files, Path(dir, name + ".json"))
    ensures var original := Path(dir, name + ".json");
            var backup := Path(dir, BackupFile(name));
            var backedUp := Put(files, backup, Lookup(files, original).value);
            HasKey(backedUp, backup) &&
            Lookup(Put(backedUp, original, Lookup(backedUp, backup).value), original) == Lookup(files, original)
  {
    var original := Path(dir, name + ".json");
    var backup := Path(dir, BackupFile(name));
    assert |original.name| != |backup.name|;
    var backedUp := Put(files, backup, Lookup(files, original).value);
    PutLookup(files, backup, Lookup(files, original).value, backup);
    PutLookup(files, backup, Lookup(files, original).value, original);
    PutLookup(backedUp, original, Lookup(backedUp, backup).value, original);
  }

  // ------------------------------------------------------------- validation

  /** How `validate_theme_data` ends: normally, with a ValueError and its
      message, or with a TypeError from an operation the data does not
      support. */
  datatype Verdict = Passed | ValueError(message: string) | TypeError

  /** The check `key not in c` for each key in turn: the first absent key
      raises ValueError(prefix + key). */
  function FirstMissing(c: Json, keys: seq<string>, prefix: string): (r: Verdict)
    ensures r == Passed <==> forall k :: k in keys ==> PyIn(k, c) == Some(true)
    ensures r.TypeError? <==> |keys| > 0 && PyIn(keys[0], c).None?
  {
    if |keys| == 0 then Passed
    else
      match PyIn(keys[0], c)
      case None => TypeError
      case Some(false) => ValueError(prefix + keys[0])
      case Some(true) =>
        var r := FirstMissing(c, keys[1..], prefix);
        assert forall k :: k in keys ==> k == keys[0] || k in keys[1..];
        assert forall i :: 1 <= i < |keys| ==> keys[i] == keys[1..][i - 1];
        r
  }

  predicate IsColor(v: Json) { v.JStr? || v.JObj? }
  /** `isinstance(item, (str, int))`; a bool is an int in Python. */
  predicate IsFontPart(v: Json) { v.JStr? || v.JInt? || v.JBool? }
  predicate IsFont(v: Json) { v.JArr? && forall x :: x in v.items ==> IsFontPart(x) }

  /** The first color entry that is neither a string nor a dict. */
  function CheckColors(members: seq<(string, Json)>): (r: Verdict)
    ensures r == Passed <==> forall i :: 0 <= i < |members| ==> IsColor(members[i].1)
    ensures !r.TypeError?
  {
    if |members| == 0 then Passed
    else if !IsColor(members[0].1) then
      ValueError("Color '" + members[0].0 + "' has an invalid format. Expected a hex string or a dictionary.")
    else
      var r := CheckColors(members[1..]);
      assert forall i :: 1 <= i < |members| ==> members[i] == members[1..][i - 1];
      r
  }

  /** The first font entry that is not a list of strings and integers. */
  function CheckFonts(members: seq<(string, Json)>): (r: Verdict)
    ensures r == Passed <==> forall i :: 0 <= i < |members| ==> IsFont(members[i].1)
    ensures !r.TypeError?
  {
    if |members| == 0 then Passed
    else if !IsFont(members[0].1) then
      ValueError("Font '" + members[0].0 + "' has an invalid format. Expected a list of strings and/or integers.")
    else
      var r := CheckFonts(members[1..]);
      assert forall i :: 1 <= i < |members| ==> members[i] == members[1..][i - 1];
      r
  }

  /** `'configure' in details or 'map' in details`, None when `in` raises. */
  function HasStyleKey(details: Json): Option<bool> {
    match PyIn("configure", details)
    case None => None
    case Some(true) => Some(true)
    case Some(false) => PyIn("map", details)
  }

  /** The first style with neither a `configure` nor a `map` entry. */
  function CheckStyles(members: seq<(string, Json)>): (r: Verdict)
    ensures r == Passed <==> forall i :: 0 <= i < |members| ==> HasStyleKey(members[i].1) == Some(true)
  {
    if |members| == 0 then Passed
    else
      match HasStyleKey(members[0].1)
      case None => TypeError
      case Some(false) =>
        ValueError("'" + members[0].0 + "' in 'ttkStyles' must have either 'configure' or 'map' keys.")
      case Some(true) =>
        var r := CheckStyles(members[1..]);
        assert forall i :: 1 <= i < |members| ==> members[i] == members[1..][i - 1];
        r
  }

  /** `validate_theme_data(theme_data)`, check by check in the source's order. */
  function ValidateThemeData(data: Json): Verdict {
    var top := FirstMissing(data, RequiredKeys, "Theme data missing required key: ");
    if top != Passed then top
    else if !data.JObj? then TypeError
    else
      assert "theme_info" in RequiredKeys && "colors" in RequiredKeys;
      assert "fonts" in RequiredKeys && "ttkStyles" in RequiredKeys;
      var info := Lookup(data.members, "theme_info").value;
      var colors := Lookup(data.members, "colors").value;
      var fonts := Lookup(data.members, "fonts").value;
      var styles := Lookup(data.members, "ttkStyles").value;
      var infoCheck := FirstMissing(info, ThemeInfoKeys, "'theme_info' missing required key: ");
      if infoCheck != Passed then infoCheck
      else if !colors.JObj? then ValueError("'colors' must be a dictionary.")
      else if CheckColors(colors.members) != Passed then CheckColors(colors.members)
      else if !fonts.JObj? then ValueError("'fonts' must be a dictionary.")
      else if CheckFonts(fonts.members) != Passed then CheckFonts(fonts.members)
      else if !styles.JObj? then ValueError("'ttkStyles' must be a dictionary.")
      else CheckStyles(styles.members)
  }

  /** The structure a theme must have, stated directly. */
  predicate WellFormedTheme(data: Json) {
    && data.JObj?
    && (forall k :: k in RequiredKeys ==> HasKey(data.members, k))
    && WellFormedSections(Lookup(data.members, "theme_info").value, Lookup(data.members, "colors").value,
                          Lookup(data.members, "fonts").value, Lookup(data.members, "ttkStyles").value)
  }

  /** The four sections: `theme_info` has its keys, `colors` maps to
      strings or dicts, `fonts` to lists of strings and integers, and every
      style has a `configure` or `map` entry. */
  predicate WellFormedSections(info: Json, colors: Json, fonts: Json, styles: Json) {
    && (forall k :: k in ThemeInfoKeys ==> PyIn(k, info) == Some(true))
    && colors.JObj? && AllColors(colors.members)
    && fonts.JObj? && AllFonts(fonts.members)
    && styles.JObj? && AllStyled(styles.members)
  }

  predicate AllColors(ms: seq<(string, Json)>) { forall m :: m in ms ==> IsColor(m.1) }
  predicate AllFonts(ms: seq<(string, Json)>) { forall m :: m in ms ==> IsFont(m.1) }
  predicate AllStyled(ms: seq<(string, Json)>) { forall m :: m in ms ==> HasStyleKey(m.1) == Some(true) }

  /** The section checks pass exactly for well-formed sections. */
  lemma SectionChecks(info: Json, colors: Json, fonts: Json, styles: Json)
    ensures (&& FirstMissing(info, ThemeInfoKeys, "'theme_info' missing required key: ") == Passed
             && colors.JObj? && CheckColors(colors.members) == Passed
             && fonts.JObj? && CheckFonts(fonts.members) == Passed
             && styles.JObj? && CheckStyles(styles.members) == Passed)
            <==> WellFormedSections(info, colors, fonts, styles)
  {
    ColorsPass(colors);
    FontsPass(fonts);
    StylesPass(styles);
  }

  lemma ColorsPass(colors: Json)
    ensures colors.JObj? ==> (CheckColors(colors.members) == Passed <==> AllColors(colors.members))
  {
    if colors.JObj? {
      var ms := colors.members;
      assert AllColors(ms) <==> (forall i :: 0 <= i < |ms| ==> IsColor(ms[i].1));
    }
  }

  lemma FontsPass(fonts: Json)
    ensures fonts.JObj? ==> (CheckFonts(fonts.members) == Passed <==> AllFonts(fonts.members))
  {
    if fonts.JObj? {
      var ms := fonts.members;
      assert AllFonts(ms) <==> (forall i :: 0 <= i < |ms| ==> IsFont(ms[i].1));
    }
  }

  lemma StylesPass(styles: Json)
    ensures styles.JObj? ==> (CheckStyles(styles.members) == Passed <==> AllStyled(styles.members))
  {
    if styles.JObj? {
      var ms := styles.members;
      assert AllStyled(ms) <==> (forall i :: 0 <= i < |ms| ==> HasStyleKey(ms[i].1) == Some(true));
    }
  }

  /** Validation returns normally exactly for well-formed themes. */
  lemma ValidateIffWellFormed(data: Json)
    ensures ValidateThemeData(data) == Passed <==> WellFormedTheme(data)
  {
    var top := FirstMissing(data, RequiredKeys, "Theme data missing required key: ");
    if top == Passed && data.JObj? {
      assert "colors" in RequiredKeys && "fonts" in RequiredKeys && "ttkStyles" in RequiredKeys;
      assert "theme_info" in RequiredKeys;
      SectionChecks(Lookup(data.members, "theme_info").value, Lookup(data.members, "colors").value,
                    Lookup(data.members, "fonts").value, Lookup(data.members, "ttkStyles").value);
    } else if top == Passed {
      assert PyIn(RequiredKeys[0], data) == Some(true);
    } else {
      assert !(forall k :: k in RequiredKeys ==> PyIn(k, data) == Some(true));
    }
  }

  /** The keys are checked in order: the first absent one is the one reported. */
  lemma {:induction false} FirstMissingReportsFirst(c: Json, keys: seq<string>, prefix: string, i: nat)
    requires i < |keys| && PyIn(keys[i], c) == Some(false)
    requires forall j :: 0 <= j < i ==> PyIn(keys[j], c) == Some(true)
    ensures FirstMissing(c, keys, prefix) == ValueError(prefix + keys[i])
  {
    if i > 0 {
      assert PyIn(keys[0], c) == Some(true);
      assert forall j :: 0 <= j < i - 1 ==> keys[1..][j] == keys[j + 1];
      FirstMissingReportsFirst(c, keys[1..], prefix, i - 1);
    }
  }

  lemma FirstMissingKeyReported(data: Json, i: nat)
    requires data.JObj? && i < |RequiredKeys|
    requires !HasKey(data.members, RequiredKeys[i])
    requires forall j :: 0 <= j < i ==> HasKey(data.members, RequiredKeys[j])
    ensures ValidateThemeData(data) == ValueError("Theme data missing required key: " + RequiredKeys[i])
  {
    assert forall j :: 0 <= j < i ==> PyIn(RequiredKeys[j], data) == Some(true);
    FirstMissingReportsFirst(data, RequiredKeys, "Theme data missing required key: ", i);
  }

  /** `color_and_font_keys` is not enforced: a theme with empty color, font
      and style sections passes. */
  lemma EmptySectionsPass(info: Json)
    requires info.JObj? && forall k :: k in ThemeInfoKeys ==> HasKey(info.members, k)
    ensures ValidateThemeData(JObj([("theme_info", info), ("colors", JObj([])),
                                    ("fonts", JObj([])), ("ttkStyles", JObj([]))])) == Passed
  {
    var members := [("theme_info", info), ("colors", JObj([])), ("fonts", JObj([])), ("ttkStyles", JObj([]))];
    assert Lookup(members, "theme_info") == Some(info);
    assert Lookup(members, "colors") == Some(JObj([]));
    assert Lookup(members[3..], "ttkStyles") == Some(JObj([]));
    assert Lookup(members[2..], "fonts") == Some(JObj([]));
    assert Lookup(members[2..], "ttkStyles") == Lookup(members[2..][1..], "ttkStyles");
    assert members[2..][1..] == members[3..] && members[1..][1..] == members[2..];
    assert Lookup(members, "fonts") == Lookup(members[1..], "fonts") == Lookup(members[2..], "fonts");
    assert Lookup(members, "ttkStyles") == Lookup(members[1..], "ttkStyles") == Lookup(members[2..], "ttkStyles");
    assert forall k :: k in RequiredKeys ==> HasKey(members, k);
    assert FirstMissing(JObj(members), RequiredKeys, "Theme data missing required key: ") == Passed;
    assert FirstMissing(info, ThemeInfoKeys, "'theme_info' missing required key: ") == Passed;
  }

  // ------------------------------------------------------------------ model

  class ThemeModel {
    const disk: Disk
    const themesDirectory: string

    constructor (disk: Disk, themesDirectory: string)
      ensures this.disk == disk && this.themesDirectory == themesDirectory
    {
      this.disk := disk;
      this.themesDirectory := themesDirectory;
    }

    /** The file of theme `name`. */
    function ThemeFile(name: string): Path
      reads this
    {
      Path(themesDirectory, name + ".json")
    }

    /** `get_themes()`: None when the folder cannot be listed. */
    method GetThemes() returns (themes: Option<seq<string>>)
      ensures themes.None? <==> disk.ListDir(themesDirectory).None?
      ensures themes.Some? ==> themes.value == ThemeNames(disk.ListDir(themesDirectory).value)
    {
      var listing := disk.ListDir(themesDirectory);
      if listing.None? {
        return None;
      }
      var names := listing.value;
      var found: seq<string> := [];
      var i := 0;
      while i < |names|
        invariant 0 <= i <= |names|
        invariant found == ThemeNames(names[..i])
      {
        var filename := names[i];
        assert names[..i + 1][..i] == names[..i] && names[..i + 1][i] == filename;
        if IsThemeFile(filename) {
          found := found + [Stem(filename)];
        } else {
          assert found + [] == found;
        }
        i := i + 1;
      }
      assert names[..i] == names;
      return Some(found);
    }

    /** `get_theme_data(name)`: None when the file is missing or not JSON. */
    method GetThemeData(name: string) returns (data: Option<Json>)
      ensures data == disk.Load(ThemeFile(name))
      ensures data.Some? ==> disk.Exists(ThemeFile(name))
    {
      data := disk.Load(ThemeFile(name));
    }

    /** `save_theme_data(name, data)`: False when the write is refused. */
    method SaveThemeData(name: string, data: Json) returns (ok: bool)
      modifies disk
      ensures ok <==> themesDirectory in disk.writable
      ensures ok ==> disk.files == Put(old(disk.files), ThemeFile(name), Some(data))
      ensures !ok ==> disk.files == old(disk.files)
    {
      ok := disk.Dump(ThemeFile(name), data);
    }

    /** `backup_theme_data(name)`: copies the theme's file to
        `<name>_backup.json` when the file exists. */
    method BackupThemeData(name: string) returns (copied: bool)
      modifies disk
      ensures copied <==> old(disk.Exists(ThemeFile(name))) && themesDirectory in disk.writable
      ensures copied ==> disk.files == Put(old(disk.files), Path(themesDirectory, BackupFile(name)),
                                           Lookup(old(disk.files), ThemeFile(name)).value)
      ensures !copied ==> disk.files == old(disk.files)
    {
      copied := false;
      if disk.Exists(ThemeFile(name)) {
        copied := disk.Copy(ThemeFile(name), Path(themesDirectory, BackupFile(name)));
      }
    }

    /** `restore_theme_data_from_backup(name)`: copies the backup over the
        theme's file when the backup exists. */
    method RestoreThemeDataFromBackup(name: string) returns (copied: bool)
      modifies disk
      ensures copied <==> old(disk.Exists(Path(themesDirectory, BackupFile(name)))) && themesDirectory in disk.writable
      ensures copied ==> disk.files == Put(old(disk.files), ThemeFile(name),
                                           Lookup(old(disk.files), Path(themesDirectory, BackupFile(name))).value)
      ensures !copied ==> disk.files == old(disk.files)
    {
      copied := false;
      var backup := Path(themesDirectory, BackupFile(name));
      if disk.Exists(backup) {
        copied := disk.Copy(backup, ThemeFile(name));
      }
    }
  }
}
