/** The configuration model behind the preferences window: named JSON
    configurations, each with a user copy and a shipped default, read with a
    fallback, written only where writing is allowed, and checked against a
    small set of rules. */
module ConfigurationModel {
  import opened Common
  import opened JsonValue
  import opened Files

  /** The keys every configuration must carry, in the order they are checked. */
  const RequiredKeys: seq<string> := ["theme", "logging_level", "auto_update"]
  /** The values `logging_level` may take. */
  const LoggingLevels: seq<Json> := [JStr("DEBUG"), JStr("INFO"), JStr("WARNING"), JStr("ERROR"), JStr("CRITICAL")]
  const MissingKeyMessage := "Missing required configuration key: "
  const InvalidLevelMessage := "Invalid logging level"

  /** `get_config_path(name, is_user_config)`: the file name is
      `user_<name>_config.json` in the user's "config" folder, or
      `default_<name>_config.json` in the default directory. */
  function ConfigPath(userConfigDir: string, defaultDir: string, name: string, isUser: bool): (p: Path)
    ensures isUser ==> p.dir == userConfigDir && StartsWith(p.name, "user_")
    ensures !isUser ==> p.dir == defaultDir && StartsWith(p.name, "default_")
    ensures EndsWith(p.name, name + "_config.json")
  {
    var fileName := name + "_config.json";
    if isUser then Path(userConfigDir, "user_" + fileName)
    else Path(defaultDir, "default_" + fileName)
  }

  /** Different configuration names never share a file, and a user file is
      never a default file, even when the two folders coincide. */
  lemma ConfigPathInjective(userConfigDir: string, defaultDir: string, a: string, ua: bool, b: string, ub: bool)
    requires ConfigPath(userConfigDir, defaultDir, a, ua) == ConfigPath(userConfigDir, defaultDir, b, ub)
    ensures a == b && ua == ub
  {
    var pa := ConfigPath(userConfigDir, defaultDir, a, ua);
    assert pa.name[0] == (if ua then 'u' else 'd');
    assert pa.name[0] == (if ub then 'u' else 'd');
    var prefix := if ua then "user_" else "default_";
    assert pa.name == prefix + a + "_config.json" == prefix + b + "_config.json";
    assert |a| == |b|;
    assert a == pa.name[|prefix|..|prefix| + |a|];
    assert b == pa.name[|prefix|..|prefix| + |b|];
  }

  /** `read_config`: the user file if it exists, else the default file if it
      exists, else an empty dict. A file that exists but is not JSON makes
      `json.load` raise (None); there is no fallback past it. */
  function Read(files: seq<(Path, Option<Json>)>, userPath: Path, defaultPath: Path): (r: Option<Json>)
    ensures HasKey(files, userPath) ==> r == LoadFrom(files, userPath)
    ensures !HasKey(files, userPath) && HasKey(files, defaultPath) ==> r == LoadFrom(files, defaultPath)
    ensures !HasKey(files, userPath) && !HasKey(files, defaultPath) ==> r == Some(JObj([]))
  {
    if HasKey(files, userPath) then LoadFrom(files, userPath)
    else if HasKey(files, defaultPath) then LoadFrom(files, defaultPath)
    else Some(JObj([]))
  }

  /** What `write_config` stored is what `read_config` returns next. */
  lemma WriteThenRead(files: seq<(Path, Option<Json>)>, userPath: Path, defaultPath: Path, data: Json)
    ensures Read(Put(files, userPath, Some(data)), userPath, defaultPath) == Some(data)
  {
    DumpThenLoad(files, userPath, data, userPath);
  }

  /** The messages for the required keys `config` lacks, in the order of `keys`;
      None when `key in config` raises (the document is not a container). */
  function MissingKeyErrors(config: Json, keys: seq<string>): (r: Option<seq<string>>)
    ensures r.None? <==> |keys| > 0 && PyIn(keys[0], config).None?
    ensures r.Some? ==> |r.value| <= |keys|
    decreases |keys|
  {
    if |keys| == 0 then Some([])
    else
      var front := MissingKeyErrors(config, keys[..|keys| - 1]);
      var isIn := PyIn(keys[|keys| - 1], config);
      if front.None? || isIn.None? then None
      else Some(front.value + (if isIn.value then [] else [MissingKeyMessage + keys[|keys| - 1]]))
  }

  /** For a dict, the message of a required key is reported exactly when
      the key is absent. */
  lemma {:induction false} MissingKeyErrorsOfDict(config: Json, keys: seq<string>)
    requires config.JObj?
    ensures MissingKeyErrors(config, keys).Some?
    ensures forall k :: k in keys ==>
              (MissingKeyMessage + k in MissingKeyErrors(config, keys).value <==> !HasKey(config.members, k))
    decreases |keys|
  {
    if |keys| > 0 {
      var front := keys[..|keys| - 1];
      var last := keys[|keys| - 1];
      MissingKeyErrorsOfDict(config, front);
      MissingAreMessages(config, front);
      forall k | k in keys
        ensures MissingKeyMessage + k in MissingKeyErrors(config, keys).value <==> !HasKey(config.members, k)
      {
        MessageInjective(k, keys);
        if k !in front {
          assert k == last;
          if MissingKeyMessage + k in MissingKeyErrors(config, front).value {
            var j :| j in front && !(PyIn(j, config) == Some(true)) && MissingKeyMessage + k == MissingKeyMessage + j;
            MessageInjective(k, front);
          }
        }
      }
    }
  }

  /** The message for a key names that key. */
  lemma MessageInjective(k: string, keys: seq<string>)
    ensures forall j :: j in keys && MissingKeyMessage + k == MissingKeyMessage + j ==> j == k
  {
    forall j | j in keys && MissingKeyMessage + k == MissingKeyMessage + j
      ensures j == k
    {
      assert k == (MissingKeyMessage + k)[|MissingKeyMessage|..];
      assert j == (MissingKeyMessage + j)[|MissingKeyMessage|..];
    }
  }

  /** Whether the logging level check fails: Some(true) when `logging_level`
      is present and not one of the allowed levels; None when reading it
      raises (a list or str has no str subscript). */
  function BadLevel(config: Json): Option<bool> {
    match PyIn("logging_level", config)
    case None => None
    case Some(false) => Some(false)
    case Some(true) =>
      if config.JObj? then Some(Lookup(config.members, "logging_level").value !in LoggingLevels)
      else None
  }

  /** The error list `validate_config` builds, or None when it raises. */
  function ConfigErrors(config: Json): Option<seq<string>> {
    var missing := MissingKeyErrors(config, RequiredKeys);
    var bad := BadLevel(config);
    if missing.None? || bad.None? then None
    else Some(missing.value + (if bad.value then [InvalidLevelMessage] else []))
  }

  /** For a dict: one message per absent required key, one for a present but
      unknown logging level, nothing else; so at most four, and none exactly
      when every key is there with an allowed level. */
  lemma ConfigErrorsOfDict(config: Json)
    requires config.JObj?
    ensures ConfigErrors(config).Some?
    ensures |ConfigErrors(config).value| <= 4
    ensures forall k :: k in RequiredKeys ==>
              (MissingKeyMessage + k in ConfigErrors(config).value <==> !HasKey(config.members, k))
    ensures InvalidLevelMessage in ConfigErrors(config).value <==>
              HasKey(config.members, "logging_level") &&
              Lookup(config.members, "logging_level").value !in LoggingLevels
    ensures ConfigErrors(config).value == [] <==>
              (forall k :: k in RequiredKeys ==> HasKey(config.members, k)) &&
              Lookup(config.members, "logging_level").value in LoggingLevels
  {
    MissingKeyErrorsOfDict(config, RequiredKeys);
    var missing := MissingKeyErrors(config, RequiredKeys).value;
    assert InvalidLevelMessage !in missing by {
      if InvalidLevelMessage in missing {
        assert forall k :: k in RequiredKeys ==> InvalidLevelMessage != MissingKeyMessage + k by {
          assert InvalidLevelMessage[0] != MissingKeyMessage[0];
        }
        MissingAreMessages(config, RequiredKeys);
      }
    }
    if forall k :: k in RequiredKeys ==> HasKey(config.members, k) {
      assert forall m :: m in missing ==> false by {
        MissingAreMessages(config, RequiredKeys);
      }
      assert missing == [];
    } else {
      var k :| k in RequiredKeys && !HasKey(config.members, k);
      assert MissingKeyMessage + k in missing;
    }
  }

  /** Every message of `MissingKeyErrors` is the message of one of the keys. */
  lemma {:induction false} MissingAreMessages(config: Json, keys: seq<string>)
    requires MissingKeyErrors(config, keys).Some?
    ensures forall m :: m in MissingKeyErrors(config, keys).value ==>
              exists k :: k in keys && !(PyIn(k, config) == Some(true)) && m == MissingKeyMessage + k
    decreases |keys|
  {
    if |keys| > 0 {
      MissingAreMessages(config, keys[..|keys| - 1]);
      assert forall k :: k in keys[..|keys| - 1] ==> k in keys;
    }
  }

  class ConfigurationModel {
    const disk: Disk
    /** The application's default configuration directory. */
    const defaultConfigPath: string
    /** The user's "config" folder, as the platform's path resolution gives it. */
    const userConfigDir: string

    constructor (disk: Disk, configDirectory: string, userConfigDir: string)
      ensures this.disk == disk && defaultConfigPath == configDirectory && this.userConfigDir == userConfigDir
    {
      this.disk := disk;
      defaultConfigPath := configDirectory;
      this.userConfigDir := userConfigDir;
    }

    function GetConfigPath(name: string, isUser: bool): Path
      reads this
    {
      ConfigPath(userConfigDir, defaultConfigPath, name, isUser)
    }

    /** `read_config(name)` */
    method ReadConfig(name: string) returns (r: Option<Json>)
      ensures r == Read(disk.files, GetConfigPath(name, true), GetConfigPath(name, false))
    {
      var userPath := GetConfigPath(name, true);
      if disk.Exists(userPath) {
        return disk.Load(userPath);
      }
      var defaultPath := GetConfigPath(name, false);
      if disk.Exists(defaultPath) {
        return disk.Load(defaultPath);
      }
      return Some(JObj([]));
    }

    /** `write_config(name, data)`: the user file is written only when its
        folder passes the write-permission probe; otherwise only a message
        is printed. */
    method WriteConfig(name: string, data: Json) returns (written: bool)
      modifies disk
      ensures written <==> userConfigDir in disk.writable
      ensures written ==> disk.files == Put(old(disk.files), GetConfigPath(name, true), Some(data))
      ensures !written ==> disk.files == old(disk.files)
    {
      var userPath := GetConfigPath(name, true);
      if userPath.dir in disk.writable {
        written := disk.Dump(userPath, data);
      } else {
        written := false;
      }
    }
  }

  /** `validate_config(config)`: (is_valid, errors), or None when a
      membership test or the level lookup raises. */
  method ValidateConfig(config: Json) returns (r: Option<(bool, seq<string>)>)
    ensures r.None? <==> ConfigErrors(config).None?
    ensures r.Some? ==> r.value.1 == ConfigErrors(config).value && (r.value.0 <==> r.value.1 == [])
  {
    var errors: seq<string> := [];
    var i := 0;
    while i < |RequiredKeys|
      invariant 0 <= i <= |RequiredKeys|
      invariant MissingKeyErrors(config, RequiredKeys[..i]) == Some(errors)
    {
      var key := RequiredKeys[i];
      var isIn := PyIn(key, config);
      assert RequiredKeys[..i + 1][..i] == RequiredKeys[..i] && RequiredKeys[..i + 1][i] == key;
      if isIn.None? {
        assert PyIn(RequiredKeys[0], config).None?;
        return None;
      }
      assert errors + [] == errors;
      if !isIn.value {
        errors := errors + [MissingKeyMessage + key];
      }
      i := i + 1;
    }
    assert RequiredKeys[..i] == RequiredKeys;
    var hasLevel := PyIn("logging_level", config);
    if hasLevel.value {
      if !config.JObj? {
        return None;
      }
      var level := Lookup(config.members, "logging_level").value;
      if level !in LoggingLevels {
        errors := errors + [InvalidLevelMessage];
      }
    }
    return Some((|errors| == 0, errors));
  }
}
