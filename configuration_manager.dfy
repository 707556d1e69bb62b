/** The user-preference store: a JSON document loaded from the user's file
    (or the shipped default), read key by key and written back whole after
    every change. */
module ConfigurationManager {
  import opened Common
  import opened JsonValue
  import opened Files

  /** `configurations.get(key, default)`. A document that is not a dict has
      no `get` (an AttributeError, None here). Keys are compared literally. */
  function Get(configurations: Json, key: string, default: Json): (r: Option<Json>)
    ensures r.Some? <==> configurations.JObj?
    ensures configurations.JObj? && HasKey(configurations.members, key) ==>
              r == Lookup(configurations.members, key)
    ensures configurations.JObj? && !HasKey(configurations.members, key) ==> r == Some(default)
  {
    if configurations.JObj? then Some(Lookup(configurations.members, key).GetOr(default)) else None
  }

  /** `configurations[key] = value`: a dict gains or overwrites the key; any
      other document rejects a str subscript (a TypeError, None here). */
  function Set(configurations: Json, key: string, value: Json): (r: Option<Json>)
    ensures r.Some? <==> configurations.JObj?
    ensures r.Some? ==> r.value.JObj?
    ensures r.Some? && HasKey(configurations.members, key) ==>
              KeysOf(r.value.members) == KeysOf(configurations.members)
    ensures r.Some? && !HasKey(configurations.members, key) ==>
              KeysOf(r.value.members) == KeysOf(configurations.members) + [key]
  {
    if configurations.JObj? then
      PutKeys(configurations.members, key, value);
      assert HasKey(configurations.members, key) <==> key in KeysOf(configurations.members);
      Some(JObj(Put(configurations.members, key, value)))
    else None
  }

  /** What `get_configuration` answers after `set_configuration(key, value)`:
      `value` for that key, the old answer for every other key. */
  lemma {:induction false} GetAfterSet(c: Json, key: string, value: Json, other: string, default: Json)
    requires c.JObj?
    ensures Get(Set(c, key, value).value, key, default) == Some(value)
    ensures other != key ==> Get(Set(c, key, value).value, other, default) == Get(c, other, default)
  {
    PutLookup(c.members, key, value, key);
    PutLookup(c.members, key, value, other);
  }

  /** A stored value is returned as it is, however falsy. */
  lemma FalsyValueIsReturned(c: Json, key: string, stored: Json, default: Json)
    requires c.JObj? && Lookup(c.members, key) == Some(stored)
    requires stored == JNull || stored == JBool(false) || stored == JStr("") || stored == JInt(0)
    ensures Get(c, key, default) == Some(stored)
  {
  }

  /** A dotted key is not a path: "a.b" does not reach `b` inside `a`. */
  lemma {:induction false} DottedKeyIsLiteral(a: string, b: string, v: Json, default: Json)
    ensures Get(JObj([(a, JObj([(b, v)]))]), a + "." + b, default) == Some(default)
  {
    var c := JObj([(a, JObj([(b, v)]))]);
    assert |a + "." + b| > |a|;
    assert !HasKey(c.members, a + "." + b);
  }

  class ConfigurationManager {
    const disk: Disk
    /** `user_<name>.json` in the user's configuration folder. */
    const configFile: Path
    /** `default_<name>.json` in the application's configuration folder. */
    const defaultConfigFile: Path
    var configurations: Json

    /** `ConfigurationManager(name)`. The two folders come from the
        platform's path resolution and are parameters here. */
    constructor (disk: Disk, userConfigDir: string, configDir: string, configName: string)
      ensures this.disk == disk
      ensures configFile == Path(userConfigDir, "user_" + configName + ".json")
      ensures defaultConfigFile == Path(configDir, "default_" + configName + ".json")
      ensures disk.Load(configFile).Some? ==> configurations == disk.Load(configFile).value
      ensures disk.Load(configFile).None? && disk.Load(defaultConfigFile).Some? ==>
                configurations == disk.Load(defaultConfigFile).value
      ensures disk.Load(configFile).None? && disk.Load(defaultConfigFile).None? ==>
                configurations == JObj([])
    {
      this.disk := disk;
      configFile := Path(userConfigDir, "user_" + configName + ".json");
      defaultConfigFile := Path(configDir, "default_" + configName + ".json");
      new;
      configurations := LoadConfigurations();
    }

    /** The user file when it exists and parses, else the default file when
        it parses, else an empty dict; failures are only logged. */
    method LoadConfigurations() returns (c: Json)
      ensures disk.Load(configFile).Some? ==> c == disk.Load(configFile).value
      ensures disk.Load(configFile).None? && disk.Load(defaultConfigFile).Some? ==>
                c == disk.Load(defaultConfigFile).value
      ensures disk.Load(configFile).None? && disk.Load(defaultConfigFile).None? ==> c == JObj([])
    {
      if disk.Exists(configFile) {
        var user := disk.Load(configFile);
        if user.Some? {
          return user.value;
        }
      }
      var fallback := disk.Load(defaultConfigFile);
      if fallback.Some? {
        return fallback.value;
      }
      return JObj([]);
    }

    /** `get_configuration(key, default)` */
    function GetConfiguration(key: string, default: Json): Option<Json>
      reads this
    {
      Get(configurations, key, default)
    }

    /** `set_configuration(key, value)`: the in-memory document is updated
        and the whole document is saved; a failed save is logged and the
        update is kept. A document that is not a dict raises before either. */
    method SetConfiguration(key: string, value: Json) returns (raised: bool, saved: bool)
      modifies this, disk
      ensures raised <==> !old(configurations).JObj?
      ensures raised ==> configurations == old(configurations) && disk.files == old(disk.files) && !saved
      ensures !raised ==> Set(old(configurations), key, value) == Some(configurations)
      ensures !raised ==> (saved <==> configFile.dir in disk.writable)
      ensures saved ==> disk.files == Put(old(disk.files), configFile, Some(configurations))
      ensures !saved ==> disk.files == old(disk.files)
    {
      var updated := Set(configurations, key, value);
      if updated.None? {
        return true, false;
      }
      configurations := updated.value;
      saved := SaveConfigurations();
      raised := false;
    }

    /** `save_configurations()`: the whole document is written to the user
        file; a refused write is logged, not raised. */
    method SaveConfigurations() returns (saved: bool)
      modifies disk
      ensures saved <==> configFile.dir in disk.writable
      ensures saved ==> disk.files == Put(old(disk.files), configFile, Some(configurations))
      ensures !saved ==> disk.files == old(disk.files)
    {
      saved := disk.Dump(configFile, configurations);
    }
  }
}
