/** The application's loggers: one instance per logger name, kept in a
    registry shared by every caller, each configured from the user's logging
    configuration when it exists and the bundled default otherwise, with the
    handlers' log files moved into the application's logs directory. The
    effect of `logging.config.dictConfig` on Python's logging module is not
    modelled; the configuration handed to it is recorded instead. */
module CustomLogger {
  import opened Common
  import opened JsonValue
  import opened Files

  /** Where the configurations live and where the logs go. `logsBase` is
      the logs directory as `get_file_path("", "logs", ...)` returns it,
      ending in a separator, so a file name is appended to it directly. */
  datatype LogPaths = LogPaths(userConfig: Path, defaultConfig: Path, logsBase: string)

  /** The log file a handler with a filename is sent to: error handlers
      share one file, every other handler writes to the logger's own. */
  function LogFileFor(handler: seq<(string, Json)>, name: string): string {
    if Lookup(handler, "level") == Some(JStr("ERROR")) then "error.log" else name + ".log"
  }

  /** One pass of the handler loop over `handler`. A dict with a
      "filename" gets the new file name; a dict without one is left as it
      is. Any other value fails: `in` raises TypeError on most kinds, and a
      str or list that passes the `in` test has no `get`. */
  function RewriteHandler(handler: Json, logsBase: string, name: string): Option<Json> {
    match PyIn("filename", handler)
    case None => None
    case Some(false) => Some(handler)
    case Some(true) =>
      if handler.JObj? then
        Some(JObj(Put(handler.members, "filename", JStr(logsBase + LogFileFor(handler.members, name)))))
      else None
  }

  /** A dict handler is rewritten in place: same keys in the same order,
      only "filename" changes, and only when it is there. */
  lemma DictHandlerRewrite(handler: Json, logsBase: string, name: string)
    requires handler.JObj?
    ensures var r := RewriteHandler(handler, logsBase, name);
            && r.Some? && r.value.JObj?
            && KeysOf(r.value.members) == KeysOf(handler.members)
            && (forall k :: k != "filename" ==> Lookup(r.value.members, k) == Lookup(handler.members, k))
            && (HasKey(handler.members, "filename") ==>
                  Lookup(r.value.members, "filename") == Some(JStr(logsBase + LogFileFor(handler.members, name))))
            && (!HasKey(handler.members, "filename") ==> r.value == handler)
  {
    var m := handler.members;
    if HasKey(m, "filename") {
      var v := JStr(logsBase + LogFileFor(m, name));
      PutKeys(m, "filename", v);
      assert "filename" in KeysOf(m) by {
        var i :| 0 <= i < |m| && m[i].0 == "filename";
        assert KeysOf(m)[i] == "filename";
      }
      forall k
        ensures Lookup(Put(m, "filename", v), k) == if k == "filename" then Some(v) else Lookup(m, k)
      {
        PutLookup(m, "filename", v, k);
      }
    }
  }

  /** An error handler and an ordinary handler end up in different files
      whenever the logger is not itself called "error". */
  lemma ErrorLogSeparate(h1: seq<(string, Json)>, h2: seq<(string, Json)>, name: string)
    requires Lookup(h1, "level") == Some(JStr("ERROR")) && Lookup(h2, "level") != Some(JStr("ERROR"))
    requires name != "error"
    ensures LogFileFor(h1, name) != LogFileFor(h2, name)
  {
    assert (name + ".log")[..|name|] == name;
    assert "error.log"[..5] == "error";
  }

  /** A value that is not a dict passes through the loop unchanged exactly
      when the `in` test finds no "filename" in it. */
  lemma OtherHandler(handler: Json, logsBase: string, name: string)
    requires !handler.JObj?
    ensures RewriteHandler(handler, logsBase, name).Some? <==> PyIn("filename", handler) == Some(false)
    ensures RewriteHandler(handler, logsBase, name).Some? ==> RewriteHandler(handler, logsBase, name).value == handler
  {
  }

  /** `hs'` is the handler dict `hs` after the whole loop: the same handler
      names in the same order, each one rewritten. */
  ghost predicate RewrittenFrom(hs': seq<(string, Json)>, hs: seq<(string, Json)>, logsBase: string, name: string) {
    && |hs'| == |hs|
    && forall i :: 0 <= i < |hs| ==>
         && RewriteHandler(hs[i].1, logsBase, name).Some?
         && hs'[i] == (hs[i].0, RewriteHandler(hs[i].1, logsBase, name).value)
  }

  /** `logging_config['handlers']` as a dict, when the configuration is a
      dict holding one (otherwise the lookup or `.values()` raises). */
  function HandlersOf(config: Json): Option<seq<(string, Json)>> {
    if config.JObj? then
      var hs := Lookup(config.members, "handlers");
      if hs.Some? && hs.value.JObj? then Some(hs.value.members) else None
    else None
  }

  /** The configuration file used: the user's if it exists. */
  function ConfigPath(disk: Disk, paths: LogPaths): (p: Path)
    reads disk
    ensures disk.Exists(paths.userConfig) ==> p == paths.userConfig
    ensures !disk.Exists(paths.userConfig) ==> p == paths.defaultConfig
  {
    if disk.Exists(paths.userConfig) then paths.userConfig else paths.defaultConfig
  }

  /** The loop over `logging_config['handlers'].values()`: every handler is
      rewritten, and the first one that cannot be ends the loop with an
      exception. */
  method RewriteHandlers(hs: seq<(string, Json)>, logsBase: string, name: string)
    returns (r: Option<seq<(string, Json)>>)
    ensures r.Some? <==> forall i :: 0 <= i < |hs| ==> RewriteHandler(hs[i].1, logsBase, name).Some?
    ensures r.Some? ==> RewrittenFrom(r.value, hs, logsBase, name)
  {
    var done: seq<(string, Json)> := [];
    var i := 0;
    while i < |hs|
      invariant 0 <= i <= |hs|
      invariant RewrittenFrom(done, hs[..i], logsBase, name)
    {
      var h := RewriteHandler(hs[i].1, logsBase, name);
      if h.None? {
        return None;
      }
      done := done + [(hs[i].0, h.value)];
      i := i + 1;
    }
    assert hs[..i] == hs;
    r := Some(done);
  }

  class CustomLogger {
    const name: string
    /** The level set on the logger; None while `self.logger` is unset. */
    var level: Option<int>
    /** The configuration handed to `dictConfig`, once it has been. */
    var applied: Option<Json>

    /** `super().__new__(cls)`: an instance not yet initialised. */
    constructor (name: string)
      ensures this.name == name && level == None && applied == None
    {
      this.name := name;
      level := None;
      applied := None;
    }

    /** `_load_logging_config(name)`: the chosen file is loaded and its
        handlers rewritten. None stands for the exception raised when the
        file is missing or not JSON, is not a dict holding a dict of
        handlers, or holds a handler the loop cannot rewrite. */
    method LoadLoggingConfig(disk: Disk, paths: LogPaths) returns (r: Option<Json>)
      ensures r == LoadedConfig(disk, paths, name)
    {
      var path := if disk.Exists(paths.userConfig) then paths.userConfig else paths.defaultConfig;
      var doc := disk.Load(path);
      if doc.None? {
        return None;
      }
      var hs := HandlersOf(doc.value);
      if hs.None? {
        return None;
      }
      var rewritten := RewriteHandlers(hs.value, paths.logsBase, name);
      if rewritten.None? {
        return None;
      }
      RewrittenUnique(rewritten.value, RewriteAll(hs.value, paths.logsBase, name), hs.value, paths.logsBase, name);
      r := Some(JObj(Put(doc.value.members, "handlers", JObj(rewritten.value))));
    }

    /** `_init_logger(name, level)`: the configuration is applied, then the
        level is set; a configuration that cannot be loaded raises before
        either happens. */
    method InitLogger(lvl: int, disk: Disk, paths: LogPaths) returns (ok: bool)
      modifies this
      ensures var loaded := LoadedConfig(disk, paths, name);
              && (ok <==> loaded.Some?)
              && (ok ==> applied == loaded && level == Some(lvl))
              && (!ok ==> applied == old(applied) && level == old(level))
    {
      var config := LoadLoggingConfig(disk, paths);
      if config.None? {
        return false;
      }
      applied := config;
      level := Some(lvl);
      ok := true;
    }
  }

  /** The configuration `_load_logging_config` produces, as a value. */
  function LoadedConfig(disk: Disk, paths: LogPaths, name: string): Option<Json>
    reads disk
  {
    var doc := disk.Load(ConfigPath(disk, paths));
    if doc.Some? && HandlersOf(doc.value).Some? then
      var hs := HandlersOf(doc.value).value;
      if forall i :: 0 <= i < |hs| ==> RewriteHandler(hs[i].1, paths.logsBase, name).Some? then
        Some(JObj(Put(doc.value.members, "handlers", JObj(RewriteAll(hs, paths.logsBase, name)))))
      else None
    else None
  }

  /** Every handler rewritten, for handlers that all can be. */
  function RewriteAll(hs: seq<(string, Json)>, logsBase: string, name: string): (r: seq<(string, Json)>)
    requires forall i :: 0 <= i < |hs| ==> RewriteHandler(hs[i].1, logsBase, name).Some?
    ensures RewrittenFrom(r, hs, logsBase, name)
  {
    if |hs| == 0 then []
    else [(hs[0].0, RewriteHandler(hs[0].1, logsBase, name).value)] + RewriteAll(hs[1..], logsBase, name)
  }

  /** The rewritten handlers are determined by the handlers they came from. */
  lemma RewrittenUnique(a: seq<(string, Json)>, b: seq<(string, Json)>, hs: seq<(string, Json)>, logsBase: string, name: string)
    requires RewrittenFrom(a, hs, logsBase, name) && RewrittenFrom(b, hs, logsBase, name)
    ensures a == b
  {
  }

  /** The configuration comes from the user's file when it exists and the
      default otherwise; it fails exactly when that file is missing or not
      JSON, has no dict of handlers, or has a handler the loop cannot
      rewrite; and it is that file's configuration with every handler
      rewritten and every other key left alone. */
  lemma LoadedConfigMeaning(disk: Disk, paths: LogPaths, name: string)
    ensures var doc := disk.Load(ConfigPath(disk, paths));
            var r := LoadedConfig(disk, paths, name);
            && (r.Some? <==>
                  && doc.Some? && HandlersOf(doc.value).Some?
                  && forall i :: 0 <= i < |HandlersOf(doc.value).value| ==>
                       RewriteHandler(HandlersOf(doc.value).value[i].1, paths.logsBase, name).Some?)
            && (r.Some? ==>
                  && doc.Some? && HandlersOf(doc.value).Some? && r.value.JObj?
                  && KeysOf(r.value.members) == KeysOf(doc.value.members)
                  && (forall k :: k != "handlers" ==> Lookup(r.value.members, k) == Lookup(doc.value.members, k))
                  && HandlersOf(r.value).Some?
                  && RewrittenFrom(HandlersOf(r.value).value, HandlersOf(doc.value).value, paths.logsBase, name))
  {
    var doc := disk.Load(ConfigPath(disk, paths));
    if LoadedConfig(disk, paths, name).Some? {
      var hs := HandlersOf(doc.value).value;
      HandlersReplaced(doc.value.members, RewriteAll(hs, paths.logsBase, name));
    }
  }

  /** Putting the rewritten handlers back keeps every other key. */
  lemma HandlersReplaced(members: seq<(string, Json)>, hs': seq<(string, Json)>)
    requires HasKey(members, "handlers")
    ensures var m := Put(members, "handlers", JObj(hs'));
            && KeysOf(m) == KeysOf(members)
            && (forall k :: k != "handlers" ==> Lookup(m, k) == Lookup(members, k))
            && Lookup(m, "handlers") == Some(JObj(hs'))
  {
    PutKeys(members, "handlers", JObj(hs'));
    assert "handlers" in KeysOf(members) by {
      var i :| 0 <= i < |members| && members[i].0 == "handlers";
      assert KeysOf(members)[i] == "handlers";
    }
    forall k
      ensures Lookup(Put(members, "handlers", JObj(hs')), k) == if k == "handlers" then Some(JObj(hs')) else Lookup(members, k)
    {
      PutLookup(members, "handlers", JObj(hs'), k);
    }
  }

  /** The class-level `_loggers` dict and the configuration sources. */
  class Registry {
    var loggers: map<string, CustomLogger>
    const disk: Disk
    const paths: LogPaths

    constructor (disk: Disk, paths: LogPaths)
      ensures loggers == map[] && this.disk == disk && this.paths == paths
    {
      loggers := map[];
      this.disk := disk;
      this.paths := paths;
    }

    /** Every registered instance is registered under its own name. */
    ghost predicate Valid()
      reads this, loggers.Values
    {
      forall n :: n in loggers ==> loggers[n].name == n
    }

    /** `CustomLogger(name, level)`: a registered name gives back its
        instance untouched, whatever the level; a new name is registered
        before its instance is initialised, so it stays registered even when
        the initialisation raises (`ok` false). */
    method Get(name: string, lvl: int) returns (l: CustomLogger, ok: bool)
      requires Valid()
      modifies this
      ensures Valid() && l.name == name
      ensures name in old(loggers) ==>
                && l == old(loggers[name]) && loggers == old(loggers) && ok
                && l.level == old(l.level) && l.applied == old(l.applied)
      ensures name !in old(loggers) ==>
                && fresh(l) && loggers == old(loggers)[name := l]
                && var loaded := LoadedConfig(disk, paths, name);
                   && (ok <==> loaded.Some?)
                   && (ok ==> l.applied == loaded && l.level == Some(lvl))
                   && (!ok ==> l.applied == None && l.level == None)
    {
      if name in loggers {
        return loggers[name], true;
      }
      l := new CustomLogger(name);
      loggers := loggers[name := l];
      ok := l.InitLogger(lvl, disk, paths);
    }
  }
}
