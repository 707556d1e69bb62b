/** The part of the file system the configuration, theme and logging code
    touch: files named by a directory and a base name, each holding either a
    JSON document `json.load` accepts or something it rejects; the
    directories that exist; and the directories the process may write in.
    A directory lists its files in creation order. */
module Files {
  import opened Common
  import opened JsonValue

  /** `os.path.join(dir, name)`, kept as its two parts. */
  datatype Path = Path(dir: string, name: string)

  /** The names of the files in `dir`, in the order of `files`. */
  function NamesIn(files: seq<(Path, Option<Json>)>, dir: string): (r: seq<string>)
    ensures forall n :: n in r <==> HasKey(files, Path(dir, n))
  {
    if |files| == 0 then []
    else
      var r := (if files[0].0.dir == dir then [files[0].0.name] else []) + NamesIn(files[1..], dir);
      assert forall n :: HasKey(files, Path(dir, n)) <==> files[0].0 == Path(dir, n) || HasKey(files[1..], Path(dir, n)) by {
        forall n
          ensures HasKey(files, Path(dir, n)) <==> files[0].0 == Path(dir, n) || HasKey(files[1..], Path(dir, n))
        {
          if HasKey(files[1..], Path(dir, n)) {
            var i :| 0 <= i < |files| - 1 && files[1..][i].0 == Path(dir, n);
            assert files[i + 1].0 == Path(dir, n);
          }
          if HasKey(files, Path(dir, n)) && files[0].0 != Path(dir, n) {
            var i :| 0 <= i < |files| && files[i].0 == Path(dir, n);
            assert files[1..][i - 1].0 == Path(dir, n);
          }
        }
      }
      r
  }

  /** The document stored at `p`, if there is one and it is JSON. */
  function LoadFrom(files: seq<(Path, Option<Json>)>, p: Path): Option<Json> {
    var content := Lookup(files, p);
    if content.Some? && content.value.Some? then Some(content.value.value) else None
  }

  class Disk {
    /** Every file, in creation order, with its parsed content (None: not JSON). */
    var files: seq<(Path, Option<Json>)>
    /** The directories that exist. */
    const directories: set<string>
    /** The directories a file may be created or overwritten in. */
    const writable: set<string>

    constructor (files: seq<(Path, Option<Json>)>, directories: set<string>, writable: set<string>)
      ensures this.files == files && this.directories == directories && this.writable == writable
    {
      this.files := files;
      this.directories := directories;
      this.writable := writable;
    }

    /** `os.path.exists(p)` */
    predicate Exists(p: Path)
      reads this
    {
      HasKey(files, p)
    }

    /** `json.load(open(p))`: None when the file is missing or is not JSON. */
    function Load(p: Path): Option<Json>
      reads this
    {
      LoadFrom(files, p)
    }

    /** `os.listdir(dir)`: None when the directory does not exist. */
    function ListDir(dir: string): Option<seq<string>>
      reads this
    {
      if dir in directories then Some(NamesIn(files, dir)) else None
    }

    /** `json.dump(doc, open(p, 'w'))`: refused (an OSError) outside the
        writable directories. */
    method Dump(p: Path, doc: Json) returns (ok: bool)
      modifies this
      ensures ok <==> p.dir in writable
      ensures files == if ok then Put(old(files), p, Some(doc)) else old(files)
    {
      ok := p.dir in writable;
      if ok {
        files := Put(files, p, Some(doc));
      }
    }

    /** `shutil.copyfile(src, dst)`: refused when the source is missing or
        the target directory is not writable. */
    method Copy(src: Path, dst: Path) returns (ok: bool)
      modifies this
      ensures ok <==> old(Exists(src)) && dst.dir in writable
      ensures ok ==> files == Put(old(files), dst, Lookup(old(files), src).value)
      ensures !ok ==> files == old(files)
    {
      var content := Lookup(files, src);
      ok := content.Some? && dst.dir in writable;
      if ok {
        files := Put(files, dst, content.value);
      }
    }
  }

  /** A document written to a path is what loading that path gives back,
      and every other path loads as before. */
  lemma DumpThenLoad(files: seq<(Path, Option<Json>)>, p: Path, doc: Json, q: Path)
    ensures LoadFrom(Put(files, p, Some(doc)), q) == if q == p then Some(doc) else LoadFrom(files, q)
    ensures HasKey(Put(files, p, Some(doc)), q) <==> q == p || HasKey(files, q)
  {
    PutLookup(files, p, Some(doc), q);
  }
}
