/** The part of Node's `fs` module the handlers use, over a map from paths
    to contents and a set of directories: `existsSync`, `mkdirSync`,
    `readFileSync` and `writeFileSync`, with the error of each failing call. */
module FileSystem {
  import opened Base
  import opened Strings

  datatype DiskState = DiskState(files: map<string, seq<Byte>>, dirs: set<string>)

  /** `fs.existsSync(p)`: a file or a directory is there. */
  predicate Exists(d: DiskState, p: string)
  {
    p in d.files || p in d.dirs
  }

  /** The directory a path is created in exists: the current directory
      for a bare name, `./x`, or `/x`, otherwise the part before the last `/`. */
  predicate ParentExists(d: DiskState, p: string)
  {
    match LastIndexOfChar(p, '/')
    case None => true
    case Some(i) => p[..i] == "" || p[..i] == "." || p[..i] in d.dirs
  }

  /** `fs.writeFileSync(p, ...)` succeeds: `p` is not a directory and its
      directory exists. */
  predicate CanWrite(d: DiskState, p: string)
  {
    p !in d.dirs && ParentExists(d, p)
  }

  function WriteError(d: DiskState, p: string): string
  {
    if p in d.dirs then "EISDIR: illegal operation on a directory, open '" + p + "'"
    else "ENOENT: no such file or directory, open '" + p + "'"
  }

  /** `fs.readFileSync(p)`: the bytes of a file; reading a directory or a
      missing path throws. */
  function ReadOf(d: DiskState, p: string): (r: Result<seq<Byte>>)
    ensures r.Ok? <==> p in d.files && p !in d.dirs
    ensures r.Ok? ==> r.value == d.files[p]
  {
    if p in d.dirs then Err("EISDIR: illegal operation on a directory, read")
    else if p in d.files then Ok(d.files[p])
    else Err("ENOENT: no such file or directory, open '" + p + "'")
  }

  /** The disk after a successful `fs.writeFileSync(p, bytes)`. */
  function Written(d: DiskState, p: string, bytes: seq<Byte>): DiskState
  {
    d.(files := d.files[p := bytes])
  }

  class Disk {
    var files: map<string, seq<Byte>>
    var dirs: set<string>

    function State(): DiskState
      reads this
    {
      DiskState(files, dirs)
    }

    constructor (files: map<string, seq<Byte>>, dirs: set<string>)
      ensures State() == DiskState(files, dirs)
    {
      this.files := files;
      this.dirs := dirs;
    }

    method ExistsSync(p: string) returns (b: bool)
      ensures b == Exists(State(), p)
    {
      b := p in files || p in dirs;
    }

    /** `fs.mkdirSync(p)` for a path that does not exist yet. */
    method MkdirSync(p: string)
      modifies this`dirs
      ensures dirs == old(dirs) + {p}
    {
      dirs := dirs + {p};
    }

    method ReadFileSync(p: string) returns (r: Result<seq<Byte>>)
      ensures r == ReadOf(State(), p)
    {
      if p in dirs {
        r := Err("EISDIR: illegal operation on a directory, read");
      } else if p in files {
        r := Ok(files[p]);
      } else {
        r := Err("ENOENT: no such file or directory, open '" + p + "'");
      }
    }

    /** `fs.writeFileSync(p, bytes)`; `error` is the message it throws. */
    method WriteFileSync(p: string, bytes: seq<Byte>) returns (error: Option<string>)
      modifies this`files
      ensures CanWrite(old(State()), p) ==> error.None? && State() == Written(old(State()), p, bytes)
      ensures !CanWrite(old(State()), p) ==> error == Some(WriteError(old(State()), p)) && files == old(files)
    {
      if !CanWrite(State(), p) {
        error := Some(WriteError(State(), p));
      } else {
        files := files[p := bytes];
        error := None;
      }
    }
  }
}
