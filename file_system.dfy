/** The local file system as the client sees it through `os` and `ioutil`: regular
    files with their contents, directories, and a set of `locked` paths on which the
    system refuses to create, write or remove anything (standing in for permission
    failures). Each operation is specified by a function on the `Disk` value; the
    `FileSystem` object applies it in place. */
module FileSystem {
  import opened Wrappers
  import opened Strings
  import opened Errors

  type Path = string

  /** `dir` without the separators it ends with; the root stays `/`. */
  function TrimSlashes(dir: Path): (r: Path)
    ensures |r| <= |dir| && r == dir[..|r|]
    ensures dir != "" ==> r != ""
    ensures |r| > 1 ==> r[|r| - 1] != '/'
    ensures forall i :: |r| <= i < |dir| ==> dir[i] == '/'
  {
    if |dir| > 1 && dir[|dir| - 1] == '/' then TrimSlashes(dir[..|dir| - 1]) else dir
  }

  /** `filepath.Join(dir, name)` for a `name` without separators: separators that
      `dir` ends with are dropped, and exactly one stands between the two. */
  function Join(dir: Path, name: string): Path {
    if dir == "" then name
    else
      var d := TrimSlashes(dir);
      if d == "/" then d + name else d + "/" + name
  }

  /** Joining onto a directory that does not end with a separator puts exactly one
      between the two; a directory ending with separators, the root among them, is
      joined as if it had none; and the name is always the end of the result. */
  lemma JoinSeparators(dir: Path, name: string)
    ensures dir != "" && dir[|dir| - 1] != '/' ==> Join(dir, name) == dir + "/" + name
    ensures Join("/", name) == "/" + name
    ensures dir != "" ==> Join(dir + "/", name) == Join(dir, name)
    ensures |name| <= |Join(dir, name)| && Join(dir, name)[|Join(dir, name)| - |name|..] == name
  {
    if dir != "" {
      assert TrimSlashes(dir + "/") == TrimSlashes(dir) by {
        assert (dir + "/")[..|dir|] == dir;
      }
    }
  }

  /** `p` is `dir` itself or lies somewhere below it. */
  predicate Under(p: Path, dir: Path) {
    p == dir || HasPrefix(p, dir + "/")
  }

  datatype Disk = Disk(files: map<Path, string>, dirs: set<Path>, locked: set<Path>)
  {
    predicate Exists(p: Path) { p in files || p in dirs }

    /** No path is both a file and a directory. */
    predicate Valid() { files.Keys !! dirs }
  }

  /** A disk after an operation, and the error the operation returned. */
  datatype Step = Step(disk: Disk, err: Option<OsError>)

  /** `ioutil.ReadFile(p)`. */
  function ReadFileSpec(d: Disk, p: Path): Result<string, OsError> {
    if p in d.files then Success(d.files[p])
    else if p in d.dirs then Failure(PathError("read", p, "is a directory"))
    else Failure(PathError("open", p, "no such file or directory"))
  }

  /** `ioutil.WriteFile(p, data, perm)`: creates or truncates a regular file. */
  function WriteFileSpec(d: Disk, p: Path, data: string): Step {
    if p in d.dirs then Step(d, Some(PathError("open", p, "is a directory")))
    else if p in d.locked then Step(d, Some(PathError("open", p, "permission denied")))
    else Step(d.(files := d.files[p := data]), None)
  }

  /** The directory an entry `p` is made in: what precedes the last separator of
      `p`, without the separators it ends with (the root for `/name`); `None` for a
      name with no separator, which is made in the working directory. */
  function ParentDir(p: Path): Option<Path>
    decreases |p|
  {
    if p == "" then None
    else if p[|p| - 1] == '/' then Some(TrimSlashes(p))
    else ParentDir(p[..|p| - 1])
  }

  /** The directory `p` would be made in is there: the working directory, the root,
      or a directory of the disk that is not also a file. */
  predicate ParentReady(d: Disk, p: Path) {
    var q := ParentDir(p);
    q.None? || (q.value !in d.files && (q.value == "/" || q.value in d.dirs))
  }

  /** `os.Mkdir(p, perm)`: the path is resolved first, so a parent that is a file or
      is missing fails before anything about `p` itself is looked at. */
  function MkdirSpec(d: Disk, p: Path): Step {
    var q := ParentDir(p);
    if q.Some? && q.value in d.files then Step(d, Some(PathError("mkdir", p, "not a directory")))
    else if !ParentReady(d, p) then Step(d, Some(PathError("mkdir", p, "no such file or directory")))
    else if d.Exists(p) then Step(d, Some(PathError("mkdir", p, "file exists")))
    else if p in d.locked then Step(d, Some(PathError("mkdir", p, "permission denied")))
    else Step(d.(dirs := d.dirs + {p}), None)
  }

  /** Something at or below `p` exists and may not be removed. */
  predicate Pinned(d: Disk, p: Path) {
    exists q :: q in d.locked && Under(q, p) && d.Exists(q)
  }

  /** `os.RemoveAll(p)`: removes `p` and everything below it; a path that does not
      exist is not an error. */
  function RemoveAllSpec(d: Disk, p: Path): Step {
    if Pinned(d, p) then Step(d, Some(PathError("unlinkat", p, "permission denied")))
    else
      Step(Disk(map q | q in d.files && !Under(q, p) :: d.files[q],
                (set q | q in d.dirs && !Under(q, p)),
                d.locked), None)
  }

  /** `os.Remove(p)` of a regular file. */
  function RemoveSpec(d: Disk, p: Path): Step {
    if p in d.dirs then Step(d, Some(PathError("remove", p, "is a directory")))
    else if p !in d.files then Step(d, Some(PathError("remove", p, "no such file or directory")))
    else if p in d.locked then Step(d, Some(PathError("remove", p, "permission denied")))
    else Step(d.(files := d.files - {p}), None)
  }

  // Properties of the operations.

  /** What is written is read back, and no other path changes. */
  lemma WriteThenRead(d: Disk, p: Path, data: string, q: Path)
    requires WriteFileSpec(d, p, data).err.None?
    ensures ReadFileSpec(WriteFileSpec(d, p, data).disk, p) == Success(data)
    ensures q != p ==> ReadFileSpec(WriteFileSpec(d, p, data).disk, q) == ReadFileSpec(d, q)
  {
  }

  /** A write fails exactly on a directory or a locked path, and then changes nothing. */
  lemma WriteFails(d: Disk, p: Path, data: string)
    ensures WriteFileSpec(d, p, data).err.Some? <==> p in d.dirs || p in d.locked
    ensures WriteFileSpec(d, p, data).err.Some? ==> WriteFileSpec(d, p, data).disk == d
  {
  }

  /** After a successful `RemoveAll` nothing at or below the path is left, everything
      else is as it was, and a failed one changes nothing. */
  lemma RemoveAllClears(d: Disk, p: Path)
    ensures var s := RemoveAllSpec(d, p);
      && (s.err.None? <==> !Pinned(d, p))
      && (s.err.None? ==> forall q :: Under(q, p) ==> !s.disk.Exists(q))
      && (s.err.None? ==> forall q :: !Under(q, p) ==> (s.disk.Exists(q) <==> d.Exists(q)))
      && (s.err.None? ==> forall q :: q in s.disk.files ==> s.disk.files[q] == d.files[q])
      && (s.err.Some? ==> s.disk == d)
  {
  }

  /** A name without separators added to a path leaves its parent as it was. */
  lemma {:induction false} ParentOfName(x: Path, name: string)
    requires forall i :: 0 <= i < |name| ==> name[i] != '/'
    ensures ParentDir(x + name) == ParentDir(x)
    decreases |name|
  {
    if name != [] {
      var n := name[..|name| - 1];
      assert (x + name)[..|x + name| - 1] == x + n;
      ParentOfName(x, n);
    } else {
      assert x + name == x;
    }
  }

  /** The parent of `Join(dir, name)` is `dir` without the separators it ends with. */
  lemma {:induction false} JoinParent(dir: Path, name: string)
    requires dir != ""
    requires forall i :: 0 <= i < |name| ==> name[i] != '/'
    ensures ParentDir(Join(dir, name)) == Some(TrimSlashes(dir))
  {
    var t := TrimSlashes(dir);
    assert TrimSlashes(t) == t;
    if t == "/" {
      ParentOfName("/", name);
    } else {
      assert Join(dir, name) == (t + "/") + name;
      ParentOfName(t + "/", name);
      assert (t + "/")[..|t + "/"| - 1] == t;
    }
  }

  /** A successful `Mkdir` adds just the directory; one whose parent is missing
      fails with "no such file or directory", one whose parent is a file with
      "not a directory". */
  lemma MkdirAdds(d: Disk, p: Path)
    ensures var s := MkdirSpec(d, p);
      && (s.err.None? <==> ParentReady(d, p) && !d.Exists(p) && p !in d.locked)
      && (ParentDir(p).Some? && ParentDir(p).value in d.files ==>
            s.err == Some(PathError("mkdir", p, "not a directory")))
      && (ParentDir(p).Some? && ParentDir(p).value !in d.files && ParentDir(p).value != "/"
            && ParentDir(p).value !in d.dirs ==>
            s.err == Some(PathError("mkdir", p, "no such file or directory")))
      && (s.err.None? ==> s.disk.dirs == d.dirs + {p} && s.disk.files == d.files)
      && (s.err.Some? ==> s.disk == d)
  {
  }

  /** Every operation keeps files and directories apart. */
  lemma StepsKeepValid(d: Disk, p: Path, data: string)
    requires d.Valid()
    ensures WriteFileSpec(d, p, data).disk.Valid()
    ensures MkdirSpec(d, p).disk.Valid()
    ensures RemoveAllSpec(d, p).disk.Valid()
    ensures RemoveSpec(d, p).disk.Valid()
  {
  }

  /** The file system of the machine the client runs on. */
  class FileSystem {
    var files: map<Path, string>
    var dirs: set<Path>
    const locked: set<Path>

    function State(): Disk
      reads this
    {
      Disk(files, dirs, locked)
    }

    constructor (d: Disk)
      ensures State() == d
    {
      files := d.files;
      dirs := d.dirs;
      locked := d.locked;
    }

    /** `os.Stat(p)` succeeds. */
    method Stat(p: Path) returns (found: bool)
      ensures found == State().Exists(p)
    {
      found := p in files || p in dirs;
    }

    method ReadFile(p: Path) returns (r: Result<string, OsError>)
      ensures r == ReadFileSpec(State(), p)
    {
      if p in files {
        r := Success(files[p]);
      } else if p in dirs {
        r := Failure(PathError("read", p, "is a directory"));
      } else {
        r := Failure(PathError("open", p, "no such file or directory"));
      }
    }

    method WriteFile(p: Path, data: string) returns (err: Option<OsError>)
      modifies this
      ensures Step(State(), err) == WriteFileSpec(old(State()), p, data)
    {
      if p in dirs {
        err := Some(PathError("open", p, "is a directory"));
      } else if p in locked {
        err := Some(PathError("open", p, "permission denied"));
      } else {
        files := files[p := data];
        err := None;
      }
    }

    method Mkdir(p: Path) returns (err: Option<OsError>)
      modifies this
      ensures Step(State(), err) == MkdirSpec(old(State()), p)
    {
      var q := ParentDir(p);
      if q.Some? && q.value in files {
        err := Some(PathError("mkdir", p, "not a directory"));
      } else if q.Some? && q.value != "/" && q.value !in dirs {
        err := Some(PathError("mkdir", p, "no such file or directory"));
      } else if p in files || p in dirs {
        err := Some(PathError("mkdir", p, "file exists"));
      } else if p in locked {
        err := Some(PathError("mkdir", p, "permission denied"));
      } else {
        dirs := dirs + {p};
        err := None;
      }
    }

    method RemoveAll(p: Path) returns (err: Option<OsError>)
      modifies this
      ensures Step(State(), err) == RemoveAllSpec(old(State()), p)
    {
      if exists q :: q in locked && Under(q, p) && (q in files || q in dirs) {
        err := Some(PathError("unlinkat", p, "permission denied"));
      } else {
        files := map q | q in files && !Under(q, p) :: files[q];
        dirs := set q | q in dirs && !Under(q, p);
        err := None;
      }
    }

    method Remove(p: Path) returns (err: Option<OsError>)
      modifies this
      ensures Step(State(), err) == RemoveSpec(old(State()), p)
    {
      if p in dirs {
        err := Some(PathError("remove", p, "is a directory"));
      } else if p !in files {
        err := Some(PathError("remove", p, "no such file or directory"));
      } else if p in locked {
        err := Some(PathError("remove", p, "permission denied"));
      } else {
        files := files - {p};
        err := None;
      }
    }
  }
}
