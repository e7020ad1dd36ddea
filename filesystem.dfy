/**
 * The files an agent session sees, and the operating-system calls the tool
 * executor makes on them through `pathlib`: `is_file`, `is_dir`, `exists`,
 * `iterdir`, `read_text`, `write_text` and `mkdir`.
 */
module FileSystem {
  import opened Wrappers
  import opened Strings
  import opened Paths

  datatype Node = File(text: string) | Dir

  /** Every path that exists, with what it is. The empty path is the working directory. */
  type Fs = map<Path, Node>

  /** A real directory tree: the root is a directory and the parent of every entry is one. */
  ghost predicate Valid(fs: Fs) {
    && [] in fs && fs[[]] == Dir
    && forall p :: p in fs && p != [] ==> Parent(p) in fs && fs[Parent(p)] == Dir
  }

  /** What the operating system finds when it walks a path from the root. */
  datatype Lookup = Found(node: Node) | Missing | NotDir

  function Resolve(fs: Fs, p: Path): Lookup
    decreases |p|
  {
    if p == [] then (if [] in fs then Found(fs[[]]) else Missing)
    else
      match Resolve(fs, Parent(p))
      case Found(Dir) => if p in fs then Found(fs[p]) else Missing
      case Found(File(_)) => NotDir
      case Missing => Missing
      case NotDir => NotDir
  }

  /** `Path.is_dir()`. */
  predicate IsDir(fs: Fs, p: Path) {
    Resolve(fs, p) == Found(Dir)
  }

  /** `Path.exists()`: false both for a missing entry and for a path through a file. */
  predicate Exists(fs: Fs, p: Path) {
    Resolve(fs, p).Found?
  }

  /** `[f.name for f in path.iterdir()]`, as a set. */
  function Entries(fs: Fs, d: Path): set<string> {
    set p | p in fs && |p| == |d| + 1 && p[..|d|] == d :: p[|d|]
  }

  /** The `errno` values these calls raise. */
  datatype Errno = NoSuchFile | FileExists | NotADirectory | IsADirectory

  datatype OsError = OsError(errno: Errno, path: Path)

  function ErrnoCode(e: Errno): nat {
    match e
    case NoSuchFile => 2
    case FileExists => 17
    case NotADirectory => 20
    case IsADirectory => 21
  }

  function ErrnoText(e: Errno): string {
    match e
    case NoSuchFile => "No such file or directory"
    case FileExists => "File exists"
    case NotADirectory => "Not a directory"
    case IsADirectory => "Is a directory"
  }

  /** `str(e)` of an `OSError` that names a file. */
  function OsErrorText(e: OsError): string {
    "[Errno " + NatToString(ErrnoCode(e.errno)) + "] " + ErrnoText(e.errno) + ": '" + Render(e.path) + "'"
  }

  /** `os.mkdir(d)`. */
  function MakeDir(fs: Fs, d: Path): Result<Fs, OsError> {
    match Resolve(fs, d)
    case Found(_) => Err(OsError(FileExists, d))
    case NotDir => Err(OsError(NotADirectory, d))
    case Missing =>
      if d != [] && Resolve(fs, Parent(d)) == Found(Dir) then Ok(fs[d := Dir])
      else Err(OsError(NoSuchFile, d))
  }

  /** `d.mkdir(exist_ok=True)`: an existing directory is not an error. */
  function MakeDirExistOk(fs: Fs, d: Path): Result<Fs, OsError> {
    match MakeDir(fs, d)
    case Ok(fs1) => Ok(fs1)
    case Err(e) => if e.errno != NoSuchFile && IsDir(fs, d) then Ok(fs) else Err(e)
  }

  /**
   * `d.mkdir(parents=True, exist_ok=True)`: on `FileNotFoundError` make the
   * parent first and try again; any other error is forgiven when `d` is a
   * directory.
   */
  function MakeDirs(fs: Fs, d: Path): Result<Fs, OsError>
    decreases |d|
  {
    match MakeDir(fs, d)
    case Ok(fs1) => Ok(fs1)
    case Err(e) =>
      if e.errno == NoSuchFile then
        if d == [] then Err(e)
        else
          match MakeDirs(fs, Parent(d))
          case Err(e2) => Err(e2)
          case Ok(fs2) => MakeDirExistOk(fs2, d)
      else if IsDir(fs, d) then Ok(fs)
      else Err(e)
  }

  /**
   * `p.read_text()`: text mode with universal newlines, so a file's line
   * endings come back as `"\n"`.
   */
  function ReadText(fs: Fs, p: Path): Result<string, OsError> {
    match Resolve(fs, p)
    case Found(File(t)) => Ok(Universal(t))
    case Found(Dir) => Err(OsError(IsADirectory, p))
    case NotDir => Err(OsError(NotADirectory, p))
    case Missing => Err(OsError(NoSuchFile, p))
  }

  /** `p.write_text(text)`: replaces or creates the file. */
  function WriteText(fs: Fs, p: Path, text: string): Result<Fs, OsError> {
    match Resolve(fs, p)
    case Found(File(_)) => Ok(fs[p := File(text)])
    case Found(Dir) => Err(OsError(IsADirectory, p))
    case NotDir => Err(OsError(NotADirectory, p))
    case Missing =>
      if p != [] && Resolve(fs, Parent(p)) == Found(Dir) then Ok(fs[p := File(text)])
      else Err(OsError(NoSuchFile, p))
  }

  /** No prefix of `d`, `d` included, is a file. */
  ghost predicate NoFileOnPath(fs: Fs, d: Path) {
    forall q :: q <= d && q in fs ==> fs[q] == Dir
  }

  /** In a directory tree, the walk finds exactly the entries that are there. */
  lemma {:induction false} ResolveValid(fs: Fs, p: Path)
    requires Valid(fs)
    ensures p in fs ==> Resolve(fs, p) == Found(fs[p])
    ensures p !in fs ==> !Resolve(fs, p).Found?
    ensures Resolve(fs, p) == NotDir ==> exists q :: q < p && q in fs && fs[q].File?
    decreases |p|
  {
    if p != [] {
      ResolveValid(fs, Parent(p));
      assert Parent(p) < p;
      if Resolve(fs, Parent(p)) == NotDir {
        var q :| q < Parent(p) && q in fs && fs[q].File?;
        assert q < p;
      }
    }
  }

  /** A proper prefix of a path is a prefix of its parent. */
  lemma ProperPrefixOfParent(q: Path, d: Path)
    requires q <= d && q != d
    ensures q <= Parent(d)
  {
    assert |q| < |d|;
    assert q == d[..|q|];
  }

  /** Every proper prefix of an entry is a directory. */
  lemma {:induction false} AncestorsAreDirs(fs: Fs, p: Path, q: Path)
    requires Valid(fs) && p in fs && q < p
    ensures q in fs && fs[q] == Dir
    decreases |p|
  {
    var r := Parent(p);
    assert q <= r;
    if q != r {
      AncestorsAreDirs(fs, r, q);
    }
  }

  /**
   * `mkdir(parents=True, exist_ok=True)` succeeds exactly when no prefix of `d`
   * is a file; it then adds the missing prefixes as directories and changes
   * nothing else.
   */
  lemma {:induction false} MakeDirsSpec(fs: Fs, d: Path)
    requires Valid(fs)
    ensures MakeDirs(fs, d).Ok? <==> NoFileOnPath(fs, d)
    ensures MakeDirs(fs, d).Ok? ==>
      var fs' := MakeDirs(fs, d).value;
      && Valid(fs')
      && d in fs' && fs'[d] == Dir
      && (forall q :: q in fs ==> q in fs' && fs'[q] == fs[q])
      && (forall q :: q in fs' && q !in fs ==> q <= d)
    ensures d in fs && fs[d] == Dir ==> MakeDirs(fs, d) == Ok(fs)
    decreases |d|
  {
    ResolveValid(fs, d);
    if d in fs {
      if fs[d] == Dir {
        forall q | q <= d && q in fs ensures fs[q] == Dir {
          if q != d { AncestorsAreDirs(fs, d, q); }
        }
      }
    } else if Resolve(fs, d) == NotDir {
      var q :| q < d && q in fs && fs[q].File?;
    } else {
      assert d != [];
      var up := Parent(d);
      ResolveValid(fs, up);
      assert up < d;
      if up in fs && fs[up] == Dir {
        forall q | q <= d && q in fs ensures fs[q] == Dir {
          ProperPrefixOfParent(q, d);
          if q != up { AncestorsAreDirs(fs, up, q); }
        }
      } else {
        assert up !in fs;
        MakeDirsSpec(fs, up);
        assert NoFileOnPath(fs, d) <==> NoFileOnPath(fs, up) by {
          forall q | q <= d && q in fs ensures q <= up {
            ProperPrefixOfParent(q, d);
          }
        }
        if MakeDirs(fs, up).Ok? {
          var fs2 := MakeDirs(fs, up).value;
          assert d !in fs2;
          ResolveValid(fs2, d);
          ResolveValid(fs2, up);
        }
      }
    }
  }

  /** Below a file, every walk meets that file and stops with "not a directory". */
  lemma {:induction false} FileAboveBlocks(fs: Fs, q: Path, d: Path)
    requires Valid(fs) && q < d && q in fs && fs[q].File?
    ensures Resolve(fs, d) == NotDir
    decreases |d|
  {
    var up := Parent(d);
    ProperPrefixOfParent(q, d);
    if q == up {
      ResolveValid(fs, up);
    } else {
      FileAboveBlocks(fs, q, up);
    }
  }

  /**
   * When a file lies on the path, `mkdir(parents=True, exist_ok=True)` raises
   * "file exists" if `d` itself is that file, and "not a directory" for `d`
   * if the file is further up.
   */
  lemma MakeDirsFileError(fs: Fs, d: Path)
    requires Valid(fs) && !NoFileOnPath(fs, d)
    ensures d in fs ==> MakeDirs(fs, d) == Err(OsError(FileExists, d))
    ensures d !in fs ==> MakeDirs(fs, d) == Err(OsError(NotADirectory, d))
  {
    var q :| q <= d && q in fs && fs[q] != Dir;
    if d in fs {
      if q != d {
        AncestorsAreDirs(fs, d, q);
      }
      assert fs[d].File?;
      ResolveValid(fs, d);
      assert MakeDir(fs, d) == Err(OsError(FileExists, d));
    } else {
      assert q != d && fs[q].File?;
      FileAboveBlocks(fs, q, d);
      assert MakeDir(fs, d) == Err(OsError(NotADirectory, d));
    }
    assert !IsDir(fs, d);
  }
}
