/** The filesystem the module works against, as a value (`FsState`) with the
    effect of each `os`/`open`/`tarfile` call as a function on it, and as an
    object (`Disk`) whose methods apply those effects in place. */
module FileSystem {
  import opened Paths
  import opened PyObjects

  type Bytes = seq<bv8>

  datatype Option<T> = None | Some(value: T)

  /** The `errno` values the module's calls can meet. */
  datatype Errno = EEXIST | ENOENT | ENOTDIR | EISDIR

  /** The exceptions that reach a caller. */
  datatype Error =
    | OSError(errno: Errno)
    | HTTPError        // `raise_for_status` on a failed download
    | TarReadError     // `tarfile.open` on a file that is not a readable archive
    | UnpicklingError  // `pickle.load` on content it cannot parse

  datatype Result<T> = Ok(value: T) | Err(error: Error)

  /** The directories that exist and the regular files with their content.
      The root `[]` is always a directory. */
  datatype FsState = FsState(dirs: set<Path>, files: map<Path, Bytes>)

  /** The content of a tar archive: entries relative to where it is unpacked. */
  datatype Members = Members(dirs: set<Path>, files: map<Path, Bytes>)

  /** `os.path.exists(p)` */
  predicate Exists(s: FsState, p: Path)
    ensures p in s.dirs || p in s.files ==> Exists(s, p)
  {
    p == [] || p in s.dirs || p in s.files
  }

  /** `os.path.isdir(p)` */
  predicate IsDir(s: FsState, p: Path)
    ensures IsDir(s, p) ==> Exists(s, p)
    ensures p in s.files && p != [] && p !in s.dirs ==> !IsDir(s, p)
  {
    p == [] || p in s.dirs
  }

  function Parent(p: Path): Path
    requires p != []
  {
    p[..|p| - 1]
  }

  /** Some proper ancestor of `p` is a regular file. */
  predicate UnderFile(s: FsState, p: Path) {
    exists k | 0 < k < |p| :: p[..k] in s.files
  }

  /** `p` and every directory above it, except the root. */
  function Lineage(p: Path): set<Path> {
    set k | 0 < k <= |p| :: p[..k]
  }

  /** `os.makedirs(p)`: fails with EEXIST when anything is already at `p`,
      with ENOTDIR when a file stands where a directory above `p` should be,
      and otherwise creates `p` with every missing directory above it. */
  function Makedirs(s: FsState, p: Path): (r: Result<FsState>)
    ensures Exists(s, p) ==> r == Err(OSError(EEXIST))
    ensures !Exists(s, p) && UnderFile(s, p) ==> r == Err(OSError(ENOTDIR))
    ensures r.Ok? <==> !Exists(s, p) && !UnderFile(s, p)
    ensures r.Ok? ==> IsDir(r.value, p) && r.value.files == s.files && s.dirs <= r.value.dirs
    ensures r.Ok? ==> forall d :: d in r.value.dirs && d !in s.dirs ==> d <= p
    ensures r.Ok? ==> Lineage(p) <= r.value.dirs
    ensures r.Ok? && WellFormed(s) ==> WellFormed(r.value)
  {
    if Exists(s, p) then Err(OSError(EEXIST))
    else if UnderFile(s, p) then Err(OSError(ENOTDIR))
    else assert p[..|p|] == p; Ok(FsState(s.dirs + Lineage(p), s.files))
  }

  /** `open(p, 'rb').read()`: a directory gives EISDIR, a path below a
      regular file ENOTDIR, and any other missing path ENOENT. */
  function ReadFile(s: FsState, p: Path): (r: Result<Bytes>)
    ensures r.Ok? <==> p in s.files
    ensures r.Ok? ==> r.value == s.files[p]
    ensures r.Err? ==> r.error == OSError(if IsDir(s, p) then EISDIR else if UnderFile(s, p) then ENOTDIR else ENOENT)
  {
    if p in s.files then Ok(s.files[p])
    else if IsDir(s, p) then Err(OSError(EISDIR))
    else if UnderFile(s, p) then Err(OSError(ENOTDIR))
    else Err(OSError(ENOENT))
  }

  /** `open(p, 'wb').write(data)`: the directory that holds `p` must exist;
      a file above `p` gives ENOTDIR, a missing directory ENOENT. */
  function WriteFile(s: FsState, p: Path, data: Bytes): (r: Result<FsState>)
    ensures r.Ok? <==> !IsDir(s, p) && IsDir(s, Parent(p))
    ensures r.Err? ==> r.error == OSError(if IsDir(s, p) then EISDIR else if UnderFile(s, p) then ENOTDIR else ENOENT)
    ensures r.Ok? ==> r.value == FsState(s.dirs, s.files[p := data])
    ensures r.Ok? && WellFormed(s) ==> WellFormed(r.value)
  {
    if IsDir(s, p) then Err(OSError(EISDIR))
    else if !IsDir(s, Parent(p)) then Err(OSError(if UnderFile(s, p) then ENOTDIR else ENOENT))
    else Ok(FsState(s.dirs, s.files[p := data]))
  }

  /** No path is both a directory and a regular file, and the root is a
      directory. Every operation below keeps this. */
  predicate WellFormed(s: FsState) {
    [] !in s.files && forall p :: p in s.files ==> p !in s.dirs
  }

  /** The directories that unpacking `m` needs, relative to the extraction
      directory: the directory members, and every directory above a member,
      which `extractall` creates before writing the member. */
  function MemberDirs(m: Members): (ds: set<Path>)
    ensures m.dirs <= ds
  {
    m.dirs + (set f, k | f in m.files && 0 < k < |f| :: f[..k])
           + (set d, k | d in m.dirs && 0 < k < |d| :: d[..k])
  }

  /** Every directory above a member is among those unpacking needs. */
  lemma MemberAncestorsNeeded(m: Members)
    ensures forall f, k :: f in m.files && 0 < k < |f| ==> f[..k] in MemberDirs(m)
    ensures forall d, k :: d in m.dirs && 0 < k < |d| ==> d[..k] in MemberDirs(m)
  {
  }

  /** A member file would land on a directory: one already on disk, or one
      that unpacking itself creates. `open(p, 'wb')` raises EISDIR there. */
  predicate FileOnDirectory(s: FsState, m: Members, target: Path) {
    exists f :: f in m.files && (IsDir(s, target + f) || f in MemberDirs(m))
  }

  /** A directory that unpacking needs is already a regular file, so creating
      it, or anything below it, raises ENOTDIR. */
  predicate DirectoryOnFile(s: FsState, m: Members, target: Path) {
    exists d :: d in MemberDirs(m) && target + d in s.files
  }

  /** The paths `rel` names below `target`. */
  function Below(target: Path, rel: set<Path>): (ps: set<Path>)
    ensures forall d :: d in rel ==> target + d in ps
    ensures forall p :: p in ps ==> target <= p && p[|target|..] in rel
  {
    var ps := set d | d in rel :: target + d;
    assert forall p :: p in ps ==> target <= p && p[|target|..] in rel by {
      forall p | p in ps ensures target <= p && p[|target|..] in rel {
        var d :| d in rel && p == target + d;
        assert p[|target|..] == d;
      }
    }
    ps
  }

  /** `files` with each member file written at its path below `target`. */
  function Overlay(files: map<Path, Bytes>, members: map<Path, Bytes>, target: Path): (r: map<Path, Bytes>)
    ensures forall f :: f in members ==> target + f in r && r[target + f] == members[f]
    ensures forall f :: f in r ==> f in files || (target <= f && f[|target|..] in members)
    ensures forall f :: f in files && !(target <= f && f[|target|..] in members) ==> f in r && r[f] == files[f]
    ensures files.Keys <= r.Keys
  {
    assert forall f, g :: target + f == target + g ==> f == g by {
      forall f, g | target + f == target + g ensures f == g {
        assert (target + f)[|target|..] == f;
        assert (target + g)[|target|..] == g;
      }
    }
    var added := map f | f in members :: target + f := members[f];
    assert forall f :: f in added ==> target <= f && f[|target|..] in members by {
      forall f | f in added ensures target <= f && f[|target|..] in members {
        var g :| g in members && f == target + g;
        assert f[|target|..] == g;
      }
    }
    var r := files + added;
    assert files.Keys <= r.Keys;
    r
  }

  /** The filesystem after every member of `m` is written below `target`,
      with the directories it needs. */
  function Unpacked(s: FsState, m: Members, target: Path): FsState {
    FsState(s.dirs + Below(target, MemberDirs(m)), Overlay(s.files, m.files, target))
  }

  /** Unpacking without a collision leaves no path both a file and a
      directory. */
  lemma UnpackedWellFormed(s: FsState, m: Members, target: Path)
    requires WellFormed(s)
    requires !FileOnDirectory(s, m, target) && !DirectoryOnFile(s, m, target)
    ensures WellFormed(Unpacked(s, m, target))
  {
  }

  /** `TarFile.extractall(target)`: every member appears below `target` with
      the directories above it, files overwriting what was there; a member
      that collides with a directory, or needs a directory where a file is,
      raises instead. */
  function ExtractAll(s: FsState, m: Members, target: Path): (r: Result<FsState>)
    ensures FileOnDirectory(s, m, target) ==> r == Err(OSError(EISDIR))
    ensures !FileOnDirectory(s, m, target) && DirectoryOnFile(s, m, target) ==> r == Err(OSError(ENOTDIR))
    ensures r.Ok? <==> !FileOnDirectory(s, m, target) && !DirectoryOnFile(s, m, target)
    ensures r.Ok? ==> r.value.dirs == s.dirs + Below(target, MemberDirs(m))
    // every member file is there with its content, and every directory above it
    ensures r.Ok? ==> forall f :: f in m.files ==> target + f in r.value.files && r.value.files[target + f] == m.files[f]
    ensures r.Ok? ==> forall f, k :: f in m.files && 0 < k < |f| ==> IsDir(r.value, target + f[..k])
    // a file is new only when it is a member's
    ensures r.Ok? ==> forall f :: f in r.value.files ==> f in s.files || (target <= f && f[|target|..] in m.files)
    // a file that no member replaces keeps its content, inside `target` or not
    ensures r.Ok? ==> forall f :: f in s.files && !(target <= f && f[|target|..] in m.files) ==>
                        f in r.value.files && r.value.files[f] == s.files[f]
    ensures r.Ok? ==> s.dirs <= r.value.dirs && s.files.Keys <= r.value.files.Keys
    ensures r.Ok? && WellFormed(s) ==> WellFormed(r.value)
  {
    if FileOnDirectory(s, m, target) then Err(OSError(EISDIR))
    else if DirectoryOnFile(s, m, target) then Err(OSError(ENOTDIR))
    else
      MemberAncestorsNeeded(m);
      if WellFormed(s) then UnpackedWellFormed(s, m, target); Ok(Unpacked(s, m, target))
      else Ok(Unpacked(s, m, target))
  }

  /** `_unpickle(path)`: read the file and deserialise it with `decode`, the
      pickle format, which this model leaves abstract. */
  function Unpickle(s: FsState, p: Path, decode: Bytes -> Option<PyObject>): (r: Result<PyObject>)
    ensures r.Ok? <==> p in s.files && decode(s.files[p]).Some?
    ensures r.Ok? ==> r.value == decode(s.files[p]).value
    ensures p in s.files && decode(s.files[p]).None? ==> r == Err(UnpicklingError)
    ensures p !in s.files ==> r == Err(OSError(if IsDir(s, p) then EISDIR else if UnderFile(s, p) then ENOTDIR else ENOENT))
  {
    match ReadFile(s, p)
    case Err(e) => Err(e)
    case Ok(bytes) =>
      match decode(bytes)
      case None => Err(UnpicklingError)
      case Some(v) => Ok(v)
  }

  /** The machine's filesystem, changed in place by the calls below. */
  class Disk {
    var dirs: set<Path>
    var files: map<Path, Bytes>

    function State(): FsState
      reads this
    {
      FsState(dirs, files)
    }

    constructor (s: FsState)
      ensures State() == s
    {
      dirs, files := s.dirs, s.files;
    }

    method Mkdirs(p: Path) returns (r: Result<()>)
      modifies this
      ensures Makedirs(old(State()), p).Ok? ==> r == Ok(()) && State() == Makedirs(old(State()), p).value
      ensures Makedirs(old(State()), p).Err? ==> r == Err(Makedirs(old(State()), p).error) && State() == old(State())
    {
      var next := Makedirs(State(), p);
      if next.Err? {
        return Err(next.error);
      }
      dirs, files := next.value.dirs, next.value.files;
      r := Ok(());
    }

    method ReadAll(p: Path) returns (r: Result<Bytes>)
      ensures r == ReadFile(State(), p)
    {
      r := ReadFile(State(), p);
    }

    method WriteAll(p: Path, data: Bytes) returns (r: Result<()>)
      modifies this
      ensures WriteFile(old(State()), p, data).Ok? ==> r == Ok(()) && State() == WriteFile(old(State()), p, data).value
      ensures WriteFile(old(State()), p, data).Err? ==> r == Err(WriteFile(old(State()), p, data).error) && State() == old(State())
    {
      var next := WriteFile(State(), p, data);
      if next.Err? {
        return Err(next.error);
      }
      dirs, files := next.value.dirs, next.value.files;
      r := Ok(());
    }

    method ExtractInto(m: Members, target: Path) returns (r: Result<()>)
      modifies this
      ensures ExtractAll(old(State()), m, target).Ok? ==> r == Ok(()) && State() == ExtractAll(old(State()), m, target).value
      ensures ExtractAll(old(State()), m, target).Err? ==> r == Err(ExtractAll(old(State()), m, target).error) && State() == old(State())
    {
      var next := ExtractAll(State(), m, target);
      if next.Err? {
        return Err(next.error);
      }
      dirs, files := next.value.dirs, next.value.files;
      r := Ok(());
    }
  }
}
