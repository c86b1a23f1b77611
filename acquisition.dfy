/** `cifar10()` and the scratch helpers: make sure the scratch directory
    exists, download the archive unless a file or directory already stands at
    its path, unpack it unless the extraction root is already a directory, and
    hand back an accessor bound to that root. The download and the archive
    format are oracles passed in as functions. */
module Acquisition {
  import opened Paths
  import opened FileSystem
  import Accessor

  const Url: string := "http://www.cs.toronto.edu/~kriz/cifar-10-python.tar.gz"

  /** `requests.get(url)` followed by `raise_for_status()`: the body of a
      successful response, or a failure. */
  datatype Response = Fetched(content: Bytes) | FetchFailed

  /** The result of one acquisition, the filesystem it leaves, and whether it
      went to the network and whether it tried to unpack the archive. */
  datatype Step = Step(outcome: Result<Path>, after: FsState, fetched: bool, extracted: bool)

  /** `_ensure_scratch_path()`: `os.makedirs` on the scratch path, with EEXIST
      swallowed (even when what exists there is a file) and any other error
      passed on. */
  function EnsuredScratch(s: FsState, scriptDir: Path): (r: Result<FsState>)
    ensures Exists(s, ScratchPath(scriptDir)) ==> r == Ok(s)
    ensures r.Ok? ==> Exists(r.value, ScratchPath(scriptDir)) && r.value.files == s.files && s.dirs <= r.value.dirs
    ensures r.Ok? && !IsDir(r.value, ScratchPath(scriptDir)) ==> ScratchPath(scriptDir) in s.files
    ensures r.Err? <==> !Exists(s, ScratchPath(scriptDir)) && UnderFile(s, ScratchPath(scriptDir))
    ensures r.Err? ==> r.error == OSError(ENOTDIR)
    // only the scratch directory and the missing directories above it are created
    ensures r.Ok? ==> forall d :: d in r.value.dirs && d !in s.dirs ==> d <= ScratchPath(scriptDir)
  {
    match Makedirs(s, ScratchPath(scriptDir))
    case Ok(t) => Ok(t)
    case Err(e) => if e == OSError(EEXIST) then Ok(s) else Err(e)
  }

  /** The download step of `cifar10()`: nothing happens when anything is at
      the archive path; otherwise the response body is written there, unless
      the request fails, which raises before the file is opened. */
  function Downloaded(s: FsState, scriptDir: Path, fetch: string -> Response): (r: Result<FsState>)
    ensures Exists(s, ArchivePath(scriptDir)) ==> r == Ok(s)
    ensures !Exists(s, ArchivePath(scriptDir)) && fetch(Url).FetchFailed? ==> r == Err(HTTPError)
    ensures !Exists(s, ArchivePath(scriptDir)) && fetch(Url).Fetched? ==>
              r == WriteFile(s, ArchivePath(scriptDir), fetch(Url).content)
    // what is read back from the archive path afterwards is the downloaded body
    ensures r.Ok? && !Exists(s, ArchivePath(scriptDir)) ==>
              ReadFile(r.value, ArchivePath(scriptDir)) == Ok(fetch(Url).content)
    ensures r.Ok? ==> r.value.dirs == s.dirs && s.files.Keys <= r.value.files.Keys
  {
    var archive := ArchivePath(scriptDir);
    if Exists(s, archive) then Ok(s)
    else match fetch(Url)
      case FetchFailed => Err(HTTPError)
      case Fetched(content) => WriteFile(s, archive, content)
  }

  /** The body of `cifar10()`, without the scratch-directory decorator. */
  function Cifar10Step(s: FsState, scriptDir: Path, fetch: string -> Response,
                       unpack: Bytes -> Option<Members>): (st: Step)
    // the network is used exactly when nothing is at the archive path
    ensures st.fetched <==> !Exists(s, ArchivePath(scriptDir))
    // a failed request or a failed write ends the call with nothing changed
    ensures st.fetched && fetch(Url).FetchFailed? ==> st == Step(Err(HTTPError), s, true, false)
    ensures st.fetched && fetch(Url).Fetched? && WriteFile(s, ArchivePath(scriptDir), fetch(Url).content).Err? ==>
              st == Step(Err(WriteFile(s, ArchivePath(scriptDir), fetch(Url).content).error), s, true, false)
    // unpacking is attempted exactly when any download completed and the root is not a directory
    ensures st.extracted <==>
              && !IsDir(s, RootPath(scriptDir))
              && (st.fetched ==> fetch(Url).Fetched? && WriteFile(s, ArchivePath(scriptDir), fetch(Url).content).Ok?)
    // a completed download stores the whole body, and is all that changes when the root is already there
    ensures st.fetched && !st.extracted && st.outcome.Ok? ==>
              fetch(Url).Fetched? && st.after == FsState(s.dirs, s.files[ArchivePath(scriptDir) := fetch(Url).content])
    ensures !st.fetched && !st.extracted ==> st.after == s
    // when nothing is unpacked and the download step succeeded, the call returns the root
    ensures !st.extracted && Downloaded(s, scriptDir, fetch).Ok? ==>
              st == Step(Ok(RootPath(scriptDir)), Downloaded(s, scriptDir, fetch).value, st.fetched, false)
    // what is unpacked after a download is the downloaded body, into the scratch directory
    ensures st.extracted && st.fetched && unpack(fetch(Url).content).Some? ==>
              var s1 := FsState(s.dirs, s.files[ArchivePath(scriptDir) := fetch(Url).content]);
              var x := ExtractAll(s1, unpack(fetch(Url).content).value, ScratchPath(scriptDir));
              && (x.Ok? ==> st == Step(Ok(RootPath(scriptDir)), x.value, true, true))
              && (x.Err? ==> st == Step(Err(x.error), s1, true, true))
    ensures st.extracted && st.fetched && unpack(fetch(Url).content).None? ==>
              st == Step(Err(TarReadError), FsState(s.dirs, s.files[ArchivePath(scriptDir) := fetch(Url).content]), true, true)
    // without a download, what is unpacked is whatever file stands at the archive path
    ensures st.extracted && !st.fetched ==>
              var a := ReadFile(s, ArchivePath(scriptDir));
              && (a.Err? ==> st == Step(Err(a.error), s, false, true))
              && (a.Ok? && unpack(a.value).None? ==> st == Step(Err(TarReadError), s, false, true))
              && (a.Ok? && unpack(a.value).Some? ==>
                    var x := ExtractAll(s, unpack(a.value).value, ScratchPath(scriptDir));
                    && (x.Ok? ==> st == Step(Ok(RootPath(scriptDir)), x.value, false, true))
                    && (x.Err? ==> st == Step(Err(x.error), s, false, true)))
    // on success the result is the fixed root, and the archive path is taken
    ensures st.outcome.Ok? ==> st.outcome.value == RootPath(scriptDir) && Exists(st.after, ArchivePath(scriptDir))
    // nothing is ever removed, and no path becomes both a file and a directory
    ensures s.dirs <= st.after.dirs && s.files.Keys <= st.after.files.Keys
    ensures WellFormed(s) ==> WellFormed(st.after)
  {
    var archive := ArchivePath(scriptDir);
    var fetched := !Exists(s, archive);
    match Downloaded(s, scriptDir, fetch)
    case Err(e) => Step(Err(e), s, fetched, false)
    case Ok(s1) =>
      var root := RootPath(scriptDir);
      if IsDir(s1, root) then Step(Ok(root), s1, fetched, false)
      else
        match ReadFile(s1, archive)
        case Err(e) => Step(Err(e), s1, fetched, true)
        case Ok(bytes) =>
          match unpack(bytes)
          case None => Step(Err(TarReadError), s1, fetched, true)
          case Some(m) =>
            match ExtractAll(s1, m, ScratchPath(scriptDir))
            case Err(e) => Step(Err(e), s1, fetched, true)
            case Ok(t) => Step(Ok(root), t, fetched, true)
  }

  /** `cifar10()` as called, that is wrapped by `requires_scratch`: the scratch
      directory is ensured first and a failure there ends the call before any
      download or extraction. */
  function AcquireStep(s: FsState, scriptDir: Path, fetch: string -> Response,
                       unpack: Bytes -> Option<Members>): (st: Step)
    ensures EnsuredScratch(s, scriptDir).Err? ==> st == Step(Err(EnsuredScratch(s, scriptDir).error), s, false, false)
    // once the scratch directory is ensured, the body runs on the state that left
    ensures EnsuredScratch(s, scriptDir).Ok? ==> st == Cifar10Step(EnsuredScratch(s, scriptDir).value, scriptDir, fetch, unpack)
    ensures st.fetched ==> !Exists(s, ArchivePath(scriptDir))
    ensures st.outcome.Ok? ==>
              && st.outcome.value == RootPath(scriptDir)
              && Exists(st.after, ScratchPath(scriptDir))
              && Exists(st.after, ArchivePath(scriptDir))
    // on fully populated state the call only checks and returns
    ensures Exists(s, ScratchPath(scriptDir)) && Exists(s, ArchivePath(scriptDir)) && IsDir(s, RootPath(scriptDir)) ==>
              st == Step(Ok(RootPath(scriptDir)), s, false, false)
    ensures s.dirs <= st.after.dirs && s.files.Keys <= st.after.files.Keys
    ensures WellFormed(s) ==> WellFormed(st.after)
  {
    match EnsuredScratch(s, scriptDir)
    case Err(e) => Step(Err(e), s, false, false)
    case Ok(s1) => Cifar10Step(s1, scriptDir, fetch, unpack)
  }

  /** A failed download writes no file and unpacks nothing. */
  lemma FailedFetchWritesNothing(s: FsState, scriptDir: Path, fetch: string -> Response,
                                 unpack: Bytes -> Option<Members>)
    requires fetch(Url).FetchFailed?
    requires !Exists(s, ArchivePath(scriptDir))
    ensures var st := AcquireStep(s, scriptDir, fetch, unpack);
            st.outcome.Err? && st.after.files == s.files && !st.extracted
  {
  }

  /** Calling `cifar10()` again after a successful call never downloads,
      whatever the network would now answer; it unpacks again exactly when the
      first call left no directory at the root (the archive has no directory
      member at `cifar-10-batches-py` and no member below it, or a regular
      file ends up there), and otherwise changes nothing and returns the
      same root. */
  lemma SecondAcquireSkipsWork(s: FsState, scriptDir: Path, fetch: string -> Response,
                               unpack: Bytes -> Option<Members>, fetch': string -> Response,
                               unpack': Bytes -> Option<Members>)
    requires AcquireStep(s, scriptDir, fetch, unpack).outcome.Ok?
    ensures var first := AcquireStep(s, scriptDir, fetch, unpack);
            var second := AcquireStep(first.after, scriptDir, fetch', unpack');
            && !second.fetched
            && (second.extracted <==> !IsDir(first.after, RootPath(scriptDir)))
            && (IsDir(first.after, RootPath(scriptDir)) ==>
                  second == Step(Ok(RootPath(scriptDir)), first.after, false, false))
  {
    var first := AcquireStep(s, scriptDir, fetch, unpack);
    assert EnsuredScratch(first.after, scriptDir) == Ok(first.after);
  }

  /** `_ensure_scratch_path()` on the machine's disk. */
  method EnsureScratchPath(disk: Disk, scriptDir: Path) returns (r: Result<()>)
    modifies disk
    ensures var e := EnsuredScratch(old(disk.State()), scriptDir);
            && (e.Ok? ==> r == Ok(()) && disk.State() == e.value)
            && (e.Err? ==> r == Err(e.error) && disk.State() == old(disk.State()))
  {
    r := disk.Mkdirs(ScratchPath(scriptDir));
    if r.Err? && r.error == OSError(EEXIST) {
      r := Ok(());
    }
  }

  /** The body of `cifar10()` on the machine's disk; `fetched` and `extracted`
      record whether the network was asked and whether unpacking began. */
  method Cifar10Body(disk: Disk, scriptDir: Path, fetch: string -> Response, unpack: Bytes -> Option<Members>)
    returns (r: Result<Accessor.Cifar10>, ghost fetched: bool, ghost extracted: bool)
    modifies disk
    ensures var st := Cifar10Step(old(disk.State()), scriptDir, fetch, unpack);
            && disk.State() == st.after && fetched == st.fetched && extracted == st.extracted
            && (st.outcome.Err? ==> r == Err(st.outcome.error))
            && (st.outcome.Ok? ==> r.Ok? && fresh(r.value) && r.value.path == st.outcome.value
                                   && r.value.cache == map[] && r.value.readLog == [])
  {
    fetched, extracted := false, false;
    var archive := ArchivePath(scriptDir);
    if !Exists(disk.State(), archive) {
      fetched := true;
      var response := fetch(Url);
      if response.FetchFailed? {
        return Err(HTTPError), fetched, extracted;
      }
      var written := disk.WriteAll(archive, response.content);
      if written.Err? {
        return Err(written.error), fetched, extracted;
      }
    }
    var root := RootPath(scriptDir);
    if !IsDir(disk.State(), root) {
      extracted := true;
      var content := disk.ReadAll(archive);
      if content.Err? {
        return Err(content.error), fetched, extracted;
      }
      var members := unpack(content.value);
      if members.None? {
        return Err(TarReadError), fetched, extracted;
      }
      var unpacked := disk.ExtractInto(members.value, ScratchPath(scriptDir));
      if unpacked.Err? {
        return Err(unpacked.error), fetched, extracted;
      }
    }
    var accessor := new Accessor.Cifar10(root);
    r := Ok(accessor);
  }

  /** `cifar10()`: `requires_scratch` runs `_ensure_scratch_path()` first and
      only then the body. */
  method Cifar10(disk: Disk, scriptDir: Path, fetch: string -> Response, unpack: Bytes -> Option<Members>)
    returns (r: Result<Accessor.Cifar10>, ghost fetched: bool, ghost extracted: bool)
    modifies disk
    ensures var st := AcquireStep(old(disk.State()), scriptDir, fetch, unpack);
            && disk.State() == st.after && fetched == st.fetched && extracted == st.extracted
            && (st.outcome.Err? ==> r == Err(st.outcome.error))
            && (st.outcome.Ok? ==> r.Ok? && fresh(r.value) && r.value.path == RootPath(scriptDir)
                                   && r.value.cache == map[] && r.value.readLog == [])
  {
    var ready := EnsureScratchPath(disk, scriptDir);
    if ready.Err? {
      return Err(ready.error), false, false;
    }
    r, fetched, extracted := Cifar10Body(disk, scriptDir, fetch, unpack);
  }
}
