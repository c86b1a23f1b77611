# CIFAR-10 acquisition and lazy batch access, modelled in Dafny

`datasets.py` does two things. It fetches the CIFAR-10 Python archive into a
`scratch` directory beside the script, unpacks it there, and returns a
`CIFAR10` accessor bound to `scratch/cifar-10-batches-py`. The accessor then
unpickles each training batch `data_batch_<idx>` the first time it is asked
for, and keeps the result in an instance attribute named `__batch<idx>`.

This project models both parts, over an abstract filesystem:

- `pyobjects.dfy` (module `PyObjects`): a representative subset of the values
  `pickle.load` can return, and Python's truth test on them. The cache check `not getattr(...)` depends
  on this test.
- `paths.dfy` (module `Paths`): paths as segment sequences, and `os.path.join`.
  It also holds the decimal text `'{}'.format(idx)` with a proved parse round
  trip, and the fixed layout of the scratch directory.
- `filesystem.dfy` (module `FileSystem`): the filesystem as a value
  (`FsState`: directories, plus files with their bytes). It gives the effect of
  `os.makedirs`, `open` for reading and writing, `TarFile.extractall` and
  `_unpickle` as functions on that value. Each keeps `WellFormed`: no path is
  both a file and a directory. The `Disk` class applies those
  effects in place.
- `accessor.dfy` (module `Accessor`): the `Cifar10` class (`CIFAR10`) with its
  per-index cache, and a ghost log of the files it opened. `BatchAccess` is the
  value-level meaning of one `_do_batch` call. `Replay` strings several calls
  together, and the lemmas about `Replay` state how often each file is read.
- `acquisition.dfy` (module `Acquisition`): `_ensure_scratch_path`, the body of
  `cifar10`, and the `requires_scratch` composition. Each appears twice: as a
  function on `FsState` (`EnsuredScratch`, `Cifar10Step`, `AcquireStep`), and
  as a method on a `Disk` that is proved to match that function.

Several things come in as parameters. The network response is
`fetch: string -> Response`. The tar format is
`unpack: Bytes -> Option<Members>`, where `Members` are the entries relative to
the extraction directory. The pickle format is
`decode: Bytes -> Option<PyObject>`. The script's directory is `scriptDir`.

### Behaviour the model keeps as the code has it

- The cache treats any falsy stored value as "not loaded" (datasets.py:48). The
  model keeps this as written. A batch whose file unpickles to a falsy value,
  such as an empty dict, is read again on every access
  (`UntruthyBatchReadEveryTime`). "At most one read per index" holds only for
  truthy loads (`TruthyBatchReadAtMostOnce`).
- `CIFAR10` defines the accessors `batch1` to `batch5` and nothing else, and
  the model has exactly those five.
- `cifar10()` returns a `CIFAR10` object bound to the root, not a bare root
  path.
- A download counts as failed when `raise_for_status` raises. Which statuses
  do that is left to the `fetch` oracle.

## Model

| member | source | states |
|---|---|---|
| `PyObjects.Truthy` | datasets.py:48 | the values `not` treats as false are exactly None, False, 0, the empty bytes, string, list and dict, and other objects whose own truth test answers false |
| `Paths.FormatInt` | datasets.py:49 | `'{}'.format(idx)` is non-empty, starts with `-` exactly for negative indices, is all decimal digits for non-negative ones, and digits after the sign otherwise, with no leading zero in either case, so `data_batch_1` and never `data_batch_01` |
| `Paths.ParseFormatInt` | datasets.py:47-49 | the decimal text of every index reads back as that index, so the attribute name and file name determine the index |
| `Paths.ScratchPath` | datasets.py:99-100 | the scratch directory is the entry `scratch` directly inside the script's directory |
| `Paths.ArchivePath` | datasets.py:65 | the archive is the entry `cifar10.tar.gz` directly inside the scratch directory |
| `Paths.RootPath` | datasets.py:80 | the extraction root is the entry `cifar-10-batches-py` directly inside the scratch directory, and is never the archive |
| `Paths.BatchFile` | datasets.py:49 | the batch file of `idx` is the entry `data_batch_` followed by the decimal text of `idx`, directly inside the root |
| `Paths.BatchFileInjective` | datasets.py:49 | two indices that give the same `join(path, 'data_batch_<idx>')` are equal: each index has its own batch file |
| `FileSystem.Exists` | datasets.py:67 | `os.path.exists` holds for every directory and every regular file |
| `FileSystem.IsDir` | datasets.py:81 | `os.path.isdir` holds only for paths that exist, and never for a regular file in a well-formed state |
| `FileSystem.Makedirs` | datasets.py:94 | `os.makedirs` fails with EEXIST when anything exists at the path, and with ENOTDIR when nothing does but a file stands above it; otherwise it creates the path and every missing ancestor, and no other directory, touches no file, and keeps the state well formed |
| `FileSystem.ReadFile` | datasets.py:54-55 | reading succeeds exactly on a regular file and gives its whole content; a directory gives EISDIR, a path below a regular file ENOTDIR, and any other missing path ENOENT |
| `FileSystem.WriteFile` | datasets.py:72-74 | writing the archive succeeds exactly when the path is not a directory and its parent is; otherwise a directory at the path gives EISDIR, a file above it ENOTDIR and a missing directory ENOENT; the result stores the whole content at that path and nothing else, and stays well formed |
| `FileSystem.Overlay` | datasets.py:84 | every member file is present below the extraction directory with its content, a file is new only when a member put it there, and every file no member replaces keeps its content |
| `FileSystem.UnpackedWellFormed` | datasets.py:84 | unpacking without a collision leaves no path both a file and a directory |
| `FileSystem.ExtractAll` | datasets.py:82-84 | a member file landing on a directory raises EISDIR; a directory needed where a file stands raises ENOTDIR; otherwise every member file appears below the extraction directory with its content and every directory above it, files no member replaces are kept wherever they are, nothing is removed, and the state stays well formed |
| `FileSystem.Unpickle` | datasets.py:53-56 | `_unpickle` succeeds exactly when the path is a file whose bytes decode; directories give EISDIR, paths below a regular file ENOTDIR, other missing paths ENOENT, and undecodable content an unpickling error |
| `Accessor.Stored` | datasets.py:48 | `getattr(self, attr, None)` gives the stored value for an index that has one, and a truthy value only for such an index |
| `Accessor.BatchAccess` | datasets.py:46-51 | a truthy stored value is returned with no file opened; otherwise exactly `BatchFile(root, idx)` is opened and its unpickled value is returned; on success only the entry for `idx` changes, and on failure the cache is unchanged |
| `Accessor.Replay` | datasets.py:46-51 | a series of accesses opens at most one file per access and caches only requested indices |
| `Accessor.ReplayOpensOnlyRequestedBatches` | datasets.py:49 | a series of accesses opens nothing but the batch files of the indices it requests |
| `Accessor.OtherIndexUntouched` | datasets.py:47-50 | an access to one index neither opens another index's file nor changes what is stored for it |
| `Accessor.TruthyEntryIsKept` | datasets.py:48-51 | once a truthy value is stored for an index, no later access replaces it, so every later access returns that identical value |
| `Accessor.TruthyBatchReadAtMostOnce` | datasets.py:47-51 | when an index's file unpickles to a truthy value, any series of accesses reads it at most once, and not at all when a truthy value is already cached |
| `Accessor.TruthyBatchReadOnce` | datasets.py:47-51 | when an index's file unpickles to a truthy value and nothing truthy is cached for it, a series of accesses that requests the index reads its file exactly once |
| `Accessor.UntruthyBatchReadEveryTime` | datasets.py:48 | when an index's file is missing, undecodable, or unpickles to a falsy value, the file is read exactly as many times as the index is accessed |
| `Accessor.Cifar10.constructor` | datasets.py:23-24 | construction stores the path only: the cache and the read log start empty, and no disk is involved |
| `FileSystem.Disk.Mkdirs` | datasets.py:94 | the disk ends as `Makedirs` says, unchanged on an error, and the error reported is the one `Makedirs` gives |
| `FileSystem.Disk.ReadAll` | datasets.py:54-55 | the bytes or error returned are those `ReadFile` gives for the disk at the call, and nothing changes |
| `FileSystem.Disk.WriteAll` | datasets.py:72-74 | the disk ends as `WriteFile` says, unchanged on an error, and the error reported is the one `WriteFile` gives |
| `FileSystem.Disk.ExtractInto` | datasets.py:84 | the disk ends as `ExtractAll` says, unchanged on an error, and the error reported is the one `ExtractAll` gives |
| `Accessor.Cifar10.DoBatch` | datasets.py:46-51 | the returned value, the new cache and the files opened are those given by `BatchAccess` for the disk as it is at the call |
| `Accessor.Cifar10.Batch1` | datasets.py:26-28 | `batch1` is `_do_batch(1)` |
| `Accessor.Cifar10.Batch2` | datasets.py:30-32 | `batch2` is `_do_batch(2)` |
| `Accessor.Cifar10.Batch3` | datasets.py:34-36 | `batch3` is `_do_batch(3)` |
| `Accessor.Cifar10.Batch4` | datasets.py:38-40 | `batch4` is `_do_batch(4)` |
| `Accessor.Cifar10.Batch5` | datasets.py:42-44 | `batch5` is `_do_batch(5)` |
| `Acquisition.EnsuredScratch` | datasets.py:92-97 | when anything is already at the scratch path, the state is unchanged and the call succeeds, even if a file stands there; it fails, with ENOTDIR, only when a file sits above the scratch path; on success the scratch path exists, no file changed, and the only directories created are the scratch path and those above it |
| `Acquisition.Downloaded` | datasets.py:67-76 | nothing happens when anything is at the archive path; otherwise a failed request raises before any write, and a completed one writes the body so that reading the archive path back gives exactly that body |
| `Acquisition.Cifar10Step` | datasets.py:60-86 | the network is used exactly when nothing is at the archive path; a failed request or write changes nothing and reports its error; unpacking is attempted exactly when any download completed and the root is not a directory; what is unpacked is the downloaded body, or the file already at the archive path; a read, format or extraction error reports that error and leaves the post-download state; when nothing is unpacked and the download step succeeded, the call returns the root with the post-download state; success returns the fixed root with the archive still present; nothing is removed and the state stays well formed |
| `Acquisition.AcquireStep` | datasets.py:9-16 | the scratch directory is ensured before the body runs, and a failure there stops the call with no fetch and no extraction; after a successful scratch step the call is exactly the body run on the state it left; on fully populated state the call changes nothing and returns the root; nothing is removed and the state stays well formed |
| `Acquisition.FailedFetchWritesNothing` | datasets.py:70-74 | when the archive is missing and the fetch fails, the call fails, no file is written and nothing is unpacked |
| `Acquisition.SecondAcquireSkipsWork` | datasets.py:65-86 | after a successful call, a second call never fetches, whatever the network answers; it unpacks again exactly when the root is still not a directory, and otherwise changes nothing and returns the same root |
| `Acquisition.EnsureScratchPath` | datasets.py:92-97 | the disk ends in the state `EnsuredScratch` gives, and the error it reports is the one `EnsuredScratch` gives |
| `Acquisition.Cifar10Body` | datasets.py:60-86 | the disk ends as `Cifar10Step` says, with the same fetch and extraction flags; on success the result is a fresh accessor bound to the root with an empty cache |
| `Acquisition.Cifar10` | datasets.py:59-86 | the decorated `cifar10()` leaves the disk as `AcquireStep` says; on success it returns a fresh accessor bound to `scratch/cifar-10-batches-py` with an empty cache |

## Left out

- The HTTP transport (`requests.get`, `raise_for_status`) is the `fetch` oracle: a body or a failure. Status codes, redirects and transport errors are not modelled separately.
- The tar.gz format is the `unpack` oracle. `ExtractAll` checks all members before writing any, so an archive that fails partway through extraction, leaving some members written, is not modelled.
- `FileSystem.ExtractAll`: members with absolute paths or `..`, links, device files, permissions, and the extraction filters of newer Python versions are not modelled. A directory member that meets an existing file is reported as ENOTDIR, although some Python versions ignore it and fail only on a member below it. The ancestors of the extraction directory itself are not checked again.
- `PyObjects.Truthy`: `PyObject` is a closed, representative set of values, and other objects are reduced to the answer their own truth test gives. An object whose truth test raises, such as a numpy array with several elements, is not modelled: here the test always answers.
- The pickle format is the `decode` oracle. The model does not say what a CIFAR batch dict contains.
- `print` logging has no behavioural content.
- The MD5 constant is declared but never checked, and the model checks nothing either.
- `_script_path()` (`os.path.abspath(__file__)`) is the `scriptDir` parameter, because it depends on the installation.
- `FileSystem.Makedirs`: only EEXIST and ENOTDIR are modelled. Permission errors, read-only filesystems and a failure after some ancestors were already created depend on the environment.
- `Acquisition.EnsuredScratch`: `os.errno` is taken to be the `errno` module. That attribute was removed in Python 3.7, and on later versions the `except` branch itself raises.
- Symbolic links, file handles, and files that are written only partly are not modelled.
- Concurrency between processes that share the scratch directory is not modelled. The code has no locking.
- `CIFAR10.path` is a `const`, because nothing reassigns it after `__init__`. The `__batch<idx>` attributes are keyed by the index itself; `Paths.ParseFormatInt` shows that the attribute name determines the index.
