/** `CIFAR10`: an object bound to the extracted root that loads each training
    batch file on first access and keeps what it loaded in an attribute named
    after the batch index. */
module Accessor {
  import opened Paths
  import opened PyObjects
  import opened FileSystem

  /** What one `_do_batch(idx)` call returns, the cache it leaves, and the
      files it opened (in order). */
  datatype Access = Access(result: Result<PyObject>, cache: map<int, PyObject>, readLog: seq<Path>)

  /** `getattr(self, '__batch{idx}', None)`: the stored value, or None when the
      attribute was never set. The attribute name is `'__batch'` followed by
      `FormatInt(idx)`, so keying by the index itself loses nothing. */
  function Stored(cache: map<int, PyObject>, idx: int): (v: PyObject)
    ensures idx in cache ==> v == cache[idx]
    ensures Truthy(v) ==> idx in cache
  {
    if idx in cache then cache[idx] else PyNone
  }

  /** The effect of `_do_batch(idx)` on an accessor rooted at `root`, with the
      filesystem `fs` and the pickle format `decode` as they are at the call.
      A truthy stored value is returned without any file being opened; any
      other stored value (including a falsy one that was loaded earlier) leads
      to a read of the batch file. Only the entry for `idx` can change, and
      only when the read succeeds. */
  function BatchAccess(root: Path, cache: map<int, PyObject>, idx: int, fs: FsState,
                       decode: Bytes -> Option<PyObject>): (a: Access)
    ensures Truthy(Stored(cache, idx)) ==> a == Access(Ok(cache[idx]), cache, [])
    ensures !Truthy(Stored(cache, idx)) ==> a.readLog == [BatchFile(root, idx)]
    ensures !Truthy(Stored(cache, idx)) ==> a.result == Unpickle(fs, BatchFile(root, idx), decode)
    ensures a.result.Ok? ==> a.cache == cache[idx := a.result.value]
    ensures a.result.Err? ==> a.cache == cache
  {
    var current := Stored(cache, idx);
    if Truthy(current) then Access(Ok(current), cache, [])
    else
      var file := BatchFile(root, idx);
      match Unpickle(fs, file, decode)
      case Ok(v) => Access(Ok(v), cache[idx := v], [file])
      case Err(e) => Access(Err(e), cache, [file])
  }

  /** The cache and the log of opened files after a series of `_do_batch`
      calls on one accessor, each failure caught by the caller before the next
      call. At most one file is opened per call, and only requested indices
      enter the cache. */
  function Replay(root: Path, cache: map<int, PyObject>, idxs: seq<int>, fs: FsState,
                  decode: Bytes -> Option<PyObject>): (r: (map<int, PyObject>, seq<Path>))
    ensures |r.1| <= |idxs|
    ensures r.0.Keys <= cache.Keys + set j | j in idxs
    decreases |idxs|
  {
    if idxs == [] then (cache, [])
    else
      var a := BatchAccess(root, cache, idxs[0], fs, decode);
      var rest := Replay(root, a.cache, idxs[1..], fs, decode);
      (rest.0, a.readLog + rest.1)
  }

  /** A series of accesses opens nothing but the batch files of the indices
      it requests. */
  lemma {:induction false} ReplayOpensOnlyRequestedBatches(root: Path, cache: map<int, PyObject>, idxs: seq<int>,
                                                          fs: FsState, decode: Bytes -> Option<PyObject>)
    ensures forall p :: p in Replay(root, cache, idxs, fs, decode).1 ==> exists j :: j in idxs && p == BatchFile(root, j)
    decreases |idxs|
  {
    if idxs != [] {
      var a := BatchAccess(root, cache, idxs[0], fs, decode);
      ReplayOpensOnlyRequestedBatches(root, a.cache, idxs[1..], fs, decode);
      assert forall j :: j in idxs[1..] ==> j in idxs;
    }
  }

  /** An access to one index neither opens the file of another index nor
      changes what is stored for it. */
  lemma OtherIndexUntouched(root: Path, cache: map<int, PyObject>, idx: int, other: int, fs: FsState,
                            decode: Bytes -> Option<PyObject>)
    requires idx != other
    ensures var a := BatchAccess(root, cache, idx, fs, decode);
            Stored(a.cache, other) == Stored(cache, other) && BatchFile(root, other) !in a.readLog
  {
    if BatchFile(root, other) == BatchFile(root, idx) {
      BatchFileInjective(root, other, idx);
    }
  }

  /** Once a truthy value is stored for `i`, no later access replaces it:
      every later `_do_batch(i)` returns that identical value. */
  lemma {:induction false} TruthyEntryIsKept(root: Path, cache: map<int, PyObject>, idxs: seq<int>, fs: FsState,
                                            decode: Bytes -> Option<PyObject>, i: int)
    requires Truthy(Stored(cache, i))
    ensures i in Replay(root, cache, idxs, fs, decode).0
    ensures Replay(root, cache, idxs, fs, decode).0[i] == cache[i]
    decreases |idxs|
  {
    if idxs != [] {
      var a := BatchAccess(root, cache, idxs[0], fs, decode);
      if idxs[0] != i {
        OtherIndexUntouched(root, cache, idxs[0], i, fs, decode);
      }
      TruthyEntryIsKept(root, a.cache, idxs[1..], fs, decode, i);
    }
  }

  /** How many times `x` occurs in `s`. */
  function Count<T(==)>(s: seq<T>, x: T): nat {
    if s == [] then 0 else (if s[0] == x then 1 else 0) + Count(s[1..], x)
  }

  lemma {:induction false} CountConcat<T>(a: seq<T>, b: seq<T>, x: T)
    ensures Count(a + b, x) == Count(a, x) + Count(b, x)
  {
    if a == [] {
      assert a + b == b;
    } else {
      assert (a + b)[1..] == a[1..] + b;
      CountConcat(a[1..], b, x);
    }
  }

  /** The reads of a series of accesses: those of the first access, then
      those of the rest. */
  lemma CountAfterFirst(root: Path, cache: map<int, PyObject>, idxs: seq<int>, fs: FsState,
                        decode: Bytes -> Option<PyObject>, file: Path)
    requires idxs != []
    ensures var a := BatchAccess(root, cache, idxs[0], fs, decode);
            Count(Replay(root, cache, idxs, fs, decode).1, file)
            == Count(a.readLog, file) + Count(Replay(root, a.cache, idxs[1..], fs, decode).1, file)
  {
    var a := BatchAccess(root, cache, idxs[0], fs, decode);
    CountConcat(a.readLog, Replay(root, a.cache, idxs[1..], fs, decode).1, file);
  }

  /** When the batch file of `i` deserialises to a truthy value, a series of
      accesses reads that file at most once, and not at all when a truthy
      value is already stored. */
  lemma {:induction false} TruthyBatchReadAtMostOnce(root: Path, cache: map<int, PyObject>, idxs: seq<int>,
                                                    fs: FsState, decode: Bytes -> Option<PyObject>, i: int)
    requires Unpickle(fs, BatchFile(root, i), decode).Ok?
    requires Truthy(Unpickle(fs, BatchFile(root, i), decode).value)
    ensures Count(Replay(root, cache, idxs, fs, decode).1, BatchFile(root, i)) <= 1
    ensures Truthy(Stored(cache, i)) ==> Count(Replay(root, cache, idxs, fs, decode).1, BatchFile(root, i)) == 0
    decreases |idxs|
  {
    if idxs != [] {
      var a := BatchAccess(root, cache, idxs[0], fs, decode);
      TruthyBatchReadAtMostOnce(root, a.cache, idxs[1..], fs, decode, i);
      CountAfterFirst(root, cache, idxs, fs, decode, BatchFile(root, i));
      if idxs[0] != i {
        OtherIndexUntouched(root, cache, idxs[0], i, fs, decode);
      } else if !Truthy(Stored(cache, i)) {
        assert Truthy(Stored(a.cache, i));
      }
    }
  }

  /** When the batch file of `i` deserialises to a truthy value and nothing
      truthy is stored for `i` yet, a series of accesses that requests `i`
      reads its file exactly once. */
  lemma {:induction false} TruthyBatchReadOnce(root: Path, cache: map<int, PyObject>, idxs: seq<int>,
                                              fs: FsState, decode: Bytes -> Option<PyObject>, i: int)
    requires Unpickle(fs, BatchFile(root, i), decode).Ok?
    requires Truthy(Unpickle(fs, BatchFile(root, i), decode).value)
    requires !Truthy(Stored(cache, i)) && i in idxs
    ensures Count(Replay(root, cache, idxs, fs, decode).1, BatchFile(root, i)) == 1
    decreases |idxs|
  {
    var a := BatchAccess(root, cache, idxs[0], fs, decode);
    CountAfterFirst(root, cache, idxs, fs, decode, BatchFile(root, i));
    if idxs[0] == i {
      TruthyBatchReadAtMostOnce(root, a.cache, idxs[1..], fs, decode, i);
    } else {
      OtherIndexUntouched(root, cache, idxs[0], i, fs, decode);
      var k :| 0 <= k < |idxs| && idxs[k] == i;
      assert idxs[1..][k - 1] == i;
      TruthyBatchReadOnce(root, a.cache, idxs[1..], fs, decode, i);
    }
  }

  /** One access while nothing truthy is stored for `i` and none can be
      loaded: the file of `i` is read exactly when `i` is the index accessed,
      and still nothing truthy is stored for `i` afterwards. */
  lemma UntruthyStep(root: Path, cache: map<int, PyObject>, idx: int, fs: FsState,
                     decode: Bytes -> Option<PyObject>, i: int)
    requires !Truthy(Stored(cache, i))
    requires Unpickle(fs, BatchFile(root, i), decode).Ok? ==> !Truthy(Unpickle(fs, BatchFile(root, i), decode).value)
    ensures var a := BatchAccess(root, cache, idx, fs, decode);
            Count(a.readLog, BatchFile(root, i)) == (if idx == i then 1 else 0) && !Truthy(Stored(a.cache, i))
  {
    if idx != i {
      OtherIndexUntouched(root, cache, idx, i, fs, decode);
    }
  }

  /** When the batch file of `i` is missing, unreadable, or deserialises to a
      falsy value, nothing truthy is ever stored for `i`, so every access to
      `i` reads the file again. */
  lemma {:induction false} UntruthyBatchReadEveryTime(root: Path, cache: map<int, PyObject>, idxs: seq<int>,
                                                     fs: FsState, decode: Bytes -> Option<PyObject>, i: int)
    requires !Truthy(Stored(cache, i))
    requires Unpickle(fs, BatchFile(root, i), decode).Ok? ==> !Truthy(Unpickle(fs, BatchFile(root, i), decode).value)
    ensures Count(Replay(root, cache, idxs, fs, decode).1, BatchFile(root, i)) == Count(idxs, i)
    decreases |idxs|
  {
    if idxs != [] {
      var a := BatchAccess(root, cache, idxs[0], fs, decode);
      UntruthyStep(root, cache, idxs[0], fs, decode, i);
      UntruthyBatchReadEveryTime(root, a.cache, idxs[1..], fs, decode, i);
      CountAfterFirst(root, cache, idxs, fs, decode, BatchFile(root, i));
    }
  }

  /** `CIFAR10`. `cache` holds the `__batch<idx>` attributes; `readLog` is the
      ghost log of every batch file the instance has opened. */
  class Cifar10 {
    const path: Path
    var cache: map<int, PyObject>
    ghost var readLog: seq<Path>

    /** `CIFAR10(path)` only remembers the path: nothing is read. */
    constructor (path: Path)
      ensures this.path == path && cache == map[] && readLog == []
    {
      this.path := path;
      cache := map[];
      readLog := [];
    }

    /** `_do_batch(idx)`, with `_unpickle` inlined as a read of `disk`
        followed by `decode`. */
    method DoBatch(idx: int, disk: Disk, decode: Bytes -> Option<PyObject>) returns (r: Result<PyObject>)
      modifies this`cache, this`readLog
      ensures var a := BatchAccess(path, old(cache), idx, disk.State(), decode);
              r == a.result && cache == a.cache && readLog == old(readLog) + a.readLog
    {
      if !Truthy(Stored(cache, idx)) {
        var file := BatchFile(path, idx);
        readLog := readLog + [file];
        var content := disk.ReadAll(file);
        if content.Err? {
          return Err(content.error);
        }
        var loaded := decode(content.value);
        if loaded.None? {
          return Err(UnpicklingError);
        }
        cache := cache[idx := loaded.value];
      }
      r := Ok(cache[idx]);
    }

    method Batch1(disk: Disk, decode: Bytes -> Option<PyObject>) returns (r: Result<PyObject>)
      modifies this`cache, this`readLog
      ensures var a := BatchAccess(path, old(cache), 1, disk.State(), decode);
              r == a.result && cache == a.cache && readLog == old(readLog) + a.readLog
    {
      r := DoBatch(1, disk, decode);
    }

    method Batch2(disk: Disk, decode: Bytes -> Option<PyObject>) returns (r: Result<PyObject>)
      modifies this`cache, this`readLog
      ensures var a := BatchAccess(path, old(cache), 2, disk.State(), decode);
              r == a.result && cache == a.cache && readLog == old(readLog) + a.readLog
    {
      r := DoBatch(2, disk, decode);
    }

    method Batch3(disk: Disk, decode: Bytes -> Option<PyObject>) returns (r: Result<PyObject>)
      modifies this`cache, this`readLog
      ensures var a := BatchAccess(path, old(cache), 3, disk.State(), decode);
              r == a.result && cache == a.cache && readLog == old(readLog) + a.readLog
    {
      r := DoBatch(3, disk, decode);
    }

    method Batch4(disk: Disk, decode: Bytes -> Option<PyObject>) returns (r: Result<PyObject>)
      modifies this`cache, this`readLog
      ensures var a := BatchAccess(path, old(cache), 4, disk.State(), decode);
              r == a.result && cache == a.cache && readLog == old(readLog) + a.readLog
    {
      r := DoBatch(4, disk, decode);
    }

    method Batch5(disk: Disk, decode: Bytes -> Option<PyObject>) returns (r: Result<PyObject>)
      modifies this`cache, this`readLog
      ensures var a := BatchAccess(path, old(cache), 5, disk.State(), decode);
              r == a.result && cache == a.cache && readLog == old(readLog) + a.readLog
    {
      r := DoBatch(5, disk, decode);
    }
  }
}
