/** Paths as sequences of segments, `os.path.join` with a single plain segment,
    the decimal text `'{}'.format(i)` gives an integer, and the fixed layout of
    the scratch directory. */
module Paths {

  /** An absolute path, one entry per directory level below `/`. */
  type Path = seq<string>

  /** `os.path.join(base, name)` for a `name` without separators. */
  function Join(base: Path, name: string): Path {
    base + [name]
  }

  predicate IsDigit(c: char) {
    '0' <= c <= '9'
  }

  predicate AllDigits(s: string) {
    forall k :: 0 <= k < |s| ==> IsDigit(s[k])
  }

  function DigitChar(d: nat): (c: char)
    requires d < 10
    ensures IsDigit(c) && c as int - '0' as int == d
  {
    ('0' as int + d) as char
  }

  /** Decimal digits of `n`, most significant first, no leading zero. */
  function FormatNat(n: nat): (s: string)
    ensures |s| > 0 && AllDigits(s)
    ensures |s| > 1 ==> s[0] != '0'
    decreases n
  {
    if n < 10 then [DigitChar(n)] else FormatNat(n / 10) + [DigitChar(n % 10)]
  }

  /** The value of a string of decimal digits. */
  function ParseNat(s: string): nat
    requires AllDigits(s)
  {
    if s == [] then 0 else ParseNat(s[..|s| - 1]) * 10 + (s[|s| - 1] as int - '0' as int)
  }

  lemma {:induction false} ParseFormatNat(n: nat)
    ensures ParseNat(FormatNat(n)) == n
    decreases n
  {
    if n >= 10 {
      var s := FormatNat(n);
      assert s[..|s| - 1] == FormatNat(n / 10);
      ParseFormatNat(n / 10);
    }
  }

  /** The text of `'{}'.format(i)` for a Python int: an optional minus sign
      followed by the decimal digits of the magnitude. */
  function FormatInt(i: int): (s: string)
    ensures |s| > 0
    ensures s[0] == '-' <==> i < 0
    ensures AllDigits(s[1..])
    ensures i >= 0 ==> AllDigits(s)
    // no leading zero, as Python writes integers
    ensures i >= 0 && |s| > 1 ==> s[0] != '0'
    ensures i < 0 ==> |s| > 1 && s[1] != '0'
  {
    if i < 0 then "-" + FormatNat(-i) else FormatNat(i)
  }

  /** Reads back what `FormatInt` writes. */
  function ParseInt(s: string): int
    requires |s| > 0 && AllDigits(s[1..])
    requires s[0] == '-' || IsDigit(s[0])
  {
    if s[0] == '-' then -(ParseNat(s[1..]) as int) else ParseNat(s)
  }

  lemma {:induction false} ParseFormatInt(i: int)
    ensures ParseInt(FormatInt(i)) == i
  {
    if i < 0 {
      assert FormatInt(i)[1..] == FormatNat(-i);
      ParseFormatNat(-i);
    } else {
      ParseFormatNat(i);
    }
  }

  /** `_scratch_path()`: the `scratch` directory beside the script. */
  function ScratchPath(scriptDir: Path): (p: Path)
    ensures |p| == |scriptDir| + 1 && p[..|scriptDir|] == scriptDir && p[|scriptDir|] == "scratch"
  {
    Join(scriptDir, "scratch")
  }

  /** Where `cifar10()` keeps the downloaded archive. */
  function ArchivePath(scriptDir: Path): (p: Path)
    ensures |p| == |scriptDir| + 2 && p[..|scriptDir| + 1] == ScratchPath(scriptDir) && p[|scriptDir| + 1] == "cifar10.tar.gz"
  {
    Join(ScratchPath(scriptDir), "cifar10.tar.gz")
  }

  /** The directory the archive unpacks to, and the accessor's root. */
  function RootPath(scriptDir: Path): (p: Path)
    ensures |p| == |scriptDir| + 2 && p[..|scriptDir| + 1] == ScratchPath(scriptDir) && p[|scriptDir| + 1] == "cifar-10-batches-py"
    ensures p != ArchivePath(scriptDir)
  {
    Join(ScratchPath(scriptDir), "cifar-10-batches-py")
  }

  /** The file `_do_batch(idx)` reads below the accessor's root. */
  function BatchFile(root: Path, idx: int): (p: Path)
    ensures |p| == |root| + 1 && p[..|root|] == root
    ensures |p[|root|]| > 11 && p[|root|][..11] == "data_batch_" && p[|root|][11..] == FormatInt(idx)
  {
    Join(root, "data_batch_" + FormatInt(idx))
  }

  /** Different batch indices name different files: a batch read for one index
      never touches the file of another. */
  lemma BatchFileInjective(root: Path, i: int, j: int)
    requires BatchFile(root, i) == BatchFile(root, j)
    ensures i == j
  {
    var a, b := "data_batch_" + FormatInt(i), "data_batch_" + FormatInt(j);
    assert a == BatchFile(root, i)[|root|];
    assert a[11..] == FormatInt(i);
    assert b[11..] == FormatInt(j);
    ParseFormatInt(i);
    ParseFormatInt(j);
  }
}
