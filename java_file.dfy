/**
 * The part of `java.io.File` that the dialog relies on: a path, how
 * `new File` normalises it, and its parent, on a file system whose name
 * separator is '/'.
 */
module JavaFile {
  import opened Wrappers

  /** `File.separatorChar`. */
  const Separator: char := '/'

  /** A `java.io.File`, identified by its (already normalised) path string. */
  datatype File = File(path: string)

  /** A path as `java.io.File` keeps it: no two separators in a row, no trailing separator except the root. */
  ghost predicate IsNormalized(path: string)
  {
    && (forall i :: 0 <= i < |path| - 1 ==> !(path[i] == Separator && path[i + 1] == Separator))
    && (|path| > 1 ==> path[|path| - 1] != Separator)
  }

  /** Collapses every run of separators into one. */
  function CollapseSeparators(path: string): (r: string)
    ensures |r| <= |path| && (|r| == 0 <==> |path| == 0)
    ensures |path| > 0 ==> r[0] == path[0] && r[|r| - 1] == path[|path| - 1]
    ensures forall i :: 0 <= i < |r| - 1 ==> !(r[i] == Separator && r[i + 1] == Separator)
  {
    if |path| == 0 then []
    else
      var init := CollapseSeparators(path[..|path| - 1]);
      var last := path[|path| - 1];
      if last == Separator && |init| > 0 && init[|init| - 1] == Separator then init else init + [last]
  }

  /**
   * The path of `new File(path)`: runs of separators collapsed and a
   * trailing separator dropped, unless the path is the root.
   */
  function Normalize(path: string): (r: string)
    ensures IsNormalized(r)
    ensures |r| <= |path| && (|r| == 0 <==> |path| == 0)
    ensures |path| > 0 ==> r[0] == path[0]
  {
    var collapsed := CollapseSeparators(path);
    if |collapsed| > 1 && collapsed[|collapsed| - 1] == Separator then collapsed[..|collapsed| - 1] else collapsed
  }

  /** A path without repeated separators is left as it is by collapsing. */
  lemma {:induction false} CollapseKeepsSingleSeparators(path: string)
    requires forall i :: 0 <= i < |path| - 1 ==> !(path[i] == Separator && path[i + 1] == Separator)
    ensures CollapseSeparators(path) == path
  {
    if |path| > 0 {
      CollapseKeepsSingleSeparators(path[..|path| - 1]);
    }
  }

  /** Collapsing treats a doubled separator anywhere in a path as a single one. */
  lemma {:induction false} CollapseDropsDoubled(a: string, b: string)
    ensures CollapseSeparators(a + [Separator, Separator] + b) == CollapseSeparators(a + [Separator] + b)
    decreases |b|
  {
    var doubled, single := a + [Separator, Separator] + b, a + [Separator] + b;
    if b == [] {
      assert doubled[..|doubled| - 1] == single;
    } else {
      var shorter := b[..|b| - 1];
      assert doubled[..|doubled| - 1] == a + [Separator, Separator] + shorter;
      assert single[..|single| - 1] == a + [Separator] + shorter;
      CollapseDropsDoubled(a, shorter);
    }
  }

  /** `new File` keeps a path with a doubled separator as it keeps the path with a single one. */
  lemma NormalizeDropsDoubledSeparator(a: string, b: string)
    ensures Normalize(a + [Separator, Separator] + b) == Normalize(a + [Separator] + b)
  {
    CollapseDropsDoubled(a, b);
  }

  /** `new File` drops a trailing separator from any non-empty path. */
  lemma NormalizeDropsTrailingSeparator(a: string)
    requires |a| > 0
    ensures Normalize(a + [Separator]) == Normalize(a)
  {
    assert (a + [Separator])[..|a|] == a;
  }

  /** Normalising an already normalised path changes nothing, so normalising twice is normalising once. */
  lemma NormalizeIdempotent(path: string)
    ensures IsNormalized(path) ==> Normalize(path) == path
    ensures Normalize(Normalize(path)) == Normalize(path)
  {
    if IsNormalized(path) {
      CollapseKeepsSingleSeparators(path);
    }
    CollapseKeepsSingleSeparators(Normalize(path));
  }

  /** `String.lastIndexOf(char)`: the last position of `c` in `s`, or -1. */
  function LastIndexOf(s: string, c: char): (i: int)
    ensures -1 <= i < |s|
    ensures 0 <= i ==> s[i] == c
    ensures forall j :: i < j < |s| ==> s[j] != c
  {
    if |s| == 0 then -1
    else if s[|s| - 1] == c then |s| - 1
    else LastIndexOf(s[..|s| - 1], c)
  }

  /** Length of the root prefix of a path: 1 for an absolute path, 0 for a relative one. */
  function PrefixLength(path: string): (n: nat)
    ensures n <= |path|
    ensures n == 1 <==> (|path| > 0 && path[0] == Separator)
  {
    if |path| > 0 && path[0] == Separator then 1 else 0
  }

  /**
   * `File.getParent()`: the path up to its last separator, the root when
   * that separator is the root itself, and `null` (None) when there is none.
   */
  function Parent(f: File): (r: Option<string>)
    ensures r.Some? ==> |r.value| < |f.path| && r.value == f.path[..|r.value|]
    ensures r.Some? ==> f.path[|r.value|] == Separator || r.value == [Separator]
    ensures r.Some? ==> |r.value| >= PrefixLength(f.path)
    ensures r.Some? ==> forall j :: |r.value| < j < |f.path| ==> f.path[j] != Separator
    ensures r.None? <==> (forall j :: 0 <= j < |f.path| ==> f.path[j] != Separator)
                         || f.path == [Separator]
  {
    var index := LastIndexOf(f.path, Separator);
    var prefix := PrefixLength(f.path);
    if index < prefix then
      if prefix > 0 && |f.path| > prefix then Some(f.path[..prefix]) else None
    else
      Some(f.path[..index])
  }
}
