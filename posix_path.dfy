/**
 * The string operations of Python's `posixpath` that the image field uses to
 * rename an upload: `str.rfind`, `str.rstrip`, `os.path.split` and
 * `os.path.splitext` (separator '/', extension separator '.', no alternative
 * separator).
 */
module PosixPath {

  /** `s.rfind(c)`: the index of the last `c` in `s`, or -1 when there is none. */
  function RFind(s: string, c: char): (i: int)
    ensures -1 <= i < |s|
    ensures 0 <= i ==> s[i] == c
    ensures forall k :: i < k < |s| ==> s[k] != c
  {
    if s == [] then -1
    else if s[|s| - 1] == c then |s| - 1
    else RFind(s[..|s| - 1], c)
  }

  /** Nothing after the last occurrence of `c` is `c`. */
  lemma NoneAfterLast(s: string, c: char, from: int)
    requires RFind(s, c) < from <= |s|
    ensures c !in s[from..]
  {
    forall k | 0 <= k < |s| - from
      ensures s[from..][k] != c
    {
      assert s[from..][k] == s[from + k];
    }
  }

  /** `s.rstrip(c)`: `s` without its trailing run of `c`. */
  function RStrip(s: string, c: char): (r: string)
    ensures r <= s
    ensures r == [] || r[|r| - 1] != c
    ensures forall k :: |r| <= k < |s| ==> s[k] == c
  {
    if s != [] && s[|s| - 1] == c then RStrip(s[..|s| - 1], c) else s
  }

  /** Every character of `s` from index `lo` up to `hi` is `c`. */
  predicate AllCharBetween(s: string, lo: int, hi: int, c: char)
    requires 0 <= lo <= hi <= |s|
  {
    forall k :: lo <= k < hi ==> s[k] == c
  }

  /**
   * `os.path.split(p)`: the tail is everything after the last '/'; the head is
   * everything up to and including it, with its trailing slashes removed
   * unless the head consists of slashes only.
   */
  function Split(p: string): (pair: (string, string))
    ensures '/' !in pair.1
    ensures |pair.0| + |pair.1| <= |p|
    ensures pair.0 == p[..|pair.0|] && pair.1 == p[|p| - |pair.1|..]
    ensures forall k :: |pair.0| <= k < |p| - |pair.1| ==> p[k] == '/'
    ensures |pair.1| < |p| ==> p[|p| - |pair.1| - 1] == '/'
    ensures pair.0 == [] || AllCharBetween(pair.0, 0, |pair.0|, '/') || pair.0[|pair.0| - 1] != '/'
    ensures AllCharBetween(p, 0, |p| - |pair.1|, '/') ==> |pair.0| == |p| - |pair.1|
  {
    var i := RFind(p, '/') + 1;
    NoneAfterLast(p, '/', i);
    var head, tail := p[..i], p[i..];
    if head != [] && !AllCharBetween(head, 0, |head|, '/') then (RStrip(head, '/'), tail) else (head, tail)
  }

  /**
   * `os.path.splitext(p)`: the extension runs from the last '.' to the end,
   * provided that dot lies after the last '/' and some character between that
   * '/' and the dot is not a dot (leading dots of a name are not an extension).
   */
  function SplitExt(p: string): (pair: (string, string))
    ensures pair.0 + pair.1 == p
    ensures pair.1 == [] || (pair.1[0] == '.' && '.' !in pair.1[1..] && '/' !in pair.1)
  {
    var sepIndex := RFind(p, '/');
    var dotIndex := RFind(p, '.');
    if dotIndex > sepIndex && !AllCharBetween(p, sepIndex + 1, dotIndex, '.') then
      NoneAfterLast(p, '.', dotIndex + 1);
      NoneAfterLast(p, '/', dotIndex);
      assert p[dotIndex..][1..] == p[dotIndex + 1..];
      (p[..dotIndex], p[dotIndex..])
    else
      (p, [])
  }

  /** The last path component of `p` has a dot preceded, within that component, by a non-dot. */
  ghost predicate HasExtension(p: string) {
    exists i, j :: RFind(p, '/') < i < j < |p| && p[i] != '.' && p[j] == '.'
  }

  /** `splitext` splits off an extension exactly when the last component has one. */
  lemma SplitExtFindsExtension(p: string)
    ensures SplitExt(p).1 != [] <==> HasExtension(p)
  {
    var sepIndex := RFind(p, '/');
    var dotIndex := RFind(p, '.');
    if SplitExt(p).1 != [] {
      var k :| sepIndex + 1 <= k < dotIndex && p[k] != '.';
      assert sepIndex < k < dotIndex < |p| && p[dotIndex] == '.';
    }
    if HasExtension(p) {
      var i, j :| sepIndex < i < j < |p| && p[i] != '.' && p[j] == '.';
      assert !AllCharBetween(p, sepIndex + 1, dotIndex, '.');
    }
  }
}
