/**
 * `filepath.Split` of Go's `path/filepath` package on Windows, where both '\'
 * and '/' separate path elements and a leading drive letter ("C:") is the
 * volume name that Split never cuts into.
 */
module WindowsPath {

  predicate IsSeparator(c: char)
  {
    c == '\\' || c == '/'
  }

  predicate IsAsciiLetter(c: char)
  {
    ('a' <= c <= 'z') || ('A' <= c <= 'Z')
  }

  /** Length of the drive-letter volume name at the start of `p` (0 when there is none). */
  function VolumeNameLength(p: string): (n: nat)
    ensures n <= |p|
  {
    if |p| >= 2 && p[1] == ':' && IsAsciiLetter(p[0]) then 2 else 0
  }

  /**
   * Where the final element of p[..n] starts: just after the last separator
   * at or after the volume name, or at the end of the volume name if there is none.
   */
  function FileStart(p: string, vol: nat, n: nat): (k: nat)
    requires vol <= n <= |p|
    ensures vol <= k <= n
    ensures forall j :: k <= j < n ==> !IsSeparator(p[j])
    ensures k > vol ==> IsSeparator(p[k - 1])
    decreases n
  {
    if n == vol || IsSeparator(p[n - 1]) then n else FileStart(p, vol, n - 1)
  }

  /**
   * filepath.Split: the path cut immediately after its final separator into
   * a directory part and a file part. The two parts concatenate to the path,
   * the file part holds no separator, and the directory part is the volume
   * name alone or ends with a separator.
   */
  function Split(p: string): (r: (string, string))
    ensures r.0 + r.1 == p
    ensures forall j :: 0 <= j < |r.1| ==> !IsSeparator(r.1[j])
    ensures |r.0| == VolumeNameLength(p) || (|r.0| > VolumeNameLength(p) && IsSeparator(r.0[|r.0| - 1]))
  {
    var k := FileStart(p, VolumeNameLength(p), |p|);
    assert p[..k] + p[k..] == p;
    (p[..k], p[k..])
  }

  /** The file part of a path that ends in a separator is empty. */
  lemma SplitTrailingSeparator(p: string)
    requires |p| > VolumeNameLength(p) && IsSeparator(p[|p| - 1])
    ensures Split(p) == (p, "")
  {
    assert p[..|p|] == p;
  }

  /** The file part is the longest separator-free suffix that stays outside the volume name. */
  lemma {:induction false} SplitFileIsLastElement(dir: string, name: string)
    requires |dir| > VolumeNameLength(dir) && IsSeparator(dir[|dir| - 1])
    requires forall j :: 0 <= j < |name| ==> !IsSeparator(name[j])
    ensures Split(dir + name) == (dir, name)
  {
    var p := dir + name;
    assert p[..|dir|] == dir;
    assert VolumeNameLength(p) == VolumeNameLength(dir);
    assert p[|dir| - 1] == dir[|dir| - 1];
    assert forall j :: |dir| <= j < |p| ==> p[j] == name[j - |dir|];
    var k := FileStart(p, VolumeNameLength(p), |p|);
    assert k == |dir|;
    assert p[k..] == name;
  }
}
