/**
 * The subset of Go's `path/filepath` the pipeline relies on, for `/`-separated
 * paths. `Join` does not clean its result (see README).
 */
module FilePath {
  import opened GoStrings

  /** `filepath.Join(a, b)`: an empty element is dropped, otherwise one `/` between. */
  function Join(a: string, b: string): (r: string)
    ensures a == "" ==> r == b
    ensures b == "" ==> r == a
    ensures |r| >= |a| && |r| >= |b|
  {
    if a == "" then b else if b == "" then a else a + "/" + b
  }

  predicate IsAbs(p: string) {
    HasPrefix(p, "/")
  }

  /** Index of the last `/` in `p`, or -1 when there is none. */
  function LastSlash(p: string): (i: int)
    ensures -1 <= i < |p|
    ensures i >= 0 ==> p[i] == '/'
    ensures forall j :: i < j < |p| ==> p[j] != '/'
    decreases |p|
  {
    if p == [] then -1
    else if p[|p| - 1] == '/' then |p| - 1
    else LastSlash(p[..|p| - 1])
  }

  /** `filepath.Dir`: everything before the last `/`; `.` without one, `/` at the root. */
  function Dir(p: string): (r: string)
    ensures '/' !in p ==> r == "."
  {
    var i := LastSlash(p);
    if i < 0 then "."
    else if i == 0 then "/"
    else p[..i]
  }

  /** `filepath.Base` for a path without a trailing `/`: the part after the last `/`. */
  function Base(p: string): (r: string)
    ensures '/' !in r
    ensures HasSuffix(p, r)
  {
    p[LastSlash(p) + 1..]
  }

  /** The directory of a joined path is the directory it was joined onto. */
  lemma DirJoin(a: string, b: string)
    requires a != "" && b != "" && '/' !in b
    ensures Dir(Join(a, b)) == a
    ensures Base(Join(a, b)) == b
  {
    var p := Join(a, b);
    assert p[|a|] == '/';
    assert forall j :: |a| < j < |p| ==> p[j] == b[j - |a| - 1];
    assert LastSlash(p) == |a|;
    assert p[..|a|] == a;
    assert p[|a| + 1..] == b;
  }

  /** Joining onto an absolute directory yields an absolute path. */
  lemma JoinAbs(a: string, b: string)
    requires IsAbs(a)
    ensures IsAbs(Join(a, b))
  {
    if b != "" {
      assert Join(a, b)[..1] == a[..1];
    }
  }

  /** Joining keeps the last element's suffix. */
  lemma JoinSuffix(a: string, b: string, suffix: string)
    ensures HasSuffix(b, suffix) ==> HasSuffix(Join(a, b), suffix)
  {
    if HasSuffix(b, suffix) && a != "" && b != "" {
      var p := Join(a, b);
      assert p == (a + "/") + b;
      forall i | 0 <= i < |suffix| ensures p[|p| - |suffix| + i] == suffix[i] {
        assert p[|p| - |suffix| + i] == b[|b| - |suffix| + i];
      }
    }
  }
}
