/** The parts of Go's `path/filepath` the agent relies on, for '/'-separated paths. */
module Paths {
  import opened Strings

  /** Index of the last '/' in `s`, or -1 when there is none. */
  function LastSlash(s: string): (i: int)
    ensures -1 <= i < |s|
    ensures i >= 0 ==> s[i] == '/'
    ensures forall j :: i < j < |s| ==> s[j] != '/'
    decreases |s|
  {
    if |s| == 0 then -1
    else if s[|s| - 1] == '/' then |s| - 1
    else LastSlash(s[..|s| - 1])
  }

  function StripTrailingSlashes(s: string): (r: string)
    ensures |r| <= |s| && r == s[..|r|]
    ensures r == "" || r[|r| - 1] != '/'
    ensures forall j :: |r| <= j < |s| ==> s[j] == '/'
    decreases |s|
  {
    if |s| > 0 && s[|s| - 1] == '/' then StripTrailingSlashes(s[..|s| - 1]) else s
  }

  /** filepath.Base: the last element of the path once trailing slashes are
      removed; "." for the empty path and "/" for a path of slashes only. */
  function Base(p: string): (r: string)
    ensures r != ""
    ensures r == "/" || '/' !in r
    ensures p == "" ==> r == "."
  {
    if p == "" then "."
    else
      var q := StripTrailingSlashes(p);
      if q == "" then "/" else q[LastSlash(q) + 1..]
  }

  /** filepath.Base(filepath.Dir(p)): the name of the directory holding `p`.
      Dir also cleans the path; for paths without "." or ".." elements (all
      the paths a directory walk from a clean root produces) the cleaning
      cannot change the last element, so taking Base of everything up to the
      last '/' is exact. */
  function ParentName(p: string): string {
    Base(p[..LastSlash(p) + 1])
  }

  /** Base of `dir/name` is `name` for a non-empty slash-free name. */
  lemma BaseOfChild(dir: string, name: string)
    requires name != "" && '/' !in name
    ensures Base(dir + "/" + name) == name
  {
    var p := dir + "/" + name;
    assert p[|p| - 1] == name[|name| - 1];
    assert StripTrailingSlashes(p) == p;
    assert p[|dir|] == '/';
    var i := LastSlash(p);
    assert i == |dir|;
    assert p[|dir| + 1..] == name;
  }

  /** The parent name of `dir/parent/name` is `parent`. */
  lemma ParentOfChild(dir: string, parent: string, name: string)
    requires parent != "" && '/' !in parent && '/' !in name
    ensures ParentName(dir + "/" + parent + "/" + name) == parent
  {
    var p := dir + "/" + parent + "/" + name;
    var k := |dir| + 1 + |parent|;
    assert p[k] == '/';
    var i := LastSlash(p);
    assert i == k;
    assert p[..k + 1] == (dir + "/" + parent) + "/";
    var q := (dir + "/" + parent) + "/";
    assert StripTrailingSlashes(q) == StripTrailingSlashes(dir + "/" + parent);
    assert StripTrailingSlashes(dir + "/" + parent) == dir + "/" + parent;
    BaseOfChild(dir, parent);
  }
}
