/** The parts of Python's `posixpath` the harness relies on: `dirname`, `basename` and `join`. */
module PosixPath {

  /** `p.rfind('/') + 1`: the index just past the last slash, 0 when there is none. */
  function AfterLastSlash(p: string): (k: nat)
    ensures k <= |p|
    ensures k == 0 <==> '/' !in p
    ensures k > 0 ==> p[k - 1] == '/'
    ensures forall i :: k <= i < |p| ==> p[i] != '/'
  {
    if |p| == 0 then 0
    else if p[|p| - 1] == '/' then |p|
    else AfterLastSlash(p[..|p| - 1])
  }

  predicate AllSlashes(s: string)
  {
    forall i :: 0 <= i < |s| ==> s[i] == '/'
  }

  /** `s.rstrip('/')`. */
  function RStripSlashes(s: string): (r: string)
    ensures |r| <= |s| && r == s[..|r|]
    ensures |r| > 0 ==> r[|r| - 1] != '/'
  {
    if |s| > 0 && s[|s| - 1] == '/' then RStripSlashes(s[..|s| - 1]) else s
  }

  lemma {:induction false} RStripEmptyOnlyForSlashes(s: string)
    requires RStripSlashes(s) == ""
    ensures AllSlashes(s)
  {
    if |s| > 0 {
      RStripEmptyOnlyForSlashes(s[..|s| - 1]);
      assert forall i :: 0 <= i < |s| - 1 ==> s[..|s| - 1][i] == s[i];
    }
  }

  /** `posixpath.dirname(p)`: everything before the last slash, trailing slashes removed unless
      the head is slashes only. */
  function Dirname(p: string): string
  {
    var head := p[..AfterLastSlash(p)];
    if head != "" && !AllSlashes(head) then RStripSlashes(head) else head
  }

  /** `posixpath.basename(p)`: everything after the last slash, the whole of p when it has
      none. */
  function Basename(p: string): (r: string)
    ensures '/' !in r
    ensures |r| <= |p| && forall k :: 0 <= k < |r| ==> r[k] == p[|p| - |r| + k]
    ensures |r| < |p| ==> p[|p| - |r| - 1] == '/'
  {
    p[AfterLastSlash(p)..]
  }

  /** `posixpath.join(a, b)`: an absolute b replaces a; otherwise b is appended with one
      separating slash unless a is empty or already ends with one. */
  function Join(a: string, b: string): string
  {
    if |b| > 0 && b[0] == '/' then b
    else if |a| == 0 || a[|a| - 1] == '/' then a + b
    else a + "/" + b
  }

  predicate IsAbsolute(p: string)
  {
    |p| > 0 && p[0] == '/'
  }

  /** A name has a directory part exactly when it contains a slash. */
  lemma DirnameEmptyIff(p: string)
    ensures Dirname(p) == "" <==> '/' !in p
  {
    var head := p[..AfterLastSlash(p)];
    if '/' in p && head != "" && !AllSlashes(head) && RStripSlashes(head) == "" {
      RStripEmptyOnlyForSlashes(head);
    }
  }

  /** The basename of a name joined onto a directory is the name, whenever it is slash-free. */
  lemma BasenameOfJoin(dir: string, name: string)
    requires '/' !in name
    ensures Basename(Join(dir, name)) == name
  {
    var p := Join(dir, name);
    assert p[|p| - |name|..] == name;
    var k := AfterLastSlash(p);
    assert forall i :: |p| - |name| <= i < |p| ==> p[i] == name[i - (|p| - |name|)];
    var m := |p| - |name|;
    if |name| > 0 {
      assert name[0] != '/';
      if m == 0 {
        assert p == name;
      } else {
        assert p[m - 1] == '/';
        assert k >= m;
        assert k == m;
      }
    }
  }

  /** Joining a relative name keeps the base as a prefix and the name as a suffix; at most one
      slash is added, only when the base does not already end with one, and a non-empty base is
      always separated from the name by a slash. */
  lemma JoinRelative(a: string, b: string)
    requires !IsAbsolute(b)
    ensures var j := Join(a, b);
      && |a| + |b| <= |j| <= |a| + |b| + 1
      && j[..|a|] == a && j[|j| - |b|..] == b
      && (|j| == |a| + |b| + 1 <==> a != "" && a[|a| - 1] != '/')
      && (a != "" ==> j[|j| - |b| - 1] == '/')
  {
    var j := Join(a, b);
    if a != "" && a[|a| - 1] != '/' {
      assert j == a + "/" + b;
      assert j[|j| - |b| - 1] == '/';
    } else {
      assert j == a + b;
    }
  }

  /** `dirname` undoes joining a slash-free name onto a directory that does not end in a slash. */
  lemma DirnameOfJoin(dir: string, name: string)
    requires dir != "" && dir[|dir| - 1] != '/'
    requires '/' !in name
    ensures Dirname(Join(dir, name)) == dir
  {
    var p := dir + "/" + name;
    assert !IsAbsolute(name) by { if |name| > 0 { assert name[0] in name; } }
    assert Join(dir, name) == p;
    var k := AfterLastSlash(p);
    assert p[|dir|] == '/';
    assert forall i :: |dir| < i < |p| ==> p[i] == name[i - |dir| - 1];
    assert k == |dir| + 1;
    var head := p[..k];
    assert head == dir + "/";
    assert !AllSlashes(head) by { assert head[|dir| - 1] != '/'; }
    assert RStripSlashes(head) == RStripSlashes(dir);
  }

  /** Joining a relative name adds it below the base; an absolute one replaces the base. */
  lemma JoinCases(a: string, b: string)
    ensures IsAbsolute(b) ==> Join(a, b) == b
    ensures !IsAbsolute(b) && a != "" && a[|a| - 1] != '/' ==> Join(a, b) == a + "/" + b
    ensures !IsAbsolute(b) && (a == "" || a[|a| - 1] == '/') ==> Join(a, b) == a + b
  {
  }

  /** A slash in the second part, or between the parts, survives the join. */
  lemma JoinKeepsSlash(a: string, b: string)
    ensures '/' in b ==> '/' in Join(a, b)
    ensures a != "" && a[|a| - 1] != '/' ==> '/' in Join(a, b)
  {
    if '/' in b {
      var i :| 0 <= i < |b| && b[i] == '/';
      var p := Join(a, b);
      assert p[|p| - |b| + i] == '/';
    }
    if a != "" && a[|a| - 1] != '/' && !IsAbsolute(b) {
      assert (a + "/" + b)[|a|] == '/';
    }
  }
}
