/** The three `os.path` operations the policy adapter relies on, with
    POSIX semantics: `dirname`, `join` of two components, and `exists`
    over a file system given as a predicate. */
module PosixPath {

  /** Index of the last '/' in `p`, or -1 when there is none (`str.rfind`). */
  function LastSlash(p: string): (r: int)
    ensures -1 <= r < |p|
    ensures r >= 0 ==> p[r] == '/'
    ensures forall i :: r < i < |p| ==> p[i] != '/'
  {
    if p == [] then -1
    else if p[|p| - 1] == '/' then |p| - 1
    else LastSlash(p[..|p| - 1])
  }

  predicate AllSlashes(s: string)
  {
    forall i :: 0 <= i < |s| ==> s[i] == '/'
  }

  /** `s.rstrip('/')`. */
  function RStripSlashes(s: string): (r: string)
    ensures r <= s
    ensures r == [] || r[|r| - 1] != '/'
    ensures forall i :: |r| <= i < |s| ==> s[i] == '/'
  {
    if s == [] || s[|s| - 1] != '/' then s
    else RStripSlashes(s[..|s| - 1])
  }

  /** `posixpath.dirname`: everything up to the last slash, with trailing
      slashes removed unless the head consists of slashes only. */
  function Dirname(p: string): (r: string)
    ensures r <= p
    ensures |r| <= LastSlash(p) + 1
    ensures LastSlash(p) == -1 ==> r == []
    ensures forall i :: |r| <= i <= LastSlash(p) ==> p[i] == '/'
    ensures r == [] || r[|r| - 1] != '/' || AllSlashes(r)
  {
    var head := p[..LastSlash(p) + 1];
    if head != [] && !AllSlashes(head) then RStripSlashes(head) else head
  }

  /** `posixpath.join(a, b)`: an absolute `b` replaces `a`; otherwise a
      separator is inserted unless `a` is empty or already ends with one. */
  function Join(a: string, b: string): (r: string)
    ensures |b| > 0 && b[0] == '/' ==> r == b
    ensures !(|b| > 0 && b[0] == '/') ==>
              && a <= r
              && |a| + |b| <= |r| <= |a| + |b| + 1
              && r[|r| - |b|..] == b
    ensures !(|b| > 0 && b[0] == '/') && a != [] ==> r[|r| - |b| - 1] == '/'
    ensures !(|b| > 0 && b[0] == '/') && (a == [] || a[|a| - 1] == '/') ==> |r| == |a| + |b|
  {
    if |b| > 0 && b[0] == '/' then b
    else if a == [] || a[|a| - 1] == '/' then a + b
    else a + "/" + b
  }

  /** `os.path.exists(p)` against the file system `fs`; the empty path
      never exists. */
  predicate Exists(fs: string -> bool, p: string)
  {
    p != "" && fs(p)
  }

  /** The directory part of `dir/name` is `dir` again, when `dir` does not
      end in a slash and `name` is a single path component. */
  lemma DirnameOfJoin(dir: string, name: string)
    requires dir != "" && dir[|dir| - 1] != '/'
    requires name != "" && name[0] != '/'
    requires forall i :: 0 <= i < |name| ==> name[i] != '/'
    ensures Join(dir, name) == dir + "/" + name
    ensures Dirname(Join(dir, name)) == dir
  {
    var p := dir + "/" + name;
    var k := LastSlash(p);
    assert p[|dir|] == '/';
    if k < |dir| {
      assert false;
    }
    if k > |dir| {
      assert false;
    }
    var head := p[..k + 1];
    assert head == dir + "/";
    assert head[|dir| - 1] == dir[|dir| - 1];
    var r := RStripSlashes(head);
    if |r| < |dir| {
      assert false;
    }
    assert r == dir;
  }
}
