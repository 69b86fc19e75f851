/**
 * Python's `posixpath.basename`, `dirname` and `join`, as the transcoder uses
 * them to place its output next to its input.
 */
module PosixPath {

  /** `p.rfind('/') + 1`: where the last path component starts. */
  function ComponentStart(p: string): (i: nat)
    ensures i <= |p|
    ensures i > 0 ==> p[i - 1] == '/'
    ensures forall k :: i <= k < |p| ==> p[k] != '/'
  {
    if p == [] then 0
    else if p[|p| - 1] == '/' then |p|
    else ComponentStart(p[..|p| - 1])
  }

  predicate NoSlash(s: string) {
    forall k :: 0 <= k < |s| ==> s[k] != '/'
  }

  predicate AllSlashes(s: string) {
    forall k :: 0 <= k < |s| ==> s[k] == '/'
  }

  /** `s.rstrip('/')`. */
  function StripTrailingSlashes(s: string): (r: string)
    ensures |r| <= |s| && r == s[..|r|]
    ensures AllSlashes(s[|r|..])
    ensures r == [] || r[|r| - 1] != '/'
  {
    if s != [] && s[|s| - 1] == '/' then
      var init := s[..|s| - 1];
      var r := StripTrailingSlashes(init);
      assert init[..|r|] == s[..|r|];
      assert s[|r|..] == init[|r|..] + [s[|s| - 1]];
      r
    else s
  }

  /** `posixpath.basename(p)`: everything after the last slash. */
  function Basename(p: string): (b: string)
    ensures NoSlash(b)
  {
    p[ComponentStart(p)..]
  }

  /** The base name is the part of the path after its last slash: a suffix of
      the path, preceded by a slash unless it is the whole path. */
  lemma BasenameIsLastComponent(p: string)
    ensures var b := Basename(p);
      && NoSlash(b) && |b| <= |p| && b == p[|p| - |b|..]
      && (|b| < |p| ==> p[|p| - |b| - 1] == '/')
  {
  }

  /** `posixpath.dirname(p)`: everything before the last component, with trailing
      slashes dropped unless the head consists of slashes only. */
  function Dirname(p: string): string {
    var head := p[..ComponentStart(p)];
    if head != [] && !AllSlashes(head) then StripTrailingSlashes(head) else head
  }

  /** `posixpath.join(a, b)`: an absolute `b` replaces `a`; otherwise one slash
      separates them unless `a` is empty or already ends with one. */
  function Join(a: string, b: string): string {
    if |b| > 0 && b[0] == '/' then b
    else if a == [] || a[|a| - 1] == '/' then a + b
    else a + "/" + b
  }

  /** The output file of a run: `join(dirname(file), "_" + basename(file))`. */
  function OutputPath(file: string): string {
    Join(Dirname(file), "_" + Basename(file))
  }

  /** The last component of `head + tail` is `tail` when `head` is empty or ends
      with a slash and `tail` has none. */
  lemma {:induction false} ComponentStartAfter(head: string, tail: string)
    requires head == [] || head[|head| - 1] == '/'
    requires NoSlash(tail)
    ensures ComponentStart(head + tail) == |head|
  {
    if tail != [] {
      var p := head + tail;
      assert p[..|p| - 1] == head + tail[..|tail| - 1];
      ComponentStartAfter(head, tail[..|tail| - 1]);
    } else {
      assert head + tail == head;
    }
  }

  /** The output path stays in the source's directory, and its name is the
      source's name with an underscore in front. */
  lemma OutputPathParts(file: string)
    ensures Basename(OutputPath(file)) == "_" + Basename(file)
    ensures Dirname(OutputPath(file)) == Dirname(file)
  {
    var d, b := Dirname(file), "_" + Basename(file);
    assert NoSlash(b);
    var out := OutputPath(file);
    var head := if d == [] || d[|d| - 1] == '/' then d else d + "/";
    assert out == head + b;
    ComponentStartAfter(head, b);
    assert out[..|head|] == head;
    assert out[|head|..] == b;
    if head != d {
      assert StripTrailingSlashes(head) == d by {
        assert head[..|head| - 1] == d;
      }
    }
  }
}
