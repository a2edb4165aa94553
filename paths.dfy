/** The two posix path operations the config file search relies on: joining a directory and a
    file name, and taking the directory part of a path. */
module Paths {
  import opened Wrappers
  import opened Text

  /** A path made of slashes only: the root (or the empty path). */
  predicate AllSlashes(s: string)
  {
    forall k :: 0 <= k < |s| ==> s[k] == '/'
  }

  /** `s` without its trailing run of `c`. */
  function RStrip(s: string, c: char): (r: string)
    ensures StartsWith(s, r)
    ensures r == [] || r[|r| - 1] != c
    ensures forall k :: |r| <= k < |s| ==> s[k] == c
    decreases |s|
  {
    if s != [] && s[|s| - 1] == c then RStrip(s[..|s| - 1], c) else s
  }

  /** Posix `join(dir, name)`: an absolute name replaces the directory, otherwise exactly one
      slash separates them (none is added after an empty directory or a trailing slash). */
  function Join(dir: string, name: string): string
  {
    if StartsWith(name, "/") then name
    else if dir == [] || dir[|dir| - 1] == '/' then dir + name
    else dir + "/" + name
  }

  /** Posix `dirname(p)`: everything up to the last slash, with trailing slashes removed unless
      that leaves nothing but slashes. */
  function Dirname(p: string): (r: string)
    ensures StartsWith(p, r)
    ensures r == p || |r| < |p|
  {
    var i := LastIndexOf(p, '/');
    var head := if i.None? then [] else p[..i.value + 1];
    if head != [] && !AllSlashes(head) then RStrip(head, '/') else head
  }

  /** `dirname` leaves a path unchanged exactly when it is the root (or empty): the upward
      walk stops there and nowhere else. */
  lemma DirnameFixpoint(p: string)
    ensures Dirname(p) == p <==> AllSlashes(p)
  {
    var i := LastIndexOf(p, '/');
    if AllSlashes(p) && p != [] {
      assert p[|p| - 1] == '/';
      assert i.Some? && i.value == |p| - 1;
      assert p[..i.value + 1] == p;
    }
    if !AllSlashes(p) {
      if i.Some? {
        var head := p[..i.value + 1];
        assert head[|head| - 1] == '/';
        if i.value + 1 == |p| {
          assert head == p;
        }
      }
      assert Dirname(p) != p;
    }
  }

  /** The directory of a file joined onto a directory is that directory again, for a plain
      file name and a directory without a trailing slash (or the root). */
  lemma DirnameOfJoin(dir: string, name: string)
    requires name != [] && '/' !in name
    requires dir == [] || dir[|dir| - 1] != '/' || AllSlashes(dir)
    ensures Dirname(Join(dir, name)) == dir
  {
    var p := Join(dir, name);
    assert name[0] != '/';
    if dir == [] {
      assert p == name;
    } else if dir[|dir| - 1] == '/' {
      assert p == dir + name;
      assert p[|dir| - 1] == '/';
      assert forall k :: |dir| <= k < |p| ==> p[k] == name[k - |dir|];
      assert LastIndexOf(p, '/') == Some(|dir| - 1);
      assert p[..|dir|] == dir;
    } else {
      assert p == dir + "/" + name;
      assert p[|dir|] == '/';
      assert forall k :: |dir| < k < |p| ==> p[k] == name[k - |dir| - 1];
      assert LastIndexOf(p, '/') == Some(|dir|);
      var head := p[..|dir| + 1];
      assert head == dir + "/";
      assert head[|dir| - 1] == dir[|dir| - 1];
      assert RStrip(head, '/') == RStrip(dir, '/');
      assert RStrip(dir, '/') == dir;
    }
  }
}
