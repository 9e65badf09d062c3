/** Go's `path/filepath` Base and Ext on a Unix system, where the only separator is '/'. */
module Paths {

  /** The path with every trailing '/' removed. */
  function StripTrailingSlashes(p: string): (r: string)
    ensures |r| <= |p| && r == p[..|r|]
    ensures r == [] || r[|r| - 1] != '/'
  {
    if |p| > 0 && p[|p| - 1] == '/' then StripTrailingSlashes(p[..|p| - 1]) else p
  }

  /** What follows the last '/' of `p`, or all of `p` when it has none. */
  function AfterLastSlash(p: string): (r: string)
    ensures forall k :: 0 <= k < |r| ==> r[k] != '/'
  {
    if p == [] || p[|p| - 1] == '/' then [] else AfterLastSlash(p[..|p| - 1]) + [p[|p| - 1]]
  }

  /** `r` ends `p` and starts at the beginning of `p` or just after a '/'. */
  predicate IsLastElement(p: string, r: string)
  {
    HasSuffixOf(p, r) && (|r| == |p| || p[|p| - |r| - 1] == '/')
  }

  /** Only slashes are stripped. */
  lemma {:induction false} StrippedOnlySlashes(p: string)
    ensures forall k :: |StripTrailingSlashes(p)| <= k < |p| ==> p[k] == '/'
    decreases |p|
  {
    if |p| > 0 && p[|p| - 1] == '/' {
      StrippedOnlySlashes(p[..|p| - 1]);
    }
  }

  /** What follows the last '/' is a suffix, starting at the beginning or just after a '/'. */
  lemma {:induction false} AfterLastSlashIsSuffix(p: string)
    ensures IsLastElement(p, AfterLastSlash(p))
    decreases |p|
  {
    if p != [] && p[|p| - 1] != '/' {
      var r := AfterLastSlash(p);
      AfterLastSlashIsSuffix(p[..|p| - 1]);
      assert p[|p| - |r|..] == p[..|p| - 1][|p| - |r|..] + [p[|p| - 1]];
    }
  }

  /** filepath.Base: the last element of the path, "." for the empty path, "/" for a path of slashes. */
  function Base(path: string): (r: string)
    ensures r != ""
    ensures r == "/" || r == "." || forall k :: 0 <= k < |r| ==> r[k] != '/'
  {
    if path == "" then "."
    else
      var last := AfterLastSlash(StripTrailingSlashes(path));
      if last == "" then "/" else last
  }

  /** The base name is "/" exactly for a non-empty path made only of slashes. */
  lemma BaseOfSlashes(path: string)
    ensures Base(path) == "/" <==> path != "" && forall k :: 0 <= k < |path| ==> path[k] == '/'
  {
    if path != "" {
      var t := StripTrailingSlashes(path);
      StrippedOnlySlashes(path);
      if t != [] {
        assert path[|t| - 1] == t[|t| - 1] != '/';
        var last := AfterLastSlash(t);
        assert last == AfterLastSlash(t[..|t| - 1]) + [t[|t| - 1]];
        assert Base(path) == last && last[0] != '/';
      } else {
        assert Base(path) == "/";
      }
    }
  }

  /**
   * Otherwise the base name is the path's last element: a suffix of the path without its
   * trailing slashes, starting at its beginning or just after a '/'.
   */
  lemma BaseIsLastElement(path: string)
    requires path != "" && Base(path) != "/"
    ensures IsLastElement(StripTrailingSlashes(path), Base(path))
  {
    var t := StripTrailingSlashes(path);
    assert Base(path) == AfterLastSlash(t);
    AfterLastSlashIsSuffix(t);
  }

  /** A non-empty path without '/' is its own base name. */
  lemma BaseOfElement(path: string)
    requires path != "" && forall k :: 0 <= k < |path| ==> path[k] != '/'
    ensures Base(path) == path
  {
    AfterLastSlashWhole(path);
  }

  /** The extension search of filepath.Ext over `path[..i]`, scanning backwards. */
  function ExtFrom(path: string, i: nat): string
    requires i <= |path|
    decreases i
  {
    if i == 0 || path[i - 1] == '/' then ""
    else if path[i - 1] == '.' then path[i - 1..]
    else ExtFrom(path, i - 1)
  }

  /** filepath.Ext: the suffix from the final '.' of the final element, or "" if that element has none. */
  function Ext(path: string): (r: string)
    ensures r == "" || (r[0] == '.' && HasSuffixOf(path, r))
    ensures forall k :: 1 <= k < |r| ==> r[k] != '.' && r[k] != '/'
  {
    ExtSuffix(path, |path|);
    ExtFrom(path, |path|)
  }

  /** The extension is empty only when every '.' of the path lies in an earlier element. */
  lemma NoExtension(path: string)
    requires Ext(path) == ""
    ensures forall k :: 0 <= k < |path| && path[k] == '.' ==> exists j :: k < j < |path| && path[j] == '/'
  {
    ExtSuffix(path, |path|);
  }

  predicate HasSuffixOf(s: string, suffix: string)
  {
    |suffix| <= |s| && s[|s| - |suffix|..] == suffix
  }

  lemma {:induction false} ExtSuffix(path: string, i: nat)
    requires i <= |path|
    requires forall k :: i <= k < |path| ==> path[k] != '.' && path[k] != '/'
    ensures var r := ExtFrom(path, i); r == "" || (r[0] == '.' && HasSuffixOf(path, r))
    ensures var r := ExtFrom(path, i); forall k :: 1 <= k < |r| ==> r[k] != '.' && r[k] != '/'
    ensures ExtFrom(path, i) == "" ==>
              forall k :: 0 <= k < |path| && path[k] == '.' ==> exists j :: k < j < |path| && path[j] == '/'
    decreases i
  {
    if i > 0 && path[i - 1] != '/' && path[i - 1] != '.' {
      ExtSuffix(path, i - 1);
    } else if i > 0 && path[i - 1] == '/' {
      forall k | 0 <= k < |path| && path[k] == '.' ensures exists j :: k < j < |path| && path[j] == '/' {
        assert k < i - 1;
      }
    }
  }

  /** A path without '/' is its own last element. */
  lemma {:induction false} AfterLastSlashWhole(p: string)
    requires forall k :: 0 <= k < |p| ==> p[k] != '/'
    ensures AfterLastSlash(p) == p
  {
    if p != [] {
      AfterLastSlashWhole(p[..|p| - 1]);
    }
  }
}
