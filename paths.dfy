/**
 * The little path arithmetic the plugin relies on: Node's `path.dirname` and `path.extname`
 * for POSIX paths without trailing separators, and the `fileName.split('.').pop()` of tracker.ts.
 */
module Paths {

  /** Index of the last occurrence of `c` in `s`, or -1 when there is none. */
  function LastIndexOf(s: string, c: char): (i: int)
    ensures -1 <= i < |s|
    ensures i >= 0 ==> s[i] == c
    ensures forall j :: i < j < |s| ==> s[j] != c
  {
    if s == [] then -1
    else if s[|s| - 1] == c then |s| - 1
    else LastIndexOf(s[..|s| - 1], c)
  }

  /** The text after the last `c` of `s`, or all of `s` when it has none. */
  function AfterLast(s: string, c: char): (t: string)
    ensures c !in t
    ensures |t| <= |s| && t == s[|s| - |t|..]
    ensures c !in s ==> t == s
  {
    if s == [] || s[|s| - 1] == c then []
    else
      var init := s[..|s| - 1];
      var t := AfterLast(init, c);
      assert s == init + [s[|s| - 1]];
      t + [s[|s| - 1]]
  }

  /** When `AfterLast` drops anything, what it drops ends in the separator itself. */
  lemma {:induction false} AfterLastFollowsSeparator(s: string, c: char)
    ensures var t := AfterLast(s, c); |t| < |s| ==> s[|s| - |t| - 1] == c
  {
    if s != [] && s[|s| - 1] != c {
      var init := s[..|s| - 1];
      AfterLastFollowsSeparator(init, c);
    }
  }

  /** `path.dirname`: everything before the last '/', "/" for a file in the root, "." for a bare name. */
  function DirName(p: string): (d: string)
    ensures '/' !in p ==> d == "."
    ensures d != "." && d != "/" ==> |d| < |p| && d == p[..|d|] && p[|d|] == '/' && '/' !in p[|d| + 1..]
  {
    var i := LastIndexOf(p, '/');
    if i < 0 then "." else if i == 0 then "/" else p[..i]
  }

  /**
   * With a '/' in the path, the directory is either the root (the only '/' is the first
   * character) or the non-empty prefix before the last '/'.
   */
  lemma DirNameSplitsAtLastSlash(p: string)
    requires '/' in p
    ensures var d := DirName(p);
      || (d == "/" && p[0] == '/' && '/' !in p[1..])
      || (0 < |d| < |p| && d == p[..|d|] && p[|d|] == '/' && '/' !in p[|d| + 1..])
  {
  }

  /**
   * `path.extname`: from the last '.' of the last path segment to the end, or "" when that
   * segment has no '.' or only a leading one.
   */
  function ExtName(p: string): (e: string)
    ensures e != "" ==> e[0] == '.' && '/' !in e && |e| <= |p| && e == p[|p| - |e|..]
    ensures e != "" ==> '.' !in e[1..] && |e| < |AfterLast(p, '/')|
    ensures e == "" ==> forall i :: 1 <= i < |AfterLast(p, '/')| ==> AfterLast(p, '/')[i] != '.'
  {
    var base := AfterLast(p, '/');
    var dot := LastIndexOf(base, '.');
    if dot <= 0 then "" else
      var e := base[dot..];
      assert forall j :: 0 <= j < |e| ==> e[j] == base[dot + j];
      assert '.' !in e[1..] by {
        assert forall j :: 0 <= j < |e| - 1 ==> e[1..][j] == base[dot + 1 + j];
      }
      e
  }

  /** `s.split('.').pop()`: the text after the last '.', or all of `s` when it has none. */
  function LastDotSegment(s: string): (t: string)
    ensures '.' !in t
    ensures |t| <= |s| && t == s[|s| - |t|..]
    ensures '.' !in s ==> t == s
    ensures |t| < |s| ==> s[|s| - |t| - 1] == '.'
  {
    AfterLastFollowsSeparator(s, '.');
    AfterLast(s, '.')
  }
}
