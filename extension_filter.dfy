/**
 * The list filter of devtrackr-frontend/src/components/ExtensionTracker.tsx: an editor extension
 * is shown when its lower-cased name contains the lower-cased search term and it passes the
 * all / enabled / disabled filter. `toLowerCase` is modelled on ASCII letters only.
 */
module ExtensionFilter {

  datatype Extension = Extension(name: string, enabled: bool, timeSpent: string, category: string)

  function LowerChar(c: char): char
  {
    if 'A' <= c <= 'Z' then (c as int + 32) as char else c
  }

  /** `toLowerCase` on ASCII: every upper-case letter replaced by its lower-case form. */
  function Lower(s: string): (r: string)
    ensures |r| == |s|
    ensures forall i :: 0 <= i < |s| ==> r[i] == LowerChar(s[i])
    ensures forall i :: 0 <= i < |s| ==> !('A' <= r[i] <= 'Z')
  {
    seq(|s|, i requires 0 <= i < |s| => LowerChar(s[i]))
  }

  /** `sub` occurs in `s` starting at position `i`. */
  predicate OccursAt(s: string, sub: string, i: int)
  {
    0 <= i <= |s| - |sub| && s[i..i + |sub|] == sub
  }

  /** `s.includes(sub)`: `sub` occurs in `s` at some position. */
  predicate Includes(s: string, sub: string)
  {
    exists i | 0 <= i <= |s| - |sub| :: OccursAt(s, sub, i)
  }

  /** `matchesSearch`: an empty term matches every name, a name matches itself, and no term longer than the name matches. */
  predicate MatchesSearch(e: Extension, searchTerm: string): (m: bool)
    ensures searchTerm == "" ==> m
    ensures searchTerm == e.name ==> m
    ensures m ==> |searchTerm| <= |e.name|
  {
    assert searchTerm == "" || searchTerm == e.name ==> OccursAt(Lower(e.name), Lower(searchTerm), 0) by {
      if searchTerm == "" {
        assert Lower(searchTerm) == [];
      }
    }
    Includes(Lower(e.name), Lower(searchTerm))
  }

  /** `matchesFilter`: 'all' keeps everything, 'enabled' and 'disabled' go by the flag, anything else keeps nothing. */
  predicate MatchesFilter(e: Extension, filter: string): (m: bool)
    ensures filter == "all" ==> m
    ensures filter == "enabled" ==> (m <==> e.enabled)
    ensures filter == "disabled" ==> (m <==> !e.enabled)
    ensures m ==> filter == "all" || filter == "enabled" || filter == "disabled"
  {
    filter == "all" || (filter == "enabled" && e.enabled) || (filter == "disabled" && !e.enabled)
  }

  /** The predicate handed to `extensions.filter`. */
  predicate Keep(e: Extension, searchTerm: string, filter: string): (k: bool)
    ensures searchTerm == "" && filter == "all" ==> k
    ensures k && filter == "enabled" ==> e.enabled
    ensures k && filter == "disabled" ==> !e.enabled
    ensures k ==> |searchTerm| <= |e.name|
  {
    MatchesSearch(e, searchTerm) && MatchesFilter(e, filter)
  }

  /** `a` is `b` with some elements left out, the rest in their original order. */
  ghost predicate IsSubsequence(a: seq<Extension>, b: seq<Extension>)
    decreases |b|
  {
    if a == [] then true
    else if b == [] then false
    else (a[0] == b[0] && IsSubsequence(a[1..], b[1..])) || IsSubsequence(a, b[1..])
  }

  /**
   * `filteredExtensions`: exactly the entries that pass both tests, in their original order.
   */
  function Filtered(exts: seq<Extension>, searchTerm: string, filter: string): (r: seq<Extension>)
    ensures IsSubsequence(r, exts)
    ensures forall i :: 0 <= i < |r| ==> Keep(r[i], searchTerm, filter)
    ensures forall e :: e in exts && Keep(e, searchTerm, filter) ==> e in r
    ensures |r| <= |exts|
    ensures forall e :: multiset(r)[e] == if Keep(e, searchTerm, filter) then multiset(exts)[e] else 0
  {
    if exts == [] then []
    else
      assert exts == [exts[0]] + exts[1..];
      if Keep(exts[0], searchTerm, filter) then [exts[0]] + Filtered(exts[1..], searchTerm, filter)
      else Filtered(exts[1..], searchTerm, filter)
  }

  /** Under 'enabled' only enabled entries are shown, under 'disabled' only disabled ones. */
  lemma FilterSelectsByState(exts: seq<Extension>, searchTerm: string)
    ensures forall e :: e in Filtered(exts, searchTerm, "enabled") ==> e.enabled
    ensures forall e :: e in Filtered(exts, searchTerm, "disabled") ==> !e.enabled
  {
    var r1 := Filtered(exts, searchTerm, "enabled");
    var r2 := Filtered(exts, searchTerm, "disabled");
    assert forall i :: 0 <= i < |r1| ==> Keep(r1[i], searchTerm, "enabled");
    assert forall i :: 0 <= i < |r2| ==> Keep(r2[i], searchTerm, "disabled");
  }

  /** The initial view (empty search, 'all') shows the whole list. */
  lemma {:induction false} EmptySearchShowsAll(exts: seq<Extension>)
    ensures Filtered(exts, "", "all") == exts
  {
    if exts != [] {
      assert Lower("") == "";
      assert OccursAt(Lower(exts[0].name), Lower(""), 0);
      EmptySearchShowsAll(exts[1..]);
    }
  }

  /** A filter value other than 'all', 'enabled' or 'disabled' shows nothing. */
  lemma {:induction false} UnknownFilterShowsNothing(exts: seq<Extension>, searchTerm: string, filter: string)
    requires filter != "all" && filter != "enabled" && filter != "disabled"
    ensures Filtered(exts, searchTerm, filter) == []
  {
    if exts != [] {
      UnknownFilterShowsNothing(exts[1..], searchTerm, filter);
    }
  }

  /** The search ignores letter case. */
  lemma SearchIgnoresCase(e: Extension, searchTerm: string, filter: string)
    ensures Keep(e, Lower(searchTerm), filter) == Keep(e, searchTerm, filter)
  {
    assert Lower(Lower(searchTerm)) == Lower(searchTerm);
  }
}
