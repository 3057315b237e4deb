/** The two string operations file matching relies on: `str.replace("/", "_")`
    and Python's substring test `needle in haystack`. */
module Text {

  /** `s.replace("/", "_")`: every slash becomes an underscore. */
  function ReplaceSlash(s: string): (r: string)
    ensures |r| == |s|
    ensures forall i :: 0 <= i < |s| ==> r[i] == (if s[i] == '/' then '_' else s[i])
  {
    if |s| == 0 then []
    else [if s[0] == '/' then '_' else s[0]] + ReplaceSlash(s[1..])
  }

  /** `p` occurs in `s` starting at position `i`. */
  ghost predicate OccursAt(p: string, s: string, i: int)
  {
    0 <= i && i + |p| <= |s| && s[i..i + |p|] == p
  }

  /** `p` occurs as a contiguous run of `s` (the empty string occurs in all). */
  ghost predicate IsSubstring(p: string, s: string)
  {
    exists i :: OccursAt(p, s, i)
  }

  /** Python's `p in s` for strings, by scanning `s` for a prefix equal to `p`. */
  function Contains(s: string, p: string): (r: bool)
    ensures |p| == 0 ==> r
    ensures r ==> |p| <= |s|
    decreases |s|
  {
    if |p| > |s| then false
    else if p <= s then true
    else Contains(s[1..], p)
  }

  /** The scan finds `p` exactly when `p` occurs somewhere in `s`. */
  lemma {:induction false} ContainsIsSubstring(s: string, p: string)
    ensures Contains(s, p) <==> IsSubstring(p, s)
    decreases |s|
  {
    if |p| > |s| {
    } else if p <= s {
      assert OccursAt(p, s, 0);
    } else {
      ContainsIsSubstring(s[1..], p);
      if IsSubstring(p, s) {
        var i :| OccursAt(p, s, i);
        assert i != 0;
        assert s[1..][i - 1..i - 1 + |p|] == s[i..i + |p|];
        assert OccursAt(p, s[1..], i - 1);
      }
      if IsSubstring(p, s[1..]) {
        var i :| OccursAt(p, s[1..], i);
        assert s[1..][i..i + |p|] == s[i + 1..i + 1 + |p|];
        assert OccursAt(p, s, i + 1);
      }
    }
  }

  /** A name without slashes is its own normal form. */
  lemma ReplaceSlashFixesSlashFree(s: string)
    requires '/' !in s
    ensures ReplaceSlash(s) == s
  {
  }
}
