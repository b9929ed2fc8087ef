/** Substring tests on strings, as `String.prototype.includes` performs them. */
module Text {

  predicate StartsWith(s: string, p: string) {
    |p| <= |s| && s[..|p|] == p
  }

  /** `p` occurs in `s` starting at position `i`. */
  predicate OccursAt(s: string, p: string, i: int) {
    0 <= i && i + |p| <= |s| && s[i..i + |p|] == p
  }

  /** `s.includes(p)`: `p` occurs somewhere in `s`. */
  predicate Includes(s: string, p: string) {
    exists i :: 0 <= i <= |s| && OccursAt(s, p, i)
  }

  /** The search `includes` performs: try the front, then move one character on. */
  predicate Scan(s: string, p: string)
    decreases |s|
  {
    StartsWith(s, p) || (|s| > 0 && Scan(s[1..], p))
  }

  /** The scan finds `p` exactly when it occurs in `s`. */
  lemma {:induction false} ScanFindsOccurrence(s: string, p: string)
    ensures Scan(s, p) <==> Includes(s, p)
    decreases |s|
  {
    if StartsWith(s, p) {
      assert OccursAt(s, p, 0);
    } else if |s| > 0 {
      ScanFindsOccurrence(s[1..], p);
      if Scan(s[1..], p) {
        var i :| 0 <= i <= |s[1..]| && OccursAt(s[1..], p, i);
        assert s[1..][i..i + |p|] == s[i + 1..i + 1 + |p|];
        assert OccursAt(s, p, i + 1);
      }
      if Includes(s, p) {
        var i :| 0 <= i <= |s| && OccursAt(s, p, i);
        assert s[0..|p|] == s[..|p|];
        assert i > 0;
        assert s[1..][i - 1..i - 1 + |p|] == s[i..i + |p|];
        assert OccursAt(s[1..], p, i - 1);
      }
    }
  }

  /** Every character of an included string occurs in the including one. */
  lemma IncludedCharacters(s: string, p: string, k: int)
    requires Includes(s, p)
    requires 0 <= k < |p|
    ensures p[k] in s
  {
    var i :| 0 <= i <= |s| && OccursAt(s, p, i);
    assert s[i + k] == p[k];
  }
}
