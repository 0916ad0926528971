/** Substring search on strings, as `String.prototype.includes` performs it. */
module Text {

  /** `t` occurs in `s` starting at index `i`. */
  predicate OccursAt(s: string, t: string, i: int)
  {
    0 <= i && i + |t| <= |s| && s[i..i + |t|] == t
  }

  /** `s.includes(t)`: true exactly when `t` occurs somewhere in `s`. */
  function Contains(s: string, t: string): (b: bool)
    ensures b <==> exists i :: OccursAt(s, t, i)
    decreases |s|
  {
    if |t| > |s| then
      assert forall i :: !OccursAt(s, t, i);
      false
    else if s[..|t|] == t then
      assert OccursAt(s, t, 0);
      true
    else
      var b := Contains(s[1..], t);
      ShiftOccurrence(s, t);
      b
  }

  /** Occurrences in `s` past its first character are the occurrences in `s[1..]`, shifted by one. */
  lemma ShiftOccurrence(s: string, t: string)
    requires |t| <= |s| && s[..|t|] != t
    ensures (exists i :: OccursAt(s, t, i)) <==> (exists j :: OccursAt(s[1..], t, j))
  {
    if exists i :: OccursAt(s, t, i) {
      var i :| OccursAt(s, t, i);
      assert i != 0;
      assert s[1..][i - 1..i - 1 + |t|] == s[i..i + |t|];
      assert OccursAt(s[1..], t, i - 1);
    }
    if exists j :: OccursAt(s[1..], t, j) {
      var j :| OccursAt(s[1..], t, j);
      assert s[1..][j..j + |t|] == s[j + 1..j + 1 + |t|];
      assert OccursAt(s, t, j + 1);
    }
  }

  /** A string without the letter `c` cannot contain any text that starts with `c`. */
  lemma AbsentLetter(s: string, t: string)
    requires |t| > 0 && t[0] !in s
    ensures !Contains(s, t)
  {
    forall i | 0 <= i && i + |t| <= |s|
      ensures !OccursAt(s, t, i)
    {
      assert s[i..i + |t|][0] == s[i];
      assert s[i] in s;
    }
  }
}
