/**
 The two string operations the assignee classifier relies on:
 `String.prototype.toLowerCase` (restricted to ASCII letters) and
 `String.prototype.includes`.
 */
module Text {

  predicate IsUpper(ch: char)
  {
    'A' <= ch <= 'Z'
  }

  /** True when `s` holds no ASCII upper-case letter. */
  predicate NoUpper(s: string)
  {
    forall i :: 0 <= i < |s| ==> !IsUpper(s[i])
  }

  /** Lower-case mapping of one character: ASCII letters move down by 32 code points. */
  function LowerChar(ch: char): (r: char)
    ensures !IsUpper(r)
    ensures IsUpper(ch) ==> r as int == ch as int + 32
    ensures !IsUpper(ch) ==> r == ch
  {
    if IsUpper(ch) then (ch as int + 32) as char else ch
  }

  /** `s.toLowerCase()`: every character mapped through LowerChar, the length kept. */
  function ToLower(s: string): (r: string)
    ensures |r| == |s|
    ensures forall i :: 0 <= i < |s| ==> r[i] == LowerChar(s[i])
    ensures NoUpper(r)
  {
    if s == [] then [] else [LowerChar(s[0])] + ToLower(s[1..])
  }

  /** Lower-casing twice is lower-casing once. */
  lemma {:induction false} ToLowerIdempotent(s: string)
    ensures ToLower(ToLower(s)) == ToLower(s)
  {
    var once := ToLower(s);
    var twice := ToLower(once);
    forall i | 0 <= i < |s|
      ensures twice[i] == once[i]
    {
      assert !IsUpper(once[i]);
    }
  }

  /** `pat` occurs in `s` starting at index `i`. */
  predicate OccursAt(s: string, pat: string, i: int)
  {
    0 <= i && i + |pat| <= |s| && s[i..i + |pat|] == pat
  }

  /** Occurrences in `s[1..]` are the occurrences in `s` shifted left by one. */
  lemma ShiftOccurrence(s: string, pat: string)
    requires s != []
    ensures forall i {:trigger OccursAt(s[1..], pat, i)} :: 0 <= i ==> (OccursAt(s[1..], pat, i) <==> OccursAt(s, pat, i + 1))
  {
    forall i | 0 <= i
      ensures OccursAt(s[1..], pat, i) <==> OccursAt(s, pat, i + 1)
    {
      if 0 <= i && i + |pat| <= |s| - 1 {
        assert s[1..][i..i + |pat|] == s[i + 1..i + 1 + |pat|];
      }
    }
  }

  /** `s.includes(pat)`, scanning `s` from the left. */
  function Contains(s: string, pat: string): (r: bool)
    ensures r ==> |pat| <= |s|
    ensures |pat| <= |s| && s[..|pat|] == pat ==> r
    decreases |s|
  {
    if |pat| <= |s| && s[..|pat|] == pat then true
    else if s == [] then false
    else Contains(s[1..], pat)
  }

  /** The scan finds `pat` exactly when `pat` occurs somewhere in `s`. */
  lemma {:induction false} ContainsIffOccurs(s: string, pat: string)
    ensures Contains(s, pat) <==> exists i :: OccursAt(s, pat, i)
    decreases |s|
  {
    if |pat| <= |s| && s[..|pat|] == pat {
      assert OccursAt(s, pat, 0);
    } else if s != [] {
      ContainsIffOccurs(s[1..], pat);
      ShiftOccurrence(s, pat);
      assert !OccursAt(s, pat, 0);
      assert forall i :: OccursAt(s, pat, i) ==> i == 0 || OccursAt(s[1..], pat, i - 1);
    }
  }

  /**
   `pat` does not occur in `s` when its last two characters, `a` then `b`,
   never stand side by side in `s`.
   */
  lemma AbsentByLastPair(s: string, pat: string, a: char, b: char)
    requires |pat| >= 2 && pat[|pat| - 2] == a && pat[|pat| - 1] == b
    requires forall i :: 0 <= i < |s| - 1 ==> s[i] != a || s[i + 1] != b
    ensures !Contains(s, pat)
  {
    forall p | 0 <= p && p + |pat| <= |s|
      ensures !OccursAt(s, pat, p)
    {
      var w := s[p..p + |pat|];
      assert w[|pat| - 2] == s[p + |pat| - 2] && w[|pat| - 1] == s[p + |pat| - 1];
    }
    ContainsIffOccurs(s, pat);
  }
}
