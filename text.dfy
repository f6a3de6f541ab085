/** The string operations the search uses: `toLowerCase` (on ASCII letters) and `includes`. */
module Text {

  predicate IsUpper(c: char)
  {
    'A' <= c <= 'Z'
  }

  function LowerChar(c: char): (r: char)
    ensures !IsUpper(r)
    ensures IsUpper(c) ==> r as int == c as int + 32
    ensures !IsUpper(c) ==> r == c
  {
    if IsUpper(c) then (c as int + 32) as char else c
  }

  /** `s.toLowerCase()`, restricted to the ASCII letters A-Z. */
  function Lower(s: string): (r: string)
    ensures |r| == |s|
    ensures forall i :: 0 <= i < |s| ==> r[i] == LowerChar(s[i])
  {
    if s == [] then [] else [LowerChar(s[0])] + Lower(s[1..])
  }

  /** t occurs in s starting at position i. */
  predicate OccursAt(s: string, t: string, i: nat)
  {
    i + |t| <= |s| && s[i..i + |t|] == t
  }

  /** `s.includes(t)`: a left-to-right search for t in s; the empty string is found everywhere. */
  function Includes(s: string, t: string): (b: bool)
    ensures b <==> exists i: nat :: OccursAt(s, t, i)
    decreases |s|
  {
    if |t| > |s| then false
    else if s[..|t|] == t then
      assert OccursAt(s, t, 0);
      true
    else
      var rest := Includes(s[1..], t);
      OccursLater(s, t);
      rest
  }

  /** When t does not start s, t occurs in s exactly when it occurs in the tail of s. */
  lemma OccursLater(s: string, t: string)
    requires |t| <= |s| && s[..|t|] != t
    ensures (exists i: nat :: OccursAt(s, t, i)) <==> exists j: nat :: OccursAt(s[1..], t, j)
  {
    if i: nat :| OccursAt(s, t, i) {
      assert i != 0;
      assert s[1..][i - 1..i - 1 + |t|] == s[i..i + |t|];
      assert OccursAt(s[1..], t, i - 1);
    }
    if j: nat :| OccursAt(s[1..], t, j) {
      assert s[1..][j..j + |t|] == s[j + 1..j + 1 + |t|];
      assert OccursAt(s, t, j + 1);
    }
  }

  /** t matches s at position i when each pair of characters agrees after lower-casing. */
  predicate EqualIgnoringCaseAt(s: string, t: string, i: nat)
  {
    i + |t| <= |s| && forall k :: 0 <= k < |t| ==> LowerChar(s[i + k]) == LowerChar(t[k])
  }

  /** Searching the lower-cased term in the lower-cased string ignores case character by character. */
  lemma IncludesIgnoringCase(s: string, t: string)
    ensures Includes(Lower(s), Lower(t)) <==> exists i: nat :: EqualIgnoringCaseAt(s, t, i)
  {
    forall i: nat
      ensures OccursAt(Lower(s), Lower(t), i) <==> EqualIgnoringCaseAt(s, t, i)
    {
      if i + |t| <= |s| {
        var w := Lower(s)[i..i + |t|];
        assert forall k :: 0 <= k < |t| ==> w[k] == LowerChar(s[i + k]);
      }
    }
  }
}
