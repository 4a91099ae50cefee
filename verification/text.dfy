/** Strings as JavaScript's `toLowerCase` and `includes` see them, at the
    granularity of single characters. */
module Text {

  /** Upper-case letters whose lower-case form is 32 code points further on:
      the ASCII letters A-Z and the Latin-1 letters U+00C0..U+00DE except the
      multiplication sign U+00D7. */
  predicate IsUpperLetter(c: char) {
    ('A' <= c <= 'Z') || ('À' <= c <= 'Þ' && c != '×')
  }

  /** The lower-case counterparts of `IsUpperLetter` (the division sign
      U+00F7 sits where U+00D7 would map to and is not a letter). */
  predicate IsLowerLetter(c: char) {
    ('a' <= c <= 'z') || ('à' <= c <= 'þ' && c != '÷')
  }

  function LowerChar(c: char): char {
    if IsUpperLetter(c) then (c as int + 32) as char else c
  }

  function UpperChar(c: char): char {
    if IsLowerLetter(c) then (c as int - 32) as char else c
  }

  /** `s.toLowerCase()`, one character at a time. */
  function Lower(s: string): (r: string)
    ensures |r| == |s|
    ensures forall i :: 0 <= i < |s| ==> r[i] == LowerChar(s[i])
  {
    if s == [] then [] else [LowerChar(s[0])] + Lower(s[1..])
  }

  /** `s.toUpperCase()`, one character at a time. */
  function Upper(s: string): (r: string)
    ensures |r| == |s|
    ensures forall i :: 0 <= i < |s| ==> r[i] == UpperChar(s[i])
  {
    if s == [] then [] else [UpperChar(s[0])] + Upper(s[1..])
  }

  /** Lower-casing a string that is already lower case changes nothing. */
  lemma LowerIdempotent(s: string)
    ensures Lower(Lower(s)) == Lower(s)
  {
    assert forall i :: 0 <= i < |s| ==> Lower(Lower(s))[i] == Lower(s)[i];
  }

  /** Upper-casing first loses nothing that lower-casing keeps: the two
      spellings of a search term are the same to a case-insensitive search. */
  lemma LowerOfUpper(s: string)
    ensures Lower(Upper(s)) == Lower(s)
  {
    assert forall i :: 0 <= i < |s| ==> Lower(Upper(s))[i] == Lower(s)[i];
  }

  /** `t` occurs in `s` starting at index `i`. */
  predicate OccursAt(s: string, t: string, i: nat) {
    i + |t| <= |s| && s[i..i + |t|] == t
  }

  /** `s.includes(t)`: `t` is a prefix of `s` or of one of its suffixes. */
  predicate Contains(s: string, t: string)
    decreases |s|
  {
    t <= s || (s != [] && Contains(s[1..], t))
  }

  /** `Contains` agrees with the index-based definition of a substring, in
      both directions. */
  lemma {:induction false} ContainsIffOccurs(s: string, t: string)
    ensures Contains(s, t) <==> exists i: nat :: OccursAt(s, t, i)
    decreases |s|
  {
    if t <= s {
      assert OccursAt(s, t, 0);
    } else if s == [] {
      assert forall i: nat :: !OccursAt(s, t, i);
    } else {
      ContainsIffOccurs(s[1..], t);
      assert !OccursAt(s, t, 0);
      forall i: nat | 1 <= i && i + |t| <= |s|
        ensures OccursAt(s, t, i) <==> OccursAt(s[1..], t, i - 1)
      {
        assert s[1..][i - 1..i - 1 + |t|] == s[i..i + |t|];
      }
      if Contains(s[1..], t) {
        var i: nat :| OccursAt(s[1..], t, i);
        assert OccursAt(s, t, i + 1);
      }
    }
  }

  /** The empty string is included in every string. */
  lemma {:induction false} ContainsEmpty(s: string)
    ensures Contains(s, "")
  {
  }

  /** A string only includes strings no longer than itself. */
  lemma {:induction false} ContainsShorter(s: string, t: string)
    requires Contains(s, t)
    ensures |t| <= |s|
    decreases |s|
  {
    if !(t <= s) {
      ContainsShorter(s[1..], t);
    }
  }
}
