/**
 * The `String.prototype` methods the catalog queries use: `includes`,
 * `toLowerCase` (on the ASCII letters only) and `replace` with a global
 * character-class pattern and an empty replacement.
 */
module JsStrings {
  import opened JsArrays

  /** `t` occurs in `s` starting at index `i`. */
  predicate OccursAt(s: string, t: string, i: nat) {
    i + |t| <= |s| && s[i..i + |t|] == t
  }

  /** `s.includes(t)`. */
  predicate Includes(s: string, t: string) {
    exists i | 0 <= i <= |s| - |t| :: OccursAt(s, t, i)
  }

  predicate IsAsciiUpper(c: char) { 'A' <= c <= 'Z' }

  predicate IsAsciiLetter(c: char) { 'A' <= c <= 'Z' || 'a' <= c <= 'z' }

  /** Lower-cases one character; only `A`-`Z` are changed. */
  function LowerChar(c: char): char {
    if IsAsciiUpper(c) then (c as int + 32) as char else c
  }

  /** `s.toLowerCase()`, restricted to ASCII case folding. */
  function ToLowerCase(s: string): string {
    seq(|s|, i requires 0 <= i < |s| => LowerChar(s[i]))
  }

  /** `s.replace(/[...]/g, '')` where the class lists the characters of `chars`. */
  function RemoveAll(s: string, chars: set<char>): (r: string)
    ensures |r| <= |s|
    ensures forall c :: c in r <==> c in s && c !in chars
  {
    Filter(s, c => c !in chars)
  }

  /**
   * Removal keeps every other character, in place: the result is a
   * subsequence of the text, and each character not in the set occurs in it
   * as often as in the text.
   */
  lemma {:induction false} RemoveAllExact(s: string, chars: set<char>)
    ensures IsSubsequence(RemoveAll(s, chars), s)
    ensures forall c :: multiset(RemoveAll(s, chars))[c] == if c in chars then 0 else multiset(s)[c]
  {
    FilterIsSubsequence(s, c => c !in chars);
    FilterCounts(s, c => c !in chars);
  }

  /** Every string includes the empty string. */
  lemma {:induction false} IncludesEmpty(s: string)
    ensures Includes(s, "")
  {
    assert OccursAt(s, "", 0);
  }

  /** Lower-casing is idempotent. */
  lemma {:induction false} ToLowerCaseIdempotent(s: string)
    ensures ToLowerCase(ToLowerCase(s)) == ToLowerCase(s)
  {
  }

  /** A string with no ASCII letter, such as a Devanagari one, is its own lower case. */
  lemma {:induction false} ToLowerCaseFixesNonLatin(s: string)
    requires forall i | 0 <= i < |s| :: !IsAsciiLetter(s[i])
    ensures ToLowerCase(s) == s
  {
  }

  /** Lower-casing commutes with taking a slice. */
  lemma {:induction false} ToLowerCaseSlice(s: string, i: nat, j: nat)
    requires i <= j <= |s|
    ensures ToLowerCase(s)[i..j] == ToLowerCase(s[i..j])
  {
  }

  /** An occurrence survives lower-casing both strings. */
  lemma {:induction false} IncludesLowered(s: string, t: string)
    requires Includes(s, t)
    ensures Includes(ToLowerCase(s), ToLowerCase(t))
  {
    var i :| 0 <= i <= |s| - |t| && OccursAt(s, t, i);
    ToLowerCaseSlice(s, i, i + |t|);
    assert OccursAt(ToLowerCase(s), ToLowerCase(t), i);
  }

  /** A string included in one without ASCII letters has none either. */
  lemma {:induction false} IncludedHasNoLetters(s: string, t: string)
    requires Includes(s, t)
    requires forall i | 0 <= i < |s| :: !IsAsciiLetter(s[i])
    ensures forall k | 0 <= k < |t| :: !IsAsciiLetter(t[k])
  {
    var i :| 0 <= i <= |s| - |t| && OccursAt(s, t, i);
    forall k | 0 <= k < |t|
      ensures !IsAsciiLetter(t[k])
    {
      assert t[k] == s[i..i + |t|][k] == s[i + k];
    }
  }

  /**
   * When the first character of `t` does not occur in `a`, no occurrence of
   * `t` in `a + b` can start inside `a`.
   */
  lemma {:induction false} IncludesPastPrefix(a: string, b: string, t: string)
    requires |t| > 0 && t[0] !in a
    ensures Includes(a + b, t) <==> Includes(b, t)
  {
    if Includes(a + b, t) {
      var i :| 0 <= i <= |a + b| - |t| && OccursAt(a + b, t, i);
      assert (a + b)[i] == t[0];
      assert i >= |a|;
      assert (a + b)[i..i + |t|] == b[i - |a|..i - |a| + |t|];
      assert OccursAt(b, t, i - |a|);
    }
    if Includes(b, t) {
      var j :| 0 <= j <= |b| - |t| && OccursAt(b, t, j);
      assert (a + b)[|a| + j..|a| + j + |t|] == b[j..j + |t|];
      assert OccursAt(a + b, t, |a| + j);
    }
  }

  /** Removing characters from a concatenation removes them from each part. */
  lemma {:induction false} RemoveAllConcat(a: string, b: string, chars: set<char>)
    ensures RemoveAll(a + b, chars) == RemoveAll(a, chars) + RemoveAll(b, chars)
  {
    FilterConcat(a, b, c => c !in chars);
  }

  /** A string holding none of the removed characters is left as it is. */
  lemma {:induction false} RemoveAllKeeps(s: string, chars: set<char>)
    requires forall i | 0 <= i < |s| :: s[i] !in chars
    ensures RemoveAll(s, chars) == s
  {
    FilterKeepsAll(s, c => c !in chars);
  }

  /** A one-character text whose character is removed leaves nothing. */
  lemma {:induction false} RemoveAllOne(c: char, chars: set<char>)
    requires c in chars
    ensures RemoveAll([c], chars) == []
  {
    assert [c][1..] == [];
  }

}
