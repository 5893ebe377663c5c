// String helpers used by the game search: JavaScript's String.prototype.toLowerCase
// (restricted to ASCII letters) and String.prototype.includes.

module Text {

  /** Lower-cases one character; only the ASCII letters 'A'..'Z' change. */
  function LowerChar(c: char): char
  {
    if 'A' <= c <= 'Z' then (c as int + 32) as char else c
  }

  /** A string with no ASCII upper-case letter in it. */
  predicate IsLower(s: string)
  {
    forall i :: 0 <= i < |s| ==> !('A' <= s[i] <= 'Z')
  }

  /** `s.toLowerCase()` for ASCII text: character by character, same length. */
  function Lower(s: string): (r: string)
    ensures |r| == |s|
    ensures forall i :: 0 <= i < |s| ==> r[i] == LowerChar(s[i])
    ensures IsLower(r)
  {
    if s == [] then [] else [LowerChar(s[0])] + Lower(s[1..])
  }

  /** Lower-casing twice is the same as lower-casing once. */
  lemma LowerIdempotent(s: string)
    ensures Lower(Lower(s)) == Lower(s)
  {
  }

  /** `needle` sits in `hay` starting at index `i`. */
  predicate OccursAt(hay: string, needle: string, i: nat)
  {
    i + |needle| <= |hay| && hay[i..i + |needle|] == needle
  }

  /** The needle occurs in `hay` at some position. */
  ghost predicate Occurs(hay: string, needle: string)
  {
    exists i: nat :: OccursAt(hay, needle, i)
  }

  /** `hay.includes(needle)`: the needle occurs at some position; the empty needle always does. */
  function Includes(hay: string, needle: string): (r: bool)
    decreases |hay|
    ensures r <==> Occurs(hay, needle)
  {
    if |needle| > |hay| then
      false
    else if hay[..|needle|] == needle then
      assert OccursAt(hay, needle, 0);
      true
    else
      var r := Includes(hay[1..], needle);
      ShiftOccurrence(hay, needle);
      r
  }

  /** An occurrence in `hay` past index 0 is an occurrence in `hay[1..]`, and back. */
  lemma ShiftOccurrence(hay: string, needle: string)
    requires hay != []
    ensures !OccursAt(hay, needle, 0) ==> (Occurs(hay[1..], needle) <==> Occurs(hay, needle))
  {
    if !OccursAt(hay, needle, 0) {
      forall i: nat | OccursAt(hay[1..], needle, i) ensures OccursAt(hay, needle, i + 1) {
        assert hay[i + 1..i + 1 + |needle|] == hay[1..][i..i + |needle|];
      }
      forall i: nat | OccursAt(hay, needle, i) ensures i > 0 && OccursAt(hay[1..], needle, i - 1) {
        assert hay[1..][i - 1..i - 1 + |needle|] == hay[i..i + |needle|];
      }
    }
  }

  /** Every string includes the empty string (`'abc'.includes('')` is true). */
  lemma IncludesEmpty(hay: string)
    ensures Includes(hay, "")
  {
    assert OccursAt(hay, "", 0);
  }
}
