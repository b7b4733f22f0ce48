/**
 * The few string operations the backend relies on: lower-casing, capitalising,
 * substring search, and joining strings with a separator.
 * Case mapping covers the ASCII letters only.
 */
module Text {

  predicate IsUpper(c: char) {
    'A' <= c <= 'Z'
  }

  predicate IsLower(c: char) {
    'a' <= c <= 'z'
  }

  function LowerChar(c: char): (d: char)
    ensures !IsUpper(d)
    ensures !IsUpper(c) ==> d == c
  {
    if IsUpper(c) then (c as int + 32) as char else c
  }

  function UpperChar(c: char): (d: char)
    ensures !IsLower(d)
    ensures !IsLower(c) ==> d == c
  {
    if IsLower(c) then (c as int - 32) as char else c
  }

  /** Every letter of `s` in lower case. */
  function Lower(s: string): (r: string)
    ensures |r| == |s|
    ensures forall i :: 0 <= i < |s| ==> r[i] == LowerChar(s[i])
  {
    seq(|s|, i requires 0 <= i < |s| => LowerChar(s[i]))
  }

  /** A string is in lower case when lower-casing leaves it alone. */
  predicate IsLowerCase(s: string) {
    forall i :: 0 <= i < |s| ==> !IsUpper(s[i])
  }

  /** The first character upper-cased, the rest lower-cased. */
  function Capitalize(s: string): (r: string)
    ensures |r| == |s|
  {
    if s == [] then [] else [UpperChar(s[0])] + Lower(s[1..])
  }

  /** `sub` occurs in `s` starting at index `i`. */
  predicate OccursAt(s: string, sub: string, i: int) {
    0 <= i && i + |sub| <= |s| && s[i..i + |sub|] == sub
  }

  /** `sub` occurs somewhere in `s`. */
  predicate Contains(s: string, sub: string) {
    exists i | 0 <= i <= |s| - |sub| :: OccursAt(s, sub, i)
  }

  /** The parts, in order, with `sep` between each two neighbours. */
  function Join(parts: seq<string>, sep: string): string {
    if |parts| == 0 then ""
    else if |parts| == 1 then parts[0]
    else parts[0] + sep + Join(parts[1..], sep)
  }

  /** Lower-casing a slice is slicing the lower-cased string. */
  lemma LowerSlice(s: string, i: int, j: int)
    requires 0 <= i <= j <= |s|
    ensures Lower(s)[i..j] == Lower(s[i..j])
  {
  }

  /** `s` spells the lower-case word `k` at index `i`, in any mix of cases. */
  predicate OccursIgnoringCaseAt(s: string, k: string, i: int) {
    0 <= i && i + |k| <= |s| && Lower(s[i..i + |k|]) == k
  }

  /**
   * Searching the lower-cased text for a lower-case keyword finds exactly the
   * places where the text spells that keyword in any mix of upper and lower case.
   */
  lemma {:induction false} ContainsLowerIff(s: string, k: string)
    requires IsLowerCase(k)
    ensures Contains(Lower(s), k) <==> exists i :: OccursIgnoringCaseAt(s, k, i)
  {
    if Contains(Lower(s), k) {
      var i :| 0 <= i <= |s| - |k| && OccursAt(Lower(s), k, i);
      LowerSlice(s, i, i + |k|);
      assert OccursIgnoringCaseAt(s, k, i);
    }
    if exists i :: OccursIgnoringCaseAt(s, k, i) {
      var i :| OccursIgnoringCaseAt(s, k, i);
      LowerSlice(s, i, i + |k|);
      assert OccursAt(Lower(s), k, i);
    }
  }

  /** `a` is a prefix of `a + b`. */
  lemma PrefixOfConcat(a: string, b: string)
    ensures a <= a + b
  {
  }
}
