/**
 * String comparison and case folding as the service uses them. The locale
 * collation behind `localeCompare` is left abstract: any comparator that
 * behaves consistently, as ECMAScript's `Array.prototype.sort` expects.
 * `toLowerCase` is modelled on ASCII letters only.
 */
module Collation {

  /** `(a, b) => a.localeCompare(b)`: negative, zero or positive. */
  type Comparator = (string, string) -> int

  /**
   * Swapping the arguments flips the sign, and "not after" is transitive:
   * the comparator is a total preorder on strings.
   */
  ghost predicate IsConsistentComparator(cmp: Comparator) {
    && (forall a, b :: cmp(a, b) < 0 <==> cmp(b, a) > 0)
    && (forall a, b, c :: cmp(a, b) <= 0 && cmp(b, c) <= 0 ==> cmp(a, c) <= 0)
  }

  function LowerChar(c: char): (d: char)
    ensures 'A' <= c <= 'Z' ==> d as int == c as int + 32
    ensures !('A' <= c <= 'Z') ==> d == c
  {
    if 'A' <= c <= 'Z' then (c as int + 32) as char else c
  }

  /** `s.toLowerCase()` for ASCII text: upper-case letters map to lower case, all else is kept. */
  function ToLower(s: string): (r: string)
    ensures |r| == |s|
    ensures forall i :: 0 <= i < |s| ==> r[i] == LowerChar(s[i])
  {
    if s == [] then [] else [LowerChar(s[0])] + ToLower(s[1..])
  }

  /** Lower-casing twice is lower-casing once. */
  lemma {:induction false} ToLowerIdempotent(s: string)
    ensures ToLower(ToLower(s)) == ToLower(s)
  {
    if s != [] {
      ToLowerIdempotent(s[1..]);
      assert ToLower(s)[1..] == ToLower(s[1..]);
    }
  }
}
