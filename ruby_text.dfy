/**
 * The character-level primitives the parser's Ruby code relies on:
 * `String#include?`, `String#end_with?`, Ruby's `\s` and `\d` classes,
 * and scanners that find the first or last position of a short marker.
 */
module RubyText {
  import opened Wrappers

  /** Ruby's `\s` (and the blanks `String#to_i` skips): space, \t, \n, \v, \f, \r. */
  predicate IsSpace(c: char) {
    c == ' ' || c == '\t' || c == '\n' || c == '\U{B}' || c == '\U{C}' || c == '\r'
  }

  /** Ruby's `\d`: an ASCII decimal digit. */
  predicate IsDigit(c: char) {
    '0' <= c <= '9'
  }

  /** `sub` occurs in `s` starting at index `k`. */
  predicate OccursAt(s: string, sub: string, k: int) {
    0 <= k && k + |sub| <= |s| && s[k..k + |sub|] == sub
  }

  /** `s.include?(sub)`. */
  function Contains(s: string, sub: string): (r: bool)
    ensures r <==> exists k :: OccursAt(s, sub, k)
    decreases |s|
  {
    if |sub| <= |s| && s[..|sub|] == sub then
      assert OccursAt(s, sub, 0);
      true
    else if s == [] then
      assert forall k :: !OccursAt(s, sub, k);
      false
    else
      var r := Contains(s[1..], sub);
      assert forall k :: OccursAt(s[1..], sub, k) <==> OccursAt(s, sub, k + 1);
      assert r ==> exists k :: OccursAt(s, sub, k) by {
        if r {
          var k :| OccursAt(s[1..], sub, k);
          assert OccursAt(s, sub, k + 1);
        }
      }
      assert (exists k :: OccursAt(s, sub, k)) ==> r by {
        if exists k :: OccursAt(s, sub, k) {
          var k :| OccursAt(s, sub, k);
          assert k != 0;
          assert OccursAt(s[1..], sub, k - 1);
        }
      }
      r
  }

  /** A line in which no character is `c` does not include the one-character string `[c]`. */
  lemma {:induction false} WithoutChar(s: string, c: char)
    requires NoMarkIn(s, Char(c), 0, |s|)
    ensures !Contains(s, [c])
  {
    if Contains(s, [c]) {
      var k :| OccursAt(s, [c], k);
      assert s[k..k + 1][0] == s[k];
      assert MarkAt(s, k, Char(c));
    }
  }

  /** `s.end_with?(suffix)`. */
  predicate EndsWith(s: string, suffix: string) {
    |suffix| <= |s| && s[|s| - |suffix|..] == suffix
  }

  /** A marker the line grammars look for at one position of a line. */
  datatype Mark =
    | Char(c: char)   // the character c
    | IdClose         // a digit followed by `]`, the end of `(.*\d)\]`
    | IdOpen          // a blank followed by `[`, the `\s\[` of the symbol grammar
    | HexStart        // the two characters `0x`

  predicate MarkAt(s: string, k: int, m: Mark) {
    0 <= k < |s| &&
    match m
    case Char(c) => s[k] == c
    case IdClose => k + 1 < |s| && IsDigit(s[k]) && s[k + 1] == ']'
    case IdOpen => k + 1 < |s| && IsSpace(s[k]) && s[k + 1] == '['
    case HexStart => k + 1 < |s| && s[k] == '0' && s[k + 1] == 'x'
  }

  /** No position in [lo, hi) of `s` carries the marker `m`. */
  predicate NoMarkIn(s: string, m: Mark, lo: int, hi: int) {
    forall k :: lo <= k < hi ==> !MarkAt(s, k, m)
  }

  /** The last position below `hi` that carries `m`: where a greedy `.*` before `m` stops. */
  function LastMark(s: string, m: Mark, hi: int): (r: Option<nat>)
    ensures r.Some? ==> r.value < hi && MarkAt(s, r.value, m) && NoMarkIn(s, m, r.value + 1, hi)
    ensures r.None? ==> NoMarkIn(s, m, 0, hi)
    decreases hi
  {
    if hi <= 0 then None
    else if MarkAt(s, hi - 1, m) then Some(hi - 1)
    else LastMark(s, m, hi - 1)
  }

  /** The first position in [lo, hi) that carries `m`: where an unanchored match starts. */
  function FirstMark(s: string, m: Mark, lo: nat, hi: nat): (r: Option<nat>)
    ensures r.Some? ==> lo <= r.value < hi && MarkAt(s, r.value, m) && NoMarkIn(s, m, lo, r.value)
    ensures r.None? ==> NoMarkIn(s, m, lo, hi)
    decreases hi - lo
  {
    if hi <= lo then None
    else if MarkAt(s, lo, m) then Some(lo)
    else FirstMark(s, m, lo + 1, hi)
  }
}
