/**
 * The few JavaScript built-ins the ledger's derivation rules rely on:
 * `String.prototype.toLowerCase`, `String.prototype.includes`, `Math.round`
 * and `Number(text)` applied to the text of an `<input type="number">`.
 */
module Js {

  /** ASCII case folding of one character; other characters are left as they are. */
  function LowerChar(c: char): char {
    if 'A' <= c <= 'Z' then (c as int + 32) as char else c
  }

  /** `s.toLowerCase()`, restricted to ASCII letters. */
  function ToLower(s: string): (r: string)
    ensures |r| == |s|
  {
    seq(|s|, i requires 0 <= i < |s| => LowerChar(s[i]))
  }

  /** A lower-case letter appears in `ToLower(s)` only where `s` has it in either case. */
  lemma LowerLacks(s: string, c: char)
    requires 'a' <= c <= 'z' && c !in s && (c as int - 32) as char !in s
    ensures c !in ToLower(s)
  {
  }

  /** `fragment` starts at position `k` of `s`. */
  predicate OccursAt(s: string, fragment: string, k: int) {
    0 <= k <= |s| - |fragment| && s[k..k + |fragment|] == fragment
  }

  /** `s.includes(fragment)`: `fragment` occurs somewhere in `s` as a contiguous piece. */
  predicate Includes(s: string, fragment: string) {
    exists k | 0 <= k <= |s| - |fragment| :: OccursAt(s, fragment, k)
  }

  /** A fragment holding a character that `s` lacks does not occur in `s`. */
  lemma NotIncludedByMissingChar(s: string, fragment: string, c: char)
    requires c in fragment && c !in s
    ensures !Includes(s, fragment)
  {
  }

  /** `Math.round(x)`: the nearest integer, halves rounded towards +infinity. */
  function Round(x: real): (r: int)
    ensures x - 1.0 / 2.0 < r as real <= x + 1.0 / 2.0
  {
    (x + 1.0 / 2.0).Floor
  }

  /** Rounding never reverses the order of two values. */
  lemma RoundMonotonic(x: real, y: real)
    requires x <= y
    ensures Round(x) <= Round(y)
  {
    assert (x + 1.0 / 2.0).Floor as real <= y + 1.0 / 2.0;
  }

  /** Rounding an integer-valued real gives that integer back. */
  lemma RoundOfInteger(n: int)
    ensures Round(n as real) == n
  {
  }

  /**
   * The text of a `type="number"` input: the browser only ever reports the
   * empty string or a valid numeral, so `Number(text)` is never NaN here.
   */
  datatype NumText = Blank | Numeral(value: real)

  /** `Number(text)`; `Number('')` is 0. */
  function NumberOf(t: NumText): (r: real)
    ensures t.Blank? ==> r == 0.0
    ensures t.Numeral? ==> r == t.value
  {
    match t
    case Blank => 0.0
    case Numeral(v) => v
  }
}
