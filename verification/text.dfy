/** Strings as sequences of characters: lower-casing, substring search and
    the decimal rendering of natural numbers used to build keys and names. */
module Text {

  /** ASCII lower-casing of one character, as `str.lower` does on ASCII text. */
  function LowerChar(c: char): (r: char)
    ensures 'A' <= c <= 'Z' ==> r as int == c as int + 32
    ensures !('A' <= c <= 'Z') ==> r == c
  {
    if 'A' <= c <= 'Z' then (c as int + 32) as char else c
  }

  function Lower(s: string): (r: string)
    ensures |r| == |s|
    ensures forall i :: 0 <= i < |s| ==> r[i] == LowerChar(s[i])
  {
    seq(|s|, i requires 0 <= i < |s| => LowerChar(s[i]))
  }

  lemma LowerCharIdempotent(c: char)
    ensures LowerChar(LowerChar(c)) == LowerChar(c)
  {
  }

  /** Lower-casing twice is lower-casing once. */
  lemma LowerIdempotent(s: string)
    ensures Lower(Lower(s)) == Lower(s)
  {
    forall i | 0 <= i < |s|
      ensures Lower(Lower(s))[i] == Lower(s)[i]
    {
      LowerCharIdempotent(s[i]);
    }
  }

  /** `k in s` for strings: `k` occurs in `s` at some position. */
  predicate OccursAt(s: string, k: string, i: int) {
    0 <= i && i + |k| <= |s| && s[i..i + |k|] == k
  }

  predicate Contains(s: string, k: string) {
    exists i :: 0 <= i <= |s| - |k| && OccursAt(s, k, i)
  }

  /** `any(k in s for k in ks)`. */
  predicate ContainsAny(s: string, ks: seq<string>) {
    exists k :: k in ks && Contains(s, k)
  }

  predicate StartsWith(s: string, prefix: string) {
    |prefix| <= |s| && s[..|prefix|] == prefix
  }

  function DigitChar(d: nat): (c: char)
    requires d < 10
  {
    ['0', '1', '2', '3', '4', '5', '6', '7', '8', '9'][d]
  }

  /** Decimal rendering of a natural number, as `str(n)` / an f-string does. */
  function NatToString(n: nat): (r: string)
    ensures |r| >= 1
    decreases n
  {
    if n < 10 then [DigitChar(n)] else NatToString(n / 10) + [DigitChar(n % 10)]
  }

  /** The digit a character stands for (0 for a non-digit). */
  function DigitValue(c: char): (d: nat)
    ensures d < 10
  {
    if '0' <= c <= '9' then c as int - '0' as int else 0
  }

  lemma DigitRoundTrip(d: nat)
    requires d < 10
    ensures DigitValue(DigitChar(d)) == d
  {
  }

  /** Reads a string of decimal digits back as a number. */
  function ParseNat(s: string): nat
    decreases |s|
  {
    if |s| == 0 then 0 else 10 * ParseNat(s[..|s| - 1]) + DigitValue(s[|s| - 1])
  }

  /** Rendering a number in decimal loses nothing. */
  lemma {:induction false} ParseNatToString(n: nat)
    ensures ParseNat(NatToString(n)) == n
    decreases n
  {
    var s := NatToString(n);
    if n < 10 {
      DigitRoundTrip(n);
      assert s[..|s| - 1] == [];
    } else {
      assert s[..|s| - 1] == NatToString(n / 10);
      ParseNatToString(n / 10);
      DigitRoundTrip(n % 10);
    }
  }

  /** Different numbers render differently. */
  lemma NatToStringInjective(m: nat, n: nat)
    ensures NatToString(m) == NatToString(n) ==> m == n
  {
    ParseNatToString(m);
    ParseNatToString(n);
  }

  /** A common prefix followed by different numbers gives different strings. */
  lemma NumberedDistinct(prefix: string, m: nat, n: nat)
    requires m != n
    ensures prefix + NatToString(m) != prefix + NatToString(n)
  {
    NatToStringInjective(m, n);
    assert NatToString(m) == (prefix + NatToString(m))[|prefix|..];
    assert NatToString(n) == (prefix + NatToString(n))[|prefix|..];
  }
}
