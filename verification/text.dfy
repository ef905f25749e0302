/**
 * Character classes and decimal text as the game and its protocol use them:
 * `char.IsDigit`, `int.ToString`, `int.TryParse`, `string.StartsWith` and
 * `string.IsNullOrWhiteSpace`, each restricted as README.md says.
 */
module Text {
  import opened Wrappers

  /** The range of a C# `int`, outside of which `int.TryParse` fails. */
  const Int32Min: int := -0x8000_0000
  const Int32Max: int := 0x7fff_ffff

  /** An ASCII decimal digit. */
  predicate IsDigit(c: char) {
    '0' <= c <= '9'
  }

  /** `s.All(char.IsDigit)`: holds of every character, and so of "" as well. */
  predicate AllDigits(s: string) {
    forall i :: 0 <= i < |s| ==> IsDigit(s[i])
  }

  function DigitValue(c: char): (d: nat)
    requires IsDigit(c)
    ensures d < 10
  {
    c as int - '0' as int
  }

  function DigitChar(d: nat): (c: char)
    requires d < 10
    ensures IsDigit(c) && DigitValue(c) == d
  {
    ('0' as int + d) as char
  }

  /** `n.ToString()` for a non-negative `int`: decimal digits, no sign, no leading zero. */
  function NatToString(n: nat): (s: string)
    ensures |s| >= 1 && AllDigits(s)
    ensures s[0] == '0' ==> n == 0
    ensures |s| == 1 <==> n < 10
  {
    if n < 10 then [DigitChar(n)] else NatToString(n / 10) + [DigitChar(n % 10)]
  }

  /** The number a string of decimal digits denotes ("" denotes 0). */
  function DigitsValue(s: string): nat
    requires AllDigits(s)
  {
    if s == [] then 0 else 10 * DigitsValue(s[..|s| - 1]) + DigitValue(s[|s| - 1])
  }

  /** Reading back what NatToString wrote gives the number again. */
  lemma {:induction false} NatToStringValue(n: nat)
    ensures DigitsValue(NatToString(n)) == n
  {
    if n >= 10 {
      var s := NatToString(n);
      assert s[..|s| - 1] == NatToString(n / 10);
      NatToStringValue(n / 10);
    }
  }

  /**
   * `int.TryParse(s, out v)`: an optional sign followed by at least one
   * ASCII digit, accepted only when the value fits a 32-bit `int`.
   */
  function ParseInt(s: string): (r: Option<int>)
    ensures r.Some? ==> Int32Min <= r.value <= Int32Max
    ensures r.Some? ==> exists i :: 0 <= i < |s| && IsDigit(s[i])
    ensures s != [] && AllDigits(s) && DigitsValue(s) <= Int32Max ==> r == Some(DigitsValue(s))
  {
    if s != [] && (s[0] == '-' || s[0] == '+') then
      var digits := s[1..];
      if digits == [] || !AllDigits(digits) then None
      else
        assert IsDigit(s[1]);
        var v: int := if s[0] == '-' then -(DigitsValue(digits) as int) else DigitsValue(digits);
        if Int32Min <= v <= Int32Max then Some(v) else None
    else if s != [] && AllDigits(s) && DigitsValue(s) <= Int32Max then
      assert IsDigit(s[0]);
      Some(DigitsValue(s))
    else None
  }

  /** Every non-negative `int` written with NatToString parses back to itself. */
  lemma ParseNatToString(n: nat)
    requires n <= Int32Max
    ensures ParseInt(NatToString(n)) == Some(n)
  {
    NatToStringValue(n);
  }

  /** Ordinal `s.StartsWith(prefix)`. */
  predicate StartsWith(s: string, prefix: string) {
    |prefix| <= |s| && s[..|prefix|] == prefix
  }

  /** `char.IsWhiteSpace` on the control and Latin-1 range. */
  predicate IsWhiteSpace(c: char) {
    c == ' ' || '\t' <= c <= '\r' || c == '\U{85}' || c == '\U{A0}'
  }

  /** `string.IsNullOrWhiteSpace` for a non-null string: no character other than white space. */
  predicate IsNullOrWhiteSpace(s: string) {
    forall i :: 0 <= i < |s| ==> IsWhiteSpace(s[i])
  }
}
