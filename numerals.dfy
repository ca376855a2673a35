/** Digit strings: the decimal text of integers (Python's str and JavaScript's String
    agree on it for integers) and the value of a run of digits in a given radix. */
module Numerals {

  /** The value of a character as a digit in radix 36 ('0'..'9', then 'a'..'z' or 'A'..'Z'),
      or -1 when it is not a digit at all. */
  function DigitOf(ch: char): (d: int)
    ensures -1 <= d < 36
    ensures '0' <= ch <= '9' ==> d == ch as int - '0' as int
  {
    if '0' <= ch <= '9' then ch as int - '0' as int
    else if 'a' <= ch <= 'z' then ch as int - 'a' as int + 10
    else if 'A' <= ch <= 'Z' then ch as int - 'A' as int + 10
    else -1
  }

  predicate IsDigitIn(ch: char, radix: nat) {
    0 <= DigitOf(ch) < radix
  }

  predicate AllDigitsIn(s: string, radix: nat) {
    forall i :: 0 <= i < |s| ==> IsDigitIn(s[i], radix)
  }

  /** The number a string of digits denotes, most significant digit first. */
  function ValueIn(s: string, radix: nat): nat
    requires AllDigitsIn(s, radix)
  {
    if s == [] then 0 else radix * ValueIn(s[..|s| - 1], radix) + DigitOf(s[|s| - 1])
  }

  /** The length of the longest prefix of s made of digits of the radix. */
  function DigitPrefixLength(s: string, radix: nat): (n: nat)
    ensures n <= |s|
    ensures AllDigitsIn(s[..n], radix)
    ensures n < |s| ==> !IsDigitIn(s[n], radix)
  {
    if s == [] || !IsDigitIn(s[0], radix) then 0
    else
      var m := DigitPrefixLength(s[1..], radix);
      assert s[..m + 1] == [s[0]] + s[1..][..m];
      m + 1
  }

  lemma DigitPrefixOfDigits(s: string, radix: nat)
    requires AllDigitsIn(s, radix)
    ensures DigitPrefixLength(s, radix) == |s|
  {
  }

  function DigitChar(d: nat): (ch: char)
    requires d < 10
    ensures IsDigitIn(ch, 10) && DigitOf(ch) == d
  {
    ('0' as int + d) as char
  }

  /** The decimal text of a natural number, without leading zeros. */
  function NatToText(n: nat): (s: string)
    ensures |s| > 0 && AllDigitsIn(s, 10)
    ensures ValueIn(s, 10) == n
    ensures s[0] == '0' ==> s == "0"
  {
    if n < 10 then [DigitChar(n)]
    else
      var s := NatToText(n / 10) + [DigitChar(n % 10)];
      assert s[..|s| - 1] == NatToText(n / 10);
      s
  }

  /** The decimal text of an integer: a minus sign before the digits of a negative one. */
  function IntToText(i: int): (s: string)
    ensures |s| > 0
    ensures i >= 0 ==> s == NatToText(i)
    ensures i < 0 ==> s == "-" + NatToText(-i)
  {
    if i < 0 then "-" + NatToText(-i) else NatToText(i)
  }
}
