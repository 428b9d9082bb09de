/**
 * Character classes and decimal numbers.
 * Kotlin's `Char.isWhitespace` and `Char.digitToIntOrNull` cover all of Unicode;
 * this model keeps their ASCII part.
 */
module Chars {
  import opened Wrappers

  /** The ASCII characters Kotlin's `isWhitespace` accepts: HT, LF, VT, FF, CR, the four
      information separators FS, GS, RS, US, and the space. */
  predicate IsWhitespace(c: char)
    ensures IsWhitespace(c) ==> c <= ' ' && !IsDigit(c)
  {
    c == ' ' || ('\t' <= c <= '\r') || ('\U{1C}' <= c <= '\U{1F}')
  }

  predicate IsDigit(c: char) {
    '0' <= c <= '9'
  }

  /** `digitToIntOrNull` on ASCII: the value of a decimal digit, or nothing. */
  function DigitToIntOrNull(c: char): (d: Option<nat>)
    ensures d.Some? <==> IsDigit(c)
    ensures d.Some? ==> d.value < 10 && Digit(d.value) == c
  {
    if IsDigit(c) then Some(c as int - '0' as int) else None
  }

  /** The decimal digit character for `d`. */
  function Digit(d: nat): (c: char)
    requires d < 10
    ensures IsDigit(c)
  {
    ('0' as int + d) as char
  }

  predicate AllDigits(s: string) {
    forall k | 0 <= k < |s| :: IsDigit(s[k])
  }

  function Pow10(n: nat): (p: nat)
    ensures 1 <= p
  {
    if n == 0 then 1 else 10 * Pow10(n - 1)
  }

  /** The left fold `acc * 10 + digit` over a run of digits, as the tokenizer reads a number:
      below 10 to the number of digits, and zero exactly for a run of zeros. */
  function DecimalValue(s: string): (v: nat)
    requires AllDigits(s)
    ensures v < Pow10(|s|)
    ensures v == 0 <==> forall k | 0 <= k < |s| :: s[k] == '0'
  {
    if s == [] then 0
    else
      var init := s[..|s| - 1];
      assert forall k | 0 <= k < |init| :: init[k] == s[k];
      DecimalValue(init) * 10 + DigitToIntOrNull(s[|s| - 1]).value
  }

  /** The decimal rendering of a natural number, as string templates print an `Int`. */
  function NatToString(n: nat): (s: string)
    ensures |s| >= 1 && AllDigits(s)
    ensures DecimalValue(s) == n
    ensures s[0] == '0' ==> s == "0"
  {
    if n < 10 then [Digit(n)]
    else
      var s := NatToString(n / 10) + [Digit(n % 10)];
      assert s[..|s| - 1] == NatToString(n / 10);
      s
  }
}
