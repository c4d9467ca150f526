/**
 * Ticket identifiers as the component compares them.
 *
 * The host platform numbers tickets with non-negative integers. The drag
 * payload is a string, and the drop handler compares it with `id.toString()`,
 * which for such an integer is its plain decimal rendering: digits only, no
 * sign, no leading zero except for the number 0 itself.
 */
module TicketIds {

  predicate IsDigit(c: char) {
    '0' <= c <= '9'
  }

  function DigitChar(d: nat): (c: char)
    requires d < 10
    ensures IsDigit(c)
  {
    ('0' as int + d) as char
  }

  function DigitValue(c: char): (d: nat)
    requires IsDigit(c)
    ensures d < 10
  {
    c as int - '0' as int
  }

  /** The strings that `toString()` can produce for a non-negative integer. */
  predicate CanonicalDecimal(s: string) {
    && |s| > 0
    && (forall i :: 0 <= i < |s| ==> IsDigit(s[i]))
    && (|s| > 1 ==> s[0] != '0')
  }

  /** `id.toString()` for a non-negative integer id. */
  function IdString(n: nat): (s: string)
    ensures CanonicalDecimal(s)
    ensures n == 0 <==> s == "0"
    decreases n
  {
    if n < 10 then [DigitChar(n)] else IdString(n / 10) + [DigitChar(n % 10)]
  }

  /** Reads a string of decimal digits back as a number. */
  function DecimalValue(s: string): nat
    requires |s| > 0 && forall i :: 0 <= i < |s| ==> IsDigit(s[i])
    decreases |s|
  {
    if |s| == 1 then DigitValue(s[0])
    else DecimalValue(s[..|s| - 1]) * 10 + DigitValue(s[|s| - 1])
  }

  lemma {:induction false} DecimalValueOfIdString(n: nat)
    ensures DecimalValue(IdString(n)) == n
    decreases n
  {
    if n >= 10 {
      var p := IdString(n / 10);
      var s := IdString(n);
      assert s == p + [DigitChar(n % 10)];
      assert s[..|s| - 1] == p;
      DecimalValueOfIdString(n / 10);
    }
  }

  /** Two tickets have the same id string exactly when they have the same id. */
  lemma IdStringInjective(a: nat, b: nat)
    ensures IdString(a) == IdString(b) <==> a == b
  {
    if IdString(a) == IdString(b) {
      DecimalValueOfIdString(a);
      DecimalValueOfIdString(b);
    }
  }
}
