/**
 * Decimal text for non-negative integers, as `Number.prototype.toString` writes
 * the seeded capacities and as the capacity columns carry them, together with
 * the reading back of such text as a number.
 */
module Decimal {

  predicate IsDigit(c: char) { '0' <= c <= '9' }

  predicate AllDigits(s: string) { forall i :: 0 <= i < |s| ==> IsDigit(s[i]) }

  function DigitChar(d: nat): (c: char)
    requires d < 10
    ensures IsDigit(c)
  {
    (d + '0' as int) as char
  }

  function DigitValue(c: char): (d: nat)
    requires IsDigit(c)
    ensures d < 10
  {
    c as int - '0' as int
  }

  lemma DigitValueOfChar(d: nat)
    requires d < 10
    ensures DigitValue(DigitChar(d)) == d
  {
  }

  /** The canonical decimal text of `n`: at least one digit, no leading zero. */
  function DecimalString(n: nat): (s: string)
    ensures |s| >= 1 && AllDigits(s)
    ensures |s| > 1 ==> s[0] != '0'
  {
    if n < 10 then [DigitChar(n)] else DecimalString(n / 10) + [DigitChar(n % 10)]
  }

  /** The number a string of digits denotes (the empty text reads as 0). */
  function ParseDecimal(s: string): nat
    requires AllDigits(s)
  {
    if s == [] then 0 else ParseDecimal(s[..|s| - 1]) * 10 + DigitValue(s[|s| - 1])
  }

  /** Reading back the text written for `n` gives `n`. */
  lemma {:induction false} ParseDecimalString(n: nat)
    ensures ParseDecimal(DecimalString(n)) == n
  {
    var s := DecimalString(n);
    if n < 10 {
      assert s[..|s| - 1] == [];
      DigitValueOfChar(n);
    } else {
      var prefix := DecimalString(n / 10);
      assert s[..|s| - 1] == prefix;
      DigitValueOfChar(n % 10);
      ParseDecimalString(n / 10);
    }
  }

  /** Different numbers are written differently. */
  lemma {:induction false} DecimalStringInjective(a: nat, b: nat)
    ensures DecimalString(a) == DecimalString(b) <==> a == b
  {
    if DecimalString(a) == DecimalString(b) {
      ParseDecimalString(a);
      ParseDecimalString(b);
    }
  }

  /** The text of a sum reads back as the sum of what the texts of its parts read back as. */
  lemma {:induction false} SumReadsBack(a: nat, b: nat, c: nat)
    ensures ParseDecimal(DecimalString(a + b + c)) ==
            ParseDecimal(DecimalString(a)) + ParseDecimal(DecimalString(b)) + ParseDecimal(DecimalString(c))
  {
    var total := a + b + c;
    ParseDecimalString(a);
    ParseDecimalString(b);
    ParseDecimalString(c);
    ParseDecimalString(total);
    assert ParseDecimal(DecimalString(total)) == total;
  }
}
