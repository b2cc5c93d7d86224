/**
 * Decimal formatting of status codes, as used for the `status` label of the
 * request counter (`strconv.Itoa(rr.status)`), together with a reference
 * decoder that shows the label determines the status it was made from.
 */
module Strconv {

  datatype Option<T> = None | Some(value: T)

  predicate IsDigit(c: char) {
    '0' <= c <= '9'
  }

  predicate AllDigits(s: string) {
    forall i :: 0 <= i < |s| ==> IsDigit(s[i])
  }

  function DigitChar(d: nat): (c: char)
    requires d < 10
    ensures IsDigit(c) && c as int - '0' as int == d
  {
    (d + '0' as int) as char
  }

  /** The base-10 digits of `n`, most significant first, without leading zeros. */
  function DecimalDigits(n: nat): (s: string)
    ensures |s| >= 1 && AllDigits(s)
    ensures (s[0] == '0') == (n == 0)
    decreases n
  {
    if n < 10 then [DigitChar(n)] else DecimalDigits(n / 10) + [DigitChar(n % 10)]
  }

  /** `strconv.Itoa`: base 10, a leading '-' for negative values. */
  function Itoa(i: int): (s: string)
    ensures |s| >= 1
    ensures (s[0] == '-') == (i < 0)
    ensures i >= 0 ==> AllDigits(s)
    ensures i < 0 ==> |s| >= 2 && AllDigits(s[1..])
    ensures i >= 0 ==> (s[0] == '0' <==> i == 0)
    ensures i < 0 ==> s[1] != '0'
  {
    if i < 0 then "-" + DecimalDigits(-i) else DecimalDigits(i)
  }

  /** The value of a string of decimal digits. */
  function DigitsValue(s: string): nat
    requires AllDigits(s)
  {
    if s == [] then 0 else DigitsValue(s[..|s| - 1]) * 10 + (s[|s| - 1] as int - '0' as int)
  }

  /** Reference decoder: an optional '-' followed by at least one digit. */
  function ParseInt(s: string): Option<int>
  {
    if |s| >= 2 && s[0] == '-' && AllDigits(s[1..]) then Some(0 - DigitsValue(s[1..]) as int)
    else if |s| >= 1 && AllDigits(s) then Some(DigitsValue(s))
    else None
  }

  lemma {:induction false} DigitsValueOfDecimal(n: nat)
    ensures DigitsValue(DecimalDigits(n)) == n
    decreases n
  {
    if n >= 10 {
      var s := DecimalDigits(n);
      assert s[..|s| - 1] == DecimalDigits(n / 10);
      DigitsValueOfDecimal(n / 10);
    }
  }

  /** Every status label decodes back to the status it was formatted from. */
  lemma ItoaRoundTrip(i: int)
    ensures ParseInt(Itoa(i)) == Some(i)
  {
    if i < 0 {
      assert Itoa(i)[1..] == DecimalDigits(-i);
      DigitsValueOfDecimal(-i);
    } else {
      DigitsValueOfDecimal(i);
    }
  }

  /** Distinct statuses get distinct labels, so they land in distinct counter cells. */
  lemma ItoaInjective(a: int, b: int)
    ensures Itoa(a) == Itoa(b) <==> a == b
  {
    ItoaRoundTrip(a);
    ItoaRoundTrip(b);
  }

  /** The two labels the demo routes produce. */
  lemma StatusLabels()
    ensures Itoa(200) == "200"
    ensures Itoa(500) == "500"
  {
  }
}
