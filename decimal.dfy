/** How the bot turns the integer fields of the status API into text (`${n}`, `String(n)`),
    with the parser that undoes it. */
module Decimal {

  import opened Ids

  predicate IsDigit(c: char)
  {
    '0' <= c <= '9'
  }

  function DigitChar(d: nat): (c: char)
    requires d < 10
    ensures IsDigit(c)
  {
    ['0', '1', '2', '3', '4', '5', '6', '7', '8', '9'][d]
  }

  function DigitValue(c: char): (d: nat)
    requires IsDigit(c)
    ensures d < 10
  {
    (c as int - '0' as int) as nat
  }

  lemma DigitRoundTrip(d: nat)
    requires d < 10
    ensures DigitValue(DigitChar(d)) == d
  {
  }

  predicate AllDigits(s: string)
  {
    forall i :: 0 <= i < |s| ==> IsDigit(s[i])
  }

  /** The decimal text of a natural number, most significant digit first, no leading zeros. */
  function NatToText(n: nat): (s: string)
    ensures |s| > 0 && AllDigits(s)
    ensures |s| > 1 ==> s[0] != '0'
  {
    if n < 10 then [DigitChar(n)] else NatToText(n / 10) + [DigitChar(n % 10)]
  }

  /** JavaScript's text of an integer-valued number: a minus sign before negative values. */
  function IntToText(i: int): (s: string)
    ensures |s| > 0 && '/' !in s
    ensures (i < 0) == (s[0] == '-')
  {
    if i < 0 then "-" + NatToText(-i) else NatToText(i)
  }

  function ParseNat(s: string): (n: nat)
    requires |s| > 0 && AllDigits(s)
  {
    if |s| == 1 then DigitValue(s[0]) else 10 * ParseNat(s[..|s| - 1]) + DigitValue(s[|s| - 1])
  }

  /** Reads back the text produced by IntToText; None for anything that is not such a text. */
  function ParseInt(s: string): (r: Option<int>)
    ensures r.Some? ==> |s| > 0
  {
    if |s| > 0 && s[0] == '-' && |s| > 1 && AllDigits(s[1..]) then Some(-(ParseNat(s[1..]) as int))
    else if |s| > 0 && AllDigits(s) then Some(ParseNat(s))
    else None
  }

  lemma {:induction false} ParseNatToText(n: nat)
    ensures ParseNat(NatToText(n)) == n
  {
    if n >= 10 {
      var s := NatToText(n);
      var prefix := NatToText(n / 10);
      assert s[..|s| - 1] == prefix;
      ParseNatToText(n / 10);
      DigitRoundTrip(n % 10);
    } else {
      DigitRoundTrip(n);
    }
  }

  /** Every integer's text parses back to that integer. */
  lemma IntTextRoundTrip(i: int)
    ensures ParseInt(IntToText(i)) == Some(i)
  {
    var s := IntToText(i);
    if i < 0 {
      assert s[0] == '-' && |s| > 1;
      assert s[1..] == NatToText(-i);
      ParseNatToText(-i);
    } else {
      assert s == NatToText(i) && IsDigit(s[0]);
      ParseNatToText(i);
    }
  }

  /** Distinct integers get distinct texts. */
  lemma IntTextInjective(i: int, j: int)
    requires IntToText(i) == IntToText(j)
    ensures i == j
  {
    IntTextRoundTrip(i);
    IntTextRoundTrip(j);
  }
}
