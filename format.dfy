/**
 * The `fmt.Sprintf("%v", x)` renderings the handler uses for integers and booleans.
 * Floating-point rendering is not modelled here: it is a parameter of the handler.
 */
module Format {

  predicate IsDigit(c: char)
  {
    '0' <= c <= '9'
  }

  function DigitChar(d: nat): (c: char)
    requires d < 10
    ensures IsDigit(c) && (c as int) - ('0' as int) == d
  {
    (('0' as int) + d) as char
  }

  function DigitValue(c: char): (d: nat)
    requires IsDigit(c)
    ensures d < 10 && DigitChar(d) == c
  {
    (c as int) - ('0' as int)
  }

  /** Decimal digits of `n`, most significant first, without leading zeros. */
  function FormatNat(n: nat): (s: string)
    ensures |s| >= 1
    ensures forall i :: 0 <= i < |s| ==> IsDigit(s[i])
    ensures |s| > 1 ==> s[0] != '0'
  {
    if n < 10 then [DigitChar(n)] else FormatNat(n / 10) + [DigitChar(n % 10)]
  }

  /** An optional minus sign followed by decimal digits. */
  predicate IsIntText(s: string)
  {
    && |s| >= 1
    && (s[0] == '-' ==> forall i :: 1 <= i < |s| ==> IsDigit(s[i]))
    && (s[0] != '-' ==> forall i :: 0 <= i < |s| ==> IsDigit(s[i]))
  }

  /** `%v` of a Go int: an optional minus sign followed by the decimal digits. */
  function FormatInt(i: int): (s: string)
    ensures IsIntText(s)
    ensures s[0] == '-' <==> i < 0
  {
    if i < 0 then "-" + FormatNat(-i) else FormatNat(i)
  }

  /** `%v` of a Go bool. */
  function FormatBool(b: bool): string
  {
    if b then "true" else "false"
  }

  /** Reads back a string of decimal digits. */
  function ParseNat(s: string): nat
    requires forall i :: 0 <= i < |s| ==> IsDigit(s[i])
  {
    if s == [] then 0
    else ParseNat(s[..|s| - 1]) * 10 + DigitValue(s[|s| - 1])
  }

  /** Reads back an optional minus sign followed by decimal digits. */
  function ParseInt(s: string): int
    requires IsIntText(s)
  {
    if s[0] == '-' then -(ParseNat(s[1..]) as int) else ParseNat(s)
  }

  lemma {:induction false} ParseFormatNat(n: nat)
    ensures ParseNat(FormatNat(n)) == n
  {
    if n >= 10 {
      var s := FormatNat(n);
      assert s[..|s| - 1] == FormatNat(n / 10);
      ParseFormatNat(n / 10);
    }
  }

  /** The integer rendering loses nothing: reading it back gives the integer. */
  lemma ParseFormatInt(i: int)
    ensures ParseInt(FormatInt(i)) == i
  {
    if i < 0 {
      assert FormatInt(i)[1..] == FormatNat(-i);
      ParseFormatNat(-i);
    } else {
      ParseFormatNat(i);
    }
  }

  /** Distinct integers render differently. */
  lemma FormatIntInjective(i: int, j: int)
    requires FormatInt(i) == FormatInt(j)
    ensures i == j
  {
    ParseFormatInt(i);
    ParseFormatInt(j);
  }
}
