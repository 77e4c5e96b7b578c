/** Python's `str(n)` for an integer: decimal digits, most significant first,
    a leading '-' for a negative number and no leading zeros. */
module Text {

  function DigitChar(d: nat): (c: char)
    requires d < 10
    ensures '0' <= c <= '9'
  {
    ['0', '1', '2', '3', '4', '5', '6', '7', '8', '9'][d]
  }

  function DigitValue(c: char): nat
    requires '0' <= c <= '9'
  {
    (c as int - '0' as int) as nat
  }

  lemma DigitRoundTrip(d: nat)
    requires d < 10
    ensures DigitValue(DigitChar(d)) == d
  {
  }

  function Digits(n: nat): (s: string)
    ensures |s| > 0 && forall i :: 0 <= i < |s| ==> '0' <= s[i] <= '9'
    ensures n > 0 ==> s[0] != '0'
  {
    if n < 10 then [DigitChar(n)] else Digits(n / 10) + [DigitChar(n % 10)]
  }

  /** The value of a run of decimal digits, read left to right. */
  function ParseDigits(s: string): nat
    requires forall i :: 0 <= i < |s| ==> '0' <= s[i] <= '9'
  {
    if |s| == 0 then 0 else ParseDigits(s[..|s| - 1]) * 10 + DigitValue(s[|s| - 1])
  }

  /** Reading the digits back gives the number. */
  lemma {:induction false} DigitsRoundTrip(n: nat)
    ensures ParseDigits(Digits(n)) == n
  {
    var s := Digits(n);
    if n < 10 {
      DigitRoundTrip(n);
      assert s[..0] == [];
    } else {
      DigitsRoundTrip(n / 10);
      DigitRoundTrip(n % 10);
      assert s[..|s| - 1] == Digits(n / 10);
    }
  }

  function IntToString(n: int): (s: string)
    ensures |s| > 0
  {
    if n < 0 then "-" + Digits(-n) else Digits(n)
  }

  /** What `str` gives for an integer: an optional '-' and then at least one digit. */
  predicate IsIntLiteral(s: string)
  {
    |s| > 0 && (s[0] == '-' ==> |s| > 1) &&
    forall i :: (if s[0] == '-' then 1 else 0) <= i < |s| ==> '0' <= s[i] <= '9'
  }

  /** Python `int(s)` on what `str` produced. */
  function ParseInt(s: string): int
    requires IsIntLiteral(s)
  {
    if s[0] == '-' then -(ParseDigits(s[1..]) as int) else ParseDigits(s)
  }

  /** `int(str(n)) == n`, so distinct numbers print differently. */
  lemma IntToStringRoundTrip(n: int)
    ensures var s := IntToString(n);
            (s[0] == '-' <==> n < 0) && IsIntLiteral(s) && ParseInt(s) == n
  {
    if n < 0 {
      NegativeRoundTrip(n);
    } else {
      DigitsRoundTrip(n);
      assert IntToString(n) == Digits(n);
    }
  }

  lemma NegativeRoundTrip(n: int)
    requires n < 0
    ensures var s := IntToString(n);
            s[0] == '-' && IsIntLiteral(s) && ParseInt(s) == n
  {
    var m: nat := -n;
    var ds := Digits(m);
    assert IntToString(n) == "-" + ds;
    DigitsRoundTrip(m);
    assert ParseDigits(ds) == m;
    assert forall i :: 0 <= i < |ds| ==> '0' <= ds[i] <= '9';
    MinusDigits(ds, m);
  }

  /** A '-' before a run of digits reads as the negated run. */
  lemma MinusDigits(ds: string, m: nat)
    requires |ds| > 0 && forall i :: 0 <= i < |ds| ==> '0' <= ds[i] <= '9'
    requires ParseDigits(ds) == m
    ensures IsIntLiteral("-" + ds) && ParseInt("-" + ds) == -(m as int)
  {
    var s := "-" + ds;
    forall i | 1 <= i < |s| ensures '0' <= s[i] <= '9' {
      assert s[i] == ds[i - 1];
    }
    assert s[1..] == ds;
  }

  lemma IntToStringInjective(a: int, b: int)
    requires IntToString(a) == IntToString(b)
    ensures a == b
  {
    IntToStringRoundTrip(a);
    IntToStringRoundTrip(b);
  }
}
