/** 32-bit unsigned integers and their decimal text, as `uint`, `ToString`, `Parse` and `TryParse` use them. */
module Numbers {

  import opened Wrappers
  import opened Text
  import opened Exceptions

  const UInt32MaxValue: int := 0xFFFF_FFFF

  /** The C# `uint`. */
  newtype uint32 = x: int | 0 <= x <= 0xFFFF_FFFF

  function DigitValue(c: char): (d: nat)
    requires IsDigit(c)
    ensures d < 10
  {
    c as int - '0' as int
  }

  function DigitChar(d: nat): (c: char)
    requires d < 10
    ensures IsDigit(c) && DigitValue(c) == d
  {
    ('0' as int + d) as char
  }

  /** The number a run of decimal digits denotes; leading zeros are allowed. */
  function DigitsValue(s: string): nat
    requires AllDigits(s)
  {
    if s == [] then 0 else DigitsValue(s[..|s| - 1]) * 10 + DigitValue(s[|s| - 1])
  }

  /** `n.ToString()` for a non-negative integer: base 10, no sign, no leading zero. */
  function ToDecimal(n: nat): (r: string)
    ensures r != [] && AllDigits(r)
    ensures |r| > 1 ==> r[0] != '0'
  {
    if n < 10 then [DigitChar(n)] else ToDecimal(n / 10) + [DigitChar(n % 10)]
  }

  /** `UInt32.TryParse` on the digit runs the package-name pattern captures: absent when empty or above uint.MaxValue. */
  function TryParse(s: string): (r: Option<uint32>)
    ensures r.Some? <==> s != [] && AllDigits(s) && DigitsValue(s) <= UInt32MaxValue
    ensures r.Some? ==> r.value as int == DigitsValue(s)
  {
    if s != [] && AllDigits(s) && DigitsValue(s) <= UInt32MaxValue then Some(DigitsValue(s) as uint32) else None
  }

  /** `UInt32.Parse` on a digit run: throws instead of returning an absent value. */
  function Parse(s: string): (r: Result<uint32, Exception>)
    ensures r.Success? <==> TryParse(s).Some?
    ensures r.Success? ==> r.value == TryParse(s).value
    ensures r.Failure? ==> r.error == (if s != [] && AllDigits(s) then OverflowException else FormatException)
  {
    if s == [] || !AllDigits(s) then Failure(FormatException)
    else if DigitsValue(s) > UInt32MaxValue then Failure(OverflowException)
    else Success(DigitsValue(s) as uint32)
  }

  lemma {:induction false} DecimalRoundTrip(n: nat)
    ensures DigitsValue(ToDecimal(n)) == n
  {
    if n >= 10 {
      DecimalRoundTrip(n / 10);
      var s := ToDecimal(n);
      assert s[..|s| - 1] == ToDecimal(n / 10);
    }
  }

  lemma {:induction false} LeadingDigitPositive(s: string)
    requires s != [] && AllDigits(s) && s[0] != '0'
    ensures DigitsValue(s) > 0
  {
    if |s| > 1 {
      LeadingDigitPositive(s[..|s| - 1]);
    }
  }

  /** A digit run without a leading zero is the `ToString` text of its value. */
  lemma {:induction false} CanonicalDigits(s: string)
    requires s != [] && AllDigits(s)
    requires |s| > 1 ==> s[0] != '0'
    ensures ToDecimal(DigitsValue(s)) == s
  {
    if |s| > 1 {
      var p := s[..|s| - 1];
      LeadingDigitPositive(p);
      CanonicalDigits(p);
      assert s == p + [s[|s| - 1]];
    }
  }

  /** Two numbers with the same text are the same number. */
  lemma ToDecimalInjective(m: nat, n: nat)
    requires ToDecimal(m) == ToDecimal(n)
    ensures m == n
  {
    DecimalRoundTrip(m);
    DecimalRoundTrip(n);
  }

  /** `TryParse` reads back what `ToString` wrote. */
  lemma TryParseToDecimal(n: uint32)
    ensures TryParse(ToDecimal(n as nat)) == Some(n)
  {
    DecimalRoundTrip(n as nat);
  }
}
