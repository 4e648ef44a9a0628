/**
 * Go's `strconv.ParseInt(s, 10, 64)`, which turns the decimal sequence
 * number of an account record into an int64, and `strconv.FormatInt(n, 10)`,
 * which wrote it.
 */
module StrConv {
  import opened Wrappers
  import Xdr

  predicate IsDigit(c: char)
  {
    '0' <= c <= '9'
  }

  predicate AllDigits(s: string)
  {
    forall i :: 0 <= i < |s| ==> IsDigit(s[i])
  }

  /** The value of a string of decimal digits. */
  function DigitsValue(s: string): nat
    requires AllDigits(s)
  {
    if s == [] then 0 else DigitsValue(s[..|s| - 1]) * 10 + (s[|s| - 1] as int - '0' as int)
  }

  /**
   * ParseInt in base 10 with a 64-bit size: an optional '+' or '-', then at
   * least one decimal digit and nothing else; the value must fit an int64.
   * None stands for the syntax and range errors alike. Leading zeros are
   * accepted, and "-0" reads as 0.
   */
  function ParseInt(s: string): (r: Option<Xdr.Int64>)
    // no digits at all: the empty text or a lone sign
    ensures s == [] || s == "+" || s == "-" ==> r == None
    // any character other than a digit, except one leading sign
    ensures (exists i :: 0 <= i < |s| && !IsDigit(s[i]) && !(i == 0 && (s[i] == '+' || s[i] == '-'))) ==> r == None
    // unsigned or '+': accepted exactly up to the int64 maximum
    ensures s != [] && AllDigits(s) ==>
      (r.Some? <==> DigitsValue(s) <= Xdr.MaxInt64) && (r.Some? ==> r.value == DigitsValue(s))
    ensures |s| > 1 && s[0] == '+' && AllDigits(s[1..]) ==>
      (r.Some? <==> DigitsValue(s[1..]) <= Xdr.MaxInt64) && (r.Some? ==> r.value == DigitsValue(s[1..]))
    // '-': accepted exactly down to the int64 minimum
    ensures |s| > 1 && s[0] == '-' && AllDigits(s[1..]) ==>
      (r.Some? <==> DigitsValue(s[1..]) <= -Xdr.MinInt64) && (r.Some? ==> r.value == -(DigitsValue(s[1..]) as int))
  {
    if s == [] then None
    else
      var neg := s[0] == '-';
      var digits := if s[0] == '+' || s[0] == '-' then s[1..] else s;
      if digits == [] || !AllDigits(digits) then None
      else
        var un: int := DigitsValue(digits);
        if neg then
          (if un <= 0x8000_0000_0000_0000 then Some(-un) else None)
        else
          (if un <= Xdr.MaxInt64 then Some(un) else None)
  }

  function DigitChar(d: nat): (c: char)
    requires d < 10
    ensures IsDigit(c) && c as int - '0' as int == d
  {
    ('0' as int + d) as char
  }

  /** The decimal digits of n, without leading zeros. */
  function FormatNat(n: nat): (s: string)
    ensures s != [] && AllDigits(s)
    ensures |s| > 1 ==> s[0] != '0'
    decreases n
  {
    if n < 10 then [DigitChar(n)] else FormatNat(n / 10) + [DigitChar(n % 10)]
  }

  /** FormatInt in base 10: a '-' before the digits of a negative number. */
  function FormatInt(n: int): string
  {
    if n < 0 then "-" + FormatNat(-n) else FormatNat(n)
  }

  lemma {:induction false} DigitsValueOfFormatNat(n: nat)
    ensures DigitsValue(FormatNat(n)) == n
  {
    if n >= 10 {
      var s := FormatNat(n);
      assert s[..|s| - 1] == FormatNat(n / 10);
      DigitsValueOfFormatNat(n / 10);
    }
  }

  /** Parsing what FormatInt wrote gives the int64 back. */
  lemma ParseFormatRoundTrip(n: Xdr.Int64)
    ensures ParseInt(FormatInt(n)) == Some(n)
  {
    var s := FormatInt(n);
    if n < 0 {
      var m: nat := -(n as int);
      var digits := FormatNat(m);
      assert s[0] == '-' && s[1..] == digits;
      DigitsValueOfFormatNat(m);
    } else {
      assert s == FormatNat(n) && IsDigit(s[0]);
      DigitsValueOfFormatNat(n);
    }
  }
}
