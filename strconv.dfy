/**
 * `strconv.ParseInt(s, 10, 64)` as the handlers use it on the path id: an optional '+' or '-',
 * then one or more ASCII digits (no base prefix and no underscores when the base is given),
 * and a value that fits in int64. Any other input is an error.
 */
module StrConv {
  import opened Wrappers
  import opened Entities
  import opened Chars

  predicate AllDigits(s: string) {
    forall i :: 0 <= i < |s| ==> IsDigit(s[i])
  }

  /** The value of a run of decimal digits, most significant first. */
  function DigitsValue(s: string): nat
    requires AllDigits(s)
  {
    if s == [] then 0 else 10 * DigitsValue(s[..|s| - 1]) + DigitValue(s[|s| - 1])
  }

  /** The sign prefix: (negative, the digits after the sign). */
  function SplitSign(s: string): (bool, string)
    requires s != []
  {
    if s[0] == '+' then (false, s[1..])
    else if s[0] == '-' then (true, s[1..])
    else (false, s)
  }

  /** An optional sign followed by at least one ASCII digit. */
  predicate IsDecimal(s: string) {
    s != [] && SplitSign(s).1 != [] && AllDigits(SplitSign(s).1)
  }

  function DecimalValue(s: string): int
    requires IsDecimal(s)
  {
    var (negative, digits) := SplitSign(s);
    var magnitude: int := DigitsValue(digits);
    if negative then -magnitude else magnitude
  }

  /** ParseInt(s, 10, 64); None stands for both the syntax error and the range error. */
  function ParseInt(s: string): (r: Option<Int64>)
    ensures r.Some? <==> IsDecimal(s) && InInt64Range(DecimalValue(s))
    ensures r.Some? ==> r.value as int == DecimalValue(s)
  {
    if s == [] then None
    else
      var (negative, digits) := SplitSign(s);
      if digits == [] || !AllDigits(digits) then None
      else
        var magnitude: int := DigitsValue(digits);
        var value := if negative then -magnitude else magnitude;
        if InInt64Range(value) then Some(value as Int64) else None
  }

  /** Decimal digits of n, no leading zeros. */
  function NatToDecimal(n: nat): (s: string)
    ensures s != [] && AllDigits(s)
  {
    if n < 10 then [DigitChar(n)] else NatToDecimal(n / 10) + [DigitChar(n % 10)]
  }

  /** `strconv.FormatInt(n, 10)`: how a client writes an id into a path. */
  function FormatInt(n: Int64): string {
    if n < 0 then "-" + NatToDecimal(-(n as int)) else NatToDecimal(n as int)
  }

  lemma {:induction false} NatToDecimalValue(n: nat)
    ensures DigitsValue(NatToDecimal(n)) == n
  {
    if n >= 10 {
      var s := NatToDecimal(n);
      assert s[..|s| - 1] == NatToDecimal(n / 10);
      NatToDecimalValue(n / 10);
    }
  }

  /** FormatInt writes an optional '-' and then the digits of the magnitude. */
  lemma FormatIntDecimal(n: Int64)
    ensures IsDecimal(FormatInt(n)) && DecimalValue(FormatInt(n)) == n as int
  {
    var s := FormatInt(n);
    if n < 0 {
      var digits := NatToDecimal(-(n as int));
      assert s == "-" + digits;
      assert s[1..] == digits;
      assert SplitSign(s) == (true, digits);
      NatToDecimalValue(-(n as int));
    } else {
      assert s == NatToDecimal(n as int);
      assert IsDigit(s[0]);
      assert SplitSign(s) == (false, s);
      NatToDecimalValue(n as int);
    }
  }

  /** Every id a client formats parses back to itself. */
  lemma ParseFormatRoundTrip(n: Int64)
    ensures ParseInt(FormatInt(n)) == Some(n)
  {
    FormatIntDecimal(n);
    var r := ParseInt(FormatInt(n));
    assert r.Some? && r.value as int == n as int;
  }

  /** Leading '+' and leading zeros are accepted; an empty string, a lone sign or a space is not. */
  lemma ParseIntEdges()
    ensures ParseInt("+007") == Some(7)
    ensures ParseInt("-0") == Some(0)
    ensures ParseInt("") == None && ParseInt("-") == None && ParseInt(" 1") == None
  {
    assert SplitSign("+007").1 == "007";
    assert "007"[..2] == "00" && "00"[..1] == "0";
    assert SplitSign("-0").1 == "0";
    assert SplitSign("-").1 == [];
    assert !IsDigit(" 1"[0]);
  }
}
