/** Swift's 64-bit `Int`, its decimal rendering `String(_:)` and its failable
    parser `Int(_: String)`, as used by the editors' `priority` fields. */
module SwiftInt {
  import opened Common

  const IntMin: int := -0x8000_0000_0000_0000
  const IntMax: int := 0x7FFF_FFFF_FFFF_FFFF

  /** Values of Swift's `Int` on a 64-bit platform. */
  type Int = i: int | IntMin <= i <= IntMax

  predicate IsDigit(c: char) {
    '0' <= c <= '9'
  }

  predicate AllDigits(s: string) {
    forall i :: 0 <= i < |s| ==> IsDigit(s[i])
  }

  function DigitChar(d: nat): (c: char)
    requires d < 10
    ensures IsDigit(c)
  {
    ('0' as int + d) as char
  }

  /** The number a run of decimal digits denotes, most significant digit first;
      leading zeros are allowed, as Swift's parser allows them. */
  function DigitsValue(s: string): nat
    requires AllDigits(s)
  {
    if s == [] then 0
    else DigitsValue(s[..|s| - 1]) * 10 + (s[|s| - 1] as int - '0' as int)
  }

  /** `String(n)` for a non-negative `n`: its decimal digits without leading zeros. */
  function NatToDecimal(n: nat): (r: string)
    ensures |r| >= 1 && AllDigits(r)
    ensures r[0] == '0' <==> n == 0
    decreases n
  {
    if n < 10 then [DigitChar(n)] else NatToDecimal(n / 10) + [DigitChar(n % 10)]
  }

  /** Swift's `String(i)` for an `Int`: a minus sign for negative values, then the digits. */
  function IntToString(i: int): (r: string)
    ensures |r| >= 1
    ensures r[0] == '-' <==> i < 0
  {
    if i < 0 then "-" + NatToDecimal(-i) else NatToDecimal(i)
  }

  /** Swift's `Int(text)`: an optional `+` or `-`, then one or more decimal digits
      and nothing else; nil when the text has any other form or the value does not
      fit in `Int`. */
  function ParseInt(s: string): (r: Option<Int>)
    ensures s == [] ==> r == None
    ensures |s| > 0 && AllDigits(s) && DigitsValue(s) <= IntMax ==> r == Some(DigitsValue(s))
    ensures |s| > 0 && AllDigits(s) && DigitsValue(s) > IntMax ==> r == None
    ensures (exists i :: 1 <= i < |s| && !IsDigit(s[i])) ==> r == None
    // a sign alone is not a number; a sign before digits gives the signed value, if it fits
    ensures s == "-" || s == "+" ==> r == None
    ensures |s| >= 2 && s[0] == '-' && AllDigits(s[1..]) ==>
      r == (if DigitsValue(s[1..]) <= -IntMin then Some(-(DigitsValue(s[1..]) as int)) else None)
    ensures |s| >= 2 && s[0] == '+' && AllDigits(s[1..]) ==>
      r == (if DigitsValue(s[1..]) <= IntMax then Some(DigitsValue(s[1..])) else None)
    // any first character other than a digit or a sign is rejected
    ensures |s| > 0 && !IsDigit(s[0]) && s[0] != '-' && s[0] != '+' ==> r == None
  {
    if s == [] then None
    else
      var signed := s[0] == '-' || s[0] == '+';
      var digits := if signed then s[1..] else s;
      if digits == [] || !AllDigits(digits) then None
      else
        var magnitude: int := DigitsValue(digits);
        var v := if s[0] == '-' then -magnitude else magnitude;
        if IntMin <= v <= IntMax then Some(v) else None
  }

  lemma {:induction false} DecimalRoundTrip(n: nat)
    ensures DigitsValue(NatToDecimal(n)) == n
    decreases n
  {
    if n >= 10 {
      var s := NatToDecimal(n);
      assert s[..|s| - 1] == NatToDecimal(n / 10);
      DecimalRoundTrip(n / 10);
    }
  }

  /** Parsing what `String(_:)` printed gives the same `Int` back. */
  lemma ParseIntRoundTrip(i: Int)
    ensures ParseInt(IntToString(i)) == Some(i)
  {
    if i < 0 {
      var n: nat := -(i as int);
      var d := NatToDecimal(n);
      DecimalRoundTrip(n);
      assert ("-" + d)[1..] == d;
    } else {
      DecimalRoundTrip(i);
    }
  }

  /** `String(100)`, the default the editors show for `priority`. */
  lemma HundredRendering()
    ensures IntToString(100) == "100"
  {
  }
}
