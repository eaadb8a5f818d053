/** JavaScript number behaviour the components rely on: `Math.round`, and the decimal
    text that a template literal such as `${x} tons/ha` produces for a number. */
module Numbers {
  import opened Outcomes

  /** `Math.round`: the integer nearest to x, with halves rounded towards +infinity. */
  function Round(x: real): (r: int)
    ensures r as real - 0.5 <= x < r as real + 0.5
  {
    (x + 0.5).Floor
  }

  predicate IsDigit(c: char) {
    '0' <= c <= '9'
  }

  predicate AllDigits(s: string) {
    forall i :: 0 <= i < |s| ==> IsDigit(s[i])
  }

  function DigitChar(d: nat): (c: char)
    requires d < 10
    ensures IsDigit(c)
  {
    (d + '0' as int) as char
  }

  function DigitValue(c: char): nat
    requires IsDigit(c)
  {
    c as int - '0' as int
  }

  function Pow10(k: nat): (p: nat)
    ensures p >= 1
  {
    if k == 0 then 1 else 10 * Pow10(k - 1)
  }

  /** `String(n)` for a natural number: its decimal digits, most significant first,
      with no leading zero. */
  function NatToString(n: nat): (s: string)
    ensures |s| > 0 && AllDigits(s)
    ensures s[0] == '0' ==> n == 0
    decreases n
  {
    if n < 10 then [DigitChar(n)] else NatToString(n / 10) + [DigitChar(n % 10)]
  }

  /** The natural number a string of decimal digits denotes (leading zeros allowed). */
  function DigitsValue(s: string): nat
    requires AllDigits(s)
  {
    if |s| == 0 then 0 else DigitsValue(s[..|s| - 1]) * 10 + DigitValue(s[|s| - 1])
  }

  lemma {:induction false} NatToStringRoundTrip(n: nat)
    ensures DigitsValue(NatToString(n)) == n
    decreases n
  {
    if n >= 10 {
      var s := NatToString(n);
      assert s[..|s| - 1] == NatToString(n / 10);
      NatToStringRoundTrip(n / 10);
    }
  }

  lemma {:induction false} NatToStringLength(n: nat, k: nat)
    requires k >= 1 && n < Pow10(k)
    ensures |NatToString(n)| <= k
    decreases k
  {
    if n >= 10 {
      NatToStringLength(n / 10, k - 1);
    }
  }

  lemma {:induction false} DigitsValueAppend(a: string, b: string)
    requires AllDigits(a) && AllDigits(b)
    ensures AllDigits(a + b)
    ensures DigitsValue(a + b) == DigitsValue(a) * Pow10(|b|) + DigitsValue(b)
    decreases |b|
  {
    assert AllDigits(a + b) by {
      forall i | 0 <= i < |a + b| ensures IsDigit((a + b)[i]) {
        if i >= |a| { assert (a + b)[i] == b[i - |a|]; }
      }
    }
    if |b| == 0 {
      assert a + b == a;
    } else {
      var b' := b[..|b| - 1];
      assert (a + b)[..|a + b| - 1] == a + b';
      DigitsValueAppend(a, b');
      var x, p, y, d := DigitsValue(a), Pow10(|b'|), DigitsValue(b'), DigitValue(b[|b| - 1]);
      assert DigitsValue(a + b) == (x * p + y) * 10 + d;
      ShiftByTen(x, p);
      assert Pow10(|b|) == p * 10;
    }
  }

  lemma {:induction false} DigitsValueZeros(k: nat)
    ensures AllDigits(Zeros(k))
    ensures DigitsValue(Zeros(k)) == 0
  {
    if k > 0 {
      var z := Zeros(k);
      assert z[..k - 1] == Zeros(k - 1);
      DigitsValueZeros(k - 1);
    }
  }

  /** `String(i)` for an integer. */
  function IntToString(i: int): (s: string)
  {
    if i < 0 then "-" + NatToString(-i) else NatToString(i)
  }

  /** Reads an optional minus sign followed by at least one digit. */
  function ParseInt(s: string): Option<int> {
    if |s| > 0 && s[0] == '-' then
      (if |s| > 1 && AllDigits(s[1..]) then Some(0 - DigitsValue(s[1..]) as int) else None)
    else if |s| > 0 && AllDigits(s) then Some(DigitsValue(s))
    else None
  }

  /** `String(i)` of an integer reads back as that integer. */
  lemma IntToStringRoundTrip(i: int)
    ensures ParseInt(IntToString(i)) == Some(i)
  {
    if i < 0 {
      assert IntToString(i)[1..] == NatToString(-i);
      NatToStringRoundTrip(-i);
    } else {
      NatToStringRoundTrip(i);
    }
  }

  /** A number as it appears in JSON: units / 10^scale. */
  datatype Decimal = Decimal(units: int, scale: nat)

  function ToReal(d: Decimal): real {
    d.units as real / Pow10(d.scale) as real
  }

  /** d multiplied by the integer m, as in `crop.expected_yield * 1000`. */
  function Times(d: Decimal, m: int): (r: Decimal)
    ensures ToReal(r) == ToReal(d) * m as real
  {
    Decimal(d.units * m, d.scale)
  }

  lemma ScaleDown(q: int, k: nat)
    requires k >= 1
    ensures ToReal(Decimal(q, k - 1)) == ToReal(Decimal(q * 10, k))
  {
    var p := Pow10(k - 1) as real;
    assert Pow10(k) as real == 10.0 * p;
    calc {
      ToReal(Decimal(q * 10, k));
      (q * 10) as real / (10.0 * p);
      (q as real * 10.0) / (10.0 * p);
      q as real / p;
    }
  }

  /** The same number without trailing zeros in its fraction. */
  function Normalize(d: Decimal): (r: Decimal)
    ensures ToReal(r) == ToReal(d)
    ensures r.scale <= d.scale
    ensures r.scale > 0 ==> r.units % 10 != 0
    decreases d.scale
  {
    if d.scale > 0 && d.units % 10 == 0 then
      ScaleDown(d.units / 10, d.scale);
      Normalize(Decimal(d.units / 10, d.scale - 1))
    else
      d
  }

  function Zeros(k: nat): string {
    seq(k, _ => '0')
  }

  function PadLeft(s: string, width: nat): (r: string)
    ensures |r| == if |s| < width then width else |s|
  {
    if |s| < width then Zeros(width - |s|) + s else s
  }

  /** The integer digits of mag / 10^k: mag with its last k digits dropped. */
  function WholePart(mag: nat, k: nat): nat
    decreases k
  {
    if k == 0 then mag else WholePart(mag / 10, k - 1)
  }

  /** The fractional digits of mag / 10^k: its last k digits, as a number below 10^k. */
  function FracPart(mag: nat, k: nat): (f: nat)
    ensures f < Pow10(k)
    decreases k
  {
    if k == 0 then 0 else FracPart(mag / 10, k - 1) * 10 + mag % 10
  }

  lemma {:induction false} WholeAndFrac(mag: nat, k: nat)
    ensures WholePart(mag, k) * Pow10(k) + FracPart(mag, k) == mag
    decreases k
  {
    if k > 0 {
      WholeAndFrac(mag / 10, k - 1);
      var w, p, f := WholePart(mag / 10, k - 1), Pow10(k - 1), FracPart(mag / 10, k - 1);
      ShiftByTen(w, p);
      assert w * (p * 10) + (f * 10 + mag % 10) == (w * p + f) * 10 + mag % 10;
    }
  }

  /** Multiplying by a power of ten one step at a time. */
  lemma ShiftByTen(x: int, p: int)
    ensures x * (p * 10) == (x * p) * 10
  {
  }

  /** The text of mag / 10^k, for mag without trailing zeros when k > 0. */
  function UnsignedToString(mag: nat, k: nat): string {
    NatToString(WholePart(mag, k))
    + (if k == 0 then "" else "." + PadLeft(NatToString(FracPart(mag, k)), k))
  }

  /** `String(x)` for a number in plain notation, as a template literal renders it:
      a minus sign for negatives, the integer digits, and the fractional digits only
      when the fraction is not zero, with no trailing zeros. */
  function DecimalToString(d: Decimal): string {
    var n := Normalize(d);
    var mag: nat := if n.units < 0 then -n.units else n.units;
    (if n.units < 0 then "-" else "") + UnsignedToString(mag, n.scale)
  }

  /** Index of the first '.', or |s| when there is none. */
  function FirstDot(s: string): (i: nat)
    ensures i <= |s|
    ensures i < |s| ==> s[i] == '.'
    ensures forall j :: 0 <= j < i ==> s[j] != '.'
  {
    if |s| == 0 then 0 else if s[0] == '.' then 0 else 1 + FirstDot(s[1..])
  }

  /** Reads unsigned plain decimal notation: digits, then optionally '.' and more digits. */
  function ParseUnsigned(s: string): Option<Decimal> {
    var i := FirstDot(s);
    if i == |s| then
      (if |s| > 0 && AllDigits(s) then Some(Decimal(DigitsValue(s), 0)) else None)
    else
      var whole, frac := s[..i], s[i + 1..];
      if |whole| > 0 && |frac| > 0 && AllDigits(whole) && AllDigits(frac) then
        DigitsValueAppend(whole, frac);
        Some(Decimal(DigitsValue(whole + frac), |frac|))
      else
        None
  }

  /** Reads plain decimal notation with an optional leading minus sign. */
  function ParseDecimal(s: string): Option<Decimal> {
    if |s| > 0 && s[0] == '-' then
      match ParseUnsigned(s[1..])
      case None => None
      case Some(d) => Some(Decimal(-d.units, d.scale))
    else
      ParseUnsigned(s)
  }

  lemma ParseWithoutDot(a: string)
    requires |a| > 0 && AllDigits(a)
    ensures ParseUnsigned(a) == Some(Decimal(DigitsValue(a), 0))
  {
    assert forall j :: 0 <= j < |a| ==> a[j] != '.' by {
      forall j | 0 <= j < |a| ensures a[j] != '.' { assert IsDigit(a[j]); }
    }
  }

  lemma ParseWithDot(a: string, b: string)
    requires |a| > 0 && |b| > 0 && AllDigits(a) && AllDigits(b)
    ensures AllDigits(a + b)
    ensures ParseUnsigned(a + "." + b) == Some(Decimal(DigitsValue(a + b), |b|))
  {
    var t := a + "." + b;
    DigitsValueAppend(a, b);
    DotAfterDigits(a, b);
    assert t[..|a|] == a;
    assert t[|a| + 1..] == b;
  }

  lemma DotAfterDigits(a: string, b: string)
    requires AllDigits(a)
    ensures FirstDot(a + "." + b) == |a|
  {
    var t := a + "." + b;
    forall j | 0 <= j < |a| ensures t[j] != '.' {
      assert t[j] == a[j] && IsDigit(a[j]);
    }
    assert t[|a|] == '.';
  }

  lemma PaddedFraction(f: nat, k: nat)
    requires k >= 1 && f < Pow10(k)
    ensures var pad := PadLeft(NatToString(f), k);
            |pad| == k && AllDigits(pad) && DigitsValue(pad) == f
  {
    var ft := NatToString(f);
    NatToStringLength(f, k);
    NatToStringRoundTrip(f);
    var z := Zeros(k - |ft|);
    assert PadLeft(ft, k) == z + ft by {
      if |ft| == k { assert z == []; assert z + ft == ft; }
    }
    DigitsValueZeros(k - |ft|);
    DigitsValueAppend(z, ft);
    assert DigitsValue(z + ft) == 0 * Pow10(|ft|) + f;
  }

  lemma UnsignedText(mag: nat, k: nat)
    ensures ParseUnsigned(UnsignedToString(mag, k)) == Some(Decimal(mag, k))
  {
    if k == 0 {
      UnsignedTextWhole(mag);
    } else {
      UnsignedTextFraction(mag, k);
    }
  }

  lemma UnsignedTextWhole(mag: nat)
    ensures ParseUnsigned(UnsignedToString(mag, 0)) == Some(Decimal(mag, 0))
  {
    NatToStringRoundTrip(mag);
    assert UnsignedToString(mag, 0) == NatToString(mag);
    ParseWithoutDot(NatToString(mag));
  }

  lemma UnsignedTextFraction(mag: nat, k: nat)
    requires k > 0
    ensures ParseUnsigned(UnsignedToString(mag, k)) == Some(Decimal(mag, k))
  {
    var w, f := WholePart(mag, k), FracPart(mag, k);
    var wt, pad := NatToString(w), PadLeft(NatToString(f), k);
    NatToStringRoundTrip(w);
    PaddedFraction(f, k);
    assert UnsignedToString(mag, k) == wt + "." + pad;
    ParseWithDot(wt, pad);
    DigitsValueAppend(wt, pad);
    WholeAndFrac(mag, k);
  }

  /** The unsigned text starts with a digit, never with a minus sign. */
  lemma UnsignedLeadsWithDigit(mag: nat, k: nat)
    ensures |UnsignedToString(mag, k)| > 0 && IsDigit(UnsignedToString(mag, k)[0])
  {
    var wt := NatToString(WholePart(mag, k));
    assert UnsignedToString(mag, k)[0] == wt[0];
  }

  /** A leading minus sign negates what the rest reads as. */
  lemma ParseSigned(t: string, negative: bool, mag: nat, k: nat)
    requires ParseUnsigned(t) == Some(Decimal(mag, k))
    requires |t| > 0 && IsDigit(t[0])
    ensures ParseDecimal((if negative then "-" else "") + t) == Some(Decimal(if negative then -(mag as int) else mag, k))
  {
    if negative {
      ParseNegative(t, mag, k);
    } else {
      ParseNonNegative(t, mag, k);
    }
  }

  lemma ParseNegative(t: string, mag: nat, k: nat)
    requires ParseUnsigned(t) == Some(Decimal(mag, k))
    ensures ParseDecimal("-" + t) == Some(Decimal(-(mag as int), k))
  {
    var s := "-" + t;
    assert |s| > 0 && s[0] == '-';
    assert s[1..] == t;
  }

  lemma ParseNonNegative(t: string, mag: nat, k: nat)
    requires ParseUnsigned(t) == Some(Decimal(mag, k))
    requires |t| > 0 && IsDigit(t[0])
    ensures ParseDecimal("" + t) == Some(Decimal(mag, k))
  {
    assert "" + t == t;
    assert t[0] != '-';
  }

  /** The text a number renders to reads back as that number, trailing zeros dropped. */
  lemma DecimalToStringRoundTrip(d: Decimal)
    ensures ParseDecimal(DecimalToString(d)) == Some(Normalize(d))
    ensures ToReal(ParseDecimal(DecimalToString(d)).value) == ToReal(d)
  {
    var n := Normalize(d);
    var negative := n.units < 0;
    var mag: nat := if negative then -n.units else n.units;
    var t := UnsignedToString(mag, n.scale);
    assert DecimalToString(d) == (if negative then "-" else "") + t;
    UnsignedText(mag, n.scale);
    UnsignedLeadsWithDigit(mag, n.scale);
    ParseSigned(t, negative, mag, n.scale);
    assert Decimal(if negative then -(mag as int) else mag, n.scale) == n;
  }
}
