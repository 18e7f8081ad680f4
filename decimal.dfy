/** Decimal rounding and rendering of the weights and dimensions the pipeline
    sends and caches: `Float#round(places)` and the fixed-point form of
    `Float#to_s` ("1.5", "10.0"). A rounded value is kept exactly, as a count
    of 10^-places units, so no binary floating point enters the model. */
module Decimal {
  import opened RubyText

  function Pow10(n: nat): (r: nat)
    ensures r >= 1
  {
    if n == 0 then 1 else 10 * Pow10(n - 1)
  }

  /** `x.round(places)`, as the number of 10^-places units; halves are rounded
      away from zero, as Ruby does. */
  function RoundUnits(x: real, places: nat): (u: int)
    ensures var y := x * Pow10(places) as real;
      && (y >= 0.0 ==> y - 0.5 < u as real <= y + 0.5)
      && (y < 0.0 ==> y - 0.5 <= u as real < y + 0.5)
    ensures x >= 0.0 ==> u >= 0
    ensures x <= 0.0 ==> u <= 0
  {
    var y := x * Pow10(places) as real;
    if y >= 0.0 then (y + 0.5).Floor else -((-y + 0.5).Floor)
  }

  predicate IsDigit(c: char) {
    '0' <= c <= '9'
  }

  predicate AllDigits(s: string) {
    forall i :: 0 <= i < |s| ==> IsDigit(s[i])
  }

  function DigitChar(d: nat): (c: char)
    requires d < 10
    ensures IsDigit(c) && c as int - '0' as int == d
  {
    ('0' as int + d) as char
  }

  /** The number a string of decimal digits denotes. */
  function DigitsValue(s: string): nat
    requires AllDigits(s)
    decreases |s|
  {
    if |s| == 0 then 0
    else DigitsValue(s[..|s| - 1]) * 10 + (s[|s| - 1] as int - '0' as int)
  }

  /** The decimal numeral of `n`, without leading zeros. */
  function Digits(n: nat): (s: string)
    ensures |s| >= 1 && AllDigits(s)
    ensures DigitsValue(s) == n
    ensures n < 10 <==> |s| == 1
    decreases n
  {
    if n < 10 then [DigitChar(n)]
    else
      var s := Digits(n / 10) + [DigitChar(n % 10)];
      assert s[..|s| - 1] == Digits(n / 10);
      s
  }

  lemma {:induction false} DigitsLength(n: nat, w: nat)
    requires w >= 1 && n < Pow10(w)
    ensures |Digits(n)| <= w
    decreases w
  {
    if n >= 10 {
      assert w >= 2;
      DigitsLength(n / 10, w - 1);
    }
  }

  function Zeros(k: nat): (s: string)
    ensures |s| == k && AllDigits(s)
    ensures forall i :: 0 <= i < k ==> s[i] == '0'
  {
    seq(k, i => '0')
  }

  lemma {:induction false} LeadingZerosValue(k: nat, s: string)
    requires AllDigits(s)
    ensures AllDigits(Zeros(k) + s) && DigitsValue(Zeros(k) + s) == DigitsValue(s)
    decreases |s|
  {
    var z := Zeros(k) + s;
    if |s| == 0 {
      assert z == Zeros(k);
      ZerosValue(k);
    } else {
      assert z[..|z| - 1] == Zeros(k) + s[..|s| - 1];
      LeadingZerosValue(k, s[..|s| - 1]);
    }
  }

  lemma {:induction false} ZerosValue(k: nat)
    ensures DigitsValue(Zeros(k)) == 0
    decreases k
  {
    if k > 0 {
      assert Zeros(k)[..k - 1] == Zeros(k - 1);
      ZerosValue(k - 1);
    }
  }

  /** Appending a digit multiplies by ten and adds it. */
  lemma DigitsValueSnoc(s: string, c: char)
    requires AllDigits(s) && IsDigit(c)
    ensures AllDigits(s + [c])
    ensures DigitsValue(s + [c]) == DigitsValue(s) * 10 + (c as int - '0' as int)
  {
    assert (s + [c])[..|s|] == s;
  }

  lemma {:induction false} TrailingZerosValue(s: string, k: nat)
    requires AllDigits(s)
    ensures AllDigits(s + Zeros(k)) && DigitsValue(s + Zeros(k)) == DigitsValue(s) * Pow10(k)
    decreases k
  {
    if k == 0 {
      assert s + Zeros(0) == s;
    } else {
      TrailingZerosValue(s, k - 1);
      var y := s + Zeros(k - 1);
      assert s + Zeros(k) == y + ['0'];
      DigitsValueSnoc(y, '0');
      PowerStep(DigitsValue(s), k);
    }
  }

  lemma PowerStep(n: nat, k: nat)
    requires k >= 1
    ensures n * Pow10(k) == n * Pow10(k - 1) * 10
  {
    var p := Pow10(k - 1);
    assert Pow10(k) == 10 * p;
    assert n * (10 * p) == n * p * 10;
  }

  /** The numeral of `n` left-padded with zeros to `width` digits. */
  function Padded(n: nat, width: nat): (s: string)
    requires width >= 1 && n < Pow10(width)
    ensures |s| == width && AllDigits(s)
    ensures DigitsValue(s) == n
  {
    DigitsLength(n, width);
    LeadingZerosValue(width - |Digits(n)|, Digits(n));
    Zeros(width - |Digits(n)|) + Digits(n)
  }

  /** Drops trailing zeros but keeps at least one character, as `Float#to_s`
      does with the fractional digits. */
  function TrimZeros(s: string): (r: string)
    requires |s| >= 1 && AllDigits(s)
    ensures 1 <= |r| <= |s| && AllDigits(r)
    ensures s == r + Zeros(|s| - |r|)
    decreases |s|
  {
    if |s| > 1 && s[|s| - 1] == '0' then
      var r := TrimZeros(s[..|s| - 1]);
      assert s == s[..|s| - 1] + ['0'];
      assert Zeros(|s| - 1 - |r|) + ['0'] == Zeros(|s| - |r|);
      r
    else
      assert s == s + Zeros(0);
      s
  }

  /** Quotient and remainder by a positive divisor. */
  function QuoRem(m: nat, p: nat): (qr: (nat, nat))
    requires p >= 1
    ensures qr.0 * p + qr.1 == m && qr.1 < p
  {
    (m / p, m % p)
  }

  function Abs(u: int): nat {
    if u < 0 then -u else u
  }

  predicate IsNumeralChar(c: char) {
    IsDigit(c) || c == '.' || c == '-'
  }

  /** The digits of `m / 10^places` (places >= 1): the integer digits, a
      point and the fractional digits without trailing zeros (at least one). */
  function Magnitude(m: nat, places: nat): (s: string)
    requires places >= 1
    ensures |s| >= 3 && IsDigit(s[0])
    ensures forall i :: 0 <= i < |s| ==> IsNumeralChar(s[i])
  {
    var qr := QuoRem(m, Pow10(places));
    var whole := Digits(qr.0);
    var frac := TrimZeros(Padded(qr.1, places));
    NumeralChars("", whole, frac);
    assert "" + whole + "." + frac == whole + "." + frac;
    whole + "." + frac
  }

  /** `Float#to_s` of the value `units / 10^places` (places >= 1): an optional
      minus sign before the digits of the magnitude. */
  function Render(units: int, places: nat): (s: string)
    requires places >= 1
    ensures |s| >= 3
    ensures forall i :: 0 <= i < |s| ==> IsNumeralChar(s[i])
  {
    var digits := Magnitude(Abs(units), places);
    var sign := if units < 0 then "-" else "";
    var s := sign + digits;
    assert forall i :: 0 <= i < |s| ==> IsNumeralChar(s[i]) by {
      forall i | 0 <= i < |s| ensures IsNumeralChar(s[i]) {
        if i >= |sign| {
          assert s[i] == digits[i - |sign|];
        }
      }
    }
    s
  }

  /** A numeral never holds the '/' that separates cache-key fields. */
  lemma NumeralHasNoSlash(s: string)
    requires forall i :: 0 <= i < |s| ==> IsNumeralChar(s[i])
    ensures '/' !in s
  {
  }

  lemma NumeralChars(sign: string, whole: string, frac: string)
    requires sign == "" || sign == "-"
    requires AllDigits(whole) && AllDigits(frac)
    ensures var s := sign + whole + "." + frac;
      forall i :: 0 <= i < |s| ==> IsNumeralChar(s[i])
  {
    var s := sign + whole + "." + frac;
    forall i | 0 <= i < |s| ensures IsNumeralChar(s[i]) {
      if i < |sign| {
        assert s[i] == '-';
      } else if i < |sign| + |whole| {
        assert s[i] == whole[i - |sign|];
      } else if i > |sign| + |whole| {
        assert s[i] == frac[i - |sign| - |whole| - 1];
      }
    }
  }

  /** `n * 10^places`. */
  function Shift(n: nat, places: nat): (r: nat)
    ensures r == n * Pow10(places)
  {
    n * Pow10(places)
  }

  /** The value of integer digits `whole` and fractional digits `frac`, in
      10^-places units; None unless both are digit strings and `frac` has at
      most `places` digits. */
  function FixedPoint(whole: string, frac: string, places: nat): Option<nat>
  {
    if !AllDigits(whole) || !AllDigits(frac) || |frac| > places then None
    else Some(Shift(DigitsValue(whole), places) + Shift(DigitsValue(frac), places - |frac|))
  }

  /** Reads back an unsigned rendered value with `places` fractional digits. */
  function ParseMagnitude(body: string, places: nat): Option<nat>
    requires places >= 1
  {
    var pieces := Split(body, '.');
    if |pieces| != 2 then None else FixedPoint(pieces[0], pieces[1], places)
  }

  /** Reads back a rendered value with `places` fractional digits: the
      inverse of `Render`. */
  function ParseUnits(s: string, places: nat): Option<int>
    requires places >= 1
  {
    var negative := |s| > 0 && s[0] == '-';
    match ParseMagnitude(if negative then s[1..] else s, places)
    case None => None
    case Some(m) => Some(if negative then -(m as int) else m as int)
  }

  /** A numeral splits at its point into its integer and fractional digits. */
  lemma SplitNumeral(whole: string, frac: string)
    requires AllDigits(whole) && AllDigits(frac)
    ensures Split(whole + "." + frac, '.') == [whole, frac]
  {
    assert '.' !in whole;
    assert '.' !in frac;
    SplitJoin([whole, frac], '.');
    assert Join([whole, frac], '.') == whole + "." + frac by {
      assert [whole, frac][1..] == [frac];
    }
  }

  /** A body splitting at its point into two pieces is read as those pieces. */
  lemma MagnitudeOfPieces(body: string, whole: string, frac: string, places: nat)
    requires places >= 1
    requires Split(body, '.') == [whole, frac]
    ensures ParseMagnitude(body, places) == FixedPoint(whole, frac, places)
  {
  }

  /** A leading minus sign is read as negation. */
  lemma ParseSign(negative: bool, body: string, places: nat)
    requires places >= 1
    requires |body| >= 1 && IsDigit(body[0])
    ensures ParseUnits((if negative then "-" else "") + body, places)
      == match ParseMagnitude(body, places)
         case None => None
         case Some(m) => Some(if negative then -(m as int) else m as int)
  {
    var s := (if negative then "-" else "") + body;
    assert (if |s| > 0 && s[0] == '-' then s[1..] else s) == body;
  }

  /** The digits of a magnitude read back as that magnitude. */
  lemma MagnitudeRoundTrip(m: nat, places: nat)
    requires places >= 1
    ensures ParseMagnitude(Magnitude(m, places), places) == Some(m)
  {
    var qr := QuoRem(m, Pow10(places));
    var whole := Digits(qr.0);
    var padded := Padded(qr.1, places);
    var frac := TrimZeros(padded);
    var body := whole + "." + frac;
    assert Magnitude(m, places) == body;
    SplitNumeral(whole, frac);
    MagnitudeOfPieces(body, whole, frac, places);
    TrailingZerosValue(frac, places - |frac|);
    assert DigitsValue(padded) == Shift(DigitsValue(frac), places - |frac|);
    assert Shift(DigitsValue(whole), places) + DigitsValue(padded) == m;
  }

  /** Rendering loses nothing: the rounded value can be read back. */
  lemma RenderRoundTrip(units: int, places: nat)
    requires places >= 1
    ensures ParseUnits(Render(units, places), places) == Some(units)
  {
    var body := Magnitude(Abs(units), places);
    ParseSign(units < 0, body, places);
    MagnitudeRoundTrip(Abs(units), places);
  }

  /** Two different rounded values never render alike. */
  lemma RenderInjective(u: int, v: int, places: nat)
    requires places >= 1
    requires Render(u, places) == Render(v, places)
    ensures u == v
  {
    RenderRoundTrip(u, places);
    RenderRoundTrip(v, places);
  }
}
