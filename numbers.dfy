/** JavaScript numbers as the shop code uses them: parsing display prices with
    `parseFloat`, reading integers with `parseInt(_, 10)`, printing integers with `String`,
    and rounding with `toFixed` and `Math.round`. Values are exact reals; binary floating
    point is not modelled. */
module Numbers {
  import opened Text

  /** A JavaScript number. */
  datatype Num = Finite(value: real) | NaN | Infinite(negative: bool)

  predicate IsDigit(c: char) { '0' <= c <= '9' }

  predicate AllDigits(s: string) {
    forall i :: 0 <= i < |s| ==> IsDigit(s[i])
  }

  function DigitValue(c: char): (d: nat)
    requires IsDigit(c)
    ensures d < 10
  {
    c as int - '0' as int
  }

  function DigitChar(d: nat): (c: char)
    requires d < 10
    ensures IsDigit(c) && DigitValue(c) == d
  {
    ('0' as int + d) as char
  }

  function Pow10(n: nat): (p: nat)
    ensures p >= 1
  {
    if n == 0 then 1 else 10 * Pow10(n - 1)
  }

  /** The value of a string of decimal digits, read most significant first. */
  function DigitsValue(ds: string): nat
    requires AllDigits(ds)
  {
    if ds == [] then 0 else DigitsValue(ds[..|ds| - 1]) * 10 + DigitValue(ds[|ds| - 1])
  }

  lemma {:induction false} DigitsValueConcat(a: string, b: string)
    requires AllDigits(a) && AllDigits(b)
    ensures AllDigits(a + b)
    ensures DigitsValue(a + b) == DigitsValue(a) * Pow10(|b|) + DigitsValue(b)
    decreases |b|
  {
    assert AllDigits(a + b);
    if b == [] {
      assert a + b == a;
    } else {
      var b' := b[..|b| - 1];
      var c := b[|b| - 1];
      assert (a + b)[..|a + b| - 1] == a + b';
      assert (a + b)[|a + b| - 1] == c;
      DigitsValueConcat(a, b');
      ConcatStep(DigitsValue(a), Pow10(|b'|), DigitsValue(b'), DigitValue(c));
    }
  }

  lemma ConcatStep(va: nat, p: nat, vb: nat, d: nat)
    ensures (va * p + vb) * 10 + d == va * (10 * p) + (vb * 10 + d)
  {
  }

  lemma {:induction false} DigitsValueOfZeros(z: string)
    requires forall i :: 0 <= i < |z| ==> z[i] == '0'
    ensures AllDigits(z) && DigitsValue(z) == 0
  {
    if z != [] {
      DigitsValueOfZeros(z[..|z| - 1]);
    }
  }

  /** The end of the maximal run of digits that starts at `i`. */
  function DigitRunEnd(s: string, i: nat): (j: nat)
    requires i <= |s|
    ensures i <= j <= |s|
    ensures forall k :: i <= k < j ==> IsDigit(s[k])
    ensures j < |s| ==> !IsDigit(s[j])
    decreases |s| - i
  {
    if i < |s| && IsDigit(s[i]) then DigitRunEnd(s, i + 1) else i
  }

  lemma {:induction false} DigitRunEndIs(s: string, i: nat, j: nat)
    requires i <= j <= |s|
    requires forall k :: i <= k < j ==> IsDigit(s[k])
    requires j < |s| ==> !IsDigit(s[j])
    ensures DigitRunEnd(s, i) == j
    decreases j - i
  {
    if i < j {
      DigitRunEndIs(s, i + 1, j);
    }
  }

  /** `String(n)` for a natural number: decimal digits without leading zeros, read back
      by `DigitsValue` as `n`. */
  function NatToString(n: nat): (s: string)
    ensures |s| >= 1 && AllDigits(s)
    ensures |s| > 1 ==> s[0] != '0'
    ensures DigitsValue(s) == n
  {
    if n < 10 then [DigitChar(n)]
    else
      var p := NatToString(n / 10);
      var s := p + [DigitChar(n % 10)];
      assert s[..|s| - 1] == p;
      s
  }

  /** `String(n)` for an integer. */
  function IntToString(n: int): (s: string)
    ensures n >= 0 ==> s == NatToString(n)
    ensures n < 0 ==> s == "-" + NatToString(-n)
  {
    if n < 0 then "-" + NatToString(-n) else NatToString(n)
  }

  function SignLength(t: string): (k: nat)
    ensures k <= 1 && k <= |t|
  {
    if |t| > 0 && (t[0] == '-' || t[0] == '+') then 1 else 0
  }

  function ApplySign(t: string, v: real): real {
    if |t| > 0 && t[0] == '-' then -v else v
  }

  /** `parseInt(s, 10)`: optional white space and sign, then the longest run of digits;
      `NaN` when there is no digit. */
  function ParseInt(s: string): (r: Num)
    ensures r.Finite? || r.NaN?
  {
    var t := TrimStart(s);
    var start := SignLength(t);
    var end := DigitRunEnd(t, start);
    if end == start then NaN
    else Finite(ApplySign(t, DigitsValue(t[start..end]) as real))
  }

  /** `parseFloat(s)` on decimal text: optional white space and sign, the longest prefix
      of the form digits [ "." digits ] with at least one digit; `NaN` otherwise. */
  function ParseFloat(s: string): (r: Num)
    ensures r.Finite? || r.NaN?
  {
    ParseDecimal(TrimStart(s))
  }

  /** `parseFloat("")` is `NaN`. */
  lemma ParseFloatEmpty()
    ensures ParseFloat("").NaN?
  {
    assert TrimStart("") == "";
  }

  /** `parseFloat` after the leading white space. */
  function ParseDecimal(t: string): (r: Num)
    ensures r.Finite? || r.NaN?
  {
    var start := SignLength(t);
    var intEnd := DigitRunEnd(t, start);
    if intEnd < |t| && t[intEnd] == '.' then
      var fracEnd := DigitRunEnd(t, intEnd + 1);
      if intEnd == start && fracEnd == intEnd + 1 then NaN
      else Finite(ApplySign(t, Decimal(DigitsValue(t[start..intEnd]), DigitsValue(t[intEnd + 1..fracEnd]), fracEnd - intEnd - 1)))
    else if intEnd == start then NaN
    else Finite(ApplySign(t, DigitsValue(t[start..intEnd]) as real))
  }

  /** `x / 10^n`, a tenth at a time. */
  function Shifted(x: real, n: nat): real {
    if n == 0 then x else Shifted(x, n - 1) / 10.0
  }

  /** `x * 10^n`, ten times at a time. */
  function Scaled(x: real, n: nat): (y: real)
    ensures x >= 0.0 ==> y >= 0.0
  {
    if n == 0 then x else 10.0 * Scaled(x, n - 1)
  }

  /** The value of the decimal numeral whose digits before the point read `whole` and whose
      `places` digits after it read `frac`. */
  function Decimal(whole: nat, frac: nat, places: nat): real {
    whole as real + Shifted(frac as real, places)
  }

  lemma TrimStartOfDigitLead(s: string)
    requires s != [] && (IsDigit(s[0]) || s[0] == '-')
    ensures TrimStart(s) == s
  {
    NotSpace(s[0]);
  }

  lemma NotSpace(c: char)
    requires IsDigit(c) || c == '-'
    ensures !IsSpace(c)
  {
  }

  /** `parseInt` reads back what `String` prints. */
  lemma ParseIntOfIntToString(n: int)
    ensures ParseInt(IntToString(n)) == Finite(n as real)
  {
    var s := IntToString(n);
    var m := NatToString(if n < 0 then -n else n);
    TrimStartOfDigitLead(s);
    var start := SignLength(s);
    assert s[start..] == m;
    DigitRunEndIs(s, start, |s|);
    assert s[start..|s|] == m;
  }

  /** Different integers print differently. */
  lemma IntToStringInjective(a: int, b: int)
    requires IntToString(a) == IntToString(b)
    ensures a == b
  {
    ParseIntOfIntToString(a);
    ParseIntOfIntToString(b);
  }

  /** `parseFloat` reads a printed natural number back. */
  lemma ParseFloatOfNat(n: nat)
    ensures ParseFloat(NatToString(n)) == Finite(n as real)
  {
    var s := NatToString(n);
    TrimStartOfDigitLead(s);
    assert SignLength(s) == 0;
    DigitRunEndIs(s, 0, |s|);
    assert s[0..|s|] == s;
  }

  function Abs(x: real): (a: real)
    ensures a >= 0.0 && (a == x || a == -x)
  {
    if x < 0.0 then -x else x
  }

  /** `Math.round`: the nearest integer, halves rounded up. */
  function Round(x: real): (k: int)
    ensures x - 0.5 < k as real <= x + 0.5
  {
    (x + 0.5).Floor
  }

  function Zeros(n: nat): (z: string)
    ensures |z| == n && forall i :: 0 <= i < n ==> z[i] == '0'
  {
    if n == 0 then "" else Zeros(n - 1) + "0"
  }

  /** `Math.round(|x| * 10^f)`: the magnitude of `x` in units of the `f`-th decimal place,
      rounded half up. */
  function RoundedMagnitude(x: real, f: nat): (k: nat)
    ensures Scaled(Abs(x), f) - 0.5 < k as real <= Scaled(Abs(x), f) + 0.5
  {
    Round(Scaled(Abs(x), f))
  }

  /** The digits of `RoundedMagnitude(x, f)`, padded with leading zeros to at least `f + 1`. */
  function ScaledDigits(x: real, f: nat): (d: string)
    ensures |d| >= f + 1 && AllDigits(d)
    ensures DigitsValue(d) == RoundedMagnitude(x, f)
  {
    var k := RoundedMagnitude(x, f);
    var m := NatToString(k);
    var z := Zeros(if |m| <= f then f + 1 - |m| else 0);
    DigitsValueOfZeros(z);
    DigitsValueConcat(z, m);
    z + m
  }

  /** `x.toFixed(f)` for numbers below 10^21: the magnitude rounded half up to `f`
      decimals, a "-" for negative input. */
  function ToFixed(n: Num, f: nat): string {
    match n
    case NaN => "NaN"
    case Infinite(neg) => if neg then "-Infinity" else "Infinity"
    case Finite(x) => FixedText(x < 0.0, ScaledDigits(x, f), f)
  }

  /** The digits `d` with a decimal point before the last `f` of them. */
  function FixedText(neg: bool, d: string, f: nat): string
    requires |d| >= f + 1
  {
    if f == 0 then SignText(neg) + d else SignText(neg) + d[..|d| - f] + "." + d[|d| - f..]
  }

  function SignText(neg: bool): string {
    if neg then "-" else ""
  }

  function Signed(neg: bool, v: real): real {
    if neg then -v else v
  }

  /** `parseFloat` on text that is a sign, then digits up to `end`. */
  lemma ParseDecimalDigits(t: string, start: nat)
    requires SignLength(t) == start < |t|
    requires forall k :: start <= k < |t| ==> IsDigit(t[k])
    ensures ParseDecimal(t) == Finite(ApplySign(t, DigitsValue(t[start..]) as real))
  {
    DigitRunEndIs(t, start, |t|);
    assert t[start..|t|] == t[start..];
  }

  /** `parseFloat` on text that is a sign, digits, a point at `dot`, then digits. */
  lemma ParseDecimalPoint(t: string, start: nat, dot: nat)
    requires SignLength(t) == start < dot < |t| && t[dot] == '.'
    requires forall k :: start <= k < dot ==> IsDigit(t[k])
    requires forall k :: dot < k < |t| ==> IsDigit(t[k])
    ensures ParseDecimal(t)
         == Finite(ApplySign(t, Decimal(DigitsValue(t[start..dot]), DigitsValue(t[dot + 1..]), |t| - dot - 1)))
  {
    DigitRunEndIs(t, start, dot);
    DigitRunEndIs(t, dot + 1, |t|);
    assert t[dot + 1..|t|] == t[dot + 1..];
  }

  lemma ParseSignedDigits(neg: bool, ip: string)
    requires ip != [] && AllDigits(ip)
    ensures ParseFloat(SignText(neg) + ip) == Finite(Signed(neg, DigitsValue(ip) as real))
  {
    var sign := SignText(neg);
    var t := sign + ip;
    assert |t| == |sign| + |ip| && t[..|sign|] == sign && t[|sign|] == ip[0];
    SignedDecimalSign(neg, ip, t);
    assert t[|sign|..] == ip;
    ParseOfDigits(t, ip, |sign|, neg);
  }

  /** `parseFloat` on a text already known to be a sign and digits. */
  lemma ParseOfDigits(t: string, ip: string, start: nat, neg: bool)
    requires SignLength(t) == start < |t| && t[start..] == ip && AllDigits(ip)
    requires TrimStart(t) == t && (t[0] == '-' <==> neg)
    ensures ParseFloat(t) == Finite(Signed(neg, DigitsValue(ip) as real))
  {
    assert forall k :: start <= k < |t| ==> t[k] == ip[k - start];
    ParseDecimalDigits(t, start);
    SignOf(t, neg, DigitsValue(ip) as real);
  }

  lemma SignOf(t: string, neg: bool, v: real)
    requires t != [] && (t[0] == '-' <==> neg)
    ensures ApplySign(t, v) == Signed(neg, v)
  {
  }

  /** The layout of a sign, digits, a point and digits: where the parts sit. */
  lemma SignedDecimalParts(sign: string, ip: string, fp: string, t: string)
    requires t == sign + ip + "." + fp
    ensures |t| == |sign| + |ip| + 1 + |fp| && t[|sign| + |ip|] == '.'
    ensures forall k :: |sign| <= k < |sign| + |ip| ==> t[k] == ip[k - |sign|]
    ensures forall k :: |sign| + |ip| < k < |t| ==> t[k] == fp[k - |sign| - |ip| - 1]
    ensures t[|sign|..|sign| + |ip|] == ip && t[|sign| + |ip| + 1..] == fp
  {
  }

  /** The sign of such a text, and that it has no leading white space. */
  lemma SignedDecimalSign(neg: bool, ip: string, t: string)
    requires ip != [] && IsDigit(ip[0]) && |t| > |SignText(neg)|
    requires t[..|SignText(neg)|] == SignText(neg) && t[|SignText(neg)|] == ip[0]
    ensures SignLength(t) == |SignText(neg)| && TrimStart(t) == t && (t[0] == '-' <==> neg)
  {
    if neg {
      NegativeLead(t);
    } else {
      DigitLead(t);
    }
  }

  lemma NegativeLead(t: string)
    requires |t| > 1 && t[..1] == "-"
    ensures SignLength(t) == 1 && TrimStart(t) == t && t[0] == '-'
  {
    assert t[0] == t[..1][0];
    TrimStartOfDigitLead(t);
  }

  lemma DigitLead(t: string)
    requires t != [] && IsDigit(t[0])
    ensures SignLength(t) == 0 && TrimStart(t) == t && t[0] != '-'
  {
    TrimStartOfDigitLead(t);
  }

  /** `t` is a sign up to `start`, the digits `ip` up to the point at `dot`, then the digits
      `fp`, with no white space in front and a minus sign exactly when `neg`. */
  predicate DecimalLayout(t: string, start: nat, dot: nat, ip: string, fp: string, neg: bool) {
    && SignLength(t) == start < dot < |t| && t[dot] == '.'
    && (forall k :: start <= k < dot ==> IsDigit(t[k]))
    && (forall k :: dot < k < |t| ==> IsDigit(t[k]))
    && t[start..dot] == ip && t[dot + 1..] == fp
    && TrimStart(t) == t && (t[0] == '-' <==> neg)
  }

  /** The layout of a sign, digits, a point and digits. */
  lemma SignedDecimalShape(neg: bool, ip: string, fp: string, t: string, start: nat, dot: nat)
    requires ip != [] && AllDigits(ip) && AllDigits(fp) && t == SignText(neg) + ip + "." + fp
    requires start == |SignText(neg)| && dot == start + |ip|
    ensures DecimalLayout(t, start, dot, ip, fp, neg)
  {
    var sign := SignText(neg);
    SignedDecimalParts(sign, ip, fp, t);
    assert t[..|sign|] == sign;
    SignedDecimalSign(neg, ip, t);
  }

  /** `parseFloat` on a text already known to have that layout. */
  lemma ParseOfShape(t: string, ip: string, fp: string, start: nat, dot: nat, neg: bool)
    requires DecimalLayout(t, start, dot, ip, fp, neg)
    ensures ParseFloat(t) == Finite(Signed(neg, Decimal(DigitsValue(ip), DigitsValue(fp), |fp|)))
  {
    ParseDecimalPoint(t, start, dot);
    SignOf(t, neg, Decimal(DigitsValue(ip), DigitsValue(fp), |fp|));
  }

  lemma ParseSignedDecimal(neg: bool, ip: string, fp: string)
    requires ip != [] && AllDigits(ip) && AllDigits(fp)
    ensures ParseFloat(SignText(neg) + ip + "." + fp)
         == Finite(Signed(neg, Decimal(DigitsValue(ip), DigitsValue(fp), |fp|)))
  {
    var t := SignText(neg) + ip + "." + fp;
    var start := |SignText(neg)|;
    SignedDecimalShape(neg, ip, fp, t, start, start + |ip|);
    ParseOfShape(t, ip, fp, start, start + |ip|, neg);
  }

  /** The integer `k` over 10^places. */
  function Scale(k: nat, places: nat): real {
    Shifted(k as real, places)
  }

  lemma {:induction false} ShiftedAdd(a: real, b: real, n: nat)
    ensures Shifted(a + b, n) == Shifted(a, n) + Shifted(b, n)
  {
    if n > 0 {
      ShiftedAdd(a, b, n - 1);
    }
  }

  lemma {:induction false} ShiftedTimesTen(y: real, n: nat)
    ensures Shifted(10.0 * y, n) == 10.0 * Shifted(y, n)
  {
    if n > 0 {
      ShiftedTimesTen(y, n - 1);
    }
  }

  /** Shifting `w * 10^n` back by `n` places gives `w`. */
  lemma {:induction false} ShiftedPow(w: nat, n: nat)
    ensures Shifted((w * Pow10(n)) as real, n) == w as real
  {
    if n > 0 {
      var m := w * Pow10(n - 1);
      assert w * Pow10(n) == 10 * m;
      ShiftedTimesTen(m as real, n - 1);
      ShiftedPow(w, n - 1);
    }
  }

  /** Digits whole-then-fraction read `k` exactly when the decimal is `k` over 10^places. */
  lemma DecimalScaled(whole: nat, frac: nat, places: nat, k: nat)
    requires whole * Pow10(places) + frac == k
    ensures Decimal(whole, frac, places) == Scale(k, places)
  {
    var w := whole * Pow10(places);
    assert k as real == w as real + frac as real;
    ShiftedAdd(w as real, frac as real, places);
    ShiftedPow(whole, places);
  }

  lemma SliceJoin(s: string, n: nat)
    requires n <= |s|
    ensures s[..n] + s[n..] == s
  {
  }

  lemma ParseFixedWhole(neg: bool, d: string)
    requires |d| >= 1 && AllDigits(d)
    ensures ParseFloat(FixedText(neg, d, 0)) == Finite(Signed(neg, Scale(DigitsValue(d), 0)))
  {
    ParseSignedDigits(neg, d);
  }

  lemma ParseFixedPoint(neg: bool, d: string, f: nat)
    requires |d| >= f + 1 && f > 0 && AllDigits(d)
    ensures ParseFloat(FixedText(neg, d, f)) == Finite(Signed(neg, Scale(DigitsValue(d), f)))
  {
    var ip, fp := d[..|d| - f], d[|d| - f..];
    SliceJoin(d, |d| - f);
    DigitsValueConcat(ip, fp);
    assert FixedText(neg, d, f) == SignText(neg) + ip + "." + fp;
    ParseSignedDecimal(neg, ip, fp);
    DecimalScaled(DigitsValue(ip), DigitsValue(fp), f, DigitsValue(d));
  }

  /** Reading `FixedText` back gives its digits as an integer over 10^f. */
  lemma ParseFixedText(neg: bool, d: string, f: nat)
    requires |d| >= f + 1 && AllDigits(d)
    ensures ParseFloat(FixedText(neg, d, f)) == Finite(Signed(neg, Scale(DigitsValue(d), f)))
  {
    if f == 0 {
      ParseFixedWhole(neg, d);
    } else {
      ParseFixedPoint(neg, d, f);
    }
  }

  /** `x` rounded to `f` decimals: the magnitude rounded half up, the sign kept. */
  function RoundedTo(x: real, f: nat): real {
    Signed(x < 0.0, Shifted(RoundedMagnitude(x, f) as real, f))
  }

  /** What `toFixed` prints reads back with `parseFloat` as the input rounded to `f` places. */
  lemma ToFixedParsesBack(x: real, f: nat)
    ensures ParseFloat(ToFixed(Finite(x), f)) == Finite(RoundedTo(x, f))
  {
    ParseFixedText(x < 0.0, ScaledDigits(x, f), f);
  }

  lemma {:induction false} ScaledShifted(x: real, n: nat)
    ensures Scaled(Shifted(x, n), n) == x
  {
    if n > 0 {
      ScaledTenth(Shifted(x, n - 1), n - 1);
      ScaledShifted(x, n - 1);
    }
  }

  lemma {:induction false} ScaledTenth(y: real, n: nat)
    ensures Scaled(y / 10.0, n) == Scaled(y, n) / 10.0
  {
    if n > 0 {
      ScaledTenth(y, n - 1);
    }
  }

  lemma {:induction false} ScaledSub(a: real, b: real, n: nat)
    ensures Scaled(a - b, n) == Scaled(a, n) - Scaled(b, n)
  {
    if n > 0 {
      ScaledSub(a, b, n - 1);
    }
  }

  /** `Scaled` is multiplication by 10^n. */
  lemma {:induction false} ScaledIsProduct(x: real, n: nat)
    ensures Scaled(x, n) == x * Pow10(n) as real
  {
    if n > 0 {
      ScaledIsProduct(x, n - 1);
      assert (10 * Pow10(n - 1)) as real == 10.0 * Pow10(n - 1) as real;
    }
  }

  /** Rounding to `f` places moves a number by at most half a unit of the last place. */
  lemma RoundedToClose(x: real, f: nat)
    ensures -0.5 <= Scaled(RoundedTo(x, f) - x, f) <= 0.5
  {
    var k := RoundedMagnitude(x, f) as real;
    ScaledShifted(k, f);
    ScaledSub(RoundedTo(x, f), x, f);
    if x < 0.0 {
      ScaledSub(0.0, Shifted(k, f), f);
      ScaledSub(0.0, Abs(x), f);
      assert 0.0 - Shifted(k, f) == RoundedTo(x, f) && 0.0 - Abs(x) == x;
      assert Scaled(0.0, f) == 0.0 by {
        ScaledSub(0.0, 0.0, f);
      }
    }
  }

  /** JavaScript's `String(n)`; the text of a finite number is given by `showFinite`. */
  function Show(n: Num, showFinite: real -> string): (s: string)
    ensures n.Finite? ==> s == showFinite(n.value)
    ensures n.NaN? ==> s == "NaN"
  {
    match n
    case Finite(x) => showFinite(x)
    case NaN => "NaN"
    case Infinite(neg) => if neg then "-Infinity" else "Infinity"
  }

  /** `parseFloat(price.replace("$", "").replace(",", ""))`: each `replace` drops only the
      first occurrence. */
  function PriceValue(price: string): (v: Num)
    ensures '$' !in price && ',' !in price ==> v == ParseFloat(price)
  {
    ParseFloat(RemoveFirst(RemoveFirst(price, '$'), ','))
  }
}
