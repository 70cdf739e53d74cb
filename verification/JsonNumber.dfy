/** Number::toString of ECMA-262, section 6.1.6.1.20, in radix 10. */
module JsonNumber {
  import opened JsonText
  import Decimals = Text

  const PLUS: Unit := 43
  const MINUS: Unit := 45
  const POINT: Unit := 46
  const EXPONENT: Unit := 101

  /**
   * A finite number by its shortest decimal digits d1 d2 .. dk and the n with value
   * 0.d1 d2 .. dk times 10^n. Both zeros print alike, so there is one.
   */
  datatype Number = Zero | Decimal(negative: bool, digits: seq<int>, point: int)

  predicate DigitsOk(d: seq<int>) {
    && d != [] && (forall i | 0 <= i < |d| :: 0 <= d[i] < 10)
    && d[0] != 0 && d[|d| - 1] != 0
  }

  /** No leading and no trailing zero: the shortest digits. */
  predicate NumberOk(x: Number) {
    x.Decimal? ==> DigitsOk(x.digits)
  }

  function DigitText(d: seq<int>): (t: Text)
    ensures |t| == |d| && forall i | 0 <= i < |d| :: t[i] == 48 + d[i] % 10
  {
    seq(|d|, i requires 0 <= i < |d| => 48 + d[i] % 10)
  }

  function ZeroText(n: nat): (t: Text)
    ensures |t| == n && forall i | 0 <= i < n :: t[i] == 48
  {
    seq(n, i requires 0 <= i < n => 48)
  }

  function Mantissa(d: seq<int>): Text {
    var t := DigitText(d);
    if |t| <= 1 then t else t[..1] + [POINT] + t[1..]
  }

  function ExponentText(e: int): Text {
    [if e < 0 then MINUS else PLUS] + Units(Decimals.Digits(if e < 0 then -e else e))
  }

  function Magnitude(d: seq<int>, n: int): Text {
    var t := DigitText(d);
    if |t| <= n <= 21 then t + ZeroText(n - |t|)
    else if 0 < n <= 21 then t[..n] + [POINT] + t[n..]
    else if -6 < n <= 0 then [48, POINT] + ZeroText(-n) + t
    else Mantissa(d) + [EXPONENT] + ExponentText(n - 1)
  }

  function NumberText(x: Number): Text {
    match x
    case Zero => [48]
    case Decimal(negative, digits, point) => (if negative then [MINUS] else []) + Magnitude(digits, point)
  }

  // ---- The characters of a number ----------------------------------------------------------------

  predicate DigitUnit(u: Unit) {
    48 <= u <= 57
  }

  predicate NumberUnit(u: Unit) {
    DigitUnit(u) || u == PLUS || u == MINUS || u == POINT || u == EXPONENT
  }

  predicate AllDigitUnits(t: Text) {
    forall i | 0 <= i < |t| :: DigitUnit(t[i])
  }

  lemma ExponentDigits(m: nat)
    ensures AllDigitUnits(Units(Decimals.Digits(m))) && |Units(Decimals.Digits(m))| == |Decimals.Digits(m)|
  {
    hide Decimals.Digits;
    var s := Decimals.Digits(m);
    assert Decimals.AllDigits(s);
  }

  lemma ExponentInjective(m: nat, n: nat)
    requires Units(Decimals.Digits(m)) == Units(Decimals.Digits(n))
    ensures m == n
  {
    hide Decimals.Digits;
    var s, t := Decimals.Digits(m), Decimals.Digits(n);
    assert Decimals.AllDigits(s) && Decimals.AllDigits(t);
    assert |Units(s)| == |s| && |Units(t)| == |t|;
    forall i | 0 <= i < |s|
      ensures s[i] == t[i]
    {
      assert Units(s)[i] == s[i] as int && Units(t)[i] == t[i] as int;
    }
    assert s == t;
    Decimals.DigitsInjective(m, n);
  }

  lemma MantissaShape(d: seq<int>)
    requires DigitsOk(d)
    ensures var t := Mantissa(d); t != [] && DigitUnit(t[0]) && forall i | 0 <= i < |t| :: DigitUnit(t[i]) || t[i] == POINT
  {
  }

  lemma ExponentShape(e: int)
    ensures var t := ExponentText(e); t != [] && forall i | 0 <= i < |t| :: NumberUnit(t[i])
  {
    ExponentDigits(if e < 0 then -e else e);
    hide Units, Decimals.Digits;
  }

  lemma ScientificShape(d: seq<int>, n: int)
    requires DigitsOk(d)
    ensures var t := Mantissa(d) + [EXPONENT] + ExponentText(n - 1);
            t != [] && DigitUnit(t[0]) && forall i | 0 <= i < |t| :: NumberUnit(t[i])
  {
    MantissaShape(d);
    ExponentShape(n - 1);
    hide Mantissa, ExponentText, DigitsOk;
  }

  lemma MagnitudeShape(d: seq<int>, n: int)
    requires DigitsOk(d)
    ensures var t := Magnitude(d, n); t != [] && DigitUnit(t[0]) && forall i | 0 <= i < |t| :: NumberUnit(t[i])
  {
    var digits := DigitText(d);
    assert AllDigitUnits(digits);
    hide DigitText, Mantissa, ExponentText;
    if n <= 21 && -6 < n {
      assert n <= 0 ==> AllDigitUnits(ZeroText(-n));
    } else {
      ScientificShape(d, n);
    }
  }

  /** A number text starts with a digit or a minus sign and consists of number characters. */
  lemma NumberShape(x: Number)
    requires NumberOk(x)
    ensures var t := NumberText(x);
            t != [] && (DigitUnit(t[0]) || t[0] == MINUS) && forall i | 0 <= i < |t| :: NumberUnit(t[i])
  {
    if x.Decimal? {
      MagnitudeShape(x.digits, x.point);
      hide Magnitude;
    }
  }

  // ---- The number of a text ------------------------------------------------------------------------

  /** Which of the four layouts the digits get. */
  function Layout(d: seq<int>, n: int): int {
    if |d| <= n <= 21 then 1 else if 0 < n <= 21 then 2 else if -6 < n <= 0 then 3 else 4
  }

  lemma MantissaUnits(d: seq<int>)
    requires DigitsOk(d)
    ensures EXPONENT !in Mantissa(d)
  {
    var t := Mantissa(d);
    forall i | 0 <= i < |t|
      ensures t[i] != EXPONENT
    {
    }
  }

  lemma MantissaAt(d: seq<int>, i: nat)
    requires DigitsOk(d) && i < |d|
    ensures |Mantissa(d)| == if |d| == 1 then 1 else |d| + 1
    ensures Mantissa(d)[if i == 0 then 0 else i + 1] == 48 + d[i]
  {
    if i > 0 { assert Mantissa(d)[i + 1] == DigitText(d)[1..][i - 1]; }
  }

  lemma MantissaInjective(d: seq<int>, e: seq<int>)
    requires DigitsOk(d) && DigitsOk(e) && Mantissa(d) == Mantissa(e)
    ensures d == e
  {
    MantissaAt(d, 0);
    MantissaAt(e, 0);
    hide Mantissa;
    forall i | 0 <= i < |d|
      ensures d[i] == e[i]
    {
      MantissaAt(d, i);
      MantissaAt(e, i);
    }
  }

  /** The layout shows in the text: an exponent mark, a leading zero, a point, or none of them. */
  lemma LayoutShows(d: seq<int>, n: int)
    requires DigitsOk(d)
    ensures var t := Magnitude(d, n);
            && (EXPONENT in t <==> Layout(d, n) == 4)
            && (Layout(d, n) != 4 ==> (t[0] == 48 <==> Layout(d, n) == 3))
            && (Layout(d, n) == 1 ==> POINT !in t) && (Layout(d, n) == 2 ==> POINT in t)
  {
    var t := Magnitude(d, n);
    if Layout(d, n) == 4 {
      assert t[|Mantissa(d)|] == EXPONENT;
    } else {
      assert forall i | 0 <= i < |t| :: DigitUnit(t[i]) || t[i] == POINT;
      if Layout(d, n) == 2 { assert t[n] == POINT; }
    }
  }

  lemma WholeInjective(d: seq<int>, n: int, e: seq<int>, m: int)
    requires DigitsOk(d) && DigitsOk(e) && Layout(d, n) == 1 && Layout(e, m) == 1 && Magnitude(d, n) == Magnitude(e, m)
    ensures d == e && n == m
  {
    var t := Magnitude(d, n);
    assert |t| == n && |t| == m;
    assert forall i | 0 <= i < n :: t[i] == if i < |d| then 48 + d[i] else 48;
    assert forall i | 0 <= i < m :: t[i] == if i < |e| then 48 + e[i] else 48;
    assert t[|d| - 1] != 48 && t[|e| - 1] != 48;
    assert |d| == |e|;
    assert forall i | 0 <= i < |d| :: t[i] == 48 + d[i] && t[i] == 48 + e[i];
  }

  lemma PointedUnits(d: seq<int>, n: int, i: nat)
    requires DigitsOk(d) && Layout(d, n) == 2
    ensures var t := Magnitude(d, n);
            |t| == |d| + 1 && t[n] == POINT && (i < |d| ==> t[if i < n then i else i + 1] == 48 + d[i])
  {
    var t, digits := Magnitude(d, n), DigitText(d);
    assert t == digits[..n] + [POINT] + digits[n..];
    hide Magnitude, DigitText;
  }

  lemma PointBefore(d: seq<int>, n: int, e: seq<int>, m: int)
    requires DigitsOk(d) && DigitsOk(e) && Layout(d, n) == 2 && Layout(e, m) == 2 && Magnitude(d, n) == Magnitude(e, m)
    ensures n >= m
  {
    hide Magnitude;
    PointedUnits(d, n, 0);
    PointedUnits(e, m, n);
  }

  lemma PointedInjective(d: seq<int>, n: int, e: seq<int>, m: int)
    requires DigitsOk(d) && DigitsOk(e) && Layout(d, n) == 2 && Layout(e, m) == 2 && Magnitude(d, n) == Magnitude(e, m)
    ensures d == e && n == m
  {
    PointBefore(d, n, e, m);
    PointBefore(e, m, d, n);
    PointedUnits(d, n, 0);
    PointedUnits(e, m, 0);
    hide Magnitude;
    forall i | 0 <= i < |d|
      ensures d[i] == e[i]
    {
      PointedUnits(d, n, i);
      PointedUnits(e, m, i);
    }
  }

  lemma SmallUnits(d: seq<int>, n: int, i: nat)
    requires DigitsOk(d) && Layout(d, n) == 3
    ensures var t := Magnitude(d, n);
            |t| == 2 - n + |d| && (2 <= i < 2 - n ==> t[i] == 48) && (2 - n <= i < |t| ==> t[i] == 48 + d[i - 2 + n])
  {
    var t, digits := Magnitude(d, n), DigitText(d);
    assert t == [48, POINT] + ZeroText(-n) + digits;
    hide Magnitude, DigitText;
  }

  lemma ZerosEnd(d: seq<int>, n: int, e: seq<int>, m: int)
    requires DigitsOk(d) && DigitsOk(e) && Layout(d, n) == 3 && Layout(e, m) == 3 && Magnitude(d, n) == Magnitude(e, m)
    ensures n <= m
  {
    hide Magnitude;
    SmallUnits(d, n, 2 - n);
    SmallUnits(e, m, 2 - n);
  }

  lemma SmallInjective(d: seq<int>, n: int, e: seq<int>, m: int)
    requires DigitsOk(d) && DigitsOk(e) && Layout(d, n) == 3 && Layout(e, m) == 3 && Magnitude(d, n) == Magnitude(e, m)
    ensures d == e && n == m
  {
    ZerosEnd(d, n, e, m);
    ZerosEnd(e, m, d, n);
    SmallUnits(d, n, 0);
    SmallUnits(e, m, 0);
    hide Magnitude;
    forall i | 0 <= i < |d|
      ensures d[i] == e[i]
    {
      SmallUnits(d, n, i + 2 - n);
      SmallUnits(e, m, i + 2 - n);
    }
  }

  lemma MarkInside(a: Text, x: Text, b: Text, y: Text)
    requires a + [EXPONENT] + x == b + [EXPONENT] + y
    ensures |a| < |b| ==> b[|a|] == EXPONENT
  {
    assert (a + [EXPONENT] + x)[|a|] == EXPONENT;
  }

  lemma MarkAt(a: Text, x: Text, b: Text, y: Text)
    requires EXPONENT !in a && EXPONENT !in b && a + [EXPONENT] + x == b + [EXPONENT] + y
    ensures a == b && x == y
  {
    MarkInside(a, x, b, y);
    MarkInside(b, y, a, x);
    var t := a + [EXPONENT] + x;
    assert a == t[..|a|] && b == t[..|b|] && x == t[|a| + 1..] && y == t[|b| + 1..];
  }

  lemma ScientificInjective(d: seq<int>, n: int, e: seq<int>, m: int)
    requires DigitsOk(d) && DigitsOk(e) && Layout(d, n) == 4 && Layout(e, m) == 4 && Magnitude(d, n) == Magnitude(e, m)
    ensures d == e && n == m
  {
    MantissaUnits(d);
    MantissaUnits(e);
    hide Mantissa, Units, Decimals.Digits;
    MarkAt(Mantissa(d), ExponentText(n - 1), Mantissa(e), ExponentText(m - 1));
    MantissaInjective(d, e);
    var x, y := ExponentText(n - 1), ExponentText(m - 1);
    assert x[0] == y[0];
    var p, q := if n - 1 < 0 then 1 - n else n - 1, if m - 1 < 0 then 1 - m else m - 1;
    assert x[1..] == Units(Decimals.Digits(p)) && y[1..] == Units(Decimals.Digits(q));
    ExponentInjective(p, q);
  }

  lemma MagnitudeInjective(d: seq<int>, n: int, e: seq<int>, m: int)
    requires DigitsOk(d) && DigitsOk(e) && Magnitude(d, n) == Magnitude(e, m)
    ensures d == e && n == m
  {
    hide Magnitude, DigitsOk;
    LayoutShows(d, n);
    LayoutShows(e, m);
    assert Layout(d, n) == Layout(e, m);
    match Layout(d, n)
    case 1 => WholeInjective(d, n, e, m);
    case 2 => PointedInjective(d, n, e, m);
    case 3 => SmallInjective(d, n, e, m);
    case _ => ScientificInjective(d, n, e, m);
  }

  /** Different numbers print different texts. */
  lemma NumberInjective(x: Number, y: Number)
    requires NumberOk(x) && NumberOk(y) && NumberText(x) == NumberText(y)
    ensures x == y
  {
    if x.Decimal? { MagnitudeShape(x.digits, x.point); NonZeroText(x); }
    if y.Decimal? { MagnitudeShape(y.digits, y.point); NonZeroText(y); }
    hide Magnitude, DigitsOk;
    assert NumberText(x)[0] == NumberText(y)[0];
    if x.Decimal? && y.Decimal? {
      if x.negative {
        assert NumberText(x)[1..] == Magnitude(x.digits, x.point) && NumberText(y)[1..] == Magnitude(y.digits, y.point);
      } else {
        assert NumberText(x) == Magnitude(x.digits, x.point) && NumberText(y) == Magnitude(y.digits, y.point);
      }
      MagnitudeInjective(x.digits, x.point, y.digits, y.point);
    }
  }

  lemma NonZeroText(x: Number)
    requires NumberOk(x) && x.Decimal?
    ensures NumberText(x) != [48]
  {
    var d, n := x.digits, x.point;
    var t := Magnitude(d, n);
    assert t[0] == if Layout(d, n) == 3 then 48 else 48 + d[0];
    assert Layout(d, n) == 3 ==> |t| > 2;
    assert x.negative ==> NumberText(x)[0] == MINUS;
    assert !x.negative ==> NumberText(x) == t;
  }
}
