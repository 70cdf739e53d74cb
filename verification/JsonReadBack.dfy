/** Strings and numbers as JSON.stringify prints them, read back by the grammar of RFC 8259, and the escapes by their characters. */
module JsonReadBack {
  import opened Wrappers
  import opened JsonText
  import opened JsonNumber
  import opened JsonValue
  import opened JsonReader
  import Decimals = Text

  // ---- Strings ---------------------------------------------------------------------------------------

  lemma HexBack(d: int)
    requires 0 <= d < 16
    ensures HexValue(HexUnit(d)) == Some(d)
  {
  }

  lemma ReadUnicode(u: Unit, y: Text)
    ensures var t := UnicodeEscape(u) + y; |t| >= 6 && t[0] == BACKSLASH && t[1] == 117 && ReadHex(t[2..]) == Got(u, y)
  {
    var t := UnicodeEscape(u) + y;
    HexBack(u / 4096);
    HexBack(u / 256 % 16);
    HexBack(u / 16 % 16);
    HexBack(u % 16);
    Nibbles(u);
    hide HexUnit, HexValue;
    assert t[2..][4..] == y;
  }

  lemma ShortBack(u: Unit)
    requires ShortEscape(u) != 0
    ensures Unescape(ShortEscape(u)) == Some(u) && ShortEscape(u) != 117
  {
  }

  lemma ReadEscape(u: Unit, y: Text)
    ensures ReadString(EscapeUnit(u) + y) == Prepend(u, ReadString(y))
  {
    var t := EscapeUnit(u) + y;
    if ShortEscape(u) != 0 {
      assert t[2..] == y;
      ShortBack(u);
      hide ShortEscape, Unescape;
    } else if u < 32 || Lead(u) || Trail(u) {
      ReadUnicode(u, y);
      hide UnicodeEscape, ReadHex, ShortEscape;
    } else {
      assert t[1..] == y;
      assert u != QUOTE && u != BACKSLASH;
      hide ShortEscape;
    }
  }

  /** A quoted string reads back, lone surrogates and all. */
  lemma {:induction false} StringReadsBack(s: Text, x: Text)
    ensures ReadString(Escape(s) + [QUOTE] + x) == Got(s, x)
  {
    var t := Escape(s) + [QUOTE] + x;
    if s == [] {
      assert t[0] == QUOTE && t[1..] == x;
    } else if StartsPair(s) {
      StringReadsBack(s[2..], x);
      PairSplit(s, x);
      PairRead(t, s[0], s[1], Escape(s[2..]) + [QUOTE] + x);
      hide *;
      assert [s[0]] + ([s[1]] + s[2..]) == s;
    } else {
      StringReadsBack(s[1..], x);
      UnitSplit(s, x);
      hide *;
      ReadEscape(s[0], Escape(s[1..]) + [QUOTE] + x);
      Prepends(s, x);
    }
  }

  lemma Prepends(s: Text, x: Text)
    requires s != []
    ensures Prepend(s[0], Got(s[1..], x)) == Got(s, x)
  {
    assert [s[0]] + s[1..] == s;
  }

  lemma PairRead(t: Text, a: Unit, b: Unit, y: Text)
    requires |t| >= 2 && Lead(a) && Trail(b) && t[0] == a && t[1] == b && t[2..] == y && ReadString(y).Got?
    ensures ReadString(t) == Got([a] + ([b] + ReadString(y).value), ReadString(y).rest)
  {
    assert t[1..][0] == b && t[1..][1..] == y;
    assert ReadString(t[1..]) == Prepend(b, ReadString(y));
    assert ReadString(t) == Prepend(a, ReadString(t[1..]));
  }

  lemma QuotedReadsBack(s: Text, x: Text)
    ensures (Quote(s) + x)[0] == QUOTE && ReadString((Quote(s) + x)[1..]) == Got(s, x)
  {
    StringReadsBack(s, x);
    hide ReadString, Escape;
    assert (Quote(s) + x)[1..] == Escape(s) + [QUOTE] + x;
  }

  lemma StringValueReads(s: Text, x: Text)
    ensures ReadValue(Quote(s) + x) == Got(Str(s), x)
  {
    QuotedReadsBack(s, x);
    hide ReadString, Escape, ReadNumber, ReadMembers, ReadElements, ReadLiteral, SkipSpace;
    assert Quote(s) + x != [] && (Quote(s) + x)[0] == QUOTE;
  }

  lemma MemberSteps(s: Text, key: Text, colon: Text, value: Value, rest: Text)
    requires s != [] && s[0] == QUOTE && ReadString(s[1..]) == Got(key, colon)
    requires colon != [] && colon[0] == COLON && ReadValue(SkipSpace(colon[1..])) == Got(value, rest)
    ensures ReadMember(s) == Got(Member(key, value), SkipSpace(rest))
  {
    assert SkipSpace(colon) == colon;
    hide ReadString, ReadValue, SkipSpace;
  }

  predicate LowerHex(u: Unit) {
    '0' as int <= u <= '9' as int || 'a' as int <= u <= 'f' as int
  }

  lemma HexIsLower(d: int)
    requires 0 <= d < 16
    ensures LowerHex(HexUnit(d))
  {
  }

  lemma UnicodeIsLower(u: Unit)
    ensures forall i | 2 <= i < 6 :: LowerHex(UnicodeEscape(u)[i])
  {
    HexIsLower(u / 4096);
    HexIsLower(u / 256 % 16);
    HexIsLower(u / 16 % 16);
    HexIsLower(u % 16);
    hide HexUnit, LowerHex;
  }

  /** Seven units have an escape of two characters; other controls and lone surrogates are hexadecimal; the rest stand for themselves. */
  lemma EscapesAre(u: Unit)
    ensures u == '"' as int ==> EscapeUnit(u) == Units("\\\"")
    ensures u == '\\' as int ==> EscapeUnit(u) == Units("\\\\")
    ensures u == '\n' as int ==> EscapeUnit(u) == Units("\\n")
    ensures u == '\r' as int ==> EscapeUnit(u) == Units("\\r")
    ensures u == '\t' as int ==> EscapeUnit(u) == Units("\\t")
    ensures u == 8 ==> EscapeUnit(u) == Units("\\b")
    ensures u == 12 ==> EscapeUnit(u) == Units("\\f")
    ensures (u < 32 && u !in [8, 9, 10, 12, 13]) || 0xD800 <= u < 0xE000 ==>
              && EscapeUnit(u)[..2] == Units("\\u") && |EscapeUnit(u)| == 6
              && forall i | 2 <= i < 6 :: LowerHex(EscapeUnit(u)[i])
    ensures 32 <= u && u != 34 && u != 92 && !(0xD800 <= u < 0xE000) ==> EscapeUnit(u) == [u]
  {
    assert Units("\\u") == [92, 117];
    UnicodeIsLower(u);
    hide HexUnit, LowerHex;
  }

  /** The punctuation and the literals, as characters. */
  lemma TokensAre()
    ensures [COMMA] == Units(",") && [COLON] == Units(":") && [QUOTE] == Units("\"")
    ensures [OPEN_ARRAY] == Units("[") && [CLOSE_ARRAY] == Units("]") && [OPEN_OBJECT] == Units("{") && [CLOSE_OBJECT] == Units("}")
    ensures NULL == Units("null") && TRUE == Units("true") && FALSE == Units("false")
    ensures [PLUS] == Units("+") && [MINUS] == Units("-") && [POINT] == Units(".") && [EXPONENT] == Units("e")
  {
  }

  // ---- Numbers ---------------------------------------------------------------------------------------

  /** A text whose first character goes on with no number. */
  predicate EndsNumber(x: Text) {
    x == [] || !(DigitUnit(x[0]) || x[0] == POINT || x[0] == EXPONENT || x[0] == 69)
  }

  lemma {:induction false} DigitsRead(t: Text, x: Text)
    requires AllDigitUnits(t) && (x == [] || !DigitUnit(x[0]))
    ensures ReadDigits(t + x) == Got(t, x)
  {
    if t == [] {
      assert t + x == x;
    } else {
      DigitsRead(t[1..], x);
      assert (t + x)[1..] == t[1..] + x && [t[0]] + t[1..] == t;
    }
  }

  lemma {:induction false} DecimalDigits(n: nat)
    ensures DecimalValue(Units(Decimals.Digits(n))) == n
  {
    var s := Decimals.Digits(n);
    Decimals.DigitsEnd(n);
    if n < 10 {
      assert Units(s) == [48 + n];
      assert DecimalValue([48 + n]) == DecimalValue([48 + n][..0]) * 10 + n;
    } else {
      DecimalDigits(n / 10);
      var t := Units(s);
      assert t[..|t| - 1] == Units(Decimals.Digits(n / 10)) && t[|t| - 1] == 48 + n % 10;
    }
  }

  lemma ExponentBack(e: int)
    ensures ExponentValue([EXPONENT] + ExponentText(e)) == e
  {
    var m := if e < 0 then -e else e;
    DecimalDigits(m);
    hide DecimalValue, Decimals.Digits, Units;
    var t := [EXPONENT] + ExponentText(e);
    assert t[2..] == Units(Decimals.Digits(m));
  }

  lemma {:induction false} LeadingZeros(negative: bool, zeros: nat, d: seq<int>, point: int)
    ensures Shortened(negative, seq(zeros, _ => 0) + d, point) == Shortened(negative, d, point - zeros)
    decreases zeros
  {
    var s := seq(zeros, _ => 0) + d;
    if zeros == 0 {
      assert s == d;
    } else {
      LeadingZeros(negative, zeros - 1, d, point - 1);
      assert s[1..] == seq(zeros - 1, _ => 0) + d;
    }
  }

  lemma {:induction false} TrailingZeros(negative: bool, zeros: nat, d: seq<int>, point: int)
    requires DigitsOk(d)
    ensures Shortened(negative, d + seq(zeros, _ => 0), point) == Decimal(negative, d, point)
    decreases zeros
  {
    var s := d + seq(zeros, _ => 0);
    if zeros == 0 {
      assert s == d;
    } else {
      TrailingZeros(negative, zeros - 1, d, point);
      assert s[..|s| - 1] == d + seq(zeros - 1, _ => 0);
    }
  }

  lemma DigitValuesBack(d: seq<int>)
    requires forall i | 0 <= i < |d| :: 0 <= d[i] < 10
    ensures DigitValues(DigitText(d)) == d
  {
  }

  function FractionText(f: Text): Text {
    if f == [] then [] else [POINT] + f
  }

  lemma FractionRead(f: Text, y: Text)
    requires AllDigitUnits(f) && (y == [] || !(DigitUnit(y[0]) || y[0] == POINT))
    ensures ReadFraction(FractionText(f) + y) == Got(FractionText(f), y)
  {
    if f == [] {
      assert FractionText(f) + y == y;
    } else {
      DigitsRead(f, y);
      hide ReadDigits;
      assert (FractionText(f) + y)[1..] == f + y;
    }
  }

  /** No exponent, or a signed one with at least one digit. */
  predicate IsExponent(e: Text) {
    e == [] || (|e| > 2 && e[0] == EXPONENT && (e[1] == PLUS || e[1] == MINUS) && AllDigitUnits(e[2..]))
  }

  lemma ExponentRead(e: Text, x: Text)
    requires IsExponent(e) && EndsNumber(x)
    ensures ReadExponent(e + x) == Got(e, x)
  {
    if e == [] {
      assert e + x == x;
    } else {
      DigitsRead(e[2..], x);
      hide ReadDigits;
      assert (e + x)[2..] == e[2..] + x && (e + x)[..2] == e[..2] && e[..2] + e[2..] == e;
    }
  }

  predicate PartsOk(w: Text, f: Text, e: Text) {
    w != [] && AllDigitUnits(w) && (|w| == 1 || w[0] != 48) && AllDigitUnits(f) && IsExponent(e)
  }

  function SignText(negative: bool): Text {
    if negative then [MINUS] else []
  }

  lemma WholeRead(w: Text, f: Text, e: Text, x: Text)
    requires PartsOk(w, f, e) && EndsNumber(x)
    ensures ReadDigits(w + (FractionText(f) + (e + x))) == Got(w, FractionText(f) + (e + x))
  {
    hide ReadDigits, AllDigitUnits;
    DigitsRead(w, FractionText(f) + (e + x));
  }

  lemma SignRead(negative: bool, w: Text, y: Text)
    requires w != [] && AllDigitUnits(w)
    ensures var s := SignText(negative) + (w + y); s != [] && (s[0] == MINUS <==> negative) && s[if negative then 1 else 0..] == w + y
  {
    assert DigitUnit(w[0]);
    hide AllDigitUnits;
  }

  lemma ReadNumberSteps(s: Text, sign: nat, w: Text, mid: Text, fraction: Text, rest: Text, e: Text, x: Text)
    requires s != [] && sign == (if s[0] == MINUS then 1 else 0) && ReadDigits(s[sign..]) == Got(w, mid)
    requires w != [] && (|w| == 1 || w[0] != 48)
    requires ReadFraction(mid) == Got(fraction, rest) && ReadExponent(rest) == Got(e, x)
    ensures ReadNumber(s) == Got(Shortened(sign == 1, DigitValues(w + if fraction == [] then [] else fraction[1..]), |w| + ExponentValue(e)), x)
  {
    hide ReadDigits, ReadFraction, ReadExponent, Shortened, ExponentValue, DigitValues;
  }

  /** A number in its parts: sign, whole digits, fraction digits, exponent. */
  lemma PartsRead(negative: bool, w: Text, f: Text, e: Text, x: Text)
    requires PartsOk(w, f, e) && EndsNumber(x)
    ensures ReadNumber(SignText(negative) + (w + (FractionText(f) + (e + x))))
            == Got(Shortened(negative, DigitValues(w + f), |w| + ExponentValue(e)), x)
  {
    WholeRead(w, f, e, x);
    FractionRead(f, e + x);
    ExponentRead(e, x);
    SignRead(negative, w, FractionText(f) + (e + x));
    FractionDigits(f);
    hide ReadDigits, ReadFraction, ReadExponent, ReadNumber, Shortened, ExponentValue, DigitValues;
    hide IsExponent, AllDigitUnits, SignText, FractionText, EndsNumber;
    ReadNumberSteps(SignText(negative) + (w + (FractionText(f) + (e + x))), if negative then 1 else 0, w,
                    FractionText(f) + (e + x), FractionText(f), e + x, e, x);
  }

  lemma FractionDigits(f: Text)
    ensures (if FractionText(f) == [] then [] else FractionText(f)[1..]) == f
  {
  }

  /** The digits of a number, cut into the parts of its layout. */
  ghost predicate Cut(negative: bool, d: seq<int>, n: int, w: Text, f: Text, e: Text) {
    && Magnitude(d, n) == w + (FractionText(f) + e) && PartsOk(w, f, e)
    && Shortened(negative, DigitValues(w + f), |w| + ExponentValue(e)) == Decimal(negative, d, n)
  }

  lemma MagnitudeParts(negative: bool, d: seq<int>, n: int) returns (w: Text, f: Text, e: Text)
    requires DigitsOk(d)
    ensures Cut(negative, d, n, w, f, e)
  {
    hide Cut, DigitsOk;
    match Layout(d, n)
    case 1 => w, f, e := WholeParts(negative, d, n);
    case 2 => w, f, e := PointedParts(negative, d, n);
    case 3 => w, f, e := SmallParts(negative, d, n);
    case _ => w, f, e := ScientificParts(negative, d, n);
  }

  lemma WholeParts(negative: bool, d: seq<int>, n: int) returns (w: Text, f: Text, e: Text)
    requires DigitsOk(d) && Layout(d, n) == 1
    ensures Cut(negative, d, n, w, f, e)
  {
    w, f, e := Magnitude(d, n), [], [];
    assert w == w + (FractionText(f) + e);
    assert DigitValues(w + f) == d + seq(n - |d|, _ => 0);
    TrailingZeros(negative, n - |d|, d, n);
    hide Shortened;
  }

  lemma PointedParts(negative: bool, d: seq<int>, n: int) returns (w: Text, f: Text, e: Text)
    requires DigitsOk(d) && Layout(d, n) == 2
    ensures Cut(negative, d, n, w, f, e)
  {
    var t := DigitText(d);
    w, f, e := t[..n], t[n..], [];
    PointedText(d, n);
    CutAt(negative, d, n, w, f, e, n);
  }

  /** Digits that are cut but neither lengthened nor shifted. */
  lemma CutAt(negative: bool, d: seq<int>, n: int, w: Text, f: Text, e: Text, at: int)
    requires DigitsOk(d) && Magnitude(d, n) == w + (FractionText(f) + e) && PartsOk(w, f, e)
    requires 0 < at <= |d| && w == DigitText(d)[..at] && f == DigitText(d)[at..] && at + ExponentValue(e) == n
    ensures Cut(negative, d, n, w, f, e)
  {
    DigitValuesBack(d);
    ShortAlready(negative, d, n);
    hide Shortened, Magnitude, DigitValues, DigitText, FractionText, DigitsOk, PartsOk, ExponentValue;
    assert w + f == DigitText(d);
  }

  lemma PointedText(d: seq<int>, n: int)
    requires DigitsOk(d) && Layout(d, n) == 2
    ensures Magnitude(d, n) == DigitText(d)[..n] + (FractionText(DigitText(d)[n..]) + [])
    ensures PartsOk(DigitText(d)[..n], DigitText(d)[n..], [])
  {
    hide DigitText;
    var t := DigitText(d);
    assert t[..n] + [POINT] + t[n..] == t[..n] + (([POINT] + t[n..]) + []);
  }

  lemma ShortAlready(negative: bool, d: seq<int>, n: int)
    requires DigitsOk(d)
    ensures Shortened(negative, d, n) == Decimal(negative, d, n)
  {
  }

  lemma SmallParts(negative: bool, d: seq<int>, n: int) returns (w: Text, f: Text, e: Text)
    requires DigitsOk(d) && Layout(d, n) == 3
    ensures Cut(negative, d, n, w, f, e)
  {
    w, f, e := [48], ZeroText(-n) + DigitText(d), [];
    SmallText(d, n);
    SmallDigits(d, n);
    LeadingZeros(negative, 1 - n, d, 1);
    ShortAlready(negative, d, n);
    hide Shortened, Magnitude, DigitValues, DigitText, ZeroText, PartsOk, FractionText;
  }

  lemma SmallText(d: seq<int>, n: int)
    requires DigitsOk(d) && Layout(d, n) == 3
    ensures Magnitude(d, n) == [48] + (FractionText(ZeroText(-n) + DigitText(d)) + [])
    ensures PartsOk([48], ZeroText(-n) + DigitText(d), [])
  {
    hide DigitText, ZeroText;
    var z, t := ZeroText(-n), DigitText(d);
    assert [48, POINT] + z + t == [48] + (([POINT] + (z + t)) + []);
  }

  lemma SmallDigits(d: seq<int>, n: int)
    requires DigitsOk(d) && n <= 0
    ensures DigitValues([48] + (ZeroText(-n) + DigitText(d))) == seq(1 - n, _ => 0) + d
  {
    hide DigitText, ZeroText;
    var s, r := [48] + (ZeroText(-n) + DigitText(d)), seq(1 - n, _ => 0) + d;
    forall i | 0 <= i < |s|
      ensures s[i] - 48 == r[i]
    {
    }
  }

  lemma ScientificParts(negative: bool, d: seq<int>, n: int) returns (w: Text, f: Text, e: Text)
    requires DigitsOk(d) && Layout(d, n) == 4
    ensures Cut(negative, d, n, w, f, e)
  {
    var t := DigitText(d);
    w, f, e := t[..1], t[1..], [EXPONENT] + ExponentText(n - 1);
    ScientificText(d, n);
    ScientificOk(d, n);
    ExponentBack(n - 1);
    hide Cut, Magnitude, ExponentText, ExponentValue, PartsOk, DigitText, FractionText;
    CutAt(negative, d, n, w, f, e, 1);
  }

  lemma ScientificOk(d: seq<int>, n: int)
    requires DigitsOk(d)
    ensures PartsOk(DigitText(d)[..1], DigitText(d)[1..], [EXPONENT] + ExponentText(n - 1))
  {
    ExponentIs(n - 1);
    hide ExponentText, IsExponent;
  }

  lemma ScientificText(d: seq<int>, n: int)
    requires d != [] && Layout(d, n) == 4
    ensures Magnitude(d, n) == DigitText(d)[..1] + (FractionText(DigitText(d)[1..]) + ([EXPONENT] + ExponentText(n - 1)))
  {
    ExponentLayout(d, n);
    MantissaParts(d);
    hide *;
    FourParts(DigitText(d)[..1], FractionText(DigitText(d)[1..]), [EXPONENT], ExponentText(n - 1));
  }

  lemma FourParts(a: Text, b: Text, c: Text, d: Text)
    ensures a + b + c + d == a + (b + (c + d))
  {
  }

  lemma MantissaParts(d: seq<int>)
    requires d != []
    ensures Mantissa(d) == DigitText(d)[..1] + FractionText(DigitText(d)[1..])
  {
    MantissaIs(DigitText(d));
  }

  lemma ExponentLayout(d: seq<int>, n: int)
    requires Layout(d, n) == 4
    ensures Magnitude(d, n) == Mantissa(d) + [EXPONENT] + ExponentText(n - 1)
  {
    hide Mantissa, ExponentText;
  }

  lemma MantissaIs(t: Text)
    requires t != []
    ensures t[..1] + FractionText(t[1..]) == if |t| == 1 then t else t[..1] + [POINT] + t[1..]
  {
    if |t| == 1 { assert t[1..] == []; }
  }

  lemma ExponentIs(e: int)
    ensures IsExponent([EXPONENT] + ExponentText(e))
  {
    var m := if e < 0 then -e else e;
    ExponentDigits(m);
    hide Decimals.Digits, Units;
    assert ([EXPONENT] + ExponentText(e))[2..] == Units(Decimals.Digits(m));
  }

  lemma CutReads(negative: bool, d: seq<int>, n: int, w: Text, f: Text, e: Text, x: Text)
    requires Cut(negative, d, n, w, f, e) && EndsNumber(x)
    ensures ReadNumber(SignText(negative) + Magnitude(d, n) + x) == Got(Decimal(negative, d, n), x)
  {
    hide Magnitude, Shortened, ReadNumber, ExponentValue, DigitValues, PartsOk, SignText, FractionText, EndsNumber;
    PartsRead(negative, w, f, e, x);
    assert SignText(negative) + Magnitude(d, n) + x == SignText(negative) + (w + (FractionText(f) + (e + x)));
  }

  /** A printed number reads back, in all four layouts. */
  lemma NumberReadsBack(a: Number, x: Text)
    requires NumberOk(a) && EndsNumber(x)
    ensures ReadNumber(NumberText(a) + x) == Got(a, x)
  {
    match a
    case Zero =>
      PartsRead(false, [48], [], [], x);
      ZeroShort();
      hide Shortened, ReadNumber, DigitValues;
      assert NumberText(a) + x == SignText(false) + ([48] + (FractionText([]) + ([] + x)));
    case Decimal(negative, d, n) =>
      hide Magnitude, ReadNumber, Cut, DigitsOk;
      var w, f, e := MagnitudeParts(negative, d, n);
      CutReads(negative, d, n, w, f, e, x);
  }

  lemma ZeroShort()
    ensures Shortened(false, DigitValues([48] + []), 1 + ExponentValue([])) == Zero
  {
    assert DigitValues([48] + []) == [0];
    assert Shortened(false, [0], 1) == Shortened(false, [0][1..], 0);
  }
}
