/** JSON.stringify on strings: quoting, unit by unit, and why a quoted string can always be read back. */
module JsonText {
  /** A string is a sequence of UTF-16 code units. */
  type Unit = n: int | 0 <= n < 0x1_0000
  type Text = seq<Unit>

  /** The code units of a source literal. */
  function Units(s: string): Text {
    seq(|s|, i requires 0 <= i < |s| => s[i] as int % 0x1_0000)
  }

  const QUOTE: Unit := 34
  const BACKSLASH: Unit := 92

  predicate Lead(u: Unit) {
    0xD800 <= u <= 0xDBFF
  }

  predicate Trail(u: Unit) {
    0xDC00 <= u <= 0xDFFF
  }

  function HexUnit(d: int): (u: Unit)
    requires 0 <= d < 16
  {
    if d < 10 then 48 + d else 87 + d
  }

  function UnicodeEscape(u: Unit): Text {
    [BACKSLASH, 117, HexUnit(u / 4096), HexUnit(u / 256 % 16), HexUnit(u / 16 % 16), HexUnit(u % 16)]
  }

  /** The letter of a two-unit escape, if the unit has one. */
  function ShortEscape(u: Unit): (c: Unit)
    ensures c != 117
  {
    match u
    case 8 => 98
    case 9 => 116
    case 10 => 110
    case 12 => 102
    case 13 => 114
    case 34 => 34
    case 92 => 92
    case _ => 0
  }

  /** One unit on its own; a surrogate here is a lone one, and is escaped. */
  function EscapeUnit(u: Unit): Text {
    if ShortEscape(u) != 0 then [BACKSLASH, ShortEscape(u)]
    else if u < 32 || Lead(u) || Trail(u) then UnicodeEscape(u)
    else [u]
  }

  predicate StartsPair(s: Text) {
    |s| >= 2 && Lead(s[0]) && Trail(s[1])
  }

  function Escape(s: Text): Text {
    if s == [] then []
    else if StartsPair(s) then [s[0], s[1]] + Escape(s[2..])
    else EscapeUnit(s[0]) + Escape(s[1..])
  }

  function Quote(s: Text): Text {
    [QUOTE] + Escape(s) + [QUOTE]
  }

  // ---- Reading back -------------------------------------------------------------------------

  lemma HexInjective(d: int, e: int)
    requires 0 <= d < 16 && 0 <= e < 16 && HexUnit(d) == HexUnit(e)
    ensures d == e
  {
  }

  lemma Nibbles(u: Unit)
    ensures u == 4096 * (u / 4096) + 256 * (u / 256 % 16) + 16 * (u / 16 % 16) + u % 16
  {
    assert u / 256 == 16 * (u / 4096) + u / 256 % 16;
    assert u / 16 == 16 * (u / 256) + u / 16 % 16;
  }

  lemma UnicodeInjective(u: Unit, v: Unit)
    requires UnicodeEscape(u)[2..] == UnicodeEscape(v)[2..]
    ensures u == v
  {
    assert UnicodeEscape(u)[2..][0] == HexUnit(u / 4096) && UnicodeEscape(v)[2..][0] == HexUnit(v / 4096);
    assert UnicodeEscape(u)[2..][1] == HexUnit(u / 256 % 16) && UnicodeEscape(v)[2..][1] == HexUnit(v / 256 % 16);
    assert UnicodeEscape(u)[2..][2] == HexUnit(u / 16 % 16) && UnicodeEscape(v)[2..][2] == HexUnit(v / 16 % 16);
    assert UnicodeEscape(u)[2..][3] == HexUnit(u % 16) && UnicodeEscape(v)[2..][3] == HexUnit(v % 16);
    Nibbles(u);
    Nibbles(v);
    hide UnicodeEscape;
    HexInjective(u / 4096, v / 4096);
    HexInjective(u / 256 % 16, v / 256 % 16);
    HexInjective(u / 16 % 16, v / 16 % 16);
    HexInjective(u % 16, v % 16);
    hide HexUnit;
  }

  /** Whatever follows, the escape of one unit tells the unit and where it ends. */
  lemma UnitReadable(u: Unit, v: Unit, x: Text, y: Text)
    requires EscapeUnit(u) + x == EscapeUnit(v) + y
    ensures u == v && x == y
  {
    var z := EscapeUnit(u) + x;
    assert z[0] == EscapeUnit(u)[0] && z[0] == EscapeUnit(v)[0];
    if ShortEscape(u) != 0 || u < 32 || Lead(u) || Trail(u) {
      assert z[1] == EscapeUnit(u)[1] && z[1] == EscapeUnit(v)[1];
      if z[1] == 117 {
        assert z[2..6] == UnicodeEscape(u)[2..] == UnicodeEscape(v)[2..];
        UnicodeInjective(u, v);
      }
    }
    assert x == z[|EscapeUnit(u)|..] && y == z[|EscapeUnit(v)|..];
  }

  lemma PairSplit(s: Text, x: Text)
    requires StartsPair(s)
    ensures var z := Escape(s) + [QUOTE] + x; z[0] == s[0] && z[1] == s[1] && z[2..] == Escape(s[2..]) + [QUOTE] + x
  {
  }

  lemma UnitSplit(s: Text, x: Text)
    requires s != [] && !StartsPair(s)
    ensures Escape(s) + [QUOTE] + x == EscapeUnit(s[0]) + (Escape(s[1..]) + [QUOTE] + x)
  {
  }

  /** The text of a string and its closing quote can be told apart from what follows. */
  lemma {:induction false} EscapeReadable(s: Text, t: Text, x: Text, y: Text)
    requires Escape(s) + [QUOTE] + x == Escape(t) + [QUOTE] + y
    ensures s == t && x == y
  {
    var z := Escape(s) + [QUOTE] + x;
    EscapeStart(s, x);
    EscapeStart(t, y);
    if s == [] || t == [] {
      assert x == z[1..] && y == z[1..];
    } else if StartsPair(s) {
      PairSplit(s, x);
      PairSplit(t, y);
      hide Escape;
      EscapeReadable(s[2..], t[2..], x, y);
      assert s == [s[0], s[1]] + s[2..] && t == [t[0], t[1]] + t[2..];
    } else {
      UnitSplit(s, x);
      UnitSplit(t, y);
      hide Escape, EscapeUnit;
      UnitReadable(s[0], t[0], Escape(s[1..]) + [QUOTE] + x, Escape(t[1..]) + [QUOTE] + y);
      EscapeReadable(s[1..], t[1..], x, y);
      assert s == [s[0]] + s[1..] && t == [t[0]] + t[1..];
    }
  }

  lemma EscapeStart(s: Text, x: Text)
    ensures var z := Escape(s) + [QUOTE] + x;
            && (z[0] == QUOTE <==> s == [])
            && (s != [] ==> (Lead(z[0]) <==> StartsPair(s)))
  {
    if s != [] && !StartsPair(s) {
      assert (Escape(s) + [QUOTE] + x)[0] == EscapeUnit(s[0])[0];
    }
  }

  lemma QuoteReadable(s: Text, t: Text, x: Text, y: Text)
    requires Quote(s) + x == Quote(t) + y
    ensures s == t && x == y
  {
    assert (Quote(s) + x)[1..] == Escape(s) + [QUOTE] + x;
    assert (Quote(t) + y)[1..] == Escape(t) + [QUOTE] + y;
    EscapeReadable(s, t, x, y);
  }
}
