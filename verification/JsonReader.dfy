/** JSON.parse, by recursive descent over the grammar of RFC 8259; numbers are read as decimals, unrounded. */
module JsonReader {
  import opened Wrappers
  import opened JsonText
  import opened JsonNumber
  import opened JsonValue

  predicate Space(u: Unit) {
    u == 32 || u == 9 || u == 10 || u == 13
  }

  function SkipSpace(s: Text): (r: Text)
    ensures |r| <= |s|
  {
    if s != [] && Space(s[0]) then SkipSpace(s[1..]) else s
  }

  /** A value that has been read, and the text after it. */
  datatype Read<+T> = Fail | Got(value: T, rest: Text)

  function HexValue(u: Unit): Option<int> {
    if 48 <= u <= 57 then Some(u - 48)
    else if 97 <= u <= 102 then Some(u - 87)
    else if 65 <= u <= 70 then Some(u - 55)
    else None
  }

  function ReadHex(s: Text): (r: Read<Unit>)
    ensures r.Got? ==> |s| >= 4 && r.rest == s[4..]
  {
    if |s| < 4 || HexValue(s[0]).None? || HexValue(s[1]).None? || HexValue(s[2]).None? || HexValue(s[3]).None? then Fail
    else
      var n := HexValue(s[0]).value * 4096 + HexValue(s[1]).value * 256 + HexValue(s[2]).value * 16 + HexValue(s[3]).value;
      if 0 <= n < 0x1_0000 then Got(n, s[4..]) else Fail
  }

  function Unescape(u: Unit): Option<Unit> {
    match u
    case 34 => Some(34)
    case 92 => Some(92)
    case 47 => Some(47)
    case 98 => Some(8)
    case 102 => Some(12)
    case 110 => Some(10)
    case 114 => Some(13)
    case 116 => Some(9)
    case _ => None
  }

  /** The rest of a string after its opening quote. */
  function ReadString(s: Text): (r: Read<Text>)
    ensures r.Got? ==> |r.rest| < |s|
    decreases |s|
  {
    if s == [] || s[0] < 32 then Fail
    else if s[0] == QUOTE then Got([], s[1..])
    else if s[0] != BACKSLASH then Prepend(s[0], ReadString(s[1..]))
    else if |s| < 2 then Fail
    else if s[1] == 117 then
      match ReadHex(s[2..])
      case Fail => Fail
      case Got(u, rest) => Prepend(u, ReadString(rest))
    else
      match Unescape(s[1])
      case None => Fail
      case Some(u) => Prepend(u, ReadString(s[2..]))
  }

  function Prepend(u: Unit, r: Read<Text>): Read<Text> {
    match r
    case Fail => Fail
    case Got(value, rest) => Got([u] + value, rest)
  }

  function ReadDigits(s: Text): (r: Read<Text>)
    ensures r.Got? && |r.rest| <= |s| && |r.value| + |r.rest| == |s|
  {
    if s != [] && DigitUnit(s[0]) then
      var more := ReadDigits(s[1..]);
      Got([s[0]] + more.value, more.rest)
    else Got([], s)
  }

  /** A fraction or exponent: its mark, then at least one digit; nothing if the mark is absent. */
  function ReadFraction(s: Text): (r: Read<Text>)
    ensures r.Got? ==> |r.rest| <= |s|
  {
    if s == [] || s[0] != 46 then Got([], s)
    else
      var digits := ReadDigits(s[1..]);
      if digits.value == [] then Fail else Got([s[0]] + digits.value, digits.rest)
  }

  function ReadExponent(s: Text): (r: Read<Text>)
    ensures r.Got? ==> |r.rest| <= |s|
  {
    if s == [] || (s[0] != 101 && s[0] != 69) then Got([], s)
    else
      var signed := if |s| > 1 && (s[1] == 43 || s[1] == 45) then 2 else 1;
      var digits := ReadDigits(s[signed..]);
      if digits.value == [] then Fail else Got(s[..signed] + digits.value, digits.rest)
  }

  function DigitValues(t: Text): seq<int> {
    seq(|t|, i requires 0 <= i < |t| => t[i] as int - 48)
  }

  function DecimalValue(t: Text): int {
    if t == [] then 0 else DecimalValue(t[..|t| - 1]) * 10 + t[|t| - 1] - 48
  }

  function ExponentValue(t: Text): int {
    if |t| < 2 then 0
    else if t[1] == MINUS then -DecimalValue(t[2..])
    else if t[1] == PLUS then DecimalValue(t[2..])
    else DecimalValue(t[1..])
  }

  /** Digits without the zeros around them. */
  function Shortened(negative: bool, digits: seq<int>, point: int): (r: Number)
    ensures (forall i | 0 <= i < |digits| :: 0 <= digits[i] < 10) ==> NumberOk(r)
    decreases |digits|
  {
    if digits == [] then Zero
    else if digits[0] == 0 then Shortened(negative, digits[1..], point - 1)
    else if digits[|digits| - 1] == 0 then Shortened(negative, digits[..|digits| - 1], point)
    else Decimal(negative, digits, point)
  }

  /** An optional sign, an integer without leading zeros, a fraction, an exponent. */
  function ReadNumber(s: Text): (r: Read<Number>)
    ensures r.Got? ==> |r.rest| < |s|
  {
    var sign := if s != [] && s[0] == MINUS then 1 else 0;
    var whole := ReadDigits(s[sign..]);
    if whole.value == [] || (|whole.value| > 1 && whole.value[0] == 48) then Fail
    else
      match ReadFraction(whole.rest)
      case Fail => Fail
      case Got(fraction, rest) =>
        match ReadExponent(rest)
        case Fail => Fail
        case Got(exponent, after) =>
          var digits := DigitValues(whole.value + if fraction == [] then [] else fraction[1..]);
          Got(Shortened(sign == 1, digits, |whole.value| + ExponentValue(exponent)), after)
  }

  function ReadLiteral(s: Text, literal: Text, value: Value): (r: Read<Value>)
    ensures r.Got? && literal != [] ==> |r.rest| < |s|
  {
    if literal <= s then Got(value, s[|literal|..]) else Fail
  }

  function ReadValue(s: Text): (r: Read<Value>)
    ensures r.Got? ==> |r.rest| < |s|
    decreases |s|, 1
  {
    if s == [] then Fail
    else if s[0] == OPEN_OBJECT then
      var t := SkipSpace(s[1..]);
      if t != [] && t[0] == CLOSE_OBJECT then Got(Obj([]), t[1..])
      else
        match ReadMembers(t)
        case Fail => Fail
        case Got(entries, rest) => Got(Obj(entries), rest)
    else if s[0] == OPEN_ARRAY then
      var t := SkipSpace(s[1..]);
      if t != [] && t[0] == CLOSE_ARRAY then Got(Arr([]), t[1..])
      else
        match ReadElements(t)
        case Fail => Fail
        case Got(items, rest) => Got(Arr(items), rest)
    else if s[0] == QUOTE then
      match ReadString(s[1..])
      case Fail => Fail
      case Got(text, rest) => Got(Str(text), rest)
    else if s[0] == MINUS || DigitUnit(s[0]) then
      match ReadNumber(s)
      case Fail => Fail
      case Got(number, rest) => Got(Num(number), rest)
    else if s[0] == 116 then ReadLiteral(s, TRUE, Bool(true))
    else if s[0] == 102 then ReadLiteral(s, FALSE, Bool(false))
    else ReadLiteral(s, NULL, Null)
  }

  /** `"key" : value`, with the white space around its parts. */
  function ReadMember(s: Text): (r: Read<Member>)
    ensures r.Got? ==> |r.rest| < |s|
    decreases |s|, 0
  {
    if s == [] || s[0] != QUOTE then Fail
    else
      match ReadString(s[1..])
      case Fail => Fail
      case Got(key, afterKey) =>
        var colon := SkipSpace(afterKey);
        if colon == [] || colon[0] != COLON then Fail
        else
          match ReadValue(SkipSpace(colon[1..]))
          case Fail => Fail
          case Got(value, rest) => Got(Member(key, value), SkipSpace(rest))
  }

  /** The members of an object, up to and with its closing brace. */
  function ReadMembers(s: Text): (r: Read<seq<Member>>)
    ensures r.Got? ==> |r.rest| < |s|
    decreases |s|, 2
  {
    match ReadMember(s)
    case Fail => Fail
    case Got(entry, after) =>
      if after == [] then Fail
      else if after[0] == CLOSE_OBJECT then Got([entry], after[1..])
      else if after[0] != COMMA then Fail
      else
        match ReadMembers(SkipSpace(after[1..]))
        case Fail => Fail
        case Got(entries, rest) => Got([entry] + entries, rest)
  }

  function ReadElements(s: Text): (r: Read<seq<Value>>)
    ensures r.Got? ==> |r.rest| < |s|
    decreases |s|, 2
  {
    match ReadValue(s)
    case Fail => Fail
    case Got(value, rest) =>
      var after := SkipSpace(rest);
      if after == [] then Fail
      else if after[0] == CLOSE_ARRAY then Got([value], after[1..])
      else if after[0] != COMMA then Fail
      else
        match ReadElements(SkipSpace(after[1..]))
        case Fail => Fail
        case Got(items, end) => Got([value] + items, end)
  }

  function Parse(s: Text): Option<Value> {
    match ReadValue(SkipSpace(s))
    case Fail => None
    case Got(value, rest) => if SkipSpace(rest) == [] then Some(value) else None
  }
}
