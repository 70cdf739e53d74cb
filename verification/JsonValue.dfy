/** JavaScript values as far as JSON is concerned, and the punctuation of JSON texts. */
module JsonValue {
  import opened JsonText
  import opened JsonNumber

  datatype Value =
    | Null
    | Bool(b: bool)
    | Num(number: Number)
    | NonFinite
    | Str(s: Text)
    | Arr(items: seq<Value>)
    | Obj(entries: seq<Member>)
    | Undefined
    | Foreign

  /** An own enumerable property. */
  datatype Member = Member(key: Text, value: Value)

  const COMMA: Unit := 44
  const COLON: Unit := 58
  const OPEN_ARRAY: Unit := 91
  const CLOSE_ARRAY: Unit := 93
  const OPEN_OBJECT: Unit := 123
  const CLOSE_OBJECT: Unit := 125

  const NULL: Text := [110, 117, 108, 108]
  const TRUE: Text := [116, 114, 117, 101]
  const FALSE: Text := [102, 97, 108, 115, 101]

  /** `parts.join(',')`. */
  function Join(parts: seq<Text>): Text {
    if |parts| == 0 then [] else if |parts| == 1 then parts[0] else parts[0] + [COMMA] + Join(parts[1..])
  }
}
