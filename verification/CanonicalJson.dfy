/** The canonical printer (src/lib/portable-answer-prompt.ts:375-392). */
module CanonicalJson {
  import opened Wrappers
  import opened Sequences
  import opened JsonText
  import opened JsonNumber
  import opened JsonValue
  import opened Sorting

  datatype PrintError = NonJson

  // ---- The printer ---------------------------------------------------------------------------

  function Defined(entries: seq<Member>): (r: seq<Member>)
    ensures forall e :: e in r <==> e in entries && !e.value.Undefined?
  {
    if entries == [] then []
    else if entries[0].value.Undefined? then Defined(entries[1..])
    else [entries[0]] + Defined(entries[1..])
  }

  function KeyOf(): Member -> Text {
    (e: Member) => e.key
  }

  /** The entries an object prints, in printing order. */
  function Printed(entries: seq<Member>, cmp: (Text, Text) -> int): (r: seq<Member>)
    ensures forall e :: e in r <==> e in entries && !e.value.Undefined?
  {
    var sorted := Sort(Defined(entries), By(KeyOf(), cmp));
    SortPermutes(Defined(entries), By(KeyOf(), cmp));
    SameMembers(sorted, Defined(entries));
    sorted
  }

  function Print(v: Value, cmp: (Text, Text) -> int): Result<Text, PrintError>
    decreases v, 1
  {
    match v
    case Null => Ok(NULL)
    case Bool(b) => Ok(if b then TRUE else FALSE)
    case Num(x) => Ok(NumberText(x))
    case NonFinite => Ok(NULL)
    case Str(s) => Ok(Quote(s))
    case Arr(items) =>
      var parts :- PrintItems(v, items, cmp);
      Ok([OPEN_ARRAY] + Join(parts) + [CLOSE_ARRAY])
    case Obj(entries) =>
      var parts :- PrintEntries(v, Printed(entries, cmp), cmp);
      Ok([OPEN_OBJECT] + Join(parts) + [CLOSE_OBJECT])
    case Undefined => Err(NonJson)
    case Foreign => Err(NonJson)
  }

  function PrintItems(ghost parent: Value, items: seq<Value>, cmp: (Text, Text) -> int): (r: Result<seq<Text>, PrintError>)
    requires forall x | x in items :: x < parent
    ensures r.Ok? ==> |r.value| == |items|
    decreases parent, 0, |items|
  {
    if items == [] then Ok([])
    else
      assert items[0] in items && forall x | x in items[1..] :: x in items;
      var part :- Print(items[0], cmp);
      var rest :- PrintItems(parent, items[1..], cmp);
      Ok([part] + rest)
  }

  function PrintEntries(ghost parent: Value, entries: seq<Member>, cmp: (Text, Text) -> int): (r: Result<seq<Text>, PrintError>)
    requires forall e | e in entries :: e.value < parent
    ensures r.Ok? ==> |r.value| == |entries|
    decreases parent, 0, |entries|
  {
    if entries == [] then Ok([])
    else
      var part :- Print(entries[0].value, cmp);
      var rest :- PrintEntries(parent, entries[1..], cmp);
      Ok([Quote(entries[0].key) + [COLON] + part] + rest)
  }

  // ---- What a value means ----------------------------------------------------------------------

  /** Content of a value: objects are maps, undefined entries are absent. */
  datatype Canon =
    | CNull
    | CBool(b: bool)
    | CNum(number: Number)
    | CNonFinite
    | CStr(s: Text)
    | CArr(items: seq<Canon>)
    | CObj(fields: map<Text, Canon>)

  function Lookup(entries: seq<Member>, key: Text): (r: Member)
    requires exists e :: e in entries && e.key == key
    ensures r in entries && r.key == key
  {
    if entries[0].key == key then entries[0] else Lookup(entries[1..], key)
  }

  /** The content of a value, when a non-finite number means `hole`. */
  ghost function Content(v: Value, hole: Canon): Canon {
    match v
    case Null => CNull
    case Bool(b) => CBool(b)
    case Num(x) => CNum(x)
    case NonFinite => hole
    case Str(s) => CStr(s)
    case Arr(items) => CArr(seq(|items|, i requires 0 <= i < |items| => Content(items[i], hole)))
    case Obj(entries) =>
      CObj(map key | key in (set e | e in Defined(entries) :: e.key) :: Content(Lookup(Defined(entries), key).value, hole))
    case Undefined => CNull
    case Foreign => CNull
  }

  /** The content as JSON: JSON.stringify turns a non-finite number into null. */
  ghost function Denote(v: Value): Canon {
    Content(v, CNull)
  }

  /** The content as it is, non-finite numbers included. */
  ghost function Exact(v: Value): Canon {
    Content(v, CNonFinite)
  }

  ghost predicate DistinctKeys(entries: seq<Member>) {
    forall i, j | 0 <= i < j < |entries| :: entries[i].key != entries[j].key
  }

  /** What JavaScript guarantees: distinct keys, and the digits Number::toString chooses. */
  ghost predicate WellFormed(v: Value) {
    match v
    case Num(x) => NumberOk(x)
    case Arr(items) => forall i | 0 <= i < |items| :: WellFormed(items[i])
    case Obj(entries) => DistinctKeys(entries) && forall i | 0 <= i < |entries| :: WellFormed(entries[i].value)
    case _ => true
  }

  /** JSON data: no undefined outside an object's entries, nothing but the JSON types. */
  ghost predicate IsJson(v: Value) {
    match v
    case Undefined => false
    case Foreign => false
    case Arr(items) => forall i | 0 <= i < |items| :: IsJson(items[i])
    case Obj(entries) => forall i | 0 <= i < |entries| :: entries[i].value.Undefined? || IsJson(entries[i].value)
    case _ => true
  }

  // ---- What a caller can check -------------------------------------------------------------------

  /** No number of the value, at any depth, is NaN or infinite. */
  predicate Finite(v: Value) {
    match v
    case NonFinite => false
    case Arr(items) => forall i | 0 <= i < |items| :: Finite(items[i])
    case Obj(entries) => forall i | 0 <= i < |entries| :: Finite(entries[i].value)
    case _ => true
  }

  /** Two printed entries of an object whose different keys the comparator ties. */
  predicate Tied(e: Member, f: Member, cmp: (Text, Text) -> int) {
    e.key != f.key && cmp(e.key, f.key) <= 0 && cmp(f.key, e.key) <= 0
  }

  /** In no object of the value do two different printed keys tie. */
  predicate KeysApart(v: Value, cmp: (Text, Text) -> int) {
    match v
    case Arr(items) => forall i | 0 <= i < |items| :: KeysApart(items[i], cmp)
    case Obj(entries) =>
      && (forall i, j | 0 <= i < |entries| && 0 <= j < |entries| && !entries[i].value.Undefined? && !entries[j].value.Undefined? ::
            !Tied(entries[i], entries[j], cmp))
      && forall i | 0 <= i < |entries| && !entries[i].value.Undefined? :: KeysApart(entries[i].value, cmp)
    case _ => true
  }
}
