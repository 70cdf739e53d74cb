/** A printed value reads back: same content, keys in order. */
module CanonicalReadBack {
  import opened Wrappers
  import opened Sequences
  import opened JsonText
  import opened JsonNumber
  import opened JsonValue
  import opened JsonReader
  import opened JsonReadBack
  import opened Sorting
  import opened CanonicalJson
  import opened CanonicalFacts
  import opened CanonicalOrder

  /** What the printed text of a value holds: its entries as they are printed, null for a non-finite number. */
  ghost function Stored(v: Value, cmp: (Text, Text) -> int): Value
    decreases v, 1
  {
    match v
    case NonFinite => Null
    case Arr(items) => Arr(StoredItems(v, items, cmp))
    case Obj(entries) => Obj(StoredEntries(v, Printed(entries, cmp), cmp))
    case _ => v
  }

  ghost function StoredItems(parent: Value, items: seq<Value>, cmp: (Text, Text) -> int): (r: seq<Value>)
    requires forall x | x in items :: x < parent
    ensures |r| == |items| && forall i | 0 <= i < |items| :: items[i] in items && r[i] == Stored(items[i], cmp)
    decreases parent, 0, |items|
  {
    if items == [] then []
    else
      assert items[0] in items && forall x | x in items[1..] :: x in items;
      [Stored(items[0], cmp)] + StoredItems(parent, items[1..], cmp)
  }

  ghost function StoredEntries(parent: Value, entries: seq<Member>, cmp: (Text, Text) -> int): (r: seq<Member>)
    requires forall e | e in entries :: e.value < parent
    ensures |r| == |entries| && forall i | 0 <= i < |entries| :: r[i] == Member(entries[i].key, Stored(entries[i].value, cmp))
    decreases parent, 0, |entries|
  {
    if entries == [] then []
    else
      assert entries[0] in entries && forall e | e in entries[1..] :: e in entries;
      [Member(entries[0].key, Stored(entries[0].value, cmp))] + StoredEntries(parent, entries[1..], cmp)
  }

  // ---- Reading the text ---------------------------------------------------------------------------------

  lemma StartSkips(t: Text)
    requires t != [] && !Space(t[0])
    ensures SkipSpace(t) == t
  {
  }

  lemma DelimitedSkips(x: Text)
    requires Delimited(x)
    ensures SkipSpace(x) == x && EndsNumber(x)
  {
  }

  /** A text that starts like a value is no closing bracket and no white space. */
  lemma KindSkips(t: Text)
    requires t != [] && KindOf(t[0]) != 7
    ensures SkipSpace(t) == t && t[0] != CLOSE_ARRAY && t[0] != CLOSE_OBJECT
  {
  }

  lemma ElementsOne(s: Text, value: Value, x: Text)
    requires ReadValue(s) == Got(value, [CLOSE_ARRAY] + x)
    ensures ReadElements(s) == Got([value], x)
  {
    var after := [CLOSE_ARRAY] + x;
    StartSkips(after);
    hide ReadValue, SkipSpace;
    assert after[1..] == x;
  }

  lemma ElementsMore(s: Text, value: Value, rest: Text, items: seq<Value>, x: Text)
    requires ReadValue(s) == Got(value, [COMMA] + rest) && SkipSpace(rest) == rest && ReadElements(rest) == Got(items, x)
    ensures ReadElements(s) == Got([value] + items, x)
  {
    var after := [COMMA] + rest;
    StartSkips(after);
    hide ReadValue, SkipSpace;
    assert after[1..] == rest;
  }

  lemma MembersOne(s: Text, entry: Member, x: Text)
    requires ReadMember(s) == Got(entry, [CLOSE_OBJECT] + x)
    ensures ReadMembers(s) == Got([entry], x)
  {
    hide ReadMember;
    assert ([CLOSE_OBJECT] + x)[1..] == x;
  }

  lemma MembersMore(s: Text, entry: Member, rest: Text, entries: seq<Member>, x: Text)
    requires ReadMember(s) == Got(entry, [COMMA] + rest) && SkipSpace(rest) == rest && ReadMembers(rest) == Got(entries, x)
    ensures ReadMembers(s) == Got([entry] + entries, x)
  {
    hide ReadMember, SkipSpace;
    assert ([COMMA] + rest)[1..] == rest;
  }

  lemma MemberReads(key: Text, t: Text, value: Value, x: Text)
    requires t != [] && KindOf(t[0]) != 7 && Delimited(x) && ReadValue(t + x) == Got(value, x)
    ensures ReadMember(Quote(key) + [COLON] + t + x) == Got(Member(key, value), x)
  {
    var colon := [COLON] + (t + x);
    QuotedReadsBack(key, colon);
    StartSkips(colon);
    KindSkips(t + x);
    DelimitedSkips(x);
    hide *;
    FourParts(Quote(key), [COLON], t, x);
    AfterColon(t + x);
    MemberSteps(Quote(key) + colon, key, colon, value, x);
  }

  lemma AfterColon(t: Text)
    ensures ([COLON] + t)[0] == COLON && ([COLON] + t)[1..] == t
  {
  }

  lemma ArrayReads(t: Text, items: seq<Value>, x: Text)
    requires t != [] && SkipSpace(t) == t && t[0] != CLOSE_ARRAY && ReadElements(t) == Got(items, x)
    ensures ReadValue([OPEN_ARRAY] + t) == Got(Arr(items), x)
  {
    hide ReadElements, SkipSpace;
    assert ([OPEN_ARRAY] + t)[1..] == t;
  }

  lemma ObjectReads(t: Text, entries: seq<Member>, x: Text)
    requires t != [] && SkipSpace(t) == t && t[0] != CLOSE_OBJECT && ReadMembers(t) == Got(entries, x)
    ensures ReadValue([OPEN_OBJECT] + t) == Got(Obj(entries), x)
  {
    hide ReadMembers, SkipSpace;
    assert ([OPEN_OBJECT] + t)[1..] == t;
  }

  lemma EmptyReads(x: Text)
    ensures ReadValue([OPEN_ARRAY] + [] + [CLOSE_ARRAY] + x) == Got(Arr([]), x)
    ensures ReadValue([OPEN_OBJECT] + [] + [CLOSE_OBJECT] + x) == Got(Obj([]), x)
  {
    var a, o := [OPEN_ARRAY] + [] + [CLOSE_ARRAY] + x, [OPEN_OBJECT] + [] + [CLOSE_OBJECT] + x;
    assert a[1..] == [CLOSE_ARRAY] + x && o[1..] == [CLOSE_OBJECT] + x;
    StartSkips(a[1..]);
    StartSkips(o[1..]);
    assert a[1..][1..] == x && o[1..][1..] == x;
    hide SkipSpace, ReadElements, ReadMembers;
  }

  lemma LiteralReads(v: Value, cmp: (Text, Text) -> int, x: Text)
    requires v.Null? || v.Bool? || v.NonFinite?
    ensures ReadValue(Print(v, cmp).value + x) == Got(Stored(v, cmp), x)
  {
    var t := Print(v, cmp).value;
    assert t <= t + x && (t + x)[|t|..] == x;
  }

  lemma NumberValueReads(a: Number, x: Text)
    requires NumberOk(a) && Delimited(x)
    ensures ReadValue(NumberText(a) + x) == Got(Num(a), x)
  {
    DelimitedSkips(x);
    NumberReadsBack(a, x);
    NumberShape(a);
    hide ReadNumber, NumberText, NumberOk, Delimited, ReadLiteral, ReadString;
  }

  lemma RestDelimited(parts: seq<Text>, close: Unit, x: Text)
    requires parts != [] && (close == CLOSE_ARRAY || close == CLOSE_OBJECT)
    ensures Delimited(JoinRest(parts, close, x))
    ensures |parts| == 1 ==> JoinRest(parts, close, x) == [close] + x
    ensures |parts| > 1 ==> JoinRest(parts, close, x) == [COMMA] + (Join(parts[1..]) + [close] + x)
  {
    hide Join;
  }

  lemma JoinSkips(parts: seq<Text>, close: Unit, x: Text)
    requires parts != [] && parts[0] != [] && KindOf(parts[0][0]) != 7
    ensures var t := Join(parts) + [close] + x; t != [] && SkipSpace(t) == t && t[0] == parts[0][0]
  {
    JoinSplit(parts, close, x);
    hide Join, SkipSpace, KindOf;
    KindSkips(Join(parts) + [close] + x);
  }

  lemma {:induction false} ItemsReadBack(v: Value, vs: seq<Value>, x: Text, cmp: (Text, Text) -> int)
    requires vs != [] && (forall e | e in vs :: e < v && WellFormed(e)) && PrintItems(v, vs, cmp).Ok?
    ensures ReadElements(Join(PrintItems(v, vs, cmp).value) + [CLOSE_ARRAY] + x) == Got(StoredItems(v, vs, cmp), x)
    decreases v, 0, |vs|
  {
    hide ReadValue, ReadElements, Join, JoinRest, Stored, StoredItems, Print, PrintItems, WellFormed, KindOf, SkipSpace;
    var ps := PrintItems(v, vs, cmp).value;
    var t := Join(ps) + [CLOSE_ARRAY] + x;
    ItemsHead(v, vs, cmp);
    StoredFirst(v, vs, cmp);
    JoinSplit(ps, CLOSE_ARRAY, x);
    RestDelimited(ps, CLOSE_ARRAY, x);
    ReadsBack(vs[0], JoinRest(ps, CLOSE_ARRAY, x), cmp);
    if |vs| == 1 {
      ElementsOne(t, Stored(vs[0], cmp), x);
    } else {
      ItemsReadBack(v, vs[1..], x, cmp);
      ItemsHead(v, vs[1..], cmp);
      FirstSkips(vs[1], cmp);
      JoinSkips(ps[1..], CLOSE_ARRAY, x);
      ElementsMore(t, Stored(vs[0], cmp), Join(ps[1..]) + [CLOSE_ARRAY] + x, StoredItems(v, vs[1..], cmp), x);
    }
  }

  lemma FirstSkips(v: Value, cmp: (Text, Text) -> int)
    requires WellFormed(v) && Print(v, cmp).Ok?
    ensures Print(v, cmp).value != [] && KindOf(Print(v, cmp).value[0]) != 7
  {
    FirstUnit(v, cmp);
    hide Print, WellFormed, KindOf;
  }

  lemma StoredFirst(v: Value, vs: seq<Value>, cmp: (Text, Text) -> int)
    requires vs != [] && forall e | e in vs :: e < v
    ensures forall e | e in vs[1..] :: e in vs
    ensures StoredItems(v, vs, cmp) == [Stored(vs[0], cmp)] + StoredItems(v, vs[1..], cmp)
    ensures |vs| == 1 ==> StoredItems(v, vs, cmp) == [Stored(vs[0], cmp)]
  {
    assert vs[0] in vs && forall e | e in vs[1..] :: e in vs;
    hide Stored;
  }

  lemma EntryReadsBack(e: Member, rest: Text, cmp: (Text, Text) -> int)
    requires WellFormed(e.value) && Print(e.value, cmp).Ok? && Delimited(rest)
    requires ReadValue(Print(e.value, cmp).value + rest) == Got(Stored(e.value, cmp), rest)
    ensures ReadMember(Quote(e.key) + [COLON] + Print(e.value, cmp).value + rest) == Got(Member(e.key, Stored(e.value, cmp)), rest)
  {
    FirstUnit(e.value, cmp);
    hide ReadValue, ReadMember, Stored, Print, WellFormed, Quote, Delimited, KindOf;
    MemberReads(e.key, Print(e.value, cmp).value, Stored(e.value, cmp), rest);
  }

  lemma {:induction false} EntriesReadBack(v: Value, vs: seq<Member>, x: Text, cmp: (Text, Text) -> int)
    requires vs != [] && Below(vs, v) && PrintEntries(v, vs, cmp).Ok? && |PrintEntries(v, vs, cmp).value| == |vs|
    ensures ReadMembers(Join(PrintEntries(v, vs, cmp).value) + [CLOSE_OBJECT] + x) == Got(StoredEntries(v, vs, cmp), x)
    decreases v, 0, |vs|
  {
    var ps := PrintEntries(v, vs, cmp).value;
    hide ReadValue, ReadMember, ReadMembers, Join, JoinRest, Stored, StoredEntries, Print, PrintEntries, WellFormed, Quote, SkipSpace, KindOf, Below;
    var t := Join(ps) + [CLOSE_OBJECT] + x;
    EntriesHead(v, vs, cmp);
    StoredHead(v, vs, cmp);
    JoinSplit(ps, CLOSE_OBJECT, x);
    RestDelimited(ps, CLOSE_OBJECT, x);
    ReadsBack(vs[0].value, JoinRest(ps, CLOSE_OBJECT, x), cmp);
    EntryReadsBack(vs[0], JoinRest(ps, CLOSE_OBJECT, x), cmp);
    var entry := Member(vs[0].key, Stored(vs[0].value, cmp));
    if |vs| == 1 {
      MembersOne(t, entry, x);
    } else {
      EntriesReadBack(v, vs[1..], x, cmp);
      EntriesHead(v, vs[1..], cmp);
      QuoteKind();
      JoinSkips(ps[1..], CLOSE_OBJECT, x);
      MembersMore(t, entry, Join(ps[1..]) + [CLOSE_OBJECT] + x, StoredEntries(v, vs[1..], cmp), x);
    }
  }

  lemma QuoteKind()
    ensures KindOf(QUOTE) == 4
  {
  }

  lemma StoredHead(v: Value, vs: seq<Member>, cmp: (Text, Text) -> int)
    requires vs != [] && Below(vs, v)
    ensures Below(vs[1..], v)
    ensures StoredEntries(v, vs, cmp) == [Member(vs[0].key, Stored(vs[0].value, cmp))] + StoredEntries(v, vs[1..], cmp)
    ensures |vs| == 1 ==> StoredEntries(v, vs, cmp) == [Member(vs[0].key, Stored(vs[0].value, cmp))]
  {
    assert vs[0] in vs && forall e | e in vs[1..] :: e in vs;
    hide Stored, WellFormed;
  }

  /** Whatever delimiter follows, a reader gets from the text of a value what is stored in it, and stops at its end. */
  lemma {:induction false} ReadsBack(v: Value, x: Text, cmp: (Text, Text) -> int)
    requires WellFormed(v) && Print(v, cmp).Ok? && Delimited(x)
    ensures ReadValue(Print(v, cmp).value + x) == Got(Stored(v, cmp), x)
    decreases v, 1
  {
    match v
    case Num(a) => NumberValueReads(a, x);
    case Str(s) => StringValueReads(s, x);
    case Arr(items) => ArrayReadsBack(v, x, cmp);
    case Obj(entries) => ObjectReadsBack(v, x, cmp);
    case _ => LiteralReads(v, cmp, x);
  }

  lemma {:induction false} ArrayReadsBack(v: Value, x: Text, cmp: (Text, Text) -> int)
    requires v.Arr? && WellFormed(v) && Print(v, cmp).Ok?
    ensures ReadValue(Print(v, cmp).value + x) == Got(Stored(v, cmp), x)
    decreases v, 0, |v.items| + 1
  {
    var ps := PrintItems(v, v.items, cmp).value;
    var t := Join(ps) + [CLOSE_ARRAY] + x;
    assert Print(v, cmp).value + x == [OPEN_ARRAY] + t;
    assert Stored(v, cmp) == Arr(StoredItems(v, v.items, cmp));
    if v.items == [] {
      EmptyReads(x);
    } else {
      assert forall e | e in v.items :: e < v && WellFormed(e);
      ItemsReadBack(v, v.items, x, cmp);
      ItemsHead(v, v.items, cmp);
      FirstUnit(v.items[0], cmp);
      hide *;
      JoinSkips(ps, CLOSE_ARRAY, x);
      ArrayReads(t, StoredItems(v, v.items, cmp), x);
    }
  }

  lemma {:induction false} ObjectReadsBack(v: Value, x: Text, cmp: (Text, Text) -> int)
    requires v.Obj? && WellFormed(v) && Print(v, cmp).Ok?
    ensures ReadValue(Print(v, cmp).value + x) == Got(Stored(v, cmp), x)
    decreases v, 0, |Printed(v.entries, cmp)| + 1
  {
    ObjectText(v, cmp);
    var vs := Printed(v.entries, cmp);
    var ps := PrintEntries(v, vs, cmp).value;
    var t := Join(ps) + [CLOSE_OBJECT] + x;
    StoredObject(v, cmp);
    hide *;
    assert Print(v, cmp).value + x == [OPEN_OBJECT] + t;
    if vs == [] {
      NoParts(v, cmp);
      EmptyReads(x);
      assert [OPEN_OBJECT] + t == [OPEN_OBJECT] + [] + [CLOSE_OBJECT] + x;
    } else {
      EntriesHead(v, vs, cmp);
      EntriesReadBack(v, vs, x, cmp);
      QuoteKind();
      JoinSkips(ps, CLOSE_OBJECT, x);
      ObjectStarts();
      ObjectReads(t, StoredEntries(v, vs, cmp), x);
    }
  }

  lemma ObjectStarts()
    ensures QUOTE != CLOSE_OBJECT
  {
  }

  lemma StoredObject(v: Value, cmp: (Text, Text) -> int)
    requires v.Obj? && Below(Printed(v.entries, cmp), v)
    ensures Stored(v, cmp) == Obj(StoredEntries(v, Printed(v.entries, cmp), cmp))
  {
    hide Printed, StoredEntries;
  }

  lemma NoParts(v: Value, cmp: (Text, Text) -> int)
    requires v.Obj?
    ensures PrintEntries(v, [], cmp).value == [] && Join([]) == [] && StoredEntries(v, [], cmp) == []
  {
  }

  // ---- What is stored ------------------------------------------------------------------------------------

  /** In every object, at any depth, the keys stand in the order of the comparator. */
  ghost predicate InOrder(w: Value, cmp: (Text, Text) -> int) {
    match w
    case Arr(items) => forall i | 0 <= i < |items| :: InOrder(items[i], cmp)
    case Obj(entries) =>
      && (forall i, j | 0 <= i < j < |entries| :: cmp(entries[i].key, entries[j].key) <= 0)
      && forall i | 0 <= i < |entries| :: InOrder(entries[i].value, cmp)
    case _ => true
  }

  lemma {:induction false} StoredInOrder(v: Value, cmp: (Text, Text) -> int)
    requires Consistent(cmp)
    ensures InOrder(Stored(v, cmp), cmp)
    decreases v
  {
    match v
    case Arr(items) =>
      hide Consistent;
      forall i | 0 <= i < |items|
        ensures InOrder(StoredItems(v, items, cmp)[i], cmp)
      {
        StoredInOrder(items[i], cmp);
      }
    case Obj(entries) =>
      var es := Printed(entries, cmp);
      PrintedKeysSorted(entries, cmp);
      hide Consistent, Printed;
      forall i | 0 <= i < |es|
        ensures InOrder(StoredEntries(v, es, cmp)[i].value, cmp)
      {
        assert es[i] in es;
        StoredInOrder(es[i].value, cmp);
      }
    case _ =>
  }

  lemma PrintedKeysSorted(entries: seq<Member>, cmp: (Text, Text) -> int)
    requires Consistent(cmp)
    ensures var s := Printed(entries, cmp); forall i, j | 0 <= i < j < |s| :: cmp(s[i].key, s[j].key) <= 0
  {
    ByConsistent(KeyOf(), cmp);
    SortSorts(Defined(entries), By(KeyOf(), cmp));
    hide Consistent, Sort;
    var s := Printed(entries, cmp);
    assert SortedBy(s, By(KeyOf(), cmp));
    forall i, j | 0 <= i < j < |s|
      ensures cmp(s[i].key, s[j].key) <= 0
    {
      assert By(KeyOf(), cmp)(s[i], s[j]) <= 0;
    }
  }

  lemma {:induction false} StoredDenotes(v: Value, cmp: (Text, Text) -> int)
    requires WellFormed(v) && IsJson(v)
    ensures Denote(Stored(v, cmp)) == Denote(v) && !Stored(v, cmp).Undefined?
    decreases v
  {
    match v
    case Arr(items) =>
      var stored := StoredItems(v, items, cmp);
      forall i | 0 <= i < |items|
        ensures Denote(stored[i]) == Denote(items[i])
      {
        StoredDenotes(items[i], cmp);
      }
      ItemsDenote(items, stored);
    case Obj(entries) =>
      var es := Printed(entries, cmp);
      forall i | 0 <= i < |es|
        ensures Denote(Stored(es[i].value, cmp)) == Denote(es[i].value) && !Stored(es[i].value, cmp).Undefined?
      {
        assert es[i] in es;
        var k :| 0 <= k < |entries| && entries[k] == es[i];
        StoredDenotes(es[i].value, cmp);
      }
      StoredObject(v, cmp);
      hide Content, Printed, DistinctKeys, Stored;
      assert Pairwise(es, StoredEntries(v, es, cmp));
      EntriesDenote(entries, StoredEntries(v, es, cmp), cmp);
    case _ =>
  }

  lemma ItemsDenote(items: seq<Value>, stored: seq<Value>)
    requires |stored| == |items| && forall i | 0 <= i < |items| :: Denote(stored[i]) == Denote(items[i])
    ensures Denote(Arr(stored)) == Denote(Arr(items))
  {
    hide Content;
    ArrayContent(items);
    ArrayContent(stored);
  }

  lemma ArrayContent(items: seq<Value>)
    ensures Denote(Arr(items)) == CArr(seq(|items|, i requires 0 <= i < |items| => Denote(items[i])))
  {
  }

  /** The fields of an object that prints as it stands. */
  lemma StoredFields(stored: seq<Member>, cmp: (Text, Text) -> int)
    requires DistinctKeys(stored) && forall i | 0 <= i < |stored| :: !stored[i].value.Undefined?
    ensures Denote(Obj(stored)).CObj?
    ensures Denote(Obj(stored)).fields.Keys == set e | e in stored :: e.key
    ensures forall e | e in stored :: e.key in Denote(Obj(stored)).fields && Denote(Obj(stored)).fields[e.key] == Denote(e.value)
  {
    FieldsOf(stored, cmp, CNull);
    assert forall e :: e in Printed(stored, cmp) <==> e in stored;
    hide Printed, Content, DistinctKeys;
  }

  lemma PairwiseDistinct(vs: seq<Member>, ws: seq<Member>)
    requires Pairwise(vs, ws) && DistinctKeys(vs)
    ensures DistinctKeys(ws)
  {
    hide Content;
  }

  lemma PairwiseBack(vs: seq<Member>, ws: seq<Member>)
    requires Pairwise(vs, ws)
    ensures Pairwise(ws, vs)
  {
    hide Content;
  }

  /** Entries of the same keys and content, one by one in printing order, are the same map. */
  lemma EntriesDenote(entries: seq<Member>, stored: seq<Member>, cmp: (Text, Text) -> int)
    requires DistinctKeys(entries) && Pairwise(Printed(entries, cmp), stored)
    requires forall i | 0 <= i < |stored| :: !stored[i].value.Undefined?
    ensures Denote(Obj(stored)) == Denote(Obj(entries))
  {
    var es := Printed(entries, cmp);
    PrintedDistinct(entries, cmp);
    hide Printed, DistinctKeys, Pairwise, Denote;
    PairwiseDistinct(es, stored);
    PairwiseBack(es, stored);
    ObjectFields(entries, cmp);
    StoredFields(stored, cmp);
    var f, g := Denote(Obj(stored)).fields, Denote(Obj(entries)).fields;
    forall key | key in f
      ensures key in g && f[key] == g[key]
    {
      var e :| e in stored && e.key == key;
      PairwiseAt(stored, es, e);
    }
    forall key | key in g
      ensures key in f
    {
      var e :| e in es && e.key == key;
      PairwiseAt(es, stored, e);
    }
    WithinBoth(f, g);
  }

  lemma ObjectFields(entries: seq<Member>, cmp: (Text, Text) -> int)
    requires DistinctKeys(entries)
    ensures Denote(Obj(entries)).CObj?
    ensures Denote(Obj(entries)).fields.Keys == set e | e in Printed(entries, cmp) :: e.key
    ensures forall e | e in Printed(entries, cmp) ::
              e.key in Denote(Obj(entries)).fields && Denote(Obj(entries)).fields[e.key] == Denote(e.value)
  {
    FieldsOf(entries, cmp, CNull);
    hide Printed, Content, DistinctKeys;
  }

  /** Round trip: the text of JSON data parses to a value of the same content, whose keys stand in order. */
  lemma CanonicalReadsBack(v: Value, cmp: (Text, Text) -> int)
    requires WellFormed(v) && IsJson(v)
    ensures Print(v, cmp).Ok? && Parse(Print(v, cmp).value).Some?
    ensures Denote(Parse(Print(v, cmp).value).value) == Denote(v)
    ensures Consistent(cmp) ==> InOrder(Parse(Print(v, cmp).value).value, cmp)
  {
    Printable(v, cmp);
    ReadsBack(v, [], cmp);
    StoredDenotes(v, cmp);
    if Consistent(cmp) { StoredInOrder(v, cmp); }
    FirstSkips(v, cmp);
    var t := Print(v, cmp).value;
    hide ReadValue, Print, Stored, WellFormed, IsJson, Content, InOrder, Consistent, KindOf;
    KindSkips(t);
    assert t + [] == t;
  }
}
