/** The canonical printer is injective, and blind exactly to what JSON equality ignores. */
module CanonicalFacts {
  import opened Wrappers
  import opened Sequences
  import opened JsonText
  import opened JsonNumber
  import opened JsonValue
  import opened Sorting
  import opened CanonicalJson

  // ---- What can be printed --------------------------------------------------------------------

  lemma {:induction false} ItemsPrintable(parent: Value, items: seq<Value>, cmp: (Text, Text) -> int)
    requires forall x | x in items :: x < parent
    ensures PrintItems(parent, items, cmp).Ok? <==> forall i | 0 <= i < |items| :: IsJson(items[i])
    decreases parent, 0, |items|
  {
    if items != [] {
      assert items[0] in items && forall x | x in items[1..] :: x in items;
      Printable(items[0], cmp);
      ItemsPrintable(parent, items[1..], cmp);
      assert forall i | 1 <= i < |items| :: items[i] == items[1..][i - 1];
    }
  }

  lemma {:induction false} EntriesPrintable(parent: Value, entries: seq<Member>, cmp: (Text, Text) -> int)
    requires forall e | e in entries :: e.value < parent
    ensures PrintEntries(parent, entries, cmp).Ok? <==> forall e | e in entries :: IsJson(e.value)
    decreases parent, 0, |entries|
  {
    if entries != [] {
      assert entries[0] in entries && forall e | e in entries[1..] :: e in entries;
      assert forall e | e in entries :: e == entries[0] || e in entries[1..];
      Printable(entries[0].value, cmp);
      EntriesPrintable(parent, entries[1..], cmp);
    }
  }

  /** The printer throws exactly on what is not JSON data, however deep it sits. */
  lemma {:induction false} Printable(v: Value, cmp: (Text, Text) -> int)
    ensures Print(v, cmp).Ok? <==> IsJson(v)
    decreases v, 1
  {
    match v
    case Arr(items) =>
      ItemsPrintable(v, items, cmp);
    case Obj(entries) =>
      var printed := Printed(entries, cmp);
      EntriesPrintable(v, printed, cmp);
      assert forall i | 0 <= i < |entries| :: entries[i] in entries;
      if IsJson(v) {
        forall e | e in printed
          ensures IsJson(e.value)
        {
          var i :| 0 <= i < |entries| && entries[i] == e;
        }
      }
    case _ =>
  }

  // ---- Unique readability ------------------------------------------------------------------------

  /** A value's text is followed by nothing, or by what may follow a value. */
  predicate Delimited(x: Text) {
    x == [] || x[0] == COMMA || x[0] == CLOSE_ARRAY || x[0] == CLOSE_OBJECT
  }

  lemma Overlap(t: Text, x: Text, u: Text, y: Text)
    requires t + x == u + y
    ensures |t| < |u| ==> x != [] && x[0] == u[|t|]
  {
    if |t| < |u| {
      assert (t + x)[|t|] == (u + y)[|t|];
    }
  }

  /** A number text ends where the next delimiter begins, and tells the number. */
  lemma NumbersReadable(a: Number, b: Number, x: Text, y: Text)
    requires NumberOk(a) && NumberOk(b) && Delimited(x) && Delimited(y) && NumberText(a) + x == NumberText(b) + y
    ensures a == b && x == y
  {
    hide NumberText;
    NumberShape(a);
    NumberShape(b);
    var t, u := NumberText(a), NumberText(b);
    Overlap(t, x, u, y);
    Overlap(u, y, t, x);
    assert t == (t + x)[..|t|] && u == (u + y)[..|u|];
    assert x == (t + x)[|t|..] && y == (u + y)[|u|..];
    NumberInjective(a, b);
  }

  /** The first unit of a value's text tells its kind. */
  function Kind(v: Value): int
    requires IsPrintableKind(v)
  {
    match v
    case Null => 0
    case NonFinite => 0
    case Bool(b) => if b then 1 else 2
    case Num(_) => 3
    case Str(_) => 4
    case Arr(_) => 5
    case Obj(_) => 6
  }

  predicate IsPrintableKind(v: Value) {
    !v.Undefined? && !v.Foreign?
  }

  function KindOf(u: Unit): int {
    if u == 110 then 0 else if u == 116 then 1 else if u == 102 then 2 else if u == QUOTE then 4
    else if u == OPEN_ARRAY then 5 else if u == OPEN_OBJECT then 6 else if 48 <= u <= 57 || u == MINUS then 3 else 7
  }

  lemma FirstUnit(v: Value, cmp: (Text, Text) -> int)
    requires WellFormed(v) && Print(v, cmp).Ok?
    ensures IsPrintableKind(v) && Print(v, cmp).value != [] && KindOf(Print(v, cmp).value[0]) == Kind(v)
  {
    hide Escape, Join, PrintItems, PrintEntries, Printed, NumberText;
    if v.Num? { NumberShape(v.number); }
  }

  /** What follows the first part of a joined list. */
  function JoinRest(parts: seq<Text>, close: Unit, x: Text): Text
    requires parts != []
  {
    if |parts| == 1 then [close] + x else [COMMA] + (Join(parts[1..]) + [close] + x)
  }

  lemma JoinSplit(parts: seq<Text>, close: Unit, x: Text)
    requires parts != []
    ensures Join(parts) + [close] + x == parts[0] + JoinRest(parts, close, x)
  {
  }

  /** After equal first parts, two joined lists end or go on together. */
  lemma JoinGoesOn(ps: seq<Text>, qs: seq<Text>, close: Unit, x: Text, y: Text)
    requires ps != [] && qs != [] && close != COMMA && JoinRest(ps, close, x) == JoinRest(qs, close, y)
    ensures |ps| == 1 <==> |qs| == 1
    ensures |ps| == 1 ==> x == y
    ensures |ps| > 1 ==> Join(ps[1..]) + [close] + x == Join(qs[1..]) + [close] + y
  {
    assert JoinRest(ps, close, x)[0] == JoinRest(qs, close, y)[0];
    assert JoinRest(ps, close, x)[1..] == JoinRest(qs, close, y)[1..];
    if |ps| == 1 {
      assert JoinRest(ps, close, x)[1..] == x && JoinRest(qs, close, y)[1..] == y;
    } else {
      assert JoinRest(ps, close, x)[1..] == Join(ps[1..]) + [close] + x;
      assert JoinRest(qs, close, y)[1..] == Join(qs[1..]) + [close] + y;
    }
  }

  /** Only an empty list closes at once. */
  lemma JoinStart(ps: seq<Text>, close: Unit, x: Text)
    requires ps != [] ==> ps[0] != [] && ps[0][0] != close
    ensures (Join(ps) + [close] + x)[0] == close <==> ps == []
    ensures ps == [] ==> (Join(ps) + [close] + x)[1..] == x
  {
    if ps != [] { JoinSplit(ps, close, x); }
  }

  lemma {:induction false} ItemsReadable(
    v: Value, vs: seq<Value>, w: Value, ws: seq<Value>, x: Text, y: Text, cmp: (Text, Text) -> int)
    requires (forall e | e in vs :: e < v && WellFormed(e)) && (forall e | e in ws :: e < w && WellFormed(e))
    requires PrintItems(v, vs, cmp).Ok? && PrintItems(w, ws, cmp).Ok?
    requires Join(PrintItems(v, vs, cmp).value) + [CLOSE_ARRAY] + x == Join(PrintItems(w, ws, cmp).value) + [CLOSE_ARRAY] + y
    ensures |vs| == |ws| && (forall i | 0 <= i < |vs| :: Denote(vs[i]) == Denote(ws[i])) && x == y
    decreases v, 0, |vs|
  {
    var ps, qs := PrintItems(v, vs, cmp).value, PrintItems(w, ws, cmp).value;
    ItemsHead(v, vs, cmp);
    ItemsHead(w, ws, cmp);
    JoinStart(ps, CLOSE_ARRAY, x);
    JoinStart(qs, CLOSE_ARRAY, y);
    if vs != [] && ws != [] {
      JoinSplit(ps, CLOSE_ARRAY, x);
      JoinSplit(qs, CLOSE_ARRAY, y);
      Readable(vs[0], ws[0], JoinRest(ps, CLOSE_ARRAY, x), JoinRest(qs, CLOSE_ARRAY, y), cmp);
      JoinGoesOn(ps, qs, CLOSE_ARRAY, x, y);
      hide Join;
      if |ps| > 1 {
        ItemsReadable(v, vs[1..], w, ws[1..], x, y, cmp);
        assert forall i | 1 <= i < |vs| :: vs[i] == vs[1..][i - 1] && ws[i] == ws[1..][i - 1];
      }
    }
  }

  lemma ItemsStep(v: Value, vs: seq<Value>, cmp: (Text, Text) -> int)
    requires (forall e | e in vs :: e < v) && PrintItems(v, vs, cmp).Ok? && vs != []
    ensures vs[0] in vs && forall e | e in vs[1..] :: e in vs
    ensures Print(vs[0], cmp) == Ok(PrintItems(v, vs, cmp).value[0])
    ensures PrintItems(v, vs[1..], cmp) == Ok(PrintItems(v, vs, cmp).value[1..])
  {
    assert vs[0] in vs && forall e | e in vs[1..] :: e in vs;
    hide Print;
  }

  lemma ItemsHead(v: Value, vs: seq<Value>, cmp: (Text, Text) -> int)
    requires (forall e | e in vs :: e < v && WellFormed(e)) && PrintItems(v, vs, cmp).Ok?
    ensures vs != [] ==>
              && vs[0] in vs && (forall e | e in vs[1..] :: e in vs)
              && Print(vs[0], cmp) == Ok(PrintItems(v, vs, cmp).value[0])
              && PrintItems(v, vs[1..], cmp) == Ok(PrintItems(v, vs, cmp).value[1..])
              && PrintItems(v, vs, cmp).value[0] != [] && PrintItems(v, vs, cmp).value[0][0] != CLOSE_ARRAY
  {
    if vs != [] {
      ItemsStep(v, vs, cmp);
      FirstUnit(vs[0], cmp);
      hide Print, PrintItems, WellFormed;
    }
  }

  lemma EntriesHead(v: Value, vs: seq<Member>, cmp: (Text, Text) -> int)
    requires Below(vs, v) && PrintEntries(v, vs, cmp).Ok?
    ensures vs != [] ==>
              && vs[0].value < v && WellFormed(vs[0].value) && Below(vs[1..], v)
              && Print(vs[0].value, cmp).Ok?
              && PrintEntries(v, vs, cmp).value[0] == Quote(vs[0].key) + [COLON] + Print(vs[0].value, cmp).value
              && PrintEntries(v, vs[1..], cmp) == Ok(PrintEntries(v, vs, cmp).value[1..])
              && PrintEntries(v, vs, cmp).value[0] != [] && PrintEntries(v, vs, cmp).value[0][0] == QUOTE
  {
    hide Escape;
    if vs != [] {
      assert vs[0] in vs && forall e | e in vs[1..] :: e in vs;
    }
  }

  lemma EntryReadable(e: Member, f: Member, x: Text, y: Text, cmp: (Text, Text) -> int)
    requires Print(e.value, cmp).Ok? && Print(f.value, cmp).Ok?
    requires Quote(e.key) + [COLON] + Print(e.value, cmp).value + x == Quote(f.key) + [COLON] + Print(f.value, cmp).value + y
    ensures e.key == f.key && Print(e.value, cmp).value + x == Print(f.value, cmp).value + y
  {
    hide Print, Quote;
    var t, u := Print(e.value, cmp).value + x, Print(f.value, cmp).value + y;
    assert Quote(e.key) + [COLON] + Print(e.value, cmp).value + x == Quote(e.key) + ([COLON] + t);
    assert Quote(f.key) + [COLON] + Print(f.value, cmp).value + y == Quote(f.key) + ([COLON] + u);
    QuoteReadable(e.key, f.key, [COLON] + t, [COLON] + u);
    SamePrefix([COLON], t, u);
  }

  /** The same keys with the same content, in the same order. */
  ghost predicate Pairwise(vs: seq<Member>, ws: seq<Member>) {
    |vs| == |ws| && forall i | 0 <= i < |vs| :: vs[i].key == ws[i].key && Denote(vs[i].value) == Denote(ws[i].value)
  }

  lemma PairwiseCons(vs: seq<Member>, ws: seq<Member>)
    requires vs != [] && ws != [] && vs[0].key == ws[0].key && Denote(vs[0].value) == Denote(ws[0].value)
    requires Pairwise(vs[1..], ws[1..])
    ensures Pairwise(vs, ws)
  {
    hide Denote;
    assert forall i | 1 <= i < |vs| :: vs[i] == vs[1..][i - 1] && ws[i] == ws[1..][i - 1];
  }

  /** Entries that stem from a value, so that an induction over the value reaches them. */
  ghost predicate Below(vs: seq<Member>, v: Value) {
    forall e | e in vs :: e.value < v && WellFormed(e.value)
  }

  lemma {:induction false} EntriesReadable(
    v: Value, vs: seq<Member>, w: Value, ws: seq<Member>, x: Text, y: Text, cmp: (Text, Text) -> int)
    requires Below(vs, v) && Below(ws, w) && PrintEntries(v, vs, cmp).Ok? && PrintEntries(w, ws, cmp).Ok?
    requires Join(PrintEntries(v, vs, cmp).value) + [CLOSE_OBJECT] + x == Join(PrintEntries(w, ws, cmp).value) + [CLOSE_OBJECT] + y
    ensures Pairwise(vs, ws) && x == y
    decreases v, 0, |vs|
  {
    EntriesHead(v, vs, cmp);
    EntriesHead(w, ws, cmp);
    var ps, qs := PrintEntries(v, vs, cmp).value, PrintEntries(w, ws, cmp).value;
    JoinStart(ps, CLOSE_OBJECT, x);
    JoinStart(qs, CLOSE_OBJECT, y);
    if vs != [] && ws != [] {
      EntryStep(vs[0], ws[0], ps, qs, x, y, cmp);
      Readable(vs[0].value, ws[0].value, JoinRest(ps, CLOSE_OBJECT, x), JoinRest(qs, CLOSE_OBJECT, y), cmp);
      JoinGoesOn(ps, qs, CLOSE_OBJECT, x, y);
      hide Join, JoinRest, PrintEntries, Print, Denote, WellFormed, Quote;
      if |ps| > 1 {
        EntriesReadable(v, vs[1..], w, ws[1..], x, y, cmp);
        PairwiseCons(vs, ws);
      }
    }
  }

  lemma EntryStep(e: Member, f: Member, ps: seq<Text>, qs: seq<Text>, x: Text, y: Text, cmp: (Text, Text) -> int)
    requires Print(e.value, cmp).Ok? && Print(f.value, cmp).Ok? && ps != [] && qs != []
    requires ps[0] == Quote(e.key) + [COLON] + Print(e.value, cmp).value
    requires qs[0] == Quote(f.key) + [COLON] + Print(f.value, cmp).value
    requires Join(ps) + [CLOSE_OBJECT] + x == Join(qs) + [CLOSE_OBJECT] + y
    ensures Delimited(JoinRest(ps, CLOSE_OBJECT, x)) && Delimited(JoinRest(qs, CLOSE_OBJECT, y))
    ensures e.key == f.key
    ensures Print(e.value, cmp).value + JoinRest(ps, CLOSE_OBJECT, x) == Print(f.value, cmp).value + JoinRest(qs, CLOSE_OBJECT, y)
  {
    hide Quote, Print;
    JoinSplit(ps, CLOSE_OBJECT, x);
    JoinSplit(qs, CLOSE_OBJECT, y);
    EntryReadable(e, f, JoinRest(ps, CLOSE_OBJECT, x), JoinRest(qs, CLOSE_OBJECT, y), cmp);
  }

  // ---- Objects as maps -----------------------------------------------------------------------------

  lemma {:induction false} DefinedDistinct(entries: seq<Member>)
    requires DistinctKeys(entries)
    ensures DistinctKeys(Defined(entries))
  {
    if entries != [] {
      DefinedDistinct(entries[1..]);
      if !entries[0].value.Undefined? {
        var rest := Defined(entries[1..]);
        forall j | 0 <= j < |rest|
          ensures rest[j].key != entries[0].key
        {
          assert rest[j] in entries[1..];
        }
      }
    }
  }

  lemma {:induction false} LookupFinds(entries: seq<Member>, e: Member)
    requires DistinctKeys(entries) && e in entries
    ensures Lookup(entries, e.key) == e
  {
    if entries[0].key == e.key {
      var i :| 0 <= i < |entries| && entries[i] == e;
    } else {
      LookupFinds(entries[1..], e);
    }
  }

  /** The fields of an object, as its map, whatever a non-finite number means. */
  lemma FieldsOf(entries: seq<Member>, cmp: (Text, Text) -> int, hole: Canon)
    requires DistinctKeys(entries)
    ensures Content(Obj(entries), hole).CObj?
    ensures Content(Obj(entries), hole).fields.Keys == set e | e in Printed(entries, cmp) :: e.key
    ensures forall e | e in Printed(entries, cmp) ::
              e.key in Content(Obj(entries), hole).fields && Content(Obj(entries), hole).fields[e.key] == Content(e.value, hole)
  {
    var defined := Defined(entries);
    DefinedDistinct(entries);
    assert forall e :: e in Printed(entries, cmp) <==> e in defined;
    hide Printed, Defined;
    forall e | e in Printed(entries, cmp)
      ensures e.key in Content(Obj(entries), hole).fields && Content(Obj(entries), hole).fields[e.key] == Content(e.value, hole)
    {
      LookupFinds(defined, e);
    }
  }

  lemma PairwiseAt(vs: seq<Member>, ws: seq<Member>, e: Member)
    requires Pairwise(vs, ws) && e in vs
    ensures exists f :: f in ws && f.key == e.key && Denote(f.value) == Denote(e.value)
  {
    hide Denote;
    var i :| 0 <= i < |vs| && vs[i] == e;
    assert ws[i] in ws;
  }

  lemma FieldsWithin(v: seq<Member>, w: seq<Member>, cmp: (Text, Text) -> int, key: Text)
    requires DistinctKeys(v) && DistinctKeys(w) && Pairwise(Printed(v, cmp), Printed(w, cmp))
    ensures Denote(Obj(v)).CObj? && Denote(Obj(w)).CObj?
    ensures var f, g := Denote(Obj(v)).fields, Denote(Obj(w)).fields; key in f ==> key in g && f[key] == g[key]
  {
    FieldsOf(v, cmp, CNull);
    FieldsOf(w, cmp, CNull);
    hide Printed, Content, Pairwise, DistinctKeys;
    var vs, ws := Printed(v, cmp), Printed(w, cmp);
    if key in Denote(Obj(v)).fields {
      var e :| e in vs && e.key == key;
      PairwiseAt(vs, ws, e);
    }
  }

  ghost predicate Within<K, V>(f: map<K, V>, g: map<K, V>) {
    forall key | key in f :: key in g && f[key] == g[key]
  }

  lemma WithinBoth<K, V>(f: map<K, V>, g: map<K, V>)
    requires Within(f, g) && Within(g, f)
    ensures f == g
  {
  }

  lemma FieldsAllWithin(v: seq<Member>, w: seq<Member>, cmp: (Text, Text) -> int)
    requires DistinctKeys(v) && DistinctKeys(w) && Pairwise(Printed(v, cmp), Printed(w, cmp))
    ensures Within(Denote(Obj(v)).fields, Denote(Obj(w)).fields)
  {
    var f, g := Denote(Obj(v)).fields, Denote(Obj(w)).fields;
    hide Printed, Pairwise, Denote;
    forall key | key in f
      ensures key in g && f[key] == g[key]
    {
      FieldsWithin(v, w, cmp, key);
    }
  }

  lemma SameFields(v: seq<Member>, w: seq<Member>, cmp: (Text, Text) -> int)
    requires DistinctKeys(v) && DistinctKeys(w) && Pairwise(Printed(v, cmp), Printed(w, cmp))
    ensures Denote(Obj(v)) == Denote(Obj(w))
  {
    FieldsAllWithin(v, w, cmp);
    FieldsAllWithin(w, v, cmp);
    hide Printed, Pairwise, Within;
    WithinBoth(Denote(Obj(v)).fields, Denote(Obj(w)).fields);
  }

  lemma EntriesBelow(entries: seq<Member>, cmp: (Text, Text) -> int)
    requires WellFormed(Obj(entries))
    ensures Below(Printed(entries, cmp), Obj(entries))
  {
    forall e | e in Printed(entries, cmp)
      ensures e.value < Obj(entries) && WellFormed(e.value)
    {
      assert e in entries;
      var i :| 0 <= i < |entries| && entries[i] == e;
    }
  }

  /** Whatever delimiter follows, a value's text tells the value and where it ends. */
  lemma {:induction false} Readable(v: Value, w: Value, x: Text, y: Text, cmp: (Text, Text) -> int)
    requires WellFormed(v) && WellFormed(w) && Print(v, cmp).Ok? && Print(w, cmp).Ok?
    requires Delimited(x) && Delimited(y) && Print(v, cmp).value + x == Print(w, cmp).value + y
    ensures Denote(v) == Denote(w) && x == y
    decreases v, 1
  {
    FirstUnit(v, cmp);
    FirstUnit(w, cmp);
    var t := Print(v, cmp).value;
    assert t[0] == (t + x)[0] == Print(w, cmp).value[0];
    match v
    case Num(a) => NumbersReadable(a, w.number, x, y);
    case Str(s) => QuoteReadable(s, w.s, x, y);
    case Arr(items) => ArraysReadable(v, w, x, y, cmp);
    case Obj(entries) => ObjectsReadable(v, w, x, y, cmp);
    case _ => SamePrefix(t, x, y);
  }

  lemma {:induction false} ArraysReadable(v: Value, w: Value, x: Text, y: Text, cmp: (Text, Text) -> int)
    requires v.Arr? && w.Arr? && WellFormed(v) && WellFormed(w) && Print(v, cmp).Ok? && Print(w, cmp).Ok?
    requires Print(v, cmp).value + x == Print(w, cmp).value + y
    ensures Denote(v) == Denote(w) && x == y
    decreases v, 0, |v.items| + 1
  {
    var ps, qs := PrintItems(v, v.items, cmp).value, PrintItems(w, w.items, cmp).value;
    assert (Print(v, cmp).value + x)[1..] == Join(ps) + [CLOSE_ARRAY] + x;
    assert (Print(w, cmp).value + y)[1..] == Join(qs) + [CLOSE_ARRAY] + y;
    ItemsReadable(v, v.items, w, w.items, x, y, cmp);
  }

  lemma ObjectText(v: Value, cmp: (Text, Text) -> int)
    requires v.Obj? && WellFormed(v) && Print(v, cmp).Ok?
    ensures Below(Printed(v.entries, cmp), v) && DistinctKeys(v.entries)
    ensures PrintEntries(v, Printed(v.entries, cmp), cmp).Ok?
    ensures Print(v, cmp).value == [OPEN_OBJECT] + Join(PrintEntries(v, Printed(v.entries, cmp), cmp).value) + [CLOSE_OBJECT]
  {
    EntriesBelow(v.entries, cmp);
  }

  lemma {:induction false} ObjectsPairwise(v: Value, w: Value, x: Text, y: Text, cmp: (Text, Text) -> int)
    requires v.Obj? && w.Obj? && WellFormed(v) && WellFormed(w) && Print(v, cmp).Ok? && Print(w, cmp).Ok?
    requires Print(v, cmp).value + x == Print(w, cmp).value + y
    ensures Pairwise(Printed(v.entries, cmp), Printed(w.entries, cmp)) && x == y
    decreases v, 0, |Printed(v.entries, cmp)| + 1
  {
    ObjectText(v, cmp);
    ObjectText(w, cmp);
    hide *;
    var vs, ws := Printed(v.entries, cmp), Printed(w.entries, cmp);
    AfterOpening(Print(v, cmp).value, PrintEntries(v, vs, cmp).value, Print(w, cmp).value, PrintEntries(w, ws, cmp).value, x, y);
    EntriesReadable(v, vs, w, ws, x, y, cmp);
  }

  lemma AfterOpening(t: Text, ps: seq<Text>, u: Text, qs: seq<Text>, x: Text, y: Text)
    requires t == [OPEN_OBJECT] + Join(ps) + [CLOSE_OBJECT] && u == [OPEN_OBJECT] + Join(qs) + [CLOSE_OBJECT] && t + x == u + y
    ensures Join(ps) + [CLOSE_OBJECT] + x == Join(qs) + [CLOSE_OBJECT] + y
  {
    hide Join;
    assert t + x == [OPEN_OBJECT] + (Join(ps) + [CLOSE_OBJECT] + x);
    assert u + y == [OPEN_OBJECT] + (Join(qs) + [CLOSE_OBJECT] + y);
    SamePrefix([OPEN_OBJECT], Join(ps) + [CLOSE_OBJECT] + x, Join(qs) + [CLOSE_OBJECT] + y);
  }

  lemma {:induction false} ObjectsReadable(v: Value, w: Value, x: Text, y: Text, cmp: (Text, Text) -> int)
    requires v.Obj? && w.Obj? && WellFormed(v) && WellFormed(w) && Print(v, cmp).Ok? && Print(w, cmp).Ok?
    requires Print(v, cmp).value + x == Print(w, cmp).value + y
    ensures Denote(v) == Denote(w) && x == y
    decreases v, 0, |Printed(v.entries, cmp)| + 2
  {
    ObjectText(v, cmp);
    ObjectText(w, cmp);
    ObjectsPairwise(v, w, x, y, cmp);
    hide *;
    SameFields(v.entries, w.entries, cmp);
  }

  /** Equal texts mean equal JSON content, whatever the key order of the comparator. */
  lemma PrintInjective(v: Value, w: Value, cmp: (Text, Text) -> int)
    requires WellFormed(v) && WellFormed(w) && Print(v, cmp).Ok? && Print(v, cmp) == Print(w, cmp)
    ensures Denote(v) == Denote(w)
  {
    Readable(v, w, [], [], cmp);
  }
}
