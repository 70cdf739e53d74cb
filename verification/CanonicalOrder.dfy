/** The order of insertion, in canonical texts. */
module CanonicalOrder {
  import opened Wrappers
  import opened Sequences
  import opened JsonText
  import opened JsonNumber
  import opened JsonValue
  import opened Sorting
  import opened CanonicalJson
  import opened CanonicalFacts

  // ---- Keys in printing order ------------------------------------------------------------------

  lemma KeysInOrder(entries: seq<Member>, cmp: (Text, Text) -> int)
    requires Consistent(cmp) && DistinctKeys(entries)
    ensures var keys := Map(KeyOf(), Printed(entries, cmp));
            && SortedBy(keys, cmp) && multiset(keys) == multiset(Map(KeyOf(), Defined(entries)))
            && Distinct(Map(KeyOf(), Defined(entries)))
  {
    SortMaps(KeyOf(), Defined(entries), cmp);
    SortSorts(Map(KeyOf(), Defined(entries)), cmp);
    SortPermutes(Map(KeyOf(), Defined(entries)), cmp);
    DefinedDistinct(entries);
  }

  lemma DefinedKeys(entries: seq<Member>, key: Text)
    ensures key in Map(KeyOf(), Defined(entries)) <==> key in Denote(Obj(entries)).fields
  {
    var defined := Defined(entries);
    hide Defined;
    if key in Map(KeyOf(), defined) {
      var i :| 0 <= i < |defined| && Map(KeyOf(), defined)[i] == key;
      assert defined[i] in defined;
    }
    if key in Denote(Obj(entries)).fields {
      var e :| e in defined && e.key == key;
      var i :| 0 <= i < |defined| && defined[i] == e;
      assert Map(KeyOf(), defined)[i] == key;
    }
  }

  /** No two entries of a list tie. */
  ghost predicate NoTies(s: seq<Member>, cmp: (Text, Text) -> int) {
    forall e, f | e in s && f in s :: !Tied(e, f, cmp)
  }

  lemma PrintedApart(entries: seq<Member>, cmp: (Text, Text) -> int)
    requires KeysApart(Obj(entries), cmp)
    ensures NoTies(Printed(entries, cmp), cmp)
    ensures forall e | e in Printed(entries, cmp) :: KeysApart(e.value, cmp)
  {
    hide Tied, Printed;
    forall e, f | e in Printed(entries, cmp) && f in Printed(entries, cmp)
      ensures !Tied(e, f, cmp)
    {
      var i, j :| 0 <= i < |entries| && 0 <= j < |entries| && entries[i] == e && entries[j] == f;
    }
    forall e | e in Printed(entries, cmp)
      ensures KeysApart(e.value, cmp)
    {
      var i :| 0 <= i < |entries| && entries[i] == e;
    }
  }

  lemma KeysAntisymmetric(s: seq<Member>, cmp: (Text, Text) -> int)
    requires NoTies(s, cmp)
    ensures Antisymmetric(Map(KeyOf(), s), cmp)
  {
    var keys := Map(KeyOf(), s);
    forall a, b | a in keys && b in keys && cmp(a, b) <= 0 && cmp(b, a) <= 0
      ensures a == b
    {
      var i, j :| 0 <= i < |keys| && 0 <= j < |keys| && keys[i] == a && keys[j] == b;
      assert s[i] in s && s[j] in s && !Tied(s[i], s[j], cmp);
    }
  }

  /** Equal maps sort their keys alike, if no two keys of the one tie. */
  lemma SameKeyOrder(v: seq<Member>, w: seq<Member>, cmp: (Text, Text) -> int)
    requires Consistent(cmp) && NoTies(Printed(v, cmp), cmp)
    requires DistinctKeys(v) && DistinctKeys(w) && Denote(Obj(v)) == Denote(Obj(w))
    ensures Map(KeyOf(), Printed(v, cmp)) == Map(KeyOf(), Printed(w, cmp))
  {
    hide *;
    KeysInOrder(v, cmp);
    KeysInOrder(w, cmp);
    forall key
      ensures key in Map(KeyOf(), Defined(v)) <==> key in Map(KeyOf(), Defined(w))
    {
      DefinedKeys(v, key);
      DefinedKeys(w, key);
    }
    DistinctSameMembers(Map(KeyOf(), Defined(v)), Map(KeyOf(), Defined(w)));
    KeysAntisymmetric(Printed(v, cmp), cmp);
    SortedUnique(Map(KeyOf(), Printed(v, cmp)), Map(KeyOf(), Printed(w, cmp)), cmp);
  }

  /** Equal maps print the same entries in the same order. */
  lemma SamePrinted(v: seq<Member>, w: seq<Member>, cmp: (Text, Text) -> int)
    requires Consistent(cmp) && NoTies(Printed(v, cmp), cmp)
    requires DistinctKeys(v) && DistinctKeys(w) && Denote(Obj(v)) == Denote(Obj(w))
    ensures Pairwise(Printed(v, cmp), Printed(w, cmp))
  {
    var vs, ws := Printed(v, cmp), Printed(w, cmp);
    SameKeyOrder(v, w, cmp);
    FieldsOf(v, cmp, CNull);
    FieldsOf(w, cmp, CNull);
    hide Printed, Content, NoTies, Consistent;
    forall i | 0 <= i < |vs|
      ensures vs[i].key == ws[i].key && Denote(vs[i].value) == Denote(ws[i].value)
    {
      assert Map(KeyOf(), vs)[i] == Map(KeyOf(), ws)[i];
      assert vs[i] in vs && ws[i] in ws;
    }
  }

  // ---- Equal content, equal text -------------------------------------------------------------------

  lemma PairwiseHead(vs: seq<Member>, ws: seq<Member>)
    requires Pairwise(vs, ws) && vs != []
    ensures ws != [] && vs[0].key == ws[0].key && Denote(vs[0].value) == Denote(ws[0].value) && Pairwise(vs[1..], ws[1..])
  {
    hide Denote;
    assert forall i | 0 <= i < |vs| - 1 :: vs[1..][i] == vs[i + 1] && ws[1..][i] == ws[i + 1];
  }

  ghost predicate AllApart(vs: seq<Member>, cmp: (Text, Text) -> int) {
    forall e | e in vs :: KeysApart(e.value, cmp)
  }

  lemma ApartHead(vs: seq<Member>, cmp: (Text, Text) -> int)
    requires AllApart(vs, cmp) && vs != []
    ensures KeysApart(vs[0].value, cmp) && AllApart(vs[1..], cmp)
  {
    hide KeysApart;
    assert vs[0] in vs;
  }

  lemma {:induction false} EntriesAlike(v: Value, vs: seq<Member>, w: Value, ws: seq<Member>, cmp: (Text, Text) -> int)
    requires Consistent(cmp) && AllApart(vs, cmp) && Below(vs, v) && Below(ws, w) && Pairwise(vs, ws)
    requires PrintEntries(v, vs, cmp).Ok? && PrintEntries(w, ws, cmp).Ok?
    ensures PrintEntries(v, vs, cmp) == PrintEntries(w, ws, cmp)
    decreases v, 0, |vs|
  {
    if vs == [] {
      assert ws == [];
    } else {
      PairwiseHead(vs, ws);
      ApartHead(vs, cmp);
      EntriesHead(v, vs, cmp);
      EntriesHead(w, ws, cmp);
      hide *;
      var ps, qs := PrintEntries(v, vs, cmp).value, PrintEntries(w, ws, cmp).value;
      PrintsAlike(vs[0].value, ws[0].value, cmp);
      EntriesAlike(v, vs[1..], w, ws[1..], cmp);
      assert ps == [ps[0]] + ps[1..] && qs == [qs[0]] + qs[1..];
    }
  }

  lemma {:induction false} ItemsAlike(v: Value, vs: seq<Value>, w: Value, ws: seq<Value>, cmp: (Text, Text) -> int)
    requires Consistent(cmp) && forall i | 0 <= i < |vs| :: KeysApart(vs[i], cmp)
    requires (forall e | e in vs :: e < v && WellFormed(e)) && (forall e | e in ws :: e < w && WellFormed(e))
    requires |vs| == |ws| && forall i | 0 <= i < |vs| :: Denote(vs[i]) == Denote(ws[i])
    requires PrintItems(v, vs, cmp).Ok? && PrintItems(w, ws, cmp).Ok?
    ensures PrintItems(v, vs, cmp) == PrintItems(w, ws, cmp)
    decreases v, 0, |vs|
  {
    ItemsHead(v, vs, cmp);
    ItemsHead(w, ws, cmp);
    if vs == [] {
      assert ws == [];
    } else {
      hide *;
      var ps, qs := PrintItems(v, vs, cmp).value, PrintItems(w, ws, cmp).value;
      PrintsAlike(vs[0], ws[0], cmp);
      assert forall i | 0 <= i < |vs| - 1 :: vs[1..][i] == vs[i + 1] && ws[1..][i] == ws[i + 1];
      ItemsAlike(v, vs[1..], w, ws[1..], cmp);
      assert ps == [ps[0]] + ps[1..] && qs == [qs[0]] + qs[1..];
    }
  }

  /** Where no keys of a value tie, equal JSON content prints the same text. */
  lemma {:induction false} PrintsAlike(v: Value, w: Value, cmp: (Text, Text) -> int)
    requires Consistent(cmp) && KeysApart(v, cmp)
    requires WellFormed(v) && WellFormed(w) && Print(v, cmp).Ok? && Print(w, cmp).Ok? && Denote(v) == Denote(w)
    ensures Print(v, cmp) == Print(w, cmp)
    decreases v, 1
  {
    hide Consistent, NumberText;
    match v
    case Arr(items) => ArraysAlike(v, w, cmp);
    case Obj(entries) => ObjectsAlike(v, w, cmp);
    case _ =>
  }

  lemma ArrayText(v: Value, cmp: (Text, Text) -> int)
    requires v.Arr? && WellFormed(v) && Print(v, cmp).Ok?
    ensures (forall e | e in v.items :: e < v && WellFormed(e)) && PrintItems(v, v.items, cmp).Ok?
    ensures Print(v, cmp) == Ok([OPEN_ARRAY] + Join(PrintItems(v, v.items, cmp).value) + [CLOSE_ARRAY])
  {
  }

  lemma SameItems(v: Value, w: Value)
    requires v.Arr? && Denote(v) == Denote(w)
    ensures w.Arr? && |v.items| == |w.items| && forall i | 0 <= i < |v.items| :: Denote(v.items[i]) == Denote(w.items[i])
  {
    var c := Denote(v);
    assert w.Arr?;
    assert forall i | 0 <= i < |v.items| :: c.items[i] == Content(v.items[i], CNull) && c.items[i] == Content(w.items[i], CNull);
  }

  lemma {:induction false} ArraysAlike(v: Value, w: Value, cmp: (Text, Text) -> int)
    requires v.Arr? && Consistent(cmp) && KeysApart(v, cmp)
    requires WellFormed(v) && WellFormed(w) && Print(v, cmp).Ok? && Print(w, cmp).Ok? && Denote(v) == Denote(w)
    ensures Print(v, cmp) == Print(w, cmp)
    decreases v, 0, |v.items| + 1
  {
    SameItems(v, w);
    ArrayText(v, cmp);
    ArrayText(w, cmp);
    assert forall i | 0 <= i < |v.items| :: KeysApart(v.items[i], cmp);
    hide *;
    ItemsAlike(v, v.items, w, w.items, cmp);
  }

  lemma SameKind(v: Value, w: Value)
    requires v.Obj? && Denote(v) == Denote(w)
    ensures w.Obj?
  {
  }

  lemma {:induction false} ObjectsAlike(v: Value, w: Value, cmp: (Text, Text) -> int)
    requires v.Obj? && Consistent(cmp) && KeysApart(v, cmp)
    requires WellFormed(v) && WellFormed(w) && Print(v, cmp).Ok? && Print(w, cmp).Ok? && Denote(v) == Denote(w)
    ensures Print(v, cmp) == Print(w, cmp)
    decreases v, 0, |Printed(v.entries, cmp)| + 1
  {
    SameKind(v, w);
    assert v == Obj(v.entries) && w == Obj(w.entries);
    PrintedApart(v.entries, cmp);
    assert AllApart(Printed(v.entries, cmp), cmp);
    ObjectText(v, cmp);
    ObjectText(w, cmp);
    hide *;
    SamePrinted(v.entries, w.entries, cmp);
    EntriesAlike(v, Printed(v.entries, cmp), w, Printed(w.entries, cmp), cmp);
  }

  /** Texts decide JSON equality in both directions, for every value whose own keys do not tie. */
  lemma PrintDecidesEquality(v: Value, w: Value, cmp: (Text, Text) -> int)
    requires Consistent(cmp) && KeysApart(v, cmp) && WellFormed(v) && WellFormed(w) && IsJson(v) && IsJson(w)
    ensures Print(v, cmp) == Print(w, cmp) <==> Denote(v) == Denote(w)
  {
    hide *;
    Printable(v, cmp);
    Printable(w, cmp);
    if Print(v, cmp) == Print(w, cmp) { PrintInjective(v, w, cmp); }
    if Denote(v) == Denote(w) { PrintsAlike(v, w, cmp); }
  }

  // ---- A tie shows in the text -----------------------------------------------------------------------

  lemma {:induction false} JoinUpdate(ps: seq<Text>, i: nat, q: Text)
    requires i < |ps| && Join(ps) == Join(ps[i := q])
    ensures ps[i] == q
    decreases i
  {
    var qs := ps[i := q];
    if |ps| > 1 {
      if i == 0 {
        assert qs[1..] == ps[1..];
        var z := [COMMA] + Join(ps[1..]);
        assert Join(ps) == ps[0] + z && Join(qs) == q + z;
        SameSuffix(ps[0], q, z);
      } else {
        assert qs[1..] == ps[1..][i - 1 := q];
        SamePrefix(ps[0] + [COMMA], Join(ps[1..]), Join(qs[1..]));
        JoinUpdate(ps[1..], i - 1, q);
      }
    }
  }

  lemma SameSuffix(a: Text, b: Text, z: Text)
    requires a + z == b + z
    ensures a == b
  {
    assert |a| == |b|;
    assert a == (a + z)[..|a|] && b == (b + z)[..|b|];
  }

  lemma SameInside(open: Unit, x: Text, y: Text, close: Unit)
    requires [open] + x + [close] == [open] + y + [close]
    ensures x == y
  {
    SameSuffix([open] + x, [open] + y, [close]);
    SamePrefix([open], x, y);
  }

  lemma {:induction false} ItemsAt(v: Value, vs: seq<Value>, cmp: (Text, Text) -> int, i: nat)
    requires (forall e | e in vs :: e < v && WellFormed(e)) && PrintItems(v, vs, cmp).Ok? && i < |vs|
    ensures Print(vs[i], cmp) == Ok(PrintItems(v, vs, cmp).value[i])
    decreases i
  {
    ItemsHead(v, vs, cmp);
    hide *;
    if i > 0 { ItemsAt(v, vs[1..], cmp, i - 1); }
  }

  lemma {:induction false} EntriesAt(v: Value, vs: seq<Member>, cmp: (Text, Text) -> int, i: nat)
    requires Below(vs, v) && PrintEntries(v, vs, cmp).Ok? && i < |vs|
    ensures Print(vs[i].value, cmp).Ok?
    ensures PrintEntries(v, vs, cmp).value[i] == Quote(vs[i].key) + [COLON] + Print(vs[i].value, cmp).value
    decreases i
  {
    EntriesHead(v, vs, cmp);
    hide *;
    if i > 0 { EntriesAt(v, vs[1..], cmp, i - 1); }
  }

  /** A value and another one of equal content that prints otherwise. */
  ghost predicate Shows(v: Value, w: Value, cmp: (Text, Text) -> int) {
    WellFormed(w) && IsJson(w) && Denote(w) == Denote(v) && Print(w, cmp) != Print(v, cmp)
  }

  lemma ReplacedItem(items: seq<Value>, i: nat, x: Value)
    requires WellFormed(Arr(items)) && IsJson(Arr(items)) && i < |items|
    requires WellFormed(x) && IsJson(x) && Denote(x) == Denote(items[i])
    ensures var w := Arr(items[i := x]); WellFormed(w) && IsJson(w) && Denote(w) == Denote(Arr(items))
  {
    var w := items[i := x];
    assert forall k | 0 <= k < |w| :: Content(w[k], CNull) == Content(items[k], CNull);
    assert Denote(Arr(w)).items == Denote(Arr(items)).items;
  }

  /** The texts of the parts, when only one of them differs. */
  lemma PartShows(ps: seq<Text>, qs: seq<Text>, i: nat, open: Unit, close: Unit)
    requires |ps| == |qs| && i < |ps| && (forall k | 0 <= k < |ps| && k != i :: qs[k] == ps[k])
    requires [open] + Join(ps) + [close] == [open] + Join(qs) + [close]
    ensures ps[i] == qs[i]
  {
    hide Join;
    SameInside(open, Join(ps), Join(qs), close);
    assert qs == ps[i := qs[i]];
    JoinUpdate(ps, i, qs[i]);
  }

  lemma ItemShows(items: seq<Value>, i: nat, x: Value, cmp: (Text, Text) -> int)
    requires WellFormed(Arr(items)) && IsJson(Arr(items)) && i < |items| && Shows(items[i], x, cmp)
    ensures Shows(Arr(items), Arr(items[i := x]), cmp)
  {
    var v, w := Arr(items), Arr(items[i := x]);
    ReplacedItem(items, i, x);
    hide WellFormed, IsJson, Denote, Print, PrintItems;
    Printable(v, cmp);
    Printable(w, cmp);
    ArrayText(v, cmp);
    ArrayText(w, cmp);
    var ps, qs := PrintItems(v, v.items, cmp).value, PrintItems(w, w.items, cmp).value;
    forall k | 0 <= k < |items|
      ensures Print(items[k], cmp) == Ok(ps[k]) && Print(w.items[k], cmp) == Ok(qs[k])
    {
      ItemsAt(v, v.items, cmp, k);
      ItemsAt(w, w.items, cmp, k);
    }
    if Print(w, cmp) == Print(v, cmp) {
      assert forall k | 0 <= k < |ps| && k != i :: qs[k] == ps[k];
      PartShows(ps, qs, i, OPEN_ARRAY, CLOSE_ARRAY);
    }
  }

  // ---- Objects in printing order --------------------------------------------------------------------

  /** Entries that print as they stand: all defined, in the order of their keys. */
  ghost predicate InPrintingOrder(s: seq<Member>, cmp: (Text, Text) -> int) {
    && (forall i | 0 <= i < |s| :: !s[i].value.Undefined?)
    && SortedBy(s, By(KeyOf(), cmp))
  }

  lemma {:induction false} AllDefined(s: seq<Member>)
    requires forall i | 0 <= i < |s| :: !s[i].value.Undefined?
    ensures Defined(s) == s
  {
    if s != [] {
      AllDefined(s[1..]);
      assert s == [s[0]] + s[1..];
    }
  }

  lemma PrintedInOrder(s: seq<Member>, cmp: (Text, Text) -> int)
    requires InPrintingOrder(s, cmp)
    ensures Printed(s, cmp) == s
  {
    AllDefined(s);
    SortOfSorted(s, By(KeyOf(), cmp));
  }

  /** What an object prints is in printing order, and is again a sound object of the same content and text. */
  lemma PrintedIsInOrder(entries: seq<Member>, cmp: (Text, Text) -> int)
    requires Consistent(cmp) && WellFormed(Obj(entries)) && IsJson(Obj(entries))
    ensures var s := Printed(entries, cmp); InPrintingOrder(s, cmp) && WellFormed(Obj(s)) && IsJson(Obj(s))
  {
    var s := Printed(entries, cmp);
    ByConsistent(KeyOf(), cmp);
    SortSorts(Defined(entries), By(KeyOf(), cmp));
    PrintedDistinct(entries, cmp);
    forall i | 0 <= i < |s|
      ensures !s[i].value.Undefined? && WellFormed(s[i].value) && IsJson(s[i].value)
    {
      assert s[i] in s;
      var k :| 0 <= k < |entries| && entries[k] == s[i];
    }
  }

  lemma PrintedDistinct(entries: seq<Member>, cmp: (Text, Text) -> int)
    requires DistinctKeys(entries)
    ensures DistinctKeys(Printed(entries, cmp))
  {
    DefinedDistinct(entries);
    SortPermutes(Defined(entries), By(KeyOf(), cmp));
    MapPermutes(KeyOf(), Defined(entries), Printed(entries, cmp));
    hide Printed, Defined;
    var d, s := Map(KeyOf(), Defined(entries)), Map(KeyOf(), Printed(entries, cmp));
    assert Distinct(d);
    DistinctPermutes(d, s);
    forall i, j | 0 <= i < j < |s|
      ensures Printed(entries, cmp)[i].key != Printed(entries, cmp)[j].key
    {
      assert s[i] != s[j];
    }
  }

  lemma EntriesText(v: Value, vs: seq<Member>, w: Value, cmp: (Text, Text) -> int)
    requires Below(vs, v) && Below(vs, w) && PrintEntries(v, vs, cmp).Ok? && PrintEntries(w, vs, cmp).Ok?
    ensures PrintEntries(v, vs, cmp) == PrintEntries(w, vs, cmp)
  {
    hide PrintEntries, Print, Quote, WellFormed;
    var ps, qs := PrintEntries(v, vs, cmp).value, PrintEntries(w, vs, cmp).value;
    forall k | 0 <= k < |vs|
      ensures ps[k] == qs[k]
    {
      EntriesAt(v, vs, cmp, k);
      EntriesAt(w, vs, cmp, k);
    }
    assert ps == qs;
  }

  /** The same entries in another order are the same map. */
  lemma SameMembersDenote(v: seq<Member>, w: seq<Member>, cmp: (Text, Text) -> int)
    requires DistinctKeys(v) && DistinctKeys(w) && forall e :: e in Printed(v, cmp) <==> e in Printed(w, cmp)
    ensures Denote(Obj(v)) == Denote(Obj(w))
  {
    FieldsOf(v, cmp, CNull);
    FieldsOf(w, cmp, CNull);
    hide Printed, Content;
    var f, g := Denote(Obj(v)).fields, Denote(Obj(w)).fields;
    assert f.Keys == g.Keys;
    forall key | key in f
      ensures f[key] == g[key]
    {
      var e :| e in Printed(v, cmp) && e.key == key;
    }
  }

  /** Writing the entries down in printing order changes neither content nor text. */
  lemma PrintedStands(entries: seq<Member>, cmp: (Text, Text) -> int)
    requires Consistent(cmp) && WellFormed(Obj(entries)) && IsJson(Obj(entries))
    ensures var v, u := Obj(entries), Obj(Printed(entries, cmp)); Denote(u) == Denote(v) && Print(u, cmp) == Print(v, cmp)
  {
    var s := Printed(entries, cmp);
    var v, u := Obj(entries), Obj(s);
    PrintedIsInOrder(entries, cmp);
    PrintedInOrder(s, cmp);
    hide Printed, WellFormed, IsJson, InPrintingOrder, Content, Print, PrintEntries, Consistent;
    Printable(v, cmp);
    Printable(u, cmp);
    ObjectText(v, cmp);
    ObjectText(u, cmp);
    EntriesText(v, s, u, cmp);
    SameMembersDenote(entries, s, cmp);
  }

  lemma ReplacedSound(s: seq<Member>, i: nat, x: Value, cmp: (Text, Text) -> int)
    requires InPrintingOrder(s, cmp) && WellFormed(Obj(s)) && IsJson(Obj(s)) && i < |s|
    requires WellFormed(x) && IsJson(x)
    ensures var t := s[i := Member(s[i].key, x)]; InPrintingOrder(t, cmp) && WellFormed(Obj(t)) && IsJson(Obj(t))
  {
    var t := s[i := Member(s[i].key, x)];
    assert forall k | 0 <= k < |s| :: t[k].key == s[k].key;
  }

  lemma ReplacedEntry(s: seq<Member>, i: nat, x: Value, cmp: (Text, Text) -> int)
    requires InPrintingOrder(s, cmp) && WellFormed(Obj(s)) && IsJson(Obj(s)) && i < |s|
    requires WellFormed(x) && IsJson(x) && Denote(x) == Denote(s[i].value)
    ensures var t := s[i := Member(s[i].key, x)];
            InPrintingOrder(t, cmp) && WellFormed(Obj(t)) && IsJson(Obj(t)) && Denote(Obj(t)) == Denote(Obj(s))
  {
    var t := s[i := Member(s[i].key, x)];
    ReplacedSound(s, i, x, cmp);
    PrintedInOrder(s, cmp);
    PrintedInOrder(t, cmp);
    ReplacedPairwise(s, i, x);
    assert DistinctKeys(s) && DistinctKeys(t);
    hide *;
    SameFields(t, s, cmp);
  }

  lemma ReplacedPairwise(s: seq<Member>, i: nat, x: Value)
    requires i < |s| && Denote(x) == Denote(s[i].value)
    ensures Pairwise(s[i := Member(s[i].key, x)], s)
  {
    hide Denote;
  }

  /** If two lists of entries differ in one value and print alike, the two values print alike. */
  lemma EntryPrintsAlike(v: Value, s: seq<Member>, w: Value, t: seq<Member>, i: nat, cmp: (Text, Text) -> int)
    requires Below(s, v) && Below(t, w) && PrintEntries(v, s, cmp).Ok? && PrintEntries(w, t, cmp).Ok?
    requires |s| == |t| && i < |s| && t[i].key == s[i].key && forall k | 0 <= k < |s| && k != i :: t[k] == s[k]
    requires [OPEN_OBJECT] + Join(PrintEntries(v, s, cmp).value) + [CLOSE_OBJECT]
          == [OPEN_OBJECT] + Join(PrintEntries(w, t, cmp).value) + [CLOSE_OBJECT]
    ensures Print(t[i].value, cmp) == Print(s[i].value, cmp)
  {
    hide PrintEntries, Print, Quote, WellFormed, Join;
    var ps, qs := PrintEntries(v, s, cmp).value, PrintEntries(w, t, cmp).value;
    forall k | 0 <= k < |s| && k != i
      ensures qs[k] == ps[k]
    {
      EntriesAt(v, s, cmp, k);
      EntriesAt(w, t, cmp, k);
    }
    PartShows(ps, qs, i, OPEN_OBJECT, CLOSE_OBJECT);
    EntriesAt(v, s, cmp, i);
    EntriesAt(w, t, cmp, i);
    hide Below;
    SamePrefix(Quote(s[i].key) + [COLON], Print(s[i].value, cmp).value, Print(t[i].value, cmp).value);
  }

  lemma EntryShows(s: seq<Member>, i: nat, x: Value, cmp: (Text, Text) -> int)
    requires InPrintingOrder(s, cmp) && WellFormed(Obj(s)) && IsJson(Obj(s)) && i < |s| && Shows(s[i].value, x, cmp)
    ensures Shows(Obj(s), Obj(s[i := Member(s[i].key, x)]), cmp)
  {
    var t := s[i := Member(s[i].key, x)];
    var v, w := Obj(s), Obj(t);
    ReplacedEntry(s, i, x, cmp);
    PrintedInOrder(s, cmp);
    PrintedInOrder(t, cmp);
    hide WellFormed, IsJson, Denote, Print, PrintEntries, Printed, InPrintingOrder, Below;
    Printable(v, cmp);
    Printable(w, cmp);
    ObjectText(v, cmp);
    ObjectText(w, cmp);
    if Print(w, cmp) == Print(v, cmp) {
      EntryPrintsAlike(v, s, w, t, i, cmp);
    }
  }

  lemma ReorderShows(s: seq<Member>, t: seq<Member>, i: nat, cmp: (Text, Text) -> int)
    requires InPrintingOrder(s, cmp) && WellFormed(Obj(s)) && IsJson(Obj(s))
    requires InPrintingOrder(t, cmp) && WellFormed(Obj(t)) && IsJson(Obj(t))
    requires (forall e :: e in s <==> e in t) && i < |s| && i < |t| && s[i].key != t[i].key
    ensures Shows(Obj(s), Obj(t), cmp)
  {
    var v, w := Obj(s), Obj(t);
    PrintedInOrder(s, cmp);
    PrintedInOrder(t, cmp);
    assert DistinctKeys(s) && DistinctKeys(t);
    hide WellFormed, IsJson, Content, Denote, Print, Printed, InPrintingOrder, DistinctKeys;
    SameMembersDenote(s, t, cmp);
    Printable(v, cmp);
    if Print(v, cmp) == Print(w, cmp) {
      ObjectsPairwise(v, w, [], [], cmp);
    }
  }

  lemma TieShows(s: seq<Member>, i: nat, j: nat, cmp: (Text, Text) -> int)
    requires Consistent(cmp) && InPrintingOrder(s, cmp) && WellFormed(Obj(s)) && IsJson(Obj(s))
    requires i < j < |s| && Tied(s[i], s[j], cmp)
    ensures Shows(Obj(s), Obj(s[i := s[j]][j := s[i]]), cmp)
  {
    var t := s[i := s[j]][j := s[i]];
    ByConsistent(KeyOf(), cmp);
    SwapTied(s, i, j, By(KeyOf(), cmp));
    SwapSound(s, i, j);
    hide WellFormed, IsJson, SortedBy, Consistent;
    ReorderShows(s, t, i, cmp);
  }

  lemma SwapSound(s: seq<Member>, i: nat, j: nat)
    requires WellFormed(Obj(s)) && IsJson(Obj(s)) && i < j < |s|
    ensures var t := s[i := s[j]][j := s[i]];
            WellFormed(Obj(t)) && IsJson(Obj(t)) && forall e :: e in s <==> e in t
  {
    var t := s[i := s[j]][j := s[i]];
    forall e
      ensures e in s <==> e in t
    {
      if e in s {
        var k :| 0 <= k < |s| && s[k] == e;
        assert t[if k == i then j else if k == j then i else k] == e;
      }
    }
  }

  // ---- The condition --------------------------------------------------------------------------------

  lemma NestedEntry(entries: seq<Member>, cmp: (Text, Text) -> int) returns (e: Member)
    requires !KeysApart(Obj(entries), cmp) && NoTies(Printed(entries, cmp), cmp)
    ensures e in entries && !e.value.Undefined? && e in Printed(entries, cmp) && !KeysApart(e.value, cmp)
  {
    hide Tied;
    assert forall i | 0 <= i < |entries| && !entries[i].value.Undefined? :: entries[i] in Printed(entries, cmp);
    var i :| 0 <= i < |entries| && !entries[i].value.Undefined? && !KeysApart(entries[i].value, cmp);
    e := entries[i];
  }

  lemma TiedPair(s: seq<Member>, cmp: (Text, Text) -> int) returns (i: nat, j: nat)
    requires !NoTies(s, cmp)
    ensures i < j < |s| && Tied(s[i], s[j], cmp)
  {
    var e, f :| e in s && f in s && Tied(e, f, cmp);
    i :| i < |s| && s[i] == e;
    j :| j < |s| && s[j] == f;
    if j < i { i, j := j, i; }
  }

  /** A value some of whose printed keys tie, and one of equal content that prints otherwise. */
  lemma {:induction false} OrderShows(v: Value, cmp: (Text, Text) -> int) returns (w: Value)
    requires Consistent(cmp) && WellFormed(v) && IsJson(v) && !KeysApart(v, cmp)
    ensures Shows(v, w, cmp)
    decreases v, 1
  {
    if v.Arr? {
      var i :| 0 <= i < |v.items| && !KeysApart(v.items[i], cmp);
      var x := OrderShows(v.items[i], cmp);
      hide *;
      ItemShows(v.items, i, x, cmp);
      w := Arr(v.items[i := x]);
    } else {
      assert v == Obj(v.entries);
      hide *;
      PrintedStands(v.entries, cmp);
      var u := EntryOrderShows(v, v.entries, cmp);
      ShowsFrom(Obj(Printed(v.entries, cmp)), v, u, cmp);
      w := u;
    }
  }

  lemma {:induction false} EntryOrderShows(v: Value, entries: seq<Member>, cmp: (Text, Text) -> int) returns (w: Value)
    requires v == Obj(entries) && Consistent(cmp) && WellFormed(v) && IsJson(v) && !KeysApart(v, cmp)
    ensures Shows(Obj(Printed(entries, cmp)), w, cmp)
    decreases v, 0
  {
    var s := Printed(entries, cmp);
    PrintedIsInOrder(entries, cmp);
    if NoTies(s, cmp) {
      var e := NestedEntry(entries, cmp);
      EntryBelow(entries, e);
      hide *;
      var x := OrderShows(e.value, cmp);
      var i :| 0 <= i < |s| && s[i] == e;
      EntryShows(s, i, x, cmp);
      w := Obj(s[i := Member(s[i].key, x)]);
    } else {
      hide *;
      var i, j := TiedPair(s, cmp);
      TieShows(s, i, j, cmp);
      w := Obj(s[i := s[j]][j := s[i]]);
    }
  }

  lemma EntryBelow(entries: seq<Member>, e: Member)
    requires WellFormed(Obj(entries)) && IsJson(Obj(entries)) && e in entries && !e.value.Undefined?
    ensures e.value < Obj(entries) && WellFormed(e.value) && IsJson(e.value)
  {
    var i :| 0 <= i < |entries| && entries[i] == e;
  }

  lemma ShowsFrom(u: Value, v: Value, w: Value, cmp: (Text, Text) -> int)
    requires Shows(u, w, cmp) && Denote(u) == Denote(v) && Print(u, cmp) == Print(v, cmp)
    ensures Shows(v, w, cmp)
  {
  }

  /** The order of insertion is invisible in the text of a value exactly when no two of its printed keys tie. */
  lemma OrderBlindIffKeysApart(v: Value, cmp: (Text, Text) -> int)
    requires Consistent(cmp) && WellFormed(v) && IsJson(v)
    ensures KeysApart(v, cmp) <==>
            forall w | WellFormed(w) && IsJson(w) && Denote(w) == Denote(v) :: Print(w, cmp) == Print(v, cmp)
  {
    if KeysApart(v, cmp) {
      hide *;
      forall w | WellFormed(w) && IsJson(w) && Denote(w) == Denote(v)
        ensures Print(w, cmp) == Print(v, cmp)
      {
        PrintDecidesEquality(v, w, cmp);
      }
    } else {
      var w := OrderShows(v, cmp);
      assert Shows(v, w, cmp);
      hide Consistent, KeysApart, WellFormed, IsJson, Denote, Print;
    }
  }

  // ---- An input -----------------------------------------------------------------------------------------

  /** An object with two keys, in the order of their insertion. */
  function Pair(a: Text, b: Text): Value {
    Obj([Member(a, Str(a)), Member(b, Str(b))])
  }

  /** Two different keys that the comparator ties make one map print as two texts. */
  lemma TiesShow(a: Text, b: Text, cmp: (Text, Text) -> int)
    requires a != b && cmp(a, b) <= 0 && cmp(b, a) <= 0
    ensures WellFormed(Pair(a, b)) && IsJson(Pair(a, b)) && Shows(Pair(a, b), Pair(b, a), cmp)
  {
    var s, t := [Member(a, Str(a)), Member(b, Str(b))], [Member(b, Str(b)), Member(a, Str(a))];
    assert forall e :: e in s <==> e in t;
    hide Print, Denote, Content;
    ReorderShows(s, t, 0, cmp);
  }

  /** U+00E9, and e with the combining acute accent U+0301: canonically equivalent, and different strings. */
  const COMPOSED: Text := [0xE9]
  const DECOMPOSED: Text := [0x65, 0x301]

  /**
   * ECMA-262, section 22.1.3.12, has localeCompare return 0 on canonically equivalent strings, so
   * the two orders of these two keys print two texts for one map.
   */
  lemma EquivalentKeysShow(localeCompare: (Text, Text) -> int)
    requires localeCompare(COMPOSED, DECOMPOSED) == 0 && localeCompare(DECOMPOSED, COMPOSED) == 0
    ensures !KeysApart(Pair(COMPOSED, DECOMPOSED), localeCompare)
    ensures Denote(Pair(COMPOSED, DECOMPOSED)) == Denote(Pair(DECOMPOSED, COMPOSED))
    ensures Print(Pair(COMPOSED, DECOMPOSED), localeCompare) != Print(Pair(DECOMPOSED, COMPOSED), localeCompare)
  {
    hide Print, Denote;
    assert |COMPOSED| != |DECOMPOSED|;
    TiesShow(COMPOSED, DECOMPOSED, localeCompare);
    var entries := Pair(COMPOSED, DECOMPOSED).entries;
    assert Tied(entries[0], entries[1], localeCompare);
  }
}
