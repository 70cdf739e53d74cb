/** Numbers that are not finite, in canonical texts. */
module CanonicalFinite {
  import opened Wrappers
  import opened Sequences
  import opened JsonText
  import opened JsonNumber
  import opened JsonValue
  import opened Sorting
  import opened CanonicalJson
  import opened CanonicalFacts

  // ---- Finite values -----------------------------------------------------------------------------

  lemma LookupEntry(entries: seq<Member>, key: Text)
    requires key in set e | e in Defined(entries) :: e.key
    ensures exists i :: 0 <= i < |entries| && entries[i] == Lookup(Defined(entries), key)
  {
    var e := Lookup(Defined(entries), key);
    assert e in entries;
  }

  /** Where every number is finite, the JSON content is the content. */
  lemma {:induction false} FiniteExact(v: Value)
    requires Finite(v)
    ensures Exact(v) == Denote(v)
  {
    match v
    case Arr(items) =>
      forall i | 0 <= i < |items|
        ensures Content(items[i], CNonFinite) == Content(items[i], CNull)
      {
        FiniteExact(items[i]);
      }
    case Obj(entries) =>
      forall i | 0 <= i < |entries|
        ensures Exact(entries[i].value) == Denote(entries[i].value)
      {
        FiniteExact(entries[i].value);
      }
      FiniteFields(entries);
    case _ =>
  }

  lemma FiniteFields(entries: seq<Member>)
    requires forall i | 0 <= i < |entries| :: Exact(entries[i].value) == Denote(entries[i].value)
    ensures Exact(Obj(entries)) == Denote(Obj(entries))
  {
    var defined := Defined(entries);
    forall key | key in (set e | e in defined :: e.key)
      ensures Content(Lookup(defined, key).value, CNonFinite) == Content(Lookup(defined, key).value, CNull)
    {
      LookupEntry(entries, key);
      var i :| 0 <= i < |entries| && entries[i] == Lookup(defined, key);
    }
    hide Defined, Lookup;
  }

  lemma FieldTwin(v: seq<Member>, w: seq<Member>, e: Member, cmp: (Text, Text) -> int)
    requires DistinctKeys(v) && DistinctKeys(w) && Exact(Obj(v)) == Exact(Obj(w))
    requires e in v && !e.value.Undefined?
    ensures exists i :: 0 <= i < |w| && Exact(w[i].value) == Exact(e.value)
  {
    FieldsOf(v, cmp, CNonFinite);
    FieldsOf(w, cmp, CNonFinite);
    assert e in Printed(v, cmp);
    hide Content, DistinctKeys;
    var f :| f in Printed(w, cmp) && f.key == e.key;
    assert f in w;
    hide Printed;
    assert Exact(f.value) == Exact(e.value);
  }

  /** The content tells whether every number is finite. */
  lemma {:induction false} ExactTellsFinite(v: Value, w: Value, cmp: (Text, Text) -> int)
    requires WellFormed(v) && WellFormed(w) && Finite(w) && Exact(v) == Exact(w)
    ensures Finite(v)
  {
    match v
    case Arr(items) =>
      var c := Exact(v);
      forall i | 0 <= i < |items|
        ensures Finite(items[i])
      {
        assert c.items[i] == Exact(items[i]) && c.items[i] == Exact(w.items[i]);
        ExactTellsFinite(items[i], w.items[i], cmp);
      }
    case Obj(entries) =>
      assert w.Obj?;
      forall i | 0 <= i < |entries|
        ensures Finite(entries[i].value)
      {
        if !entries[i].value.Undefined? {
          FieldTwin(entries, w.entries, entries[i], cmp);
          var j :| 0 <= j < |w.entries| && Exact(w.entries[j].value) == Exact(entries[i].value);
          ExactTellsFinite(entries[i].value, w.entries[j].value, cmp);
        }
      }
    case _ =>
  }

  // ---- Null in place of what is not finite -----------------------------------------------------------

  /** The value with null for every number that is not finite. */
  function Nulled(v: Value): Value {
    match v
    case NonFinite => Null
    case Arr(items) => Arr(seq(|items|, i requires 0 <= i < |items| => Nulled(items[i])))
    case Obj(entries) => Obj(seq(|entries|, i requires 0 <= i < |entries| => Member(entries[i].key, Nulled(entries[i].value))))
    case _ => v
  }

  function NulledEntry(): Member -> Member {
    (e: Member) => Member(e.key, Nulled(e.value))
  }

  lemma {:induction false} NulledIsSound(v: Value)
    requires WellFormed(v) && IsJson(v)
    ensures WellFormed(Nulled(v)) && IsJson(Nulled(v)) && Finite(Nulled(v))
  {
    match v
    case Arr(items) =>
      forall i | 0 <= i < |items|
        ensures WellFormed(Nulled(items[i])) && IsJson(Nulled(items[i])) && Finite(Nulled(items[i]))
      {
        NulledIsSound(items[i]);
      }
    case Obj(entries) =>
      forall i | 0 <= i < |entries| && !entries[i].value.Undefined?
        ensures WellFormed(Nulled(entries[i].value)) && IsJson(Nulled(entries[i].value)) && Finite(Nulled(entries[i].value))
      {
        NulledIsSound(entries[i].value);
      }
    case _ =>
  }

  lemma {:induction false} NulledDefined(entries: seq<Member>)
    ensures Defined(Map(NulledEntry(), entries)) == Map(NulledEntry(), Defined(entries))
  {
    if entries != [] {
      var f, e, rest := NulledEntry(), entries[0], entries[1..];
      NulledDefined(rest);
      assert f(e).value.Undefined? <==> e.value.Undefined?;
      hide Nulled, NulledEntry;
      assert Map(f, entries)[0] == f(e) && Map(f, entries)[1..] == Map(f, rest);
      assert Map(f, [e]) == [f(e)];
      MapConcat(f, [e], Defined(rest));
    }
  }

  /** Replacing numbers does not move an entry. */
  lemma NulledPrinted(entries: seq<Member>, cmp: (Text, Text) -> int)
    ensures Printed(Map(NulledEntry(), entries), cmp) == Map(NulledEntry(), Printed(entries, cmp))
  {
    hide Defined, Sort, Map, Nulled;
    var f, order := NulledEntry(), By(KeyOf(), cmp);
    NulledDefined(entries);
    SortMaps(f, Defined(entries), order);
    assert forall a, b :: By(f, order)(a, b) == order(a, b);
    SortAgrees(Defined(entries), By(f, order), order);
  }

  lemma {:induction false} NulledItemsPrint(
    v: Value, vs: seq<Value>, w: Value, ws: seq<Value>, cmp: (Text, Text) -> int)
    requires (forall x | x in vs :: x < v) && (forall x | x in ws :: x < w)
    requires |ws| == |vs| && forall i | 0 <= i < |vs| :: ws[i] == Nulled(vs[i])
    ensures PrintItems(w, ws, cmp) == PrintItems(v, vs, cmp)
    decreases v, 0, |vs|
  {
    if vs != [] {
      assert vs[0] in vs && (forall x | x in vs[1..] :: x in vs) && forall x | x in ws[1..] :: x in ws;
      NulledPrints(vs[0], cmp);
      NulledItemsPrint(v, vs[1..], w, ws[1..], cmp);
    }
  }

  /** The texts of some entries, from the texts of the first one's value and of the others. */
  function WithFirst(key: Text, part: Result<Text, PrintError>, rest: Result<seq<Text>, PrintError>): Result<seq<Text>, PrintError> {
    var first :- part;
    var others :- rest;
    Ok([Quote(key) + [COLON] + first] + others)
  }

  lemma EntriesStep(v: Value, vs: seq<Member>, cmp: (Text, Text) -> int)
    requires (forall e | e in vs :: e.value < v) && vs != []
    ensures vs[0].value < v && forall e | e in vs[1..] :: e.value < v
    ensures PrintEntries(v, vs, cmp) == WithFirst(vs[0].key, Print(vs[0].value, cmp), PrintEntries(v, vs[1..], cmp))
  {
    assert vs[0] in vs && forall e | e in vs[1..] :: e in vs;
    hide Print, Quote;
  }

  lemma {:induction false} NulledEntriesPrint(
    v: Value, vs: seq<Member>, w: Value, ws: seq<Member>, cmp: (Text, Text) -> int)
    requires (forall e | e in vs :: e.value < v) && (forall e | e in ws :: e.value < w)
    requires ws == Map(NulledEntry(), vs)
    ensures PrintEntries(w, ws, cmp) == PrintEntries(v, vs, cmp)
    decreases v, 0, |vs|
  {
    if vs != [] {
      EntriesStep(v, vs, cmp);
      EntriesStep(w, ws, cmp);
      assert ws[0] == NulledEntry()(vs[0]) && ws[1..] == Map(NulledEntry(), vs[1..]);
      NulledPrints(vs[0].value, cmp);
      hide *;
      NulledEntriesPrint(v, vs[1..], w, ws[1..], cmp);
    }
  }

  /** The text does not show the replacement. */
  lemma {:induction false} NulledPrints(v: Value, cmp: (Text, Text) -> int)
    ensures Print(Nulled(v), cmp) == Print(v, cmp)
    decreases v, 1
  {
    match v
    case Arr(items) => NulledItemsPrint(v, items, Nulled(v), Nulled(v).items, cmp);
    case Obj(entries) =>
      var w := Nulled(v);
      assert w.entries == Map(NulledEntry(), entries);
      NulledPrinted(entries, cmp);
      NulledEntriesPrint(v, Printed(entries, cmp), w, Printed(w.entries, cmp), cmp);
    case _ =>
  }

  // ---- The condition -------------------------------------------------------------------------------------

  /** No finite value with other content prints the text of this one: exactly when this one is finite. */
  lemma FaithfulIffFinite(v: Value, cmp: (Text, Text) -> int)
    requires WellFormed(v) && IsJson(v)
    ensures Finite(v) <==>
            forall w | WellFormed(w) && IsJson(w) && Finite(w) && Print(w, cmp) == Print(v, cmp) :: Exact(w) == Exact(v)
  {
    Printable(v, cmp);
    NulledIsSound(v);
    NulledPrints(v, cmp);
    hide *;
    if Finite(v) {
      forall w | WellFormed(w) && IsJson(w) && Finite(w) && Print(w, cmp) == Print(v, cmp)
        ensures Exact(w) == Exact(v)
      {
        PrintInjective(v, w, cmp);
        FiniteExact(v);
        FiniteExact(w);
      }
    } else if Exact(Nulled(v)) == Exact(v) {
      ExactTellsFinite(v, Nulled(v), cmp);
    }
  }
}
