/** Whole and torn identity files. */
module IdentityFacts {
  import opened Wrappers
  import opened JsonText
  import opened JsonNumber
  import opened JsonValue
  import opened JsonReader
  import opened IdentityFile
  import Characters = Text

  // ---- The whole file ------------------------------------------------------------------------

  ghost predicate AllPlain(fields: seq<(Text, Text)>) {
    forall i | 0 <= i < |fields| :: Plain(fields[i].0) && Plain(fields[i].1)
  }

  function EntriesOf(fields: seq<(Text, Text)>): (r: seq<Member>)
    ensures |r| == |fields|
  {
    seq(|fields|, i requires 0 <= i < |fields| => Member(fields[i].0, Str(fields[i].1)))
  }

  lemma {:induction false} ReadFields(fields: seq<(Text, Text)>, x: Text)
    requires fields != []
    ensures ReadMembers(Join(FieldTexts(fields)) + [CLOSE_OBJECT] + x) == Got(EntriesOf(fields), x)
    decreases |fields|
  {
    hide ReadMember, Quote, Field;
    var texts := FieldTexts(fields);
    var close := [CLOSE_OBJECT] + x;
    var s := Join(texts) + [CLOSE_OBJECT] + x;
    if |fields| == 1 {
      assert s == texts[0] + close;
      ReadField(fields[0].0, fields[0].1, close);
      assert SkipSpace(close) == close && close[1..] == x;
      assert EntriesOf(fields) == [Member(fields[0].0, Str(fields[0].1))];
    } else {
      var rest := Join(texts[1..]) + [CLOSE_OBJECT] + x;
      var comma := [COMMA] + rest;
      assert s == texts[0] + comma;
      ReadField(fields[0].0, fields[0].1, comma);
      assert SkipSpace(comma) == comma && comma[1..] == rest;
      assert texts[1..] == FieldTexts(fields[1..]);
      ReadFields(fields[1..], x);
      StartsWithQuote(fields[1..], x);
      assert EntriesOf(fields) == [Member(fields[0].0, Str(fields[0].1))] + EntriesOf(fields[1..]);
    }
  }

  lemma StartsWithQuote(fields: seq<(Text, Text)>, x: Text)
    requires fields != []
    ensures var s := Join(FieldTexts(fields)) + [CLOSE_OBJECT] + x; s != [] && s[0] == QUOTE && SkipSpace(s) == s
  {
    hide Escape;
    assert FieldTexts(fields)[0][0] == QUOTE;
  }

  /** The object, before its line end. */
  function Body(id: Identity): Text {
    [OPEN_OBJECT] + Join(FieldTexts(Fields(id))) + [CLOSE_OBJECT]
  }

  lemma ParseBraced(t: Text, x: Text, entries: seq<Member>)
    requires t != [] && t[0] == QUOTE && SkipSpace(t) == t && ReadMembers(t) == Got(entries, x) && SkipSpace(x) == []
    ensures Parse([OPEN_OBJECT] + t) == Some(Obj(entries))
  {
    hide ReadMembers, ReadElements, ReadString, ReadNumber, ReadLiteral;
    var s := [OPEN_OBJECT] + t;
    assert s[0] == OPEN_OBJECT && s[1..] == t && SkipSpace(s) == s;
  }

  lemma ParseObject(fields: seq<(Text, Text)>, x: Text)
    requires fields != [] && SkipSpace(x) == []
    ensures Parse([OPEN_OBJECT] + Join(FieldTexts(fields)) + [CLOSE_OBJECT] + x) == Some(Obj(EntriesOf(fields)))
  {
    hide *;
    ReadFields(fields, x);
    StartsWithQuote(fields, x);
    var t := Join(FieldTexts(fields)) + [CLOSE_OBJECT] + x;
    ParseBraced(t, x, EntriesOf(fields));
    assert [OPEN_OBJECT] + t == [OPEN_OBJECT] + Join(FieldTexts(fields)) + [CLOSE_OBJECT] + x;
  }

  // ---- What the launcher generates is accepted -------------------------------------------------

  predicate PlainChar(c: char) {
    ' ' < c < '{' && c != '"' && c != '\\'
  }

  lemma UnitsPlain(s: string)
    requires forall i | 0 <= i < |s| :: PlainChar(s[i])
    ensures Plain(Units(s))
  {
  }

  lemma KeysPlain()
    ensures Plain(DeletionKey()) && Plain(FormatKey()) && Plain(HmacKey()) && Plain(OwnerKey()) && Plain(Format())
  {
    hide Units, Plain;
    UnitsPlain("deletionHmacSecret");
    UnitsPlain("format");
    UnitsPlain("hmacSecret");
    UnitsPlain("ownerId");
    UnitsPlain("webchess-openclaw-runtime-identity/1");
  }

  lemma GeneratedPlain(id: Identity)
    requires Generated(id)
    ensures AllPlain(Fields(id))
  {
    KeysPlain();
    assert Plain(id.deletionHmacSecret) && Plain(id.hmacSecret);
    OwnerUnits(id);
    assert Plain(id.ownerId);
  }

  lemma OwnerUnits(id: Identity)
    requires Generated(id)
    ensures forall i | 0 <= i < |id.ownerId| :: OwnerUnit(id.ownerId[i])
  {
    assert forall i | 0 <= i < |OwnerPrefix()| :: id.ownerId[i] == OwnerPrefix()[i];
    assert forall i | 0 <= i < |OwnerPrefix()| :: OwnerUnit(OwnerPrefix()[i]);
  }

  lemma TrimKeeps(s: Text)
    requires s != [] && !Characters.Blank(s[0]) && !Characters.Blank(s[|s| - 1])
    ensures Trim(s) == s
  {
  }

  lemma {:induction false} Utf8AtLeast(s: Text)
    ensures Utf8Length(s) >= |s|
    decreases |s|
  {
    if s != [] {
      if StartsPair(s) { Utf8AtLeast(s[2..]); } else { Utf8AtLeast(s[1..]); }
    }
  }

  lemma SecretAccepted(s: Text)
    requires |s| == 64 && forall i | 0 <= i < 64 :: Base64UrlUnit(s[i])
    ensures ValidatedSecret(s) == Ok(s)
  {
    TrimKeeps(s);
    Utf8AtLeast(s);
    hide Trim, Utf8Length;
  }

  lemma OwnerAccepted(id: Identity)
    requires Generated(id)
    ensures ValidatedOwnerId(id.ownerId) == Ok(id.ownerId)
  {
    OwnerUnits(id);
    assert |OwnerPrefix()| == 9;
    TrimKeeps(id.ownerId);
    hide Trim, OwnerPrefix;
  }

  lemma KeysDistinct()
    ensures |{DeletionKey(), FormatKey(), HmacKey(), OwnerKey()}| == 4
    ensures DeletionKey() != FormatKey() && DeletionKey() != HmacKey() && DeletionKey() != OwnerKey()
    ensures FormatKey() != HmacKey() && FormatKey() != OwnerKey() && HmacKey() != OwnerKey()
  {
    assert |DeletionKey()| == 18 && |FormatKey()| == 6 && |HmacKey()| == 10 && |OwnerKey()| == 7;
  }

  lemma PropertiesOf(id: Identity)
    ensures var entries := EntriesOf(Fields(id));
            && Property(entries, DeletionKey()) == Some(Str(id.deletionHmacSecret)) && Property(entries, FormatKey()) == Some(Str(Format()))
            && Property(entries, HmacKey()) == Some(Str(id.hmacSecret)) && Property(entries, OwnerKey()) == Some(Str(id.ownerId))
            && (set e | e in entries :: e.key) == {DeletionKey(), FormatKey(), HmacKey(), OwnerKey()}
  {
    KeysDistinct();
    hide DeletionKey, FormatKey, HmacKey, OwnerKey, Format;
    var d, f, h, o := Member(DeletionKey(), Str(id.deletionHmacSecret)), Member(FormatKey(), Str(Format())),
                      Member(HmacKey(), Str(id.hmacSecret)), Member(OwnerKey(), Str(id.ownerId));
    var entries := EntriesOf(Fields(id));
    assert entries == [d, f, h, o];
    assert [d, f, h, o][..3] == [d, f, h] && [d, f, h][..2] == [d, f] && [d, f][..1] == [d];
    assert Property([d], DeletionKey()) == Some(d.value);
    assert Property([d, f], DeletionKey()) == Some(d.value) && Property([d, f], FormatKey()) == Some(f.value);
    assert Property([d, f, h], DeletionKey()) == Some(d.value) && Property([d, f, h], FormatKey()) == Some(f.value);
    assert Property([d, f, h], HmacKey()) == Some(h.value);
  }

  /** With or without its line end, the file reads back as the identity that was written. */
  lemma StoredReadsBack(id: Identity, x: Text)
    requires Generated(id) && SkipSpace(x) == []
    ensures ParseStoredRuntimeIdentity(Body(id) + x) == Ok(id)
  {
    hide *;
    FieldsPresent(id);
    ParseObject(Fields(id), x);
    ParsedIdentity(Body(id) + x, EntriesOf(Fields(id)), id);
  }

  lemma FieldsPresent(id: Identity)
    ensures Fields(id) != []
    ensures Body(id) == [OPEN_OBJECT] + Join(FieldTexts(Fields(id))) + [CLOSE_OBJECT]
  {
  }

  lemma ParsedIdentity(text: Text, entries: seq<Member>, id: Identity)
    requires Generated(id) && entries == EntriesOf(Fields(id)) && Parse(text) == Some(Obj(entries))
    ensures ParseStoredRuntimeIdentity(text) == Ok(id)
  {
    PropertiesOf(id);
    SecretAccepted(id.deletionHmacSecret);
    SecretAccepted(id.hmacSecret);
    OwnerAccepted(id);
    hide Parse, Property, EntriesOf, Fields, ValidatedSecret, ValidatedOwnerId, Generated;
    hide DeletionKey, FormatKey, HmacKey, OwnerKey, Format;
  }

  // ---- Torn reads --------------------------------------------------------------------------------

  /** No closing brace. */
  ghost predicate Open(s: Text) {
    forall i | 0 <= i < |s| :: s[i] != CLOSE_OBJECT
  }

  lemma {:induction false} SpaceOpen(s: Text)
    requires Open(s)
    ensures Open(SkipSpace(s))
    decreases |s|
  {
    if s != [] { SpaceOpen(s[1..]); }
  }

  lemma {:induction false} StringOpen(s: Text)
    requires Open(s) && ReadString(s).Got?
    ensures Open(ReadString(s).rest)
    decreases |s|
  {
    hide ReadHex, Unescape;
    if s[0] == QUOTE {
    } else if s[0] != BACKSLASH {
      StringOpen(s[1..]);
    } else if s[1] == 117 {
      StringOpen(s[2..][4..]);
    } else {
      StringOpen(s[2..]);
    }
  }

  lemma {:induction false} DigitsOpen(s: Text)
    requires Open(s)
    ensures Open(ReadDigits(s).rest)
    decreases |s|
  {
    if s != [] { DigitsOpen(s[1..]); }
  }

  lemma NumberOpen(s: Text)
    requires Open(s) && ReadNumber(s).Got?
    ensures Open(ReadNumber(s).rest)
  {
    hide ReadDigits;
    var sign := if s != [] && s[0] == MINUS then 1 else 0;
    DigitsOpen(s[sign..]);
    var a := ReadDigits(s[sign..]).rest;
    if a != [] { DigitsOpen(a[1..]); }
    var b := ReadFraction(a).rest;
    if b != [] {
      DigitsOpen(b[1..]);
      if |b| > 1 { DigitsOpen(b[2..]); }
    }
  }

  lemma {:induction false} ValueOpen(s: Text)
    requires Open(s)
    ensures ReadValue(s).Got? ==> Open(ReadValue(s).rest)
    ensures s != [] && s[0] == OPEN_OBJECT ==> ReadValue(s).Fail?
    decreases |s|, 1
  {
    hide ReadString, ReadNumber;
    if s != [] && s[0] == OPEN_OBJECT {
      SpaceOpen(s[1..]);
      MembersOpen(SkipSpace(s[1..]));
    } else if s != [] && s[0] == OPEN_ARRAY {
      SpaceOpen(s[1..]);
      ElementsOpen(SkipSpace(s[1..]));
    } else if s != [] && s[0] == QUOTE {
      if ReadString(s[1..]).Got? { StringOpen(s[1..]); }
    } else if s != [] && ReadNumber(s).Got? {
      NumberOpen(s);
    }
  }

  lemma {:induction false} MemberOpen(s: Text)
    requires Open(s) && ReadMember(s).Got?
    ensures Open(ReadMember(s).rest)
    decreases |s|, 0
  {
    hide ReadString, ReadValue;
    StringOpen(s[1..]);
    var afterKey := ReadString(s[1..]).rest;
    SpaceOpen(afterKey);
    var colon := SkipSpace(afterKey);
    SpaceOpen(colon[1..]);
    ValueOpen(SkipSpace(colon[1..]));
    SpaceOpen(ReadValue(SkipSpace(colon[1..])).rest);
  }

  /** An object whose brace is missing is no JSON. */
  lemma {:induction false} MembersOpen(s: Text)
    requires Open(s)
    ensures ReadMembers(s).Fail?
    decreases |s|, 2
  {
    hide ReadMember;
    if ReadMember(s).Got? {
      MemberOpen(s);
      var after := ReadMember(s).rest;
      if after != [] {
        SpaceOpen(after[1..]);
        MembersOpen(SkipSpace(after[1..]));
      }
    }
  }

  lemma {:induction false} ElementsOpen(s: Text)
    requires Open(s)
    ensures ReadElements(s).Got? ==> Open(ReadElements(s).rest)
    decreases |s|, 2
  {
    hide ReadValue;
    ValueOpen(s);
    if ReadValue(s).Got? {
      var rest := ReadValue(s).rest;
      SpaceOpen(rest);
      var after := SkipSpace(rest);
      if after != [] {
        SpaceOpen(after[1..]);
        ElementsOpen(SkipSpace(after[1..]));
      }
    }
  }

  lemma FieldOpen(key: Text, value: Text)
    requires Plain(key) && Plain(value)
    ensures Open(Field(key, value))
  {
    QuotePlain(key);
    QuotePlain(value);
    hide Quote;
    assert Open(Quote(key)) && Open(Quote(value));
  }

  lemma {:induction false} FieldsOpen(fields: seq<(Text, Text)>)
    requires AllPlain(fields)
    ensures Open(Join(FieldTexts(fields)))
    decreases |fields|
  {
    hide Field, Plain;
    var texts := FieldTexts(fields);
    if fields != [] {
      FieldOpen(fields[0].0, fields[0].1);
      assert texts[1..] == FieldTexts(fields[1..]);
      FieldsOpen(fields[1..]);
    }
  }

  lemma OpenFails(s: Text)
    requires Open(s) && (s == [] || s[0] == OPEN_OBJECT)
    ensures ParseStoredRuntimeIdentity(s) == Err(InvalidJson)
  {
    ValueOpen(s);
    hide ReadMembers, ReadElements;
    assert SkipSpace(s) == s;
  }

  /**
   * A prefix of the stored text either is refused or reads as the very identity: it is accepted
   * exactly when at most the final line end is missing.
   */
  lemma TornReads(id: Identity, p: Text)
    requires Generated(id) && p <= FileText(id)
    ensures ParseStoredRuntimeIdentity(p) == if |p| + 1 >= |FileText(id)| then Ok(id) else Err(InvalidJson)
  {
    hide ParseStoredRuntimeIdentity, Generated;
    var head := [OPEN_OBJECT] + Join(FieldTexts(Fields(id)));
    assert FileText(id) == Body(id) + [10] && Body(id) == head + [CLOSE_OBJECT];
    assert p == FileText(id)[..|p|];
    if |p| + 1 >= |FileText(id)| {
      var x: Text := if |p| == |FileText(id)| then [10] else [];
      assert p == Body(id) + x;
      assert SkipSpace(x) == [] by { assert [10 as Unit][1..] == []; }
      StoredReadsBack(id, x);
    } else {
      GeneratedPlain(id);
      FieldsOpen(Fields(id));
      hide Join, FieldTexts, Fields, AllPlain;
      assert p == head[..|p|];
      OpenFails(p);
    }
  }

  lemma FieldLength(key: Text, value: Text)
    requires Plain(key) && Plain(value)
    ensures |Field(key, value)| == |key| + |value| + 5
  {
    QuotePlain(key);
    QuotePlain(value);
    hide Quote;
  }

  lemma JoinLength(a: Text, b: Text, c: Text, d: Text)
    ensures |Join([a, b, c, d])| == |a| + |b| + |c| + |d| + 3
  {
    assert [a, b, c, d][1..] == [b, c, d] && [b, c, d][1..] == [c, d] && [c, d][1..] == [d];
    assert |Join([d])| == |d| && |Join([c, d])| == |c| + 1 + |d| && |Join([b, c, d])| == |b| + 1 + |c| + 1 + |d|;
  }

  lemma KeyLengths()
    ensures |DeletionKey()| == 18 && |FormatKey()| == 6 && |HmacKey()| == 10 && |OwnerKey()| == 7
    ensures |Format()| == 36 && |OwnerPrefix()| == 9
  {
  }

  /** What a launcher writes is within what a launcher reads. */
  lemma FileSize(id: Identity)
    requires Generated(id)
    ensures |FileText(id)| == 272 < MAX_RUNTIME_IDENTITY_BYTES
  {
    hide Field, Plain, Units, DeletionKey, FormatKey, HmacKey, OwnerKey, Format, OwnerPrefix, Join;
    GeneratedPlain(id);
    KeyLengths();
    var fields := Fields(id);
    assert |fields| == 4 && forall i | 0 <= i < 4 :: Plain(fields[i].0) && Plain(fields[i].1);
    assert fields[0] == (DeletionKey(), id.deletionHmacSecret) && fields[1] == (FormatKey(), Format());
    assert fields[2] == (HmacKey(), id.hmacSecret) && fields[3] == (OwnerKey(), id.ownerId);
    FieldLength(DeletionKey(), id.deletionHmacSecret);
    FieldLength(FormatKey(), Format());
    FieldLength(HmacKey(), id.hmacSecret);
    FieldLength(OwnerKey(), id.ownerId);
    var a, b := Field(DeletionKey(), id.deletionHmacSecret), Field(FormatKey(), Format());
    var c, d := Field(HmacKey(), id.hmacSecret), Field(OwnerKey(), id.ownerId);
    assert FieldTexts(fields) == [a, b, c, d];
    JoinLength(a, b, c, d);
  }
}
