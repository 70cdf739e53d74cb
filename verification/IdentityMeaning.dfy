/** The text of an identity file, and which texts are one. */
module IdentityMeaning {
  import opened Wrappers
  import opened JsonText
  import opened JsonNumber
  import opened JsonValue
  import opened JsonReader
  import opened IdentityFile
  import opened IdentityFacts
  import Characters = Text

  // ---- The text -----------------------------------------------------------------------------------------

  function Entry(key: string, value: Text): Text {
    Units("\"") + Units(key) + Units("\":\"") + value + Units("\"")
  }

  lemma Marks()
    ensures Units("\"") == [QUOTE] && Units("\":\"") == [QUOTE, COLON, QUOTE] && Units(",") == [COMMA]
    ensures Units("{") == [OPEN_OBJECT] && Units("}\n") == [CLOSE_OBJECT, 10]
  {
  }

  lemma FieldIs(key: string, value: Text)
    requires Plain(Units(key)) && Plain(value)
    ensures Field(Units(key), value) == Entry(key, value)
  {
    Marks();
    QuotePlain(Units(key));
    QuotePlain(value);
    hide Quote, Units;
    assert [QUOTE] + Units(key) + [QUOTE] + [COLON] + ([QUOTE] + value + [QUOTE])
        == [QUOTE] + Units(key) + [QUOTE, COLON, QUOTE] + value + [QUOTE];
  }

  lemma JoinIs(a: Text, b: Text, c: Text, d: Text)
    ensures Join([a, b, c, d]) == a + [COMMA] + b + [COMMA] + c + [COMMA] + d
  {
    assert [a, b, c, d][1..] == [b, c, d] && [b, c, d][1..] == [c, d] && [c, d][1..] == [d];
    assert Join([c, d]) == c + [COMMA] + d && Join([b, c, d]) == b + [COMMA] + Join([c, d]);
    assert Join([a, b, c, d]) == a + [COMMA] + Join([b, c, d]);
  }

  /** The file a launcher writes, key by key. */
  lemma FileIs(id: Identity)
    requires Generated(id)
    ensures FileText(id) ==
            Units("{") + Entry("deletionHmacSecret", id.deletionHmacSecret)
            + Units(",") + Entry("format", Units("webchess-openclaw-runtime-identity/1"))
            + Units(",") + Entry("hmacSecret", id.hmacSecret)
            + Units(",") + Entry("ownerId", id.ownerId) + Units("}\n")
  {
    GeneratedPlain(id);
    KeysPlain();
    Marks();
    var fields := Fields(id);
    assert |fields| == 4 && forall i | 0 <= i < 4 :: Plain(fields[i].0) && Plain(fields[i].1);
    assert fields[0].1 == id.deletionHmacSecret && fields[2].1 == id.hmacSecret && fields[3].1 == id.ownerId;
    hide Units, Plain, Field, Entry, Join, Generated;
    FieldIs("deletionHmacSecret", id.deletionHmacSecret);
    FieldIs("format", Units("webchess-openclaw-runtime-identity/1"));
    FieldIs("hmacSecret", id.hmacSecret);
    FieldIs("ownerId", id.ownerId);
    var a, b := Entry("deletionHmacSecret", id.deletionHmacSecret), Entry("format", Units("webchess-openclaw-runtime-identity/1"));
    var c, d := Entry("hmacSecret", id.hmacSecret), Entry("ownerId", id.ownerId);
    FourTexts(fields, a, b, c, d);
    FileJoins(id, a, b, c, d);
  }

  lemma FourTexts(fields: seq<(Text, Text)>, a: Text, b: Text, c: Text, d: Text)
    requires |fields| == 4 && Field(fields[0].0, fields[0].1) == a && Field(fields[1].0, fields[1].1) == b
    requires Field(fields[2].0, fields[2].1) == c && Field(fields[3].0, fields[3].1) == d
    ensures FieldTexts(fields) == [a, b, c, d]
  {
    hide Field;
  }

  lemma FileJoins(id: Identity, a: Text, b: Text, c: Text, d: Text)
    requires FieldTexts(Fields(id)) == [a, b, c, d]
    ensures FileText(id) == [OPEN_OBJECT] + a + [COMMA] + b + [COMMA] + c + [COMMA] + d + [CLOSE_OBJECT, 10]
  {
    JoinIs(a, b, c, d);
    hide Join, FieldTexts, Fields;
    assert [OPEN_OBJECT] + (a + [COMMA] + b + [COMMA] + c + [COMMA] + d) + [CLOSE_OBJECT] + [10]
        == [OPEN_OBJECT] + a + [COMMA] + b + [COMMA] + c + [COMMA] + d + [CLOSE_OBJECT, 10];
  }

  // ---- Which texts are accepted -------------------------------------------------------------------------

  predicate AllBlank(s: Text) {
    forall i | 0 <= i < |s| :: Characters.Blank(s[i])
  }

  /** t is s without the white space around it. */
  ghost predicate TrimsTo(s: Text, t: Text) {
    && (t != [] ==> !Characters.Blank(t[0]) && !Characters.Blank(t[|t| - 1]))
    && exists a: Text, b: Text :: AllBlank(a) && AllBlank(b) && s == a + t + b
  }

  lemma {:induction false} TrimStartIs(s: Text) returns (a: Text)
    ensures AllBlank(a) && s == a + TrimStart(s)
    ensures TrimStart(s) != [] ==> !Characters.Blank(TrimStart(s)[0])
  {
    hide Characters.Blank;
    if s != [] && Characters.Blank(s[0]) {
      var rest := TrimStartIs(s[1..]);
      a := [s[0]] + rest;
      assert s == [s[0]] + s[1..];
    } else {
      a := [];
    }
  }

  lemma {:induction false} TrimEndIs(s: Text) returns (b: Text)
    ensures AllBlank(b) && s == TrimEnd(s) + b
    ensures TrimEnd(s) != [] ==> !Characters.Blank(TrimEnd(s)[|TrimEnd(s)| - 1])
  {
    hide Characters.Blank;
    if s != [] && Characters.Blank(s[|s| - 1]) {
      var rest := TrimEndIs(s[..|s| - 1]);
      b := rest + [s[|s| - 1]];
      assert s == s[..|s| - 1] + [s[|s| - 1]];
    } else {
      b := [];
    }
  }

  lemma TrimIs(s: Text)
    ensures TrimsTo(s, Trim(s))
  {
    var a := TrimStartIs(s);
    var b := TrimEndIs(TrimStart(s));
    var t := Trim(s);
    hide TrimStart, TrimEnd, Characters.Blank;
    assert s == a + t + b;
    if t != [] { assert TrimStart(s)[0] == t[0]; }
  }

  /** Around the trimmed text everything is blank. */
  lemma Edges(s: Text, a: Text, t: Text, b: Text)
    requires AllBlank(a) && AllBlank(b) && s == a + t + b
    ensures forall k | 0 <= k < |a| :: Characters.Blank(s[k])
    ensures forall k | |a| + |t| <= k < |s| :: Characters.Blank(s[k])
    ensures forall k | 0 <= k < |t| :: s[|a| + k] == t[k]
  {
    hide Characters.Blank;
  }

  lemma TrimsAlike(s: Text, t: Text, u: Text)
    requires TrimsTo(s, t) && TrimsTo(s, u)
    ensures |t| <= |u| && (t == [] <==> u == [])
  {
    hide Characters.Blank;
    var a: Text, b: Text :| AllBlank(a) && AllBlank(b) && s == a + t + b;
    var c: Text, d: Text :| AllBlank(c) && AllBlank(d) && s == c + u + d;
    Edges(s, a, t, b);
    Edges(s, c, u, d);
    hide AllBlank;
    if t != [] {
      assert s[|a|] == t[0] && s[|a| + |t| - 1] == t[|t| - 1];
    }
    if u != [] {
      assert s[|c|] == u[0];
    }
  }

  lemma TrimsOnce(s: Text, t: Text)
    ensures TrimsTo(s, t) <==> t == Trim(s)
  {
    hide Trim, Characters.Blank;
    TrimIs(s);
    if TrimsTo(s, t) {
      TrimsAlike(s, t, Trim(s));
      TrimsAlike(s, Trim(s), t);
      if t != [] { TrimsSame(s, t, Trim(s)); }
    }
  }

  lemma TrimsSame(s: Text, t: Text, u: Text)
    requires TrimsTo(s, t) && TrimsTo(s, u) && t != [] && u != [] && |t| == |u|
    ensures t == u
  {
    hide Characters.Blank;
    var a: Text, b: Text :| AllBlank(a) && AllBlank(b) && s == a + t + b;
    var c: Text, d: Text :| AllBlank(c) && AllBlank(d) && s == c + u + d;
    Edges(s, a, t, b);
    Edges(s, c, u, d);
    assert s[|a|] == t[0] && s[|c|] == u[0];
    assert |a| == |c|;
    assert t == s[|a|..|a| + |t|] && u == s[|c|..|c| + |u|];
  }

  /** The value of the last member of a name. */
  ghost predicate Last(entries: seq<Member>, key: Text, value: Value) {
    exists i :: 0 <= i < |entries| && entries[i] == Member(key, value) && forall j | i < j < |entries| :: entries[j].key != key
  }

  lemma LastStays(front: seq<Member>, last: Member, key: Text, value: Value)
    requires last.key != key
    ensures Last(front + [last], key, value) <==> Last(front, key, value)
  {
    var entries := front + [last];
    if i :| 0 <= i < |front| && front[i] == Member(key, value) && forall j | i < j < |front| :: front[j].key != key {
      assert entries[i] == Member(key, value);
    }
    if i :| 0 <= i < |entries| && entries[i] == Member(key, value) && forall j | i < j < |entries| :: entries[j].key != key {
      assert front[i] == Member(key, value);
      assert forall j | i < j < |front| :: front[j] == entries[j];
    }
  }

  lemma LastIsLast(front: seq<Member>, last: Member, value: Value)
    ensures Last(front + [last], last.key, value) <==> last.value == value
  {
    var entries := front + [last];
    if last.value == value { assert entries[|front|] == Member(last.key, value); }
    if i :| 0 <= i < |entries| && entries[i] == Member(last.key, value) && forall j | i < j < |entries| :: entries[j].key != last.key {
      assert entries[|front|] == last;
    }
  }

  lemma {:induction false} PropertyIs(entries: seq<Member>, key: Text, value: Value)
    ensures Property(entries, key) == Some(value) <==> Last(entries, key, value)
  {
    if entries != [] {
      var front, last := entries[..|entries| - 1], entries[|entries| - 1];
      assert entries == front + [last];
      if last.key == key { LastIsLast(front, last, value); } else { LastStays(front, last, key, value); }
      hide Last;
      PropertyIs(front, key, value);
    }
  }

  /** The owner's name: the prefix and 8 to 80 small letters, digits, underscores or hyphens. */
  predicate OwnerName(s: Text) {
    && 17 <= |s| <= 89 && s[..9] == Units("openclaw_")
    && forall i | 9 <= i < |s| :: 'a' as int <= s[i] <= 'z' as int || '0' as int <= s[i] <= '9' as int || s[i] == '_' as int || s[i] == '-' as int
  }

  // ---- Bytes -------------------------------------------------------------------------------------------

  /** The code points of a string; a lone surrogate counts as the replacement character U+FFFD. */
  function CodePoints(s: Text): (r: seq<int>)
    ensures forall i | 0 <= i < |r| :: 0 <= r[i] < 0x11_0000
  {
    if s == [] then []
    else if |s| >= 2 && 0xD800 <= s[0] < 0xDC00 <= s[1] < 0xE000 then
      [PairPoint(s[0], s[1])] + CodePoints(s[2..])
    else [LonePoint(s[0])] + CodePoints(s[1..])
  }

  function PairPoint(lead: int, trail: int): int {
    0x1_0000 + (lead - 0xD800) * 0x400 + (trail - 0xDC00)
  }

  function LonePoint(unit: int): int {
    if 0xD800 <= unit < 0xE000 then 0xFFFD else unit
  }

  /** UTF-8 of one code point, after section 3 of RFC 3629. */
  function Utf8(c: int): seq<int>
    requires 0 <= c < 0x11_0000
  {
    if c < 0x80 then [c]
    else if c < 0x800 then [0xC0 + c / 64, 0x80 + c % 64]
    else if c < 0x1_0000 then [0xE0 + c / 4096, 0x80 + c / 64 % 64, 0x80 + c % 64]
    else [0xF0 + c / 262144, 0x80 + c / 4096 % 64, 0x80 + c / 64 % 64, 0x80 + c % 64]
  }

  function Encoded(points: seq<int>): seq<int>
    requires forall i | 0 <= i < |points| :: 0 <= points[i] < 0x11_0000
  {
    if points == [] then [] else Utf8(points[0]) + Encoded(points[1..])
  }

  lemma {:induction false} Utf8LengthIs(s: Text)
    ensures Utf8Length(s) == |Encoded(CodePoints(s))|
    decreases |s|
  {
    if s != [] {
      if StartsPair(s) {
        Utf8LengthIs(s[2..]);
        FirstPoint(PairPoint(s[0], s[1]), CodePoints(s[2..]));
        hide Encoded;
      } else {
        Utf8LengthIs(s[1..]);
        FirstPoint(LonePoint(s[0]), CodePoints(s[1..]));
        hide Encoded;
      }
    }
  }

  /** At least 32 bytes. */
  predicate LongEnough(s: Text) {
    |Encoded(CodePoints(s))| >= 32
  }

  lemma LongEnoughIs(s: Text)
    ensures LongEnough(s) <==> Utf8Length(s) >= 32
  {
    Utf8LengthIs(s);
    hide Encoded, CodePoints, Utf8Length;
  }

  lemma FirstPoint(c: int, rest: seq<int>)
    requires 0 <= c < 0x11_0000 && forall i | 0 <= i < |rest| :: 0 <= rest[i] < 0x11_0000
    ensures |Encoded([c] + rest)| == |Encoded(rest)| + if c < 0x80 then 1 else if c < 0x800 then 2 else if c < 0x1_0000 then 3 else 4
  {
    assert ([c] + rest)[1..] == rest;
  }

  /** What the members of a stored object say. */
  ghost predicate Tells(entries: seq<Member>, id: Identity) {
    && (set e | e in entries :: e.key) == {Units("deletionHmacSecret"), Units("format"), Units("hmacSecret"), Units("ownerId")}
    && Last(entries, Units("format"), Str(Units("webchess-openclaw-runtime-identity/1")))
    && (exists s :: Last(entries, Units("deletionHmacSecret"), Str(s)) && TrimsTo(s, id.deletionHmacSecret))
    && (exists s :: Last(entries, Units("hmacSecret"), Str(s)) && TrimsTo(s, id.hmacSecret))
    && (exists s :: Last(entries, Units("ownerId"), Str(s)) && TrimsTo(s, id.ownerId))
    && LongEnough(id.deletionHmacSecret) && LongEnough(id.hmacSecret) && OwnerName(id.ownerId)
  }

  lemma OwnerIs(s: Text)
    ensures OwnerPattern(s) <==> OwnerName(s)
  {
    assert |OwnerPrefix()| == 9;
    hide OwnerPrefix;
    assert OwnerPrefix() == Units("openclaw_") by { OwnerPrefixIs(); }
    if |s| >= 9 { assert OwnerPrefix() <= s <==> s[..9] == OwnerPrefix(); }
  }

  lemma OwnerPrefixIs()
    ensures OwnerPrefix() == Units("openclaw_")
  {
  }

  /** The last member of the name is a string that trims to t. */
  predicate StringAt(entries: seq<Member>, key: Text, t: Text) {
    Property(entries, key).Some? && Property(entries, key).value.Str? && Trim(Property(entries, key).value.s) == t
  }

  lemma StringMember(entries: seq<Member>, key: Text, t: Text)
    ensures (exists s :: Last(entries, key, Str(s)) && TrimsTo(s, t)) <==> StringAt(entries, key, t)
  {
    hide Last, TrimsTo, Property, Trim;
    if s :| Last(entries, key, Str(s)) && TrimsTo(s, t) {
      PropertyIs(entries, key, Str(s));
      TrimsOnce(s, t);
    }
    if Property(entries, key).Some? && Property(entries, key).value.Str? {
      PropertyIs(entries, key, Property(entries, key).value);
      TrimsOnce(Property(entries, key).value.s, t);
    }
  }

  lemma EntriesRead(text: Text, entries: seq<Member>, id: Identity)
    requires Parse(text) == Some(Obj(entries))
    ensures ParseStoredRuntimeIdentity(text) == Ok(id) <==>
              && (set e | e in entries :: e.key) == {DeletionKey(), FormatKey(), HmacKey(), OwnerKey()}
              && Property(entries, FormatKey()) == Some(Str(Format()))
              && StringAt(entries, DeletionKey(), id.deletionHmacSecret) && StringAt(entries, HmacKey(), id.hmacSecret)
              && StringAt(entries, OwnerKey(), id.ownerId)
              && Utf8Length(id.deletionHmacSecret) >= 32 && Utf8Length(id.hmacSecret) >= 32 && OwnerPattern(id.ownerId)
  {
    hide Parse, Property, Trim, Units, Utf8Length, OwnerPattern, DeletionKey, FormatKey, HmacKey, OwnerKey, Format;
  }

  lemma NothingRead(text: Text)
    requires Parse(text).None? || !Parse(text).value.Obj?
    ensures ParseStoredRuntimeIdentity(text).Err?
  {
    hide Parse;
  }

  /** A text is read as an identity exactly when it is an object that tells it. */
  lemma ReadsExactly(text: Text, id: Identity)
    ensures ParseStoredRuntimeIdentity(text) == Ok(id) <==> Parse(text).Some? && Parse(text).value.Obj? && Tells(Parse(text).value.entries, id)
  {
    hide ParseStoredRuntimeIdentity, Parse, Property, Last, TrimsTo, Trim, Units, Utf8Length, OwnerPattern, OwnerName, LongEnough, StringAt;
    if Parse(text).Some? && Parse(text).value.Obj? {
      var entries := Parse(text).value.entries;
      EntriesRead(text, entries, id);
      PropertyIs(entries, FormatKey(), Str(Format()));
      StringMember(entries, DeletionKey(), id.deletionHmacSecret);
      StringMember(entries, HmacKey(), id.hmacSecret);
      StringMember(entries, OwnerKey(), id.ownerId);
      OwnerIs(id.ownerId);
      LongEnoughIs(id.deletionHmacSecret);
      LongEnoughIs(id.hmacSecret);
    } else {
      NothingRead(text);
    }
  }
}
