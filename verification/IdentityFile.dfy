/** The launcher's identity file: its text, and how it is read (openclaw-plugin/src/launcher.ts:370-493). */
module IdentityFile {
  import opened Wrappers
  import opened JsonText
  import opened JsonValue
  import opened JsonReader
  import opened JsonReadBack
  import Characters = Text

  const MAX_RUNTIME_IDENTITY_BYTES := 4_096

  datatype Identity = Identity(deletionHmacSecret: Text, hmacSecret: Text, ownerId: Text)

  datatype IdentityError = InvalidJson | InvalidIdentity | WeakSecret | InvalidOwner | InvalidSize

  function Format(): Text { Units("webchess-openclaw-runtime-identity/1") }
  function DeletionKey(): Text { Units("deletionHmacSecret") }
  function FormatKey(): Text { Units("format") }
  function HmacKey(): Text { Units("hmacSecret") }
  function OwnerKey(): Text { Units("ownerId") }
  function OwnerPrefix(): Text { Units("openclaw_") }

  // ---- Writing -------------------------------------------------------------------------------

  function Field(key: Text, value: Text): Text {
    Quote(key) + [COLON] + Quote(value)
  }

  function Fields(id: Identity): seq<(Text, Text)> {
    [(DeletionKey(), id.deletionHmacSecret), (FormatKey(), Format()), (HmacKey(), id.hmacSecret), (OwnerKey(), id.ownerId)]
  }

  function FieldTexts(fields: seq<(Text, Text)>): (r: seq<Text>)
    ensures |r| == |fields|
  {
    seq(|fields|, i requires 0 <= i < |fields| => Field(fields[i].0, fields[i].1))
  }

  /** `${JSON.stringify(identity)}\n`. */
  function FileText(id: Identity): Text {
    [OPEN_OBJECT] + Join(FieldTexts(Fields(id))) + [CLOSE_OBJECT] + [10]
  }

  // ---- Reading -------------------------------------------------------------------------------

  function TrimStart(s: Text): Text {
    if s != [] && Characters.Blank(s[0]) then TrimStart(s[1..]) else s
  }

  function TrimEnd(s: Text): Text {
    if s != [] && Characters.Blank(s[|s| - 1]) then TrimEnd(s[..|s| - 1]) else s
  }

  function Trim(s: Text): Text {
    TrimEnd(TrimStart(s))
  }

  /** Buffer.byteLength of a string in UTF-8; a lone surrogate becomes the replacement character. */
  function Utf8Length(s: Text): nat {
    if s == [] then 0
    else if StartsPair(s) then 4 + Utf8Length(s[2..])
    else (if s[0] < 0x80 then 1 else if s[0] < 0x800 then 2 else 3) + Utf8Length(s[1..])
  }

  predicate OwnerUnit(u: Unit) {
    97 <= u <= 122 || 48 <= u <= 57 || u == 95 || u == 45
  }

  /** /^openclaw_[a-z0-9_-]{8,80}$/ */
  predicate OwnerPattern(s: Text) {
    && OwnerPrefix() <= s && 8 <= |s| - |OwnerPrefix()| <= 80
    && forall i | |OwnerPrefix()| <= i < |s| :: OwnerUnit(s[i])
  }

  function ValidatedSecret(value: Text): Result<Text, IdentityError> {
    if Utf8Length(Trim(value)) < 32 then Err(WeakSecret) else Ok(Trim(value))
  }

  function ValidatedOwnerId(value: Text): Result<Text, IdentityError> {
    if OwnerPattern(Trim(value)) then Ok(Trim(value)) else Err(InvalidOwner)
  }

  /** A property of the parsed record: the last member of that name. */
  function Property(entries: seq<Member>, key: Text): Option<Value> {
    if entries == [] then None
    else
      var last := entries[|entries| - 1];
      if last.key == key then Some(last.value) else Property(entries[..|entries| - 1], key)
  }

  function ParseStoredRuntimeIdentity(text: Text): Result<Identity, IdentityError> {
    match Parse(text)
    case None => Err(InvalidJson)
    case Some(parsed) =>
      if !parsed.Obj? then Err(InvalidIdentity)
      else
        var deletion := Property(parsed.entries, DeletionKey());
        var hmac := Property(parsed.entries, HmacKey());
        var owner := Property(parsed.entries, OwnerKey());
        if || (set e | e in parsed.entries :: e.key) != {DeletionKey(), FormatKey(), HmacKey(), OwnerKey()}
           || Property(parsed.entries, FormatKey()) != Some(Str(Format()))
           || deletion.None? || !deletion.value.Str? || hmac.None? || !hmac.value.Str? || owner.None? || !owner.value.Str?
        then Err(InvalidIdentity)
        else
          var deletionSecret :- ValidatedSecret(deletion.value.s);
          var hmacSecret :- ValidatedSecret(hmac.value.s);
          var ownerId :- ValidatedOwnerId(owner.value.s);
          Ok(Identity(deletionSecret, hmacSecret, ownerId))
  }

  // ---- What the launcher generates ---------------------------------------------------------------

  predicate Base64UrlUnit(u: Unit) {
    48 <= u <= 57 || 65 <= u <= 90 || 97 <= u <= 122 || u == 45 || u == 95
  }

  predicate HexDigit(u: Unit) {
    48 <= u <= 57 || 97 <= u <= 102
  }

  /** randomRuntimeIdentity: 48 random bytes in base64url twice, 16 in hexadecimal. */
  ghost predicate Generated(id: Identity) {
    && |id.deletionHmacSecret| == 64 && (forall i | 0 <= i < 64 :: Base64UrlUnit(id.deletionHmacSecret[i]))
    && |id.hmacSecret| == 64 && (forall i | 0 <= i < 64 :: Base64UrlUnit(id.hmacSecret[i]))
    && |id.ownerId| == |OwnerPrefix()| + 32 && OwnerPrefix() <= id.ownerId
    && forall i | |OwnerPrefix()| <= i < |id.ownerId| :: HexDigit(id.ownerId[i])
  }

  // ---- Plain strings --------------------------------------------------------------------------------

  /** Printed without escapes, without braces. */
  predicate Plain(s: Text) {
    forall i | 0 <= i < |s| :: 32 < s[i] < 123 && s[i] != QUOTE && s[i] != BACKSLASH
  }

  lemma {:induction false} PlainEscape(s: Text)
    requires Plain(s)
    ensures Escape(s) == s
  {
    if s != [] {
      PlainEscape(s[1..]);
      assert EscapeUnit(s[0]) == [s[0]];
      assert s == [s[0]] + s[1..];
    }
  }

  lemma QuotePlain(s: Text)
    requires Plain(s)
    ensures Quote(s) == [QUOTE] + s + [QUOTE]
  {
    PlainEscape(s);
  }

  lemma QuotedSkips(s: Text, x: Text)
    ensures SkipSpace(Quote(s) + x) == Quote(s) + x
  {
    hide Escape;
    assert (Quote(s) + x)[0] == QUOTE;
  }

  lemma FieldParts(key: Text, value: Text, x: Text)
    ensures Field(key, value) + x == Quote(key) + ([COLON] + (Quote(value) + x))
  {
    hide Quote;
  }

  lemma ReadField(key: Text, value: Text, x: Text)
    ensures ReadMember(Field(key, value) + x) == Got(Member(key, Str(value)), SkipSpace(x))
  {
    var v := Quote(value) + x;
    var colon := [COLON] + v;
    hide *;
    FieldParts(key, value, x);
    QuotedReadsBack(key, colon);
    StringValueReads(value, x);
    QuotedSkips(value, x);
    assert colon[1..] == v;
    MemberSteps(Quote(key) + colon, key, colon, Str(value), x);
  }
}
