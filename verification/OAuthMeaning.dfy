/** What the guard lets through, field by field. */
module OAuthMeaning {
  import opened Wrappers
  import opened OAuthGuard
  import opened OAuthGuardFacts

  /** A refresh token under either of its names. */
  ghost predicate CanRefresh(c: Credential) {
    exists token: string :: |token| > 0 && (FieldOf(c, "refresh") == Some(Str(token)) || FieldOf(c, "refreshToken") == Some(Str(token)))
  }

  lemma RefreshIs(c: Credential)
    ensures HasRefreshMaterial(c) <==> CanRefresh(c)
  {
    assert forall s: string :: s == "" <==> |s| == 0;
    if HasRefreshMaterial(c) {
      var key := if FieldOf(c, "refresh").Some? && c["refresh"].Str? && c["refresh"].s != "" then "refresh" else "refreshToken";
      assert FieldOf(c, key) == Some(Str(c[key].s));
    }
  }

  /** The fields that a token rotation may change, besides a stored digest of the subject. */
  predicate Rotates(key: string) {
    || key == "access" || key == "accessToken" || key == "expires" || key == "expiresAt" || key == "expiry"
    || key == "refresh" || key == "refreshToken" || key == "oauthSubjectSha256"
  }

  /** An OAuth credential of OpenAI whose access token belongs to the account it names, in plain data. */
  ghost predicate Names(host: Host, c: Credential, token: TokenIdentity) {
    && FieldOf(c, "type") == Some(Str("oauth")) && FieldOf(c, "provider") == Some(Str("openai"))
    && "access" in c && host.identify(c["access"]) == Some(token)
    && FieldOf(c, "accountId") == Some(Str(token.accountId))
    && |token.accountId| > 0 && host.trim(token.accountId) == token.accountId
    && forall key | key in c && (!Rotates(key) || key == "oauthSubjectSha256") :: !c[key].Uncloneable?
  }

  lemma MutableIs(key: string)
    ensures Rotates(key) <==> MutableTokenField(key) || key == "oauthSubjectSha256"
  {
  }

  lemma StableCloneable(c: Credential)
    ensures Cloneable(StableFields(c)) <==> forall key | key in c && (!Rotates(key) || key == "oauthSubjectSha256") :: !c[key].Uncloneable?
  {
    forall key
      ensures key in StableFields(c) <==> key in c && (!Rotates(key) || key == "oauthSubjectSha256")
    {
      MutableIs(key);
    }
    if Cloneable(StableFields(c)) {
      forall key | key in c && (!Rotates(key) || key == "oauthSubjectSha256")
        ensures !c[key].Uncloneable?
      {
        assert key in StableFields(c) && StableFields(c)[key] == c[key];
      }
    }
  }

  /** A credential has an identity exactly when it names the account of its token. */
  lemma IdentityExact(host: Host, c: Credential)
    ensures CredentialIdentity(host, c).Some? <==> exists token :: Names(host, c, token)
    ensures forall token | Names(host, c, token) ::
              CredentialIdentity(host, c) ==
              Some(StableFields(c)["accountId" := Str(token.accountId)]["oauthSubjectSha256" := Str(token.subjectSha256)])
  {
    StableCloneable(c);
    assert forall s: string :: s == "" <==> |s| == 0;
    hide StableFields, Cloneable, Rotates;
    if CredentialIdentity(host, c).Some? {
      assert Names(host, c, host.identify(c["access"]).value);
    }
  }

  /** Two credentials that agree wherever a rotation may not change them. */
  ghost predicate Agree(a: Credential, b: Credential) {
    forall key: string | !Rotates(key) :: FieldOf(a, key) == FieldOf(b, key)
  }

  lemma SameStable(a: Credential, b: Credential, account: Data, subject: Data)
    requires Agree(a, b)
    ensures StableFields(a)["accountId" := account]["oauthSubjectSha256" := subject]
         == StableFields(b)["accountId" := account]["oauthSubjectSha256" := subject]
  {
    var x, y := StableFields(a)["accountId" := account]["oauthSubjectSha256" := subject],
                StableFields(b)["accountId" := account]["oauthSubjectSha256" := subject];
    forall key: string
      ensures key in x <==> key in y
      ensures key in x ==> x[key] == y[key]
    {
      MutableIs(key);
      assert !Rotates(key) ==> FieldOf(a, key) == FieldOf(b, key);
    }
    assert x == y;
  }

  lemma StableAgree(a: Credential, b: Credential, account: Data, s: Data, t: Data)
    requires StableFields(a)["accountId" := account]["oauthSubjectSha256" := s]
          == StableFields(b)["accountId" := account]["oauthSubjectSha256" := t]
    requires FieldOf(a, "accountId") == FieldOf(b, "accountId") == Some(account)
    ensures s == t && Agree(a, b)
  {
    var x, y := StableFields(a)["accountId" := account]["oauthSubjectSha256" := s],
                StableFields(b)["accountId" := account]["oauthSubjectSha256" := t];
    assert x["oauthSubjectSha256"] == y["oauthSubjectSha256"];
    forall key: string | !Rotates(key)
      ensures FieldOf(a, key) == FieldOf(b, key)
    {
      MutableIs(key);
      assert key in x <==> key in y;
      assert key in x ==> x[key] == y[key];
    }
  }

  /** Credentials share an identity exactly when their tokens do and they agree on all that does not rotate. */
  lemma SameIdentity(host: Host, a: Credential, b: Credential, token: TokenIdentity)
    requires Names(host, a, token)
    ensures CredentialIdentity(host, b) == CredentialIdentity(host, a) <==> Names(host, b, token) && Agree(a, b)
  {
    IdentityExact(host, a);
    IdentityExact(host, b);
    hide CredentialIdentity, StableFields, Agree;
    if CredentialIdentity(host, b) == CredentialIdentity(host, a) {
      var other :| Names(host, b, other);
      SameAccount(a, b, token, other);
      StableAgree(a, b, Str(token.accountId), Str(token.subjectSha256), Str(other.subjectSha256));
    }
    if Names(host, b, token) && Agree(a, b) {
      SameStable(a, b, Str(token.accountId), Str(token.subjectSha256));
    }
  }

  lemma SameAccount(a: Credential, b: Credential, token: TokenIdentity, other: TokenIdentity)
    requires StableFields(a)["accountId" := Str(token.accountId)]["oauthSubjectSha256" := Str(token.subjectSha256)]
          == StableFields(b)["accountId" := Str(other.accountId)]["oauthSubjectSha256" := Str(other.subjectSha256)]
    ensures token.accountId == other.accountId
  {
    var x, y := StableFields(a)["accountId" := Str(token.accountId)]["oauthSubjectSha256" := Str(token.subjectSha256)],
                StableFields(b)["accountId" := Str(other.accountId)]["oauthSubjectSha256" := Str(other.subjectSha256)];
    assert x["accountId"] == y["accountId"];
  }

  /** All the data of a credential can be cloned. */
  ghost predicate Plain(c: Credential) {
    forall key | key in c :: !c[key].Uncloneable?
  }

  /**
   * What a guarded store takes over: a record under the guarded name, without a refresh token, in plain
   * data, that names the account and subject of the stored credential and agrees with it elsewhere.
   */
  lemma RotationExactly(g: Guard, s: State, property: Option<string>, value: Value, token: TokenIdentity)
    requires Bound(g, s) && s.order == Some([g.profileId]) && Names(g.host, s.profiles[g.profileId].fields, token)
    ensures !Rejects(g, s, Set(property, value)) <==>
              && property == Some(g.profileId) && value.Record? && !CanRefresh(value.fields) && Plain(value.fields)
              && Names(g.host, value.fields, token) && Agree(s.profiles[g.profileId].fields, value.fields)
    ensures !Rejects(g, s, Set(property, value)) ==>
              Next(g, s, Set(property, value)) == s.(profiles := map[g.profileId := value])
  {
    if property == Some(g.profileId) && value.Record? {
      RefreshIs(value.fields);
      SameIdentity(g.host, s.profiles[g.profileId].fields, value.fields, token);
      SnapshotIs(g, s, value);
      PlainIs(value.fields);
    }
    if !Rejects(g, s, Set(property, value)) { StoreAfter(g, s, property, value); }
    hide CanRefresh, Names, Agree, CredentialIdentity, HasRefreshMaterial, Cloneable, Plain, Snapshot, Next;
  }

  lemma PlainIs(c: Credential)
    ensures Cloneable(c) <==> Plain(c)
  {
  }

  lemma SnapshotIs(g: Guard, s: State, value: Value)
    requires s.order == Some([g.profileId]) && value.Record?
    ensures Snapshot(g.host, map[g.profileId := value], s.order, g.profileId) == CredentialIdentity(g.host, value.fields)
  {
    SizeOne(map[g.profileId := value], g.profileId);
    hide CredentialIdentity;
  }

  lemma StoreAfter(g: Guard, s: State, property: Option<string>, value: Value)
    requires s.profiles.Keys == {g.profileId} && !Rejects(g, s, Set(property, value))
    ensures Next(g, s, Set(property, value)) == s.(profiles := map[g.profileId := value])
  {
    hide Rejects;
    assert s.profiles[g.profileId := value] == map[g.profileId := value];
  }

  /** A store is guarded exactly when it holds the profile alone, in plain data, with the expected identity and no refresh token. */
  lemma CreateExactly(g: Guard, profiles: map<string, Value>, order: Option<seq<string>>, cloneable: bool)
    ensures Create(g, profiles, order, cloneable).Some? <==>
              && profiles.Keys == {g.profileId} && profiles[g.profileId].Record? && order == Some([g.profileId])
              && !CanRefresh(profiles[g.profileId].fields) && cloneable && Plain(profiles[g.profileId].fields)
              && CredentialIdentity(g.host, profiles[g.profileId].fields) == Some(g.expected)
  {
    if g.profileId in profiles && profiles[g.profileId].Record? {
      RefreshIs(profiles[g.profileId].fields);
      PlainIs(profiles[g.profileId].fields);
      OnlyKey(profiles, g.profileId);
    }
    hide CanRefresh, CredentialIdentity, HasRefreshMaterial, Cloneable, Plain;
  }

  lemma OnlyKey(profiles: map<string, Value>, key: string)
    requires key in profiles
    ensures |profiles| == 1 <==> profiles.Keys == {key}
  {
    assert |profiles| == |profiles.Keys|;
    assert profiles.Keys == {key} + (profiles.Keys - {key});
  }

  /** A bound store holds a credential that names an account, so there is always something to rotate. */
  lemma BoundNames(g: Guard, s: State) returns (token: TokenIdentity)
    requires Bound(g, s)
    ensures Names(g.host, s.profiles[g.profileId].fields, token) && !CanRefresh(s.profiles[g.profileId].fields)
  {
    var c := s.profiles[g.profileId].fields;
    IdentityExact(g.host, c);
    RefreshIs(c);
    hide CredentialIdentity, Names, CanRefresh, HasRefreshMaterial;
    token :| Names(g.host, c, token);
  }

  /**
   * After any attempts: the account and subject of the stored token are the first ones, every field that
   * does not rotate is as it was, and there is no refresh token.
   */
  lemma AccountStays(g: Guard, s: State, ops: seq<Op>, token: TokenIdentity)
    requires Bound(g, s) && Names(g.host, s.profiles[g.profileId].fields, token)
    ensures Bound(g, Run(g, s, ops))
    ensures var c := Run(g, s, ops).profiles[g.profileId].fields;
            Names(g.host, c, token) && Agree(s.profiles[g.profileId].fields, c) && !CanRefresh(c)
  {
    AlwaysBound(g, s, ops);
    hide Run, Names, Agree, CanRefresh;
    var other := BoundNames(g, Run(g, s, ops));
    SameIdentity(g.host, s.profiles[g.profileId].fields, Run(g, s, ops).profiles[g.profileId].fields, token);
  }
}
