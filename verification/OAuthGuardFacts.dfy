/** What the guard keeps over every sequence of attempts. */
module OAuthGuardFacts {
  import opened Wrappers
  import opened OAuthGuard

  function Run(g: Guard, s: State, ops: seq<Op>): State {
    if ops == [] then s else Next(g, Run(g, s, ops[..|ops| - 1]), ops[|ops| - 1])
  }

  /** Some attempt of the sequence was rejected when it was made. */
  ghost predicate AnyRejected(g: Guard, s: State, ops: seq<Op>) {
    exists i :: 0 <= i < |ops| && Rejects(g, Run(g, s, ops[..i]), ops[i])
  }

  /** One credential, of the expected identity, without refresh material. */
  ghost predicate Bound(g: Guard, s: State) {
    && s.profiles.Keys == {g.profileId} && s.profiles[g.profileId].Record?
    && CredentialIdentity(g.host, s.profiles[g.profileId].fields) == Some(g.expected)
    && !HasRefreshMaterial(s.profiles[g.profileId].fields)
  }

  lemma SizeOne(m: map<string, Value>, key: string)
    requires m.Keys == {key}
    ensures |m| == 1
  {
    assert |m| == |m.Keys|;
  }

  lemma CreateBinds(g: Guard, profiles: map<string, Value>, order: Option<seq<string>>, cloneable: bool)
    requires Create(g, profiles, order, cloneable).Some?
    ensures var s := Create(g, profiles, order, cloneable).value; Bound(g, s) && !s.violation && s.order == Some([g.profileId])
    ensures IsIntact(g, Create(g, profiles, order, cloneable).value)
  {
    hide CredentialIdentity, HasRefreshMaterial, Cloneable;
    SizeOne(map[g.profileId := profiles[g.profileId]], g.profileId);
  }

  lemma StepBinds(g: Guard, s: State, op: Op)
    requires Bound(g, s)
    ensures Bound(g, Next(g, s, op))
    ensures Rejects(g, s, op) ==> Next(g, s, op).profiles == s.profiles && Next(g, s, op).violation
    ensures !Rejects(g, s, op) ==> Next(g, s, op).violation == s.violation
  {
    hide CredentialIdentity, HasRefreshMaterial, Cloneable;
  }

  /** After any attempts the store holds one credential of the expected account, with no refresh material. */
  lemma {:induction false} AlwaysBound(g: Guard, s: State, ops: seq<Op>)
    requires Bound(g, s)
    ensures Bound(g, Run(g, s, ops))
  {
    if ops != [] {
      hide Bound;
      AlwaysBound(g, s, ops[..|ops| - 1]);
      StepBinds(g, Run(g, s, ops[..|ops| - 1]), ops[|ops| - 1]);
    }
  }

  lemma AnyRejectedStep(g: Guard, s: State, ops: seq<Op>)
    requires ops != []
    ensures var front := ops[..|ops| - 1];
            AnyRejected(g, s, ops) <==> AnyRejected(g, s, front) || Rejects(g, Run(g, s, front), ops[|ops| - 1])
  {
    hide Rejects;
    var front := ops[..|ops| - 1];
    if AnyRejected(g, s, front) {
      var i :| 0 <= i < |front| && Rejects(g, Run(g, s, front[..i]), front[i]);
      assert ops[..i] == front[..i] && ops[i] == front[i];
    }
    if AnyRejected(g, s, ops) {
      var i :| 0 <= i < |ops| && Rejects(g, Run(g, s, ops[..i]), ops[i]);
      if i < |front| {
        assert ops[..i] == front[..i] && ops[i] == front[i];
      }
    }
  }

  /** A rejected attempt is remembered by every later state, and nothing else is taken for one. */
  lemma {:induction false} RejectionsRemembered(g: Guard, s: State, ops: seq<Op>)
    requires Bound(g, s) && !s.violation
    ensures Run(g, s, ops).violation <==> AnyRejected(g, s, ops)
  {
    hide Bound, Rejects, Next;
    if ops != [] {
      var front, last := ops[..|ops| - 1], ops[|ops| - 1];
      AnyRejectedStep(g, s, ops);
      AlwaysBound(g, s, front);
      RejectionsRemembered(g, s, front);
      StepBinds(g, Run(g, s, front), last);
      if Run(g, s, front).violation { StepRemembers(g, Run(g, s, front), last); }
    }
  }

  lemma StepRemembers(g: Guard, s: State, op: Op)
    requires s.violation
    ensures Next(g, s, op).violation
  {
  }

  /** isIntact holds exactly when no attempt was rejected and the profile order still names the profile alone. */
  lemma IntactExactly(g: Guard, s: State, ops: seq<Op>)
    requires Bound(g, s) && !s.violation
    ensures IsIntact(g, Run(g, s, ops)) <==> !AnyRejected(g, s, ops) && Run(g, s, ops).order == Some([g.profileId])
  {
    hide CredentialIdentity, HasRefreshMaterial, AnyRejected, Run;
    AlwaysBound(g, s, ops);
    RejectionsRemembered(g, s, ops);
    SizeOne(Run(g, s, ops).profiles, g.profileId);
  }

  /** No operation on the profiles touches the order. */
  lemma {:induction false} ProfileOpsKeepOrder(g: Guard, s: State, ops: seq<Op>)
    requires forall i | 0 <= i < |ops| :: !ops[i].Reorder?
    ensures Run(g, s, ops).order == s.order
  {
    if ops != [] {
      hide Rejects;
      ProfileOpsKeepOrder(g, s, ops[..|ops| - 1]);
    }
  }

  /** A store that was guarded at all: under profile operations alone, intact means that nothing was rejected. */
  lemma IntactUnderProfileOps(
    g: Guard, profiles: map<string, Value>, order: Option<seq<string>>, cloneable: bool, ops: seq<Op>)
    requires Create(g, profiles, order, cloneable).Some? && forall i | 0 <= i < |ops| :: !ops[i].Reorder?
    ensures var s := Create(g, profiles, order, cloneable).value;
            IsIntact(g, Run(g, s, ops)) <==> !AnyRejected(g, s, ops)
  {
    CreateBinds(g, profiles, order, cloneable);
    hide Create, Bound, IsIntact, AnyRejected, Run;
    var s := Create(g, profiles, order, cloneable).value;
    IntactExactly(g, s, ops);
    ProfileOpsKeepOrder(g, s, ops);
  }

  /**
   * What a rotation may change: two credentials of one identity agree on every field but the token
   * fields and a stored field named like the subject digest, and on the account of their tokens.
   */
  lemma RotationKeepsAccount(host: Host, a: Credential, b: Credential, key: string)
    requires CredentialIdentity(host, a).Some? && CredentialIdentity(host, a) == CredentialIdentity(host, b)
    ensures "access" in a && "access" in b && host.identify(a["access"]) == host.identify(b["access"])
    ensures !MutableTokenField(key) && key != "oauthSubjectSha256" ==> FieldOf(a, key) == FieldOf(b, key)
  {
    hide Cloneable;
    var x, y := CredentialIdentity(host, a).value, CredentialIdentity(host, b).value;
    assert x["accountId"] == y["accountId"] && x["oauthSubjectSha256"] == y["oauthSubjectSha256"];
    assert key in x <==> key in y;
  }
}
