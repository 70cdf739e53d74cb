/** The guarded OAuth profile store (openclaw-plugin/src/codex-attestation.ts:1240-1384). */
module OAuthGuard {
  import opened Wrappers

  /** A field of a credential: a string, other plain data, or something that cannot be cloned. */
  datatype Data = Str(s: string) | Plain(token: nat) | Uncloneable

  type Credential = map<string, Data>

  datatype Value = Record(fields: Credential) | NotRecord

  datatype TokenIdentity = TokenIdentity(accountId: string, subjectSha256: string)

  /** The decoding of access tokens, and the host's trim, which are not modelled. */
  datatype Host = Host(identify: Data -> Option<TokenIdentity>, trim: string -> string)

  predicate MutableTokenField(key: string) {
    key in {"access", "accessToken", "expires", "expiresAt", "expiry", "refresh", "refreshToken"}
  }

  function FieldOf(credential: Credential, key: string): Option<Data> {
    if key in credential then Some(credential[key]) else None
  }

  predicate HasRefreshMaterial(credential: Credential) {
    || (FieldOf(credential, "refresh").Some? && credential["refresh"].Str? && credential["refresh"].s != "")
    || (FieldOf(credential, "refreshToken").Some? && credential["refreshToken"].Str? && credential["refreshToken"].s != "")
  }

  /** The entries that a token rotation leaves alone. */
  function StableFields(credential: Credential): Credential {
    map key | key in credential && !MutableTokenField(key) :: credential[key]
  }

  predicate Cloneable(credential: Credential) {
    forall key | key in credential :: !credential[key].Uncloneable?
  }

  /** The identity of a credential, once the store is known to hold nothing else. */
  function CredentialIdentity(host: Host, credential: Credential): Option<Credential> {
    if FieldOf(credential, "type") != Some(Str("oauth")) || FieldOf(credential, "provider") != Some(Str("openai")) then None
    else if "access" !in credential then None
    else
      match host.identify(credential["access"])
      case None => None
      case Some(token) =>
        match FieldOf(credential, "accountId")
        case Some(Str(stored)) =>
          if stored == "" || stored != host.trim(stored) || stored != token.accountId then None
          else if !Cloneable(StableFields(credential)) then None
          else Some(StableFields(credential)["accountId" := Str(token.accountId)]["oauthSubjectSha256" := Str(token.subjectSha256)])
        case _ => None
  }

  /** snapshotOAuthCredentialIdentity; the order is None when it is no array of strings. */
  function Snapshot(host: Host, profiles: map<string, Value>, order: Option<seq<string>>, profileId: string): Option<Credential> {
    if |profiles| != 1 || profileId !in profiles || !profiles[profileId].Record? || order != Some([profileId]) then None
    else CredentialIdentity(host, profiles[profileId].fields)
  }

  // ---- The guard as a value ---------------------------------------------------------------------

  datatype State = State(profiles: map<string, Value>, order: Option<seq<string>>, violation: bool)

  /** What client code may do with the store; a property that is no string is None. */
  datatype Op =
    | Set(property: Option<string>, value: Value)
    | DefineProperty
    | DeleteProperty
    | SetPrototype
    | PreventExtensions
    | Reorder(order: Option<seq<string>>)

  datatype Guard = Guard(host: Host, profileId: string, expected: Credential)

  /** Whether the set trap lets a value through. */
  predicate AcceptsValue(g: Guard, s: State, property: Option<string>, value: Value) {
    && property == Some(g.profileId) && value.Record? && !HasRefreshMaterial(value.fields)
    && Snapshot(g.host, map[g.profileId := value], s.order, g.profileId) == Some(g.expected)
    && Cloneable(value.fields)
  }

  predicate Rejects(g: Guard, s: State, op: Op) {
    match op
    case Set(property, value) => !AcceptsValue(g, s, property, value)
    case DefineProperty => true
    case DeleteProperty => true
    case SetPrototype => true
    case PreventExtensions => false
    case Reorder(_) => false
  }

  function Next(g: Guard, s: State, op: Op): State {
    if Rejects(g, s, op) then s.(violation := true)
    else
      match op
      case Set(_, value) => s.(profiles := s.profiles[g.profileId := value])
      case Reorder(order) => s.(order := order)
      case _ => s
  }

  predicate IsIntact(g: Guard, s: State) {
    !s.violation && Snapshot(g.host, s.profiles, s.order, g.profileId) == Some(g.expected)
  }

  /** guardOAuthProfileStoreAccountBinding; `cloneable` is whether the rest of the store can be cloned. */
  function Create(g: Guard, profiles: map<string, Value>, order: Option<seq<string>>, cloneable: bool): Option<State> {
    if g.profileId !in profiles || !profiles[g.profileId].Record? then None
    else if HasRefreshMaterial(profiles[g.profileId].fields) then None
    else if Snapshot(g.host, profiles, order, g.profileId) != Some(g.expected) then None
    else if !cloneable || !Cloneable(profiles[g.profileId].fields) then None
    else Some(State(map[g.profileId := profiles[g.profileId]], order, false))
  }

  // ---- The guard as an object ------------------------------------------------------------------------

  class GuardedStore {
    const guard: Guard
    var profileTarget: map<string, Value>
    var order: Option<seq<string>>
    var bindingViolation: bool

    constructor (guard: Guard, initial: State)
      ensures this.guard == guard && View() == initial
    {
      this.guard := guard;
      profileTarget, order, bindingViolation := initial.profiles, initial.order, initial.violation;
    }

    function View(): State
      reads this
    {
      State(profileTarget, order, bindingViolation)
    }

    /** rejectMutation; the caller throws. */
    method RejectMutation()
      modifies this`bindingViolation
      ensures bindingViolation
    {
      bindingViolation := true;
    }

    /** The set trap; false stands for the thrown error. */
    method SetProfile(property: Option<string>, value: Value) returns (ok: bool)
      modifies this
      ensures View() == Next(guard, old(View()), Set(property, value))
      ensures ok == !Rejects(guard, old(View()), Set(property, value))
    {
      if property != Some(guard.profileId) || !value.Record? || HasRefreshMaterial(value.fields) {
        RejectMutation();
        return false;
      }
      if Snapshot(guard.host, map[guard.profileId := value], order, guard.profileId) != Some(guard.expected) {
        RejectMutation();
        return false;
      }
      if !Cloneable(value.fields) {
        RejectMutation();
        return false;
      }
      profileTarget := profileTarget[guard.profileId := value];
      return true;
    }

    /** The traps of defineProperty, deleteProperty and setPrototypeOf. */
    method RefuseChange(op: Op) returns (ok: bool)
      requires op == DefineProperty || op == DeleteProperty || op == SetPrototype
      modifies this`bindingViolation
      ensures View() == Next(guard, old(View()), op) && !ok
    {
      RejectMutation();
      return false;
    }

    method Intact() returns (intact: bool)
      ensures intact == IsIntact(guard, View())
    {
      intact := !bindingViolation && Snapshot(guard.host, profileTarget, order, guard.profileId) == Some(guard.expected);
    }
  }
}
