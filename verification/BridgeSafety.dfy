/** What every interleaving of the bridge protocol keeps. */
module BridgeSafety {
  import opened Wrappers
  import opened TurnRegistry
  import opened BridgeProtocol

  predicate InFlight(q: Request) {
    q.phase != Waiting && q.phase != Ended
  }

  /** Which provider work a phase may have. */
  ghost predicate PhaseOk(q: Request) {
    && (q.turnId.Some? ==> q.endpoint == Model)
    && match q.phase
    case Waiting => q.exec == NotStarted && q.turnId.None? && q.endpoint != Status
    case Preflight => q.endpoint != Status ==> q.exec == NotStarted
    case Queued => q.endpoint == Model && q.exec == NotStarted
    case Calling => q.endpoint == Model && q.exec != NotStarted
    case DrainWait => q.endpoint == Model && q.exec != NotStarted && Signalled(q)
    case Postflight => q.endpoint == Model && q.exec == Settled
    case Ended => q.endpoint == Search ==> q.exec == NotStarted
  }

  /** Slots: which sets a request is in. */
  ghost predicate SlotOk(q: Request, active: bool, inModel: bool, inStatus: bool, retired: bool) {
    && (inModel ==> q.endpoint == Model && q.exec == Running && Signalled(q) && active)
    && (inStatus ==> q.endpoint == Status && q.exec == Running && q.phase == Ended && active)
    && (q.endpoint == Model && q.exec == Running && Signalled(q) ==> inModel || retired)
    && (q.exec == Running && q.phase == Ended ==> inModel || inStatus || retired)
    && (active ==> InFlight(q) || inModel || inStatus)
    && (InFlight(q) && (q.exec != Settled || q.endpoint == Status) ==> active)
    && (retired ==> q.phase == Ended && !active && !inModel && !inStatus)
  }

  /** How long after its start a request may be answered. */
  function ReplyLimitMs(q: Request): int {
    match q.endpoint
    case Model => MODEL_REQUEST_ENVELOPE_TIMEOUT_MS
    case Search => q.timeoutMs
    case Status => OPENCLAW_STATUS_TIMEOUT_MS
  }

  ghost predicate TimeOk(q: Request) {
    && (q.endpoint == Model && (q.phase == Preflight || q.phase == Queued) ==>
          && MIN_MODEL_TIMEOUT_MS <= q.timeoutMs <= MAX_MODEL_TIMEOUT_MS
          && q.deadline == q.startedAt + MODEL_REQUEST_ENVELOPE_TIMEOUT_MS - q.timeoutMs - MODEL_REQUEST_POSTFLIGHT_RESERVE_MS)
    && (q.endpoint == Search && (q.phase == Preflight || q.repliedAt.Some?) ==>
          MIN_MODEL_TIMEOUT_MS <= q.timeoutMs <= MAX_SEARCH_TIMEOUT_MS && q.deadline == q.startedAt + q.timeoutMs)
    && (q.endpoint == Status && q.phase == Preflight ==> q.deadline == q.startedAt + OPENCLAW_STATUS_TIMEOUT_MS)
    && (q.dispatchedAt.Some? <==> q.endpoint == Model && q.exec != NotStarted)
    && (q.dispatchedAt.Some? ==>
          && MIN_MODEL_TIMEOUT_MS <= q.timeoutMs <= MAX_MODEL_TIMEOUT_MS
          && q.dispatchedAt.value + q.timeoutMs + MODEL_REQUEST_POSTFLIGHT_RESERVE_MS < q.startedAt + MODEL_REQUEST_ENVELOPE_TIMEOUT_MS)
    && (q.phase == Calling || q.phase == DrainWait || q.phase == Postflight ==>
          q.deadline == q.startedAt + MODEL_REQUEST_ENVELOPE_TIMEOUT_MS)
    && (q.phase == Calling || q.phase == DrainWait ==>
          q.dispatchedAt.Some? && q.providerDeadline == Some(q.dispatchedAt.value + q.timeoutMs))
    && (q.repliedAt.Some? ==> q.phase == Ended)
    && (q.repliedAt.Some? ==> q.repliedAt.value < q.startedAt + ReplyLimitMs(q) <= q.startedAt + MODEL_REQUEST_ENVELOPE_TIMEOUT_MS)
  }

  ghost predicate ReqOk(s: State, r: nat)
    requires r in s.reqs
  {
    && PhaseOk(s.reqs[r]) && TimeOk(s.reqs[r])
    && SlotOk(s.reqs[r], r in s.active, r in s.drainingModel, r in s.drainingStatus, s.retired)
  }

  /** A record's state tells what its provider work is doing. */
  ghost predicate TurnOk(s: State, t: Turn) {
    && t.owner in s.reqs
    && (var q := s.reqs[t.owner];
        && q.endpoint == Model && q.turnId == Some(t.turnId)
        && (t.state == Active ==> InFlight(q) && t.owner !in s.drainingModel)
        && (t.state == Draining ==> q.exec == Running)
        && (t.state == Terminal ==> q.exec == Settled || (q.exec == NotStarted && q.phase == Ended))
        && (t.state != Active ==> q.phase == Ended || Signalled(q)))
  }

  ghost predicate LiveTurn(turns: seq<Turn>, r: nat) {
    exists t :: t in turns && t.owner == r && t.state != Terminal
  }

  /** Keyed work that runs, or may still start, has its record in the registry. */
  ghost predicate KeyedOk(s: State, r: nat)
    requires r in s.reqs
  {
    var q := s.reqs[r];
    q.turnId.Some? && (q.exec == Running || (InFlight(q) && q.exec != Settled)) ==> LiveTurn(s.turns, r)
  }

  ghost predicate Inv(s: State) {
    && s.active <= s.reqs.Keys && s.drainingModel <= s.reqs.Keys && s.drainingStatus <= s.reqs.Keys
    && (s.retired ==> s.closing)
    && (forall r | r in s.reqs :: ReqOk(s, r) && KeyedOk(s, r))
    && RegistryOk(s.turns) && (forall t | t in s.turns :: TurnOk(s, t))
  }

  lemma InitInv(now: int, maxRuns: nat)
    ensures Inv(Init(now, maxRuns))
  {
  }

  // ---- Record updates ------------------------------------------------------------------------

  /** A record keeps its identity and only moves from active over draining to terminal, where it stays. */
  ghost predicate Advances(t: Turn, u: Turn) {
    && u.owner == t.owner && u.turnId == t.turnId && u.digest == t.digest
    && (t.state == Terminal ==> u == t) && (t.state == TurnState.Draining ==> u.state != Active)
  }

  /** An update that only advances records and stamps exactly the tombstones. */
  ghost predicate Relabels(before: seq<Turn>, after: seq<Turn>) {
    && |after| == |before|
    && forall i | 0 <= i < |before| :: Advances(before[i], after[i]) && Stamped(after[i])
  }

  lemma RelabelKeepsRegistry(before: seq<Turn>, after: seq<Turn>)
    requires RegistryOk(before) && Relabels(before, after)
    ensures RegistryOk(after)
  {
  }

  lemma DrainKeepsLive(turns: seq<Turn>, owners: set<nat>, r: nat)
    requires LiveTurn(turns, r)
    ensures LiveTurn(DrainTurns(turns, owners), r)
  {
    var i :| 0 <= i < |turns| && turns[i].owner == r && turns[i].state != Terminal;
    assert DrainTurns(turns, owners)[i] in DrainTurns(turns, owners);
  }

  // ---- One request at a time -------------------------------------------------------------------

  /** A step that touches one request, its slots and its own record. */
  ghost predicate Touches(s: State, t: State, r: nat) {
    && r in t.reqs && t.reqs == s.reqs[r := t.reqs[r]]
    && t.active - {r} == s.active - {r} && t.drainingModel - {r} == s.drainingModel - {r}
    && t.drainingStatus - {r} == s.drainingStatus - {r}
    && t.closing == s.closing && t.retired == s.retired
    && Relabels(s.turns, t.turns)
    && forall i | 0 <= i < |s.turns| && s.turns[i].owner != r :: t.turns[i] == s.turns[i]
  }

  lemma OffSet<T>(a: set<T>, b: set<T>, r: T, x: T)
    requires a - {r} == b - {r} && x != r
    ensures x in a <==> x in b
  {
    assert x in a - {r} <==> x in b - {r};
  }

  lemma TouchKeepsInv(s: State, t: State, r: nat)
    requires Inv(s) && Touches(s, t, r) && ReqOk(t, r) && KeyedOk(t, r)
    requires forall i | 0 <= i < |t.turns| && t.turns[i].owner == r :: TurnOk(t, t.turns[i])
    ensures Inv(t)
  {
    RelabelKeepsRegistry(s.turns, t.turns);
    forall x | x in s.reqs && x != r
      ensures x in t.reqs && t.reqs[x] == s.reqs[x] && ReqOk(t, x) && KeyedOk(t, x)
    {
      OffSet(s.active, t.active, r, x);
      OffSet(s.drainingModel, t.drainingModel, r, x);
      OffSet(s.drainingStatus, t.drainingStatus, r, x);
      assert ReqOk(s, x) && KeyedOk(s, x);
      if LiveTurn(s.turns, x) {
        var i :| 0 <= i < |s.turns| && s.turns[i].owner == x && s.turns[i].state != Terminal;
        assert t.turns[i] in t.turns;
      }
    }
    forall i | 0 <= i < |t.turns| && t.turns[i].owner != r
      ensures TurnOk(t, t.turns[i])
    {
      assert TurnOk(s, s.turns[i]);
      OffSet(s.drainingModel, t.drainingModel, r, s.turns[i].owner);
    }
    SetsInKeys(s, t, r);
  }

  lemma SetsInKeys(s: State, t: State, r: nat)
    requires Inv(s) && Touches(s, t, r)
    ensures t.active <= t.reqs.Keys && t.drainingModel <= t.reqs.Keys && t.drainingStatus <= t.reqs.Keys
  {
    forall x | x in t.active || x in t.drainingModel || x in t.drainingStatus
      ensures x in t.reqs
    {
      if x != r {
        OffSet(s.active, t.active, r, x);
        OffSet(s.drainingModel, t.drainingModel, r, x);
        OffSet(s.drainingStatus, t.drainingStatus, r, x);
      }
    }
  }

  /** The request of an action that touches only one; the others are treated apart. */
  function Subject(a: Action): Option<nat> {
    match a
    case Tick(_) => None
    case CloseStart => None
    case CloseFinish => None
    case Arrive(r, _) => Some(r)
    case BodyFailed(r) => Some(r)
    case ReadBody(_, _, _, _) => None
    case Disconnect(r) => Some(r)
    case RequestTimer(r) => Some(r)
    case ProviderTimer(r) => Some(r)
    case PreflightDone(r) => Some(r)
    case Dispatch(r) => Some(r)
    case StatusStage(r) => Some(r)
    case Settle(r) => Some(r)
    case CallDone(r) => Some(r)
    case CallFailed(r, _) => Some(r)
    case Fail(r) => Some(r)
    case Reply(r) => Some(r)
  }

  /** Running work has no tombstone, so marking its record draining leaves no stale expiry. */
  ghost predicate Drainable(s: State, r: nat) {
    && r in s.reqs
    && forall i | 0 <= i < |s.turns| ::
         Stamped(s.turns[i]) && (s.turns[i].owner == r && s.reqs[r].exec == Running ==> s.turns[i].state != Terminal)
  }

  lemma InvDrainable(s: State, r: nat)
    requires Inv(s) && r in s.reqs
    ensures Drainable(s, r)
  {
    forall i | 0 <= i < |s.turns|
      ensures Stamped(s.turns[i]) && TurnOk(s, s.turns[i])
    {
    }
  }

  lemma RetainTouches(s: State, r: nat)
    requires Drainable(s, r)
    ensures Touches(s, Retain(s, r), r)
  {
    assert s.reqs == s.reqs[r := s.reqs[r]];
  }

  lemma CompleteRelabels(turns: seq<Turn>, owner: nat, now: int)
    requires forall i | 0 <= i < |turns| :: Stamped(turns[i])
    ensures Relabels(turns, CompleteTurn(turns, owner, now))
    ensures forall i | 0 <= i < |turns| && turns[i].owner != owner :: CompleteTurn(turns, owner, now)[i] == turns[i]
  {
  }

  lemma FinishTouches(s: State, r: nat)
    requires Drainable(s, r)
    ensures Touches(s, Finish(s, r), r)
  {
    var t := s.(reqs := s.reqs[r := s.reqs[r].(phase := Ended)]);
    if s.reqs[r].exec == Running {
      RetainTouches(t, r);
      hide Retain, DrainTurns;
    } else {
      CompleteRelabels(s.turns, r, s.now);
      hide CompleteTurn, Advances;
    }
  }

  lemma SettleTouches(s: State, r: nat)
    requires Drainable(s, r)
    ensures Touches(s, SettledExec(s, r), r)
  {
  }

  lemma AbortTouches(s: State, r: nat)
    requires Drainable(s, r)
    ensures Touches(s, AbortRequest(s, r), r) && Touches(s, AbortProvider(s, r), r)
  {
    hide DrainTurns;
    var q := s.reqs[r];
    RetainTouches(s.(reqs := s.reqs[r := q.(aborted := true)]), r);
    RetainTouches(s.(reqs := s.reqs[r := q.(providerAborted := true)]), r);
  }

  /** Steps that leave every record and both draining sets alone. */
  predicate Plain(a: Action) {
    a.BodyFailed? || a.PreflightDone? || a.StatusStage? || a.CallDone? || a.Dispatch?
  }

  lemma PlainTouches(s: State, a: Action)
    requires Inv(s) && Enabled(s, a) && (Plain(a) || a.Arrive?)
    ensures Touches(s, Next(s, a), Subject(a).value)
  {
    hide ReqOk, KeyedOk, TurnOk;
    assert forall i | 0 <= i < |s.turns| :: s.turns[i] in s.turns && Stamped(s.turns[i]);
    if a.Arrive? { FreshOwner(s, a.r); }
  }

  lemma StepTouches(s: State, a: Action)
    requires Inv(s) && Enabled(s, a) && Subject(a).Some?
    ensures Touches(s, Next(s, a), Subject(a).value)
  {
    var r := Subject(a).value;
    if Plain(a) || a.Arrive? {
      PlainTouches(s, a);
    } else {
      InvDrainable(s, r);
      hide Inv, Touches, Retain, Finish, SettledExec, AbortRequest, AbortProvider;
      match a
      case Settle(_) => SettleTouches(s, r);
      case CallFailed(_, drain) => CallFailedTouches(s, r, drain);
      case Fail(_) => FinishTouches(s, r);
      case Reply(_) => ReplyTouches(s, r);
      case _ => AbortTouches(s, r);
    }
  }

  lemma CallFailedTouches(s: State, r: nat, drain: bool)
    requires Drainable(s, r) && Enabled(s, CallFailed(r, drain))
    ensures Touches(s, Next(s, CallFailed(r, drain)), r)
  {
    hide Retain, Finish;
    if drain {
      RetainTouches(s.(reqs := s.reqs[r := s.reqs[r].(phase := DrainWait)]), r);
    } else {
      FinishTouches(s, r);
    }
  }

  lemma ReplyTouches(s: State, r: nat)
    requires Drainable(s, r)
    ensures Touches(s, Finish(s.(reqs := s.reqs[r := s.reqs[r].(repliedAt := Some(s.now))]), r), r)
  {
    hide Finish;
    FinishTouches(s.(reqs := s.reqs[r := s.reqs[r].(repliedAt := Some(s.now))]), r);
  }

  lemma FreshOwner(s: State, r: nat)
    requires Inv(s) && r !in s.reqs
    ensures forall i | 0 <= i < |s.turns| :: s.turns[i].owner != r
  {
    assert forall i | 0 <= i < |s.turns| :: TurnOk(s, s.turns[i]);
  }

  /** The invariant as far as it speaks of one request. */
  ghost predicate SubjectOk(s: State, r: nat) {
    && r in s.reqs && ReqOk(s, r) && KeyedOk(s, r)
    && forall i | 0 <= i < |s.turns| && s.turns[i].owner == r :: TurnOk(s, s.turns[i])
  }

  lemma InvSubject(s: State, r: nat)
    requires Inv(s) && r in s.reqs
    ensures SubjectOk(s, r)
  {
  }

  /** TimeOk does not depend on the abort flags, nor on what settles. */
  lemma ClockFrame(q: Request, p: Request)
    requires TimeOk(q) && (p.exec == NotStarted <==> q.exec == NotStarted)
    requires p == q.(aborted := p.aborted, providerAborted := p.providerAborted, exec := p.exec, phase := p.phase)
    requires p.phase == q.phase || (q.phase == Calling && p.phase == DrainWait)
    ensures TimeOk(p)
  {
  }

  lemma RetainOk(s: State, t: State, r: nat)
    requires Drainable(s, r) && SubjectOk(s, r) && !s.retired && s.reqs[r].endpoint == Model
    requires s.reqs[r].phase == Queued || s.reqs[r].phase == Calling || s.reqs[r].phase == DrainWait
    requires t.retired == s.retired && t.turns == s.turns && t.active == s.active && t.drainingModel == s.drainingModel
    requires t.drainingStatus == s.drainingStatus && r in t.reqs
    requires var q := s.reqs[r];
             t.reqs[r] == q.(aborted := true) || t.reqs[r] == q.(providerAborted := true) || t.reqs[r] == q.(phase := DrainWait)
    requires t.reqs[r].phase == DrainWait ==> s.reqs[r].phase != Queued && Signalled(s.reqs[r])
    ensures SubjectOk(Retain(t, r), r)
  {
    ClockFrame(s.reqs[r], t.reqs[r]);
    hide TimeOk;
    if s.reqs[r].exec == Running && s.reqs[r].turnId.Some? {
      DrainKeepsLive(s.turns, {r}, r);
    }
  }

  lemma NotRetired(s: State, r: nat)
    requires SubjectOk(s, r) && InFlight(s.reqs[r])
    ensures !s.retired
  {
  }

  lemma ModelPhase(s: State, r: nat)
    requires SubjectOk(s, r) && Listening(s.reqs[r])
    ensures s.reqs[r].endpoint == Model
  {
  }

  lemma AbortRequestOk(s: State, r: nat)
    requires Drainable(s, r) && SubjectOk(s, r) && !s.retired && InFlight(s.reqs[r])
    ensures SubjectOk(AbortRequest(s, r), r)
  {
    var q := s.reqs[r];
    var t := s.(reqs := s.reqs[r := q.(aborted := true)]);
    if Listening(q) && !Signalled(q) {
      hide Retain, SubjectOk, Drainable;
      RetainOk(s, t, r);
    } else {
      ClockFrame(q, t.reqs[r]);
      hide TimeOk, LiveTurn;
      assert ReqOk(t, r) && KeyedOk(t, r);
    }
  }

  lemma AbortProviderOk(s: State, r: nat)
    requires Drainable(s, r) && SubjectOk(s, r) && !s.retired && (s.reqs[r].phase == Calling || s.reqs[r].phase == DrainWait)
    ensures SubjectOk(AbortProvider(s, r), r)
  {
    var q := s.reqs[r];
    var t := s.(reqs := s.reqs[r := q.(providerAborted := true)]);
    if !Signalled(q) {
      ModelPhase(s, r);
      hide Retain, SubjectOk, Drainable;
      RetainOk(s, t, r);
    } else {
      ClockFrame(q, t.reqs[r]);
      hide TimeOk, LiveTurn;
      assert ReqOk(t, r) && KeyedOk(t, r);
    }
  }

  lemma AbortOk(s: State, r: nat, a: Action)
    requires Inv(s) && Enabled(s, a) && Subject(a) == Some(r) && (a.Disconnect? || a.RequestTimer? || a.ProviderTimer?)
    ensures SubjectOk(Next(s, a), r)
  {
    InvSubject(s, r);
    InvDrainable(s, r);
    NotRetired(s, r);
    hide Inv, SubjectOk, AbortRequest, AbortProvider;
    if a.ProviderTimer? { AbortProviderOk(s, r); } else { AbortRequestOk(s, r); }
  }

  ghost predicate Finishing(s: State, t: State, r: nat) {
    && Drainable(s, r) && SubjectOk(s, r) && !s.retired && InFlight(s.reqs[r])
    && (s.reqs[r].phase == Calling ==> s.reqs[r].exec != Running)
    && (t == s || (t == s.(reqs := s.reqs[r := s.reqs[r].(repliedAt := Some(s.now))]) && s.now < s.reqs[r].deadline
                   && (s.reqs[r].endpoint == Model ==> s.reqs[r].phase == Postflight)))
  }

  /** Ending keeps the deadlines of a request. */
  lemma FinishTime(s: State, t: State, r: nat)
    requires Finishing(s, t, r)
    ensures r in Finish(t, r).reqs && TimeOk(Finish(t, r).reqs[r])
  {
    hide LiveTurn, TurnOk, KeyedOk, SlotOk, CompleteTurn, DrainTurns;
  }

  lemma FinishRunningRequest(s: State, t: State, r: nat)
    requires Finishing(s, t, r) && s.reqs[r].exec == Running
    ensures r in Finish(t, r).reqs && ReqOk(Finish(t, r), r) && KeyedOk(Finish(t, r), r)
  {
    FinishTime(s, t, r);
    FinishRunningKeyed(s, t, r);
    RunningSlot(s, t, r);
    hide TimeOk, TurnOk, DrainTurns, LiveTurn, KeyedOk, SlotOk;
  }

  lemma RunningSlot(s: State, t: State, r: nat)
    requires Finishing(s, t, r) && s.reqs[r].exec == Running
    ensures var u := Finish(t, r);
            r in u.reqs && SlotOk(u.reqs[r], r in u.active, r in u.drainingModel, r in u.drainingStatus, u.retired)
  {
    hide TimeOk, TurnOk, DrainTurns, LiveTurn, KeyedOk;
  }

  lemma FinishRunningKeyed(s: State, t: State, r: nat)
    requires Finishing(s, t, r) && s.reqs[r].exec == Running
    ensures r in Finish(t, r).reqs && KeyedOk(Finish(t, r), r)
  {
    if s.reqs[r].turnId.Some? {
      DrainKeepsLive(s.turns, {r}, r);
    }
    hide TimeOk, SlotOk, TurnOk, DrainTurns, LiveTurn;
  }

  lemma FinishRunningTurn(s: State, t: State, r: nat, i: nat)
    requires Finishing(s, t, r) && s.reqs[r].exec == Running && i < |Finish(t, r).turns| && Finish(t, r).turns[i].owner == r
    ensures TurnOk(Finish(t, r), Finish(t, r).turns[i])
  {
    hide LiveTurn, TimeOk, KeyedOk;
    assert PhaseOk(s.reqs[r]) && TurnOk(s, s.turns[i]);
  }

  /** A request that ends with provider work still running keeps its slot. */
  lemma FinishRunningOk(s: State, t: State, r: nat)
    requires Finishing(s, t, r) && s.reqs[r].exec == Running
    ensures SubjectOk(Finish(t, r), r)
  {
    FinishRunningRequest(s, t, r);
    hide ReqOk, KeyedOk, TurnOk, Finish, Finishing;
    forall i | 0 <= i < |Finish(t, r).turns| && Finish(t, r).turns[i].owner == r
      ensures TurnOk(Finish(t, r), Finish(t, r).turns[i])
    {
      FinishRunningTurn(s, t, r, i);
    }
  }

  lemma FinishIdleRequest(s: State, t: State, r: nat)
    requires Finishing(s, t, r) && s.reqs[r].exec != Running
    ensures r in Finish(t, r).reqs && ReqOk(Finish(t, r), r) && KeyedOk(Finish(t, r), r)
  {
    FinishTime(s, t, r);
    hide LiveTurn, TurnOk, CompleteTurn, Stamped, TimeOk;
  }

  /** The record of work that is over may be a tombstone. */
  lemma FinishIdleTurn(s: State, t: State, r: nat, i: nat)
    requires Finishing(s, t, r) && s.reqs[r].exec != Running && i < |Finish(t, r).turns| && Finish(t, r).turns[i].owner == r
    ensures TurnOk(Finish(t, r), Finish(t, r).turns[i])
  {
    hide LiveTurn, TimeOk, SlotOk, KeyedOk;
    assert PhaseOk(s.reqs[r]) && TurnOk(s, s.turns[i]);
  }

  lemma FinishIdleOk(s: State, t: State, r: nat)
    requires Finishing(s, t, r) && s.reqs[r].exec != Running
    ensures SubjectOk(Finish(t, r), r)
  {
    FinishIdleRequest(s, t, r);
    hide ReqOk, KeyedOk, TurnOk, Finish, Finishing;
    forall i | 0 <= i < |Finish(t, r).turns| && Finish(t, r).turns[i].owner == r
      ensures TurnOk(Finish(t, r), Finish(t, r).turns[i])
    {
      FinishIdleTurn(s, t, r, i);
    }
  }

  lemma FinishOk(s: State, t: State, r: nat)
    requires Finishing(s, t, r)
    ensures SubjectOk(Finish(t, r), r)
  {
    hide Finish, SubjectOk;
    if s.reqs[r].exec == Running { FinishRunningOk(s, t, r); } else { FinishIdleOk(s, t, r); }
  }

  lemma SettleOk(s: State, r: nat)
    requires Inv(s) && r in s.reqs && s.reqs[r].exec == Running
    ensures SubjectOk(SettledExec(s, r), r)
  {
    InvSubject(s, r);
    ClockFrame(s.reqs[r], s.reqs[r].(exec := Settled));
    hide Inv, TimeOk, LiveTurn;
    assert KeyedOk(SettledExec(s, r), r);
  }

  lemma PlainRequestOk(s: State, a: Action, r: nat)
    requires r in s.reqs && ReqOk(s, r) && Enabled(s, a) && Subject(a) == Some(r) && Plain(a)
    ensures r in Next(s, a).reqs && ReqOk(Next(s, a), r)
  {
    var q, p := s.reqs[r], Next(s, a).reqs[r];
    assert PhaseOk(p) by { hide TimeOk; }
    assert TimeOk(p);
    hide TimeOk, PhaseOk;
  }

  lemma PlainOk(s: State, a: Action, r: nat)
    requires r in s.reqs && SubjectOk(s, r) && Enabled(s, a) && Subject(a) == Some(r) && Plain(a)
    ensures SubjectOk(Next(s, a), r)
  {
    hide LiveTurn;
    var t := Next(s, a);
    PlainRequestOk(s, a, r);
    assert t.turns == s.turns && t.drainingModel == s.drainingModel;
    hide TimeOk, SlotOk;
    assert KeyedOk(t, r);
  }

  lemma ArriveOk(s: State, r: nat, endpoint: Endpoint)
    requires Inv(s) && Enabled(s, Arrive(r, endpoint))
    ensures SubjectOk(Arrived(s, r, endpoint), r)
  {
    FreshOwner(s, r);
  }

  lemma StepSubjectOk(s: State, a: Action)
    requires Inv(s) && Enabled(s, a) && Subject(a).Some?
    ensures SubjectOk(Next(s, a), Subject(a).value)
  {
    var r := Subject(a).value;
    hide Inv, SubjectOk, Drainable, Retain, Finish, SettledExec, AbortRequest, AbortProvider, Arrived, Dispatched;
    if Plain(a) {
      InvSubject(s, r);
      PlainOk(s, a, r);
    } else if a.Arrive? {
      ArriveOk(s, r, a.endpoint);
    } else if a.Settle? {
      SettleOk(s, r);
    } else if a.CallFailed? || a.Fail? || a.Reply? {
      InvSubject(s, r);
      InvDrainable(s, r);
      NotRetired(s, r);
      EndingOk(s, a, r);
    } else {
      AbortOk(s, r, a);
    }
  }

  lemma EndingOk(s: State, a: Action, r: nat)
    requires Drainable(s, r) && SubjectOk(s, r) && !s.retired && Enabled(s, a) && Subject(a) == Some(r)
    requires a.CallFailed? || a.Fail? || a.Reply?
    ensures SubjectOk(Next(s, a), r)
  {
    hide Retain, Finish;
    if a.CallFailed? && a.drain {
      RetainOk(s, s.(reqs := s.reqs[r := s.reqs[r].(phase := DrainWait)]), r);
    } else if a.Reply? {
      FinishOk(s, s.(reqs := s.reqs[r := s.reqs[r].(repliedAt := Some(s.now))]), r);
    } else {
      FinishOk(s, s, r);
    }
  }

  // ---- Steps that touch more than one request ----------------------------------------------------

  lemma NotYetOwner(s: State, r: nat)
    requires Inv(s) && r in s.reqs && s.reqs[r].phase == Waiting
    ensures forall t | t in s.turns :: t.owner != r
  {
    assert ReqOk(s, r);
    assert forall t | t in s.turns :: TurnOk(s, t);
  }

  /** The branches of the body step that do not reach the registry. */
  lemma UnkeyedSubjectOk(s: State, r: nat, timeoutMs: int, valid: bool, key: Option<(string, string)>)
    requires SubjectOk(s, r) && Enabled(s, ReadBody(r, timeoutMs, valid, key)) && forall t | t in s.turns :: t.owner != r
    requires !valid || s.reqs[r].endpoint == Search || s.drainingModel != {} || key.None?
    ensures SubjectOk(BodyRead(s, r, timeoutMs, valid, key), r)
  {
    hide LiveTurn;
    var t := BodyRead(s, r, timeoutMs, valid, key);
    assert t.turns == s.turns;
    assert ReqOk(t, r);
    assert KeyedOk(t, r);
  }

  lemma UnkeyedBodyOk(s: State, r: nat, timeoutMs: int, valid: bool, key: Option<(string, string)>)
    requires Inv(s) && Enabled(s, ReadBody(r, timeoutMs, valid, key))
    requires !valid || s.reqs[r].endpoint == Search || s.drainingModel != {} || key.None?
    ensures Inv(BodyRead(s, r, timeoutMs, valid, key))
  {
    InvSubject(s, r);
    NotYetOwner(s, r);
    UnkeyedSubjectOk(s, r, timeoutMs, valid, key);
    hide SubjectOk;
    assert Touches(s, BodyRead(s, r, timeoutMs, valid, key), r) by {
      hide ReqOk, KeyedOk, TurnOk;
      assert forall i | 0 <= i < |s.turns| :: s.turns[i] in s.turns && Stamped(s.turns[i]);
    }
    hide Inv, Touches;
    SubjectKeepsInv(s, BodyRead(s, r, timeoutMs, valid, key), r);
  }

  /** A change of the registry that drops only tombstones and adds at most one record of request r. */
  ghost predicate Reregisters(s: State, t: State, r: nat) {
    && RegistryOk(t.turns)
    && (forall x | x in t.turns && x.owner != r :: x in s.turns)
    && (forall x | x in s.turns && x !in t.turns :: x.state == Terminal)
  }

  lemma ReregisterKeepsInv(s: State, t: State, r: nat)
    requires Inv(s) && r in s.reqs && Reregisters(s, t, r) && (forall x | x in s.turns :: x.owner != r)
    requires r in t.reqs && t.reqs == s.reqs[r := t.reqs[r]] && t.retired == s.retired && t.closing == s.closing
    requires (t.active == s.active || t.active == s.active + {r}) && t.drainingModel == s.drainingModel && t.drainingStatus == s.drainingStatus
    requires SubjectOk(t, r)
    ensures Inv(t)
  {
    forall x | x in t.reqs && x != r
      ensures ReqOk(t, x) && KeyedOk(t, x)
    {
      assert ReqOk(s, x) && KeyedOk(s, x);
      assert LiveTurn(s.turns, x) ==> LiveTurn(t.turns, x);
    }
    forall x | x in t.turns
      ensures TurnOk(t, x)
    {
      if x.owner != r {
        assert x in s.turns && TurnOk(s, x);
      } else {
        var i :| 0 <= i < |t.turns| && t.turns[i] == x;
      }
    }
  }

  lemma OnlyRecord(turns: seq<Turn>, t: Turn)
    requires RegistryOk(turns) && t in turns
    ensures forall x | x in turns && x.owner == t.owner :: x == t
  {
    forall x | x in turns && x.owner == t.owner
      ensures x == t
    {
      var i, j :| 0 <= i < |turns| && 0 <= j < |turns| && turns[i] == x && turns[j] == t;
    }
  }

  lemma RefusedSubjectOk(s: State, t: State, r: nat)
    requires SubjectOk(s, r) && s.reqs[r].phase == Waiting && r in t.reqs && t.reqs[r] == s.reqs[r].(phase := Ended)
    requires t.active == s.active && t.drainingModel == s.drainingModel && t.drainingStatus == s.drainingStatus && t.retired == s.retired
    requires forall x | x in t.turns :: x.owner != r
    ensures SubjectOk(t, r)
  {
    hide LiveTurn;
    assert ReqOk(t, r) && KeyedOk(t, r);
  }

  lemma RefusedOk(s: State, r: nat, timeoutMs: int, key: (string, string))
    requires Inv(s) && Enabled(s, ReadBody(r, timeoutMs, true, Some(key)))
    requires s.reqs[r].endpoint == Model && s.drainingModel == {}
    requires Reserve(s.turns, r, key.0, key.1, s.now).refusal.Some?
    ensures Inv(BodyRead(s, r, timeoutMs, true, Some(key)))
  {
    var t := BodyRead(s, r, timeoutMs, true, Some(key));
    InvSubject(s, r);
    NotYetOwner(s, r);
    ReserveKeeps(s.turns, r, key.0, key.1, s.now);
    hide Reserve, RegistryOk, Inv, SubjectOk;
    RefusedSubjectOk(s, t, r);
    ReregisterKeepsInv(s, t, r);
  }

  lemma AdmittedOk(s: State, r: nat, timeoutMs: int, key: (string, string))
    requires Inv(s) && Enabled(s, ReadBody(r, timeoutMs, true, Some(key)))
    requires s.reqs[r].endpoint == Model && s.drainingModel == {}
    requires Reserve(s.turns, r, key.0, key.1, s.now).refusal.None?
    ensures Inv(BodyRead(s, r, timeoutMs, true, Some(key)))
  {
    var t := BodyRead(s, r, timeoutMs, true, Some(key));
    var added := Turn(r, key.0, key.1, Active, None);
    InvSubject(s, r);
    NotYetOwner(s, r);
    ReserveKeeps(s.turns, r, key.0, key.1, s.now);
    hide Reserve, RegistryOk, Inv;
    assert added in t.turns && RegistryOk(t.turns);
    OnlyRecord(t.turns, added);
    assert LiveTurn(t.turns, r);
    assert TurnOk(t, added);
    assert ReqOk(t, r);
    hide ReqOk, TurnOk, KeyedOk;
    ReregisterKeepsInv(s, t, r);
  }

  lemma BodyOk(s: State, r: nat, timeoutMs: int, valid: bool, key: Option<(string, string)>)
    requires Inv(s) && Enabled(s, ReadBody(r, timeoutMs, valid, key))
    ensures Inv(BodyRead(s, r, timeoutMs, valid, key))
  {
    hide Inv, BodyRead;
    if !valid || s.reqs[r].endpoint == Search || s.drainingModel != {} || key.None? {
      UnkeyedBodyOk(s, r, timeoutMs, valid, key);
    } else {
      WaitingModel(s, r);
      if Reserve(s.turns, r, key.value.0, key.value.1, s.now).refusal.Some? {
        RefusedOk(s, r, timeoutMs, key.value);
      } else {
        AdmittedOk(s, r, timeoutMs, key.value);
      }
    }
  }

  lemma WaitingModel(s: State, r: nat)
    requires Inv(s) && InPhase(s, r, Waiting)
    ensures s.reqs[r].endpoint != Status
  {
    assert ReqOk(s, r);
  }

  lemma CloseRelabels(s: State)
    requires Inv(s) && !s.closing
    ensures Relabels(s.turns, AbortAll(s).turns)
  {
    forall i | 0 <= i < |s.turns|
      ensures Advances(s.turns[i], AbortAll(s).turns[i]) && Stamped(AbortAll(s).turns[i])
    {
      assert TurnOk(s, s.turns[i]) && Stamped(s.turns[i]);
    }
  }

  /** Closing aborts every active request, and keeps track of the provider work this leaves behind. */
  lemma CloseTurnOk(s: State, i: nat)
    requires Inv(s) && !s.closing && i < |s.turns|
    ensures var t := AbortAll(s).(closing := true); i < |t.turns| && TurnOk(t, t.turns[i])
  {
    assert TurnOk(s, s.turns[i]) && ReqOk(s, s.turns[i].owner);
    hide Inv, TimeOk, KeyedOk;
  }

  lemma CloseRequestOk(s: State, x: nat)
    requires Inv(s) && !s.closing && x in s.reqs
    ensures var t := AbortAll(s).(closing := true); x in t.reqs && ReqOk(t, x)
  {
    assert ReqOk(s, x);
    hide Inv, TurnOk, KeyedOk, DrainTurns;
    ClockFrame(s.reqs[x], AbortAll(s).reqs[x]);
    hide TimeOk;
  }

  lemma CloseKeyedOk(s: State, x: nat)
    requires Inv(s) && !s.closing && x in s.reqs
    ensures var t := AbortAll(s).(closing := true); x in t.reqs && KeyedOk(t, x)
  {
    var t := AbortAll(s).(closing := true);
    assert KeyedOk(s, x);
    hide Inv, ReqOk, TurnOk;
    if LiveTurn(s.turns, x) {
      var i :| 0 <= i < |s.turns| && s.turns[i].owner == x && s.turns[i].state != Terminal;
      assert t.turns[i] in t.turns;
    }
  }

  /** Closing aborts every active request, and keeps track of the provider work this leaves behind. */
  lemma CloseStartOk(s: State)
    requires Inv(s) && !s.closing
    ensures Inv(AbortAll(s).(closing := true))
  {
    var t := AbortAll(s).(closing := true);
    CloseRelabels(s);
    RelabelKeepsRegistry(s.turns, t.turns);
    assert t.reqs.Keys == s.reqs.Keys && t.active == s.active && t.drainingStatus == s.drainingStatus;
    assert t.drainingModel <= t.reqs.Keys;
    hide ReqOk, KeyedOk, TurnOk, RegistryOk, AbortAll;
    forall i | 0 <= i < |t.turns|
      ensures TurnOk(t, t.turns[i])
    {
      CloseTurnOk(s, i);
    }
    forall x | x in t.reqs
      ensures ReqOk(t, x) && KeyedOk(t, x)
    {
      CloseRequestOk(s, x);
      CloseKeyedOk(s, x);
    }
  }

  lemma CloseFinishOk(s: State)
    requires Inv(s) && Enabled(s, CloseFinish)
    ensures Inv(Next(s, CloseFinish))
  {
    var t := Next(s, CloseFinish);
    forall x | x in t.reqs
      ensures ReqOk(t, x) && KeyedOk(t, x)
    {
      assert ReqOk(s, x) && KeyedOk(s, x);
    }
    forall x | x in t.turns
      ensures TurnOk(t, x)
    {
      assert TurnOk(s, x);
    }
  }

  lemma TickOk(s: State, to: int)
    requires Inv(s)
    ensures Inv(s.(now := to))
  {
    var t := s.(now := to);
    forall x | x in t.reqs
      ensures ReqOk(t, x) && KeyedOk(t, x)
    {
      assert ReqOk(s, x) && KeyedOk(s, x);
    }
    forall x | x in t.turns
      ensures TurnOk(t, x)
    {
      assert TurnOk(s, x);
    }
  }

  lemma StepKeepsInv(s: State, a: Action)
    requires Inv(s) && Enabled(s, a)
    ensures Inv(Next(s, a))
  {
    hide Inv, SubjectOk, Touches, BodyRead, AbortAll;
    if Subject(a).Some? {
      StepTouches(s, a);
      StepSubjectOk(s, a);
      SubjectKeepsInv(s, Next(s, a), Subject(a).value);
    } else {
      match a
      case Tick(to) => TickOk(s, to);
      case ReadBody(r, timeoutMs, valid, key) => BodyOk(s, r, timeoutMs, valid, key);
      case CloseStart => CloseStartOk(s);
      case CloseFinish => CloseFinishOk(s);
    }
  }

  lemma SubjectKeepsInv(s: State, t: State, r: nat)
    requires Inv(s) && Touches(s, t, r) && SubjectOk(t, r)
    ensures Inv(t)
  {
    TouchKeepsInv(s, t, r);
  }

  /** Every state of every run keeps the protocol's invariant. */
  lemma {:induction false} RunsAreSafe(states: seq<State>, actions: seq<Action>, i: nat)
    requires IsRun(states, actions) && Inv(states[0]) && i < |states|
    ensures Inv(states[i])
  {
    hide Inv, Next, Enabled;
    if i > 0 {
      RunsAreSafe(states, actions, i - 1);
      StepKeepsInv(states[i - 1], actions[i - 1]);
    }
  }
}
