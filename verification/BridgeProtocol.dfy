/**
 * The request protocol of the bridge as a step system (openclaw-plugin/src/bridge.ts:2548-3784).
 * Every step is one stretch of code without an await, at one clock value; an abort runs its
 * listeners within the step that causes it. A controller, a provider execution and a turn record
 * are named by the request that created them: no request creates two.
 */
module BridgeProtocol {
  import opened Wrappers
  import opened TurnRegistry

  const MODEL_REQUEST_ENVELOPE_TIMEOUT_MS := 300_000
  const MODEL_REQUEST_POSTFLIGHT_RESERVE_MS := 30_000
  const OPENCLAW_STATUS_TIMEOUT_MS := 150_000
  const MIN_MODEL_TIMEOUT_MS := 1_000
  const MAX_MODEL_TIMEOUT_MS := 150_000
  const MAX_SEARCH_TIMEOUT_MS := 300_000

  datatype Endpoint = Model | Search | Status

  /**
   * Waiting for the body; the stages before the provider race (all of a search or status
   * request); queued at the dispatch boundary; racing the provider; the bounded drain after an
   * abort; the stages after the provider answered; over.
   */
  datatype Phase = Waiting | Preflight | Queued | Calling | DrainWait | Postflight | Ended

  datatype Exec = NotStarted | Running | Settled

  datatype Request = Request(
    endpoint: Endpoint, phase: Phase, startedAt: int, timeoutMs: int, deadline: int,
    aborted: bool, providerAborted: bool, providerDeadline: Option<int>, dispatchedAt: Option<int>,
    exec: Exec, turnId: Option<string>, repliedAt: Option<int>)

  datatype State = State(
    now: int, maxRuns: nat, reqs: map<nat, Request>, active: set<nat>, drainingModel: set<nat>,
    drainingStatus: set<nat>, turns: seq<Turn>, closing: bool, retired: bool)

  function Init(now: int, maxRuns: nat): State {
    State(now, maxRuns, map[], {}, {}, {}, [], false, false)
  }

  datatype Action =
    | Tick(to: int)
    | Arrive(r: nat, endpoint: Endpoint)
    | BodyFailed(r: nat)
    | ReadBody(r: nat, timeoutMs: int, valid: bool, key: Option<(string, string)>)
    | Disconnect(r: nat)
    | RequestTimer(r: nat)
    | ProviderTimer(r: nat)
    | PreflightDone(r: nat)
    | Dispatch(r: nat)
    | StatusStage(r: nat)
    | Settle(r: nat)
    | CallDone(r: nat)
    | CallFailed(r: nat, drain: bool)
    | Fail(r: nat)
    | Reply(r: nat)
    | CloseStart
    | CloseFinish

  // ---- Turn records -----------------------------------------------------------------------

  /** `modelTurn.state = 'draining'` for the records of some requests. */
  function DrainTurns(turns: seq<Turn>, owners: set<nat>): seq<Turn> {
    seq(|turns|, i requires 0 <= i < |turns| =>
      if turns[i].owner in owners then turns[i].(state := Draining) else turns[i])
  }

  function CompleteTurn(turns: seq<Turn>, owner: nat, now: int): seq<Turn> {
    seq(|turns|, i requires 0 <= i < |turns| =>
      if turns[i].owner == owner then Completed(turns[i], now) else turns[i])
  }

  /** The settlement handler completes a record only if it is draining. */
  function SettleTurn(turns: seq<Turn>, owner: nat, now: int): seq<Turn> {
    seq(|turns|, i requires 0 <= i < |turns| =>
      if turns[i].owner == owner && turns[i].state == Draining then Completed(turns[i], now) else turns[i])
  }

  // ---- Aborts and the finally blocks -------------------------------------------------------

  predicate Signalled(q: Request) {
    q.aborted || q.providerAborted
  }

  /** Whether the provider signal still has the listener that retains unknown provider work. */
  predicate Listening(q: Request) {
    q.phase == Queued || q.phase == Calling || q.phase == DrainWait
  }

  /** retainDrainingModelExecution. */
  function Retain(s: State, r: nat): State
    requires r in s.reqs
  {
    if s.reqs[r].exec != Running then s
    else s.(turns := DrainTurns(s.turns, {r}), drainingModel := s.drainingModel + {r})
  }

  function AbortRequest(s: State, r: nat): State
    requires r in s.reqs
  {
    var q := s.reqs[r];
    var t := s.(reqs := s.reqs[r := q.(aborted := true)]);
    if Listening(q) && !Signalled(q) then Retain(t, r) else t
  }

  function AbortProvider(s: State, r: nat): State
    requires r in s.reqs
  {
    var q := s.reqs[r];
    var t := s.(reqs := s.reqs[r := q.(providerAborted := true)]);
    if !Signalled(q) then Retain(t, r) else t
  }

  function AbortAll(s: State): State {
    var drained := set r | r in s.reqs && r in s.active && Listening(s.reqs[r]) && !Signalled(s.reqs[r]) && s.reqs[r].exec == Running;
    s.(reqs := map r | r in s.reqs :: if r in s.active then s.reqs[r].(aborted := true) else s.reqs[r],
       turns := DrainTurns(s.turns, drained),
       drainingModel := s.drainingModel + drained)
  }

  /** The finally block that ends a request, after it answered or failed. */
  function Finish(s: State, r: nat): State
    requires r in s.reqs
  {
    var q := s.reqs[r];
    var t := s.(reqs := s.reqs[r := q.(phase := Ended)]);
    if q.exec == Running then
      if q.endpoint == Status then t.(drainingStatus := s.drainingStatus + {r}) else Retain(t, r)
    else
      t.(turns := if q.turnId.Some? then CompleteTurn(s.turns, r, s.now) else s.turns, active := s.active - {r})
  }

  // ---- Steps ------------------------------------------------------------------------------

  predicate InTime(s: State, q: Request) {
    !Signalled(q) && s.now < q.deadline
  }

  /** The range parseModelRunRequest and parseWebSearchRequest accept. */
  function MaxTimeoutMs(endpoint: Endpoint): int {
    if endpoint == Model then MAX_MODEL_TIMEOUT_MS else MAX_SEARCH_TIMEOUT_MS
  }

  predicate InPhase(s: State, r: nat, phase: Phase) {
    r in s.reqs && s.reqs[r].phase == phase
  }

  predicate Enabled(s: State, a: Action) {
    match a
    case Tick(to) => s.now <= to
    case Arrive(r, _) => r !in s.reqs && !s.closing && |s.active| < s.maxRuns
    case BodyFailed(r) => InPhase(s, r, Waiting)
    case ReadBody(r, timeoutMs, valid, _) =>
      && InPhase(s, r, Waiting)
      && (valid ==> MIN_MODEL_TIMEOUT_MS <= timeoutMs <= MaxTimeoutMs(s.reqs[r].endpoint))
    case Disconnect(r) => r in s.reqs && s.reqs[r].phase != Waiting && s.reqs[r].phase != Ended
    case RequestTimer(r) =>
      r in s.reqs && s.reqs[r].phase != Waiting && s.reqs[r].phase != Ended && s.now >= s.reqs[r].deadline
    case ProviderTimer(r) =>
      && (InPhase(s, r, Calling) || InPhase(s, r, DrainWait))
      && s.reqs[r].providerDeadline.Some? && s.now >= s.reqs[r].providerDeadline.value
    case PreflightDone(r) => InPhase(s, r, Preflight) && s.reqs[r].endpoint == Model && InTime(s, s.reqs[r])
    case Dispatch(r) => InPhase(s, r, Queued) && InTime(s, s.reqs[r]) && s.drainingModel == {}
    case StatusStage(r) =>
      InPhase(s, r, Preflight) && s.reqs[r].endpoint == Status && s.reqs[r].exec != Running && InTime(s, s.reqs[r])
    case Settle(r) => r in s.reqs && s.reqs[r].exec == Running
    case CallDone(r) =>
      && InPhase(s, r, Calling) && s.reqs[r].exec == Settled && InTime(s, s.reqs[r])
      && s.reqs[r].providerDeadline.Some? && s.now < s.reqs[r].providerDeadline.value
    case CallFailed(r, drain) =>
      InPhase(s, r, Calling) && (if drain then Signalled(s.reqs[r]) else s.reqs[r].exec == Settled)
    case Fail(r) =>
      || InPhase(s, r, Preflight) || InPhase(s, r, Postflight) || InPhase(s, r, DrainWait)
      || (InPhase(s, r, Queued) && (!InTime(s, s.reqs[r]) || s.drainingModel != {}))
    case Reply(r) =>
      && r in s.reqs && InTime(s, s.reqs[r])
      && s.reqs[r].phase == (if s.reqs[r].endpoint == Model then Postflight else Preflight)
      && (s.reqs[r].endpoint == Status ==> s.reqs[r].exec != Running)
    case CloseStart => !s.closing
    case CloseFinish => s.closing && !s.retired && forall r | r in s.reqs :: s.reqs[r].phase == Ended
  }

  function Arrived(s: State, r: nat, endpoint: Endpoint): State {
    var q := Request(endpoint, if endpoint == Status then Preflight else Waiting, s.now, 0, s.now + OPENCLAW_STATUS_TIMEOUT_MS,
                     false, false, None, None, NotStarted, None, None);
    s.(reqs := s.reqs[r := q], active := if endpoint == Status then s.active + {r} else s.active)
  }

  /** The stretch from the parsed body to the first preflight stage. */
  function BodyRead(s: State, r: nat, timeoutMs: int, valid: bool, key: Option<(string, string)>): State
    requires r in s.reqs
  {
    var q := s.reqs[r];
    var over := s.(reqs := s.reqs[r := q.(phase := Ended)]);
    if !valid then over
    else if q.endpoint == Search then
      s.(reqs := s.reqs[r := q.(phase := Preflight, startedAt := s.now, timeoutMs := timeoutMs, deadline := s.now + timeoutMs)],
         active := s.active + {r})
    else if s.drainingModel != {} then over
    else
      var latestProviderStartAt :=
        s.now + MODEL_REQUEST_ENVELOPE_TIMEOUT_MS - timeoutMs - MODEL_REQUEST_POSTFLIGHT_RESERVE_MS;
      var admitted := s.(
        reqs := s.reqs[r := q.(phase := Preflight, startedAt := s.now, timeoutMs := timeoutMs, deadline := latestProviderStartAt,
                               turnId := if key.Some? then Some(key.value.0) else None)],
        active := s.active + {r});
      if key.None? then admitted
      else
        var reservation := Reserve(s.turns, r, key.value.0, key.value.1, s.now);
        if reservation.refusal.Some? then over.(turns := reservation.turns)
        else admitted.(turns := reservation.turns)
  }

  function Dispatched(s: State, r: nat): State
    requires r in s.reqs
  {
    var q := s.reqs[r];
    s.(reqs := s.reqs[r := q.(phase := Calling, exec := Running, dispatchedAt := Some(s.now),
                              deadline := q.startedAt + MODEL_REQUEST_ENVELOPE_TIMEOUT_MS,
                              providerDeadline := Some(s.now + q.timeoutMs))])
  }

  /** The handlers that run when a provider execution or status dependency settles. */
  function SettledExec(s: State, r: nat): State
    requires r in s.reqs
  {
    var q := s.reqs[r];
    var t := s.(reqs := s.reqs[r := q.(exec := Settled)],
                turns := if q.turnId.Some? then SettleTurn(s.turns, r, s.now) else s.turns);
    if r in s.drainingModel || r in s.drainingStatus then
      t.(drainingModel := s.drainingModel - {r}, drainingStatus := s.drainingStatus - {r}, active := s.active - {r})
    else t
  }

  function Next(s: State, a: Action): State
    requires Enabled(s, a)
  {
    match a
    case Tick(to) => s.(now := to)
    case Arrive(r, endpoint) => Arrived(s, r, endpoint)
    case BodyFailed(r) => s.(reqs := s.reqs[r := s.reqs[r].(phase := Ended)])
    case ReadBody(r, timeoutMs, valid, key) => BodyRead(s, r, timeoutMs, valid, key)
    case Disconnect(r) => AbortRequest(s, r)
    case RequestTimer(r) => AbortRequest(s, r)
    case ProviderTimer(r) => AbortProvider(s, r)
    case PreflightDone(r) => s.(reqs := s.reqs[r := s.reqs[r].(phase := Queued)])
    case Dispatch(r) => Dispatched(s, r)
    case StatusStage(r) => s.(reqs := s.reqs[r := s.reqs[r].(exec := Running)])
    case Settle(r) => SettledExec(s, r)
    case CallDone(r) => s.(reqs := s.reqs[r := s.reqs[r].(phase := Postflight, providerDeadline := None)])
    case CallFailed(r, drain) =>
      if drain then Retain(s.(reqs := s.reqs[r := s.reqs[r].(phase := DrainWait)]), r) else Finish(s, r)
    case Fail(r) => Finish(s, r)
    case Reply(r) => Finish(s.(reqs := s.reqs[r := s.reqs[r].(repliedAt := Some(s.now))]), r)
    case CloseStart => AbortAll(s).(closing := true)
    case CloseFinish =>
      s.(active := s.active - s.drainingModel - s.drainingStatus, drainingModel := {}, drainingStatus := {}, retired := true)
  }

  /** The states a run goes through, one action after the other. */
  ghost predicate IsRun(states: seq<State>, actions: seq<Action>) {
    && |states| == |actions| + 1
    && forall i | 0 <= i < |actions| :: Enabled(states[i], actions[i]) && states[i + 1] == Next(states[i], actions[i])
  }
}
