/**
 * The engine manager of the automatic player (src/lib/auto-play.ts:127-324) as steps on a value:
 * what the caller, a worker's event or a timer does to the manager's variables.
 */
module AutoPlay {
  import opened Wrappers

  datatype EngineResult = Ok(move: Option<string>, analysis: Option<string>) | Superseded | Failed(message: string)

  /** The data of a message event: something isEngineResponse accepts, or anything else. */
  datatype Data = Response(id: int, move: Option<string>, error: Option<string>, analysis: Option<string>) | Invalid

  /** What startWorker meets: no workers here, one that broke while being set up, or a worker. */
  datatype Spawn = Unavailable | Broken | Started

  /** The inline search returns or throws. */
  datatype Search = Found(move: Option<string>, analysis: string) | Threw(message: string)

  datatype Pending = Pending(id: nat, worker: Option<nat>, fallbackTimer: Option<nat>, watchdog: Option<nat>)

  /** The callback of an armed timer, by what it closes over. */
  datatype Timer = Fallback(id: nat) | Watchdog(target: nat)

  /**
   * The closure's variables, and around them: the workers created so far and those terminated,
   * the armed timers, the requests each worker has not answered, and every call of settle.
   */
  datatype State = State(
    worker: Option<nat>, pending: Option<Pending>, nextId: nat, disposed: bool,
    created: nat, terminated: set<nat>, timers: map<nat, Timer>, nextTimer: nat,
    posted: map<nat, set<int>>, settled: map<nat, seq<EngineResult>>)

  const WORKER_FAILURE_MESSAGE := "The move engine stopped unexpectedly."
  const INVALID_RESPONSE := "The move engine returned an invalid response."
  const UNREADABLE_RESULT := "The move engine could not read its result."
  const TOO_LONG := "The move engine took too long to respond."

  function Init(): State {
    State(None, None, 1, false, 0, {}, map[], 0, map[], map[])
  }

  function Opt(t: Option<nat>): set<nat> {
    if t.Some? then {t.value} else {}
  }

  function ClearTimers(s: State, active: Pending): State {
    s.(timers := s.timers - Opt(active.fallbackTimer) - Opt(active.watchdog))
  }

  function Terminate(s: State, target: nat): State {
    s.(terminated := s.terminated + {target})
  }

  function Settle(s: State, id: nat, result: EngineResult): State {
    s.(settled := s.settled[id := (if id in s.settled then s.settled[id] else []) + [result]])
  }

  /** complete: a no-op unless the request is still the pending one. */
  function Complete(s: State, id: nat, result: EngineResult): State {
    if s.pending.None? || s.pending.value.id != id then s
    else Settle(ClearTimers(s.(pending := None), s.pending.value), id, result)
  }

  function Supersede(s: State): State {
    if s.pending.None? then s
    else
      var active := s.pending.value;
      var cleared := ClearTimers(s.(pending := None), active);
      var retired :=
        if active.worker.None? then cleared
        else Terminate(if s.worker == active.worker then cleared.(worker := None) else cleared, active.worker.value);
      Settle(retired, active.id, Superseded)
  }

  function FailWorker(s: State, target: nat, message: string): State {
    if s.worker != Some(target) then s
    else
      var retired := Terminate(s.(worker := None), target);
      if s.pending.Some? && s.pending.value.worker == Some(target) then Complete(retired, s.pending.value.id, Failed(message))
      else retired
  }

  /** The message names another request, or is no response at all. */
  predicate Mismatch(s: State, target: nat, data: Data) {
    && s.worker == Some(target) && s.pending.Some? && s.pending.value.worker == Some(target)
    && (data.Invalid? || data.id != s.pending.value.id)
  }

  function ResultOf(data: Data): EngineResult
    requires data.Response?
  {
    if data.error.Some? && data.error.value != "" then Failed(data.error.value) else EngineResult.Ok(data.move, data.analysis)
  }

  /** The worker no longer owes the answer it has sent. */
  function Answered(s: State, target: nat, data: Data): State {
    if data.Response? && target in s.posted then s.(posted := s.posted[target := s.posted[target] - {data.id}]) else s
  }

  function OnMessage(s: State, target: nat, data: Data): State {
    var t := Answered(s, target, data);
    if s.worker != Some(target) then t
    else if s.pending.None? || s.pending.value.worker != Some(target) then t
    else if data.Invalid? || data.id != s.pending.value.id then FailWorker(t, target, INVALID_RESPONSE)
    else Complete(t, s.pending.value.id, ResultOf(data))
  }

  function SearchResult(search: Search): EngineResult {
    match search
    case Found(move, analysis) => EngineResult.Ok(move, Some(analysis))
    case Threw(message) => Failed(message)
  }

  function OnTimer(s: State, timer: nat, search: Search): State
    requires timer in s.timers
  {
    var t := s.(timers := s.timers - {timer});
    match s.timers[timer]
    case Watchdog(target) => FailWorker(t, target, TOO_LONG)
    case Fallback(id) =>
      if s.pending.None? || s.pending.value.id != id then t
      else Complete(t.(pending := Some(s.pending.value.(fallbackTimer := None))), id, SearchResult(search))
  }

  function Arm(s: State, task: Timer): State {
    s.(timers := s.timers[s.nextTimer := task], nextTimer := s.nextTimer + 1)
  }

  /** scheduleOnMainThread for the pending request. */
  function ScheduleOnMainThread(s: State, active: Pending): State {
    Arm(s.(pending := Some(active.(fallbackTimer := Some(s.nextTimer)))), Fallback(active.id))
  }

  function StartWorker(s: State, spawn: Spawn): State {
    match spawn
    case Unavailable => s
    case Broken => Terminate(s.(created := s.created + 1, posted := s.posted[s.created := {}]), s.created)
    case Started => s.(worker := Some(s.created), created := s.created + 1, posted := s.posted[s.created := {}])
  }

  function PostRequest(s: State, active: Pending, target: nat, posts: bool): State {
    var watched := active.(worker := Some(target), watchdog := Some(s.nextTimer));
    var t := Arm(s.(pending := Some(watched)), Watchdog(target));
    if posts then t.(posted := t.posted[target := (if target in t.posted then t.posted[target] else {}) + {active.id}])
    else
      var cleared := ClearTimers(t, watched).(worker := None);
      ScheduleOnMainThread(Terminate(cleared, target), active)
  }

  /** The next request, pending and with no way to end yet. */
  function Issue(s: State): State {
    s.(nextId := s.nextId + 1, pending := Some(Pending(s.nextId, None, None, None)), settled := s.settled[s.nextId := []])
  }

  function Ready(s: State, spawn: Spawn): State {
    if s.worker.None? then StartWorker(s, spawn) else s
  }

  function Launch(s: State, active: Pending, posts: bool): State {
    match s.worker
    case None => ScheduleOnMainThread(s, active)
    case Some(target) => PostRequest(s, active, target, posts)
  }

  /** chooseMove; after dispose it answers at once and changes nothing. */
  function ChooseMove(s: State, spawn: Spawn, posts: bool): State {
    if s.disposed then s
    else
      var idle := Supersede(s);
      Launch(Ready(Issue(idle), spawn), Pending(idle.nextId, None, None, None), posts)
  }

  function RetireWorker(s: State): State {
    if s.worker.None? then s else Terminate(s, s.worker.value).(worker := None)
  }

  function Reset(s: State): State {
    RetireWorker(Supersede(s))
  }

  function Dispose(s: State): State {
    RetireWorker(Supersede(s.(disposed := true)))
  }

  // ---- Runs -----------------------------------------------------------------------------------

  datatype Event =
    | Choose(spawn: Spawn, posts: bool)
    | ResetCalled
    | DisposeCalled
    | Message(worker: nat, data: Data)
    | Error(worker: nat)
    | MessageError(worker: nat)
    | Fire(timer: nat, search: Search)

  /** Workers send events only once created, timers fire only while armed. */
  predicate Enabled(s: State, e: Event) {
    match e
    case Message(w, _) => w < s.created
    case Error(w) => w < s.created
    case MessageError(w) => w < s.created
    case Fire(timer, _) => timer in s.timers
    case _ => true
  }

  function Next(s: State, e: Event): State
    requires Enabled(s, e)
  {
    match e
    case Choose(spawn, posts) => ChooseMove(s, spawn, posts)
    case ResetCalled => Reset(s)
    case DisposeCalled => Dispose(s)
    case Message(w, data) => OnMessage(s, w, data)
    case Error(w) => FailWorker(s, w, WORKER_FAILURE_MESSAGE)
    case MessageError(w) => FailWorker(s, w, UNREADABLE_RESULT)
    case Fire(timer, search) => OnTimer(s, timer, search)
  }

  ghost predicate IsRun(states: seq<State>, events: seq<Event>) {
    && |states| == |events| + 1 && states[0] == Init()
    && forall i | 0 <= i < |events| :: Enabled(states[i], events[i]) && states[i + 1] == Next(states[i], events[i])
  }
}
