/** Which result every move request gets. */
module AutoPlayResults {
  import opened Wrappers
  import opened AutoPlay
  import opened AutoPlayFacts

  // ---- What the caller is promised -----------------------------------------------------------------

  /** A worker's answer to the request: its error if it names one, its move and analysis otherwise. */
  function Answer(data: Data): EngineResult
    requires data.Response?
  {
    match data.error
    case None => EngineResult.Ok(data.move, data.analysis)
    case Some(text) => if text == "" then EngineResult.Ok(data.move, data.analysis) else Failed(text)
  }

  /** The current worker, if it serves the pending request. */
  predicate Serves(s: State, w: nat) {
    s.pending.Some? && s.worker == Some(w) && s.pending.value.worker == Some(w)
  }

  /** The result that an event gives the pending request, if it ends it. */
  function Expected(s: State, e: Event): Option<EngineResult> {
    if s.pending.None? then None
    else
      match e
      case Choose(_, _) => if s.disposed then None else Some(Superseded)
      case ResetCalled => Some(Superseded)
      case DisposeCalled => Some(Superseded)
      case Message(w, data) =>
        if !Serves(s, w) then None
        else if data.Response? && data.id == s.pending.value.id then Some(Answer(data))
        else Some(Failed("The move engine returned an invalid response."))
      case Error(w) => if Serves(s, w) then Some(Failed("The move engine stopped unexpectedly.")) else None
      case MessageError(w) => if Serves(s, w) then Some(Failed("The move engine could not read its result.")) else None
      case Fire(timer, search) =>
        if timer !in s.timers then None
        else
          match s.timers[timer]
          case Watchdog(_) => Some(Failed("The move engine took too long to respond."))
          case Fallback(_) =>
            match search
            case Found(move, analysis) => Some(EngineResult.Ok(move, Some(analysis)))
            case Threw(message) => Some(Failed(message))
  }

  /** Request `id` has got exactly this result. */
  ghost predicate Got(s: State, id: nat, result: EngineResult) {
    id in s.settled && s.settled[id] == [result]
  }

  /** Request `id` still waits. */
  ghost predicate Waits(s: State, id: nat) {
    s.pending.Some? && s.pending.value.id == id && id in s.settled && s.settled[id] == []
  }

  // ---- One step --------------------------------------------------------------------------------------

  lemma PendingWaits(s: State)
    requires Inv(s) && s.pending.Some?
    ensures Waits(s, s.pending.value.id) && s.pending.value.id < s.nextId
  {
  }

  lemma CompleteGives(s: State, result: EngineResult)
    requires Inv(s) && s.pending.Some?
    ensures Got(Complete(s, s.pending.value.id, result), s.pending.value.id, result)
  {
    PendingWaits(s);
  }

  lemma SupersedeGives(s: State)
    requires Inv(s) && s.pending.Some?
    ensures Got(Supersede(s), s.pending.value.id, Superseded) && Supersede(s).nextId == s.nextId
  {
    PendingWaits(s);
  }

  lemma FailWorkerGives(s: State, w: nat, message: string)
    requires Inv(s) && s.pending.Some?
    ensures Serves(s, w) ==> Got(FailWorker(s, w, message), s.pending.value.id, Failed(message))
    ensures !Serves(s, w) ==> FailWorker(s, w, message) == s
  {
    PendingWaits(s);
  }

  lemma MessageGives(s: State, w: nat, data: Data)
    requires Inv(s) && s.pending.Some?
    ensures var id := s.pending.value.id;
            match Expected(s, Message(w, data)) case Some(r) => Got(OnMessage(s, w, data), id, r) case None => Waits(OnMessage(s, w, data), id)
  {
    var t := Answered(s, w, data);
    AnsweredOk(s, w, data);
    PendingWaits(t);
    FailWorkerGives(t, w, INVALID_RESPONSE);
    if data.Response? { CompleteGives(t, ResultOf(data)); }
    hide Inv, FailWorker, Complete, Answered, Got, Waits;
  }

  lemma TimerGives(s: State, timer: nat, search: Search)
    requires Inv(s) && s.pending.Some? && timer in s.timers
    ensures Expected(s, Fire(timer, search)).Some?
    ensures Got(OnTimer(s, timer, search), s.pending.value.id, Expected(s, Fire(timer, search)).value)
  {
    TimerEnds(s, timer, search);
    TimerServes(s, timer);
    hide Inv, OnTimer, FailWorker, Complete, Got;
    match s.timers[timer]
    case Watchdog(target) => FailWorkerGives(s, target, TOO_LONG);
    case Fallback(_) => CompleteGives(s, SearchResult(search));
  }

  lemma TimerServes(s: State, timer: nat)
    requires Inv(s) && s.pending.Some? && timer in s.timers
    ensures s.timers[timer].Watchdog? ==> Serves(s, s.timers[timer].target)
  {
  }

  /** Issuing the next request does not touch the results of the earlier ones. */
  lemma ChooseGives(s: State, spawn: Spawn, posts: bool)
    requires Inv(s) && s.pending.Some? && !s.disposed
    ensures Got(ChooseMove(s, spawn, posts), s.pending.value.id, Superseded)
  {
    SupersedeGives(s);
    SupersedeOk(s);
    IssueKeeps(Supersede(s), spawn, posts);
    hide Inv, Supersede, Issue, Ready, Launch;
  }

  lemma ResetGives(s: State)
    requires Inv(s) && s.pending.Some?
    ensures Got(Reset(s), s.pending.value.id, Superseded) && Got(Dispose(s), s.pending.value.id, Superseded)
  {
    SupersedeGives(s);
    ResetOk(s);
    hide Inv, Supersede;
  }

  lemma DisposedIsDone(s: State)
    requires Inv(s) && s.pending.Some?
    ensures !s.disposed
  {
  }

  /** An event gives the pending request the result it is expected to give, or leaves it waiting. */
  lemma StepGives(s: State, e: Event)
    requires Inv(s) && Enabled(s, e) && s.pending.Some?
    ensures var id := s.pending.value.id;
            match Expected(s, e) case Some(r) => Got(Next(s, e), id, r) case None => Waits(Next(s, e), id)
  {
    PendingWaits(s);
    DisposedIsDone(s);
    hide Inv, ChooseMove, Reset, Dispose, FailWorker, OnMessage, OnTimer, Got, Waits;
    match e
    case Choose(spawn, posts) => ChooseGives(s, spawn, posts);
    case ResetCalled => ResetGives(s);
    case DisposeCalled => ResetGives(s);
    case Message(w, data) => MessageGives(s, w, data);
    case Error(w) => FailWorkerGives(s, w, WORKER_FAILURE_MESSAGE);
    case MessageError(w) => FailWorkerGives(s, w, UNREADABLE_RESULT);
    case Fire(timer, search) => TimerGives(s, timer, search);
  }

  // ---- Runs --------------------------------------------------------------------------------------------

  /**
   * In every run, the event that ends a request gives it the result that the source promises for
   * that event, and this is the one result the request ever gets; any other event leaves it waiting.
   */
  lemma RequestGets(states: seq<State>, events: seq<Event>, i: nat, j: nat)
    requires IsRun(states, events) && i < j < |states| && states[i].pending.Some?
    ensures var id := states[i].pending.value.id;
            match Expected(states[i], events[i])
            case Some(r) => Got(states[j], id, r)
            case None => Waits(states[i + 1], id)
  {
    assert Enabled(states[i], events[i]) && states[i + 1] == Next(states[i], events[i]);
    assert |states| == |events| + 1;
    hide Inv, Next, Enabled, Expected, IsRun, Waits;
    RunInv(states, events, i);
    StepGives(states[i], events[i]);
    if Expected(states[i], events[i]).Some? {
      ResultsStay(states, events, i + 1, j, states[i].pending.value.id);
    }
  }

  // ---- Requests that are never pending -------------------------------------------------------------------

  /** A request that is made is the pending one, next in number, with no result yet. */
  lemma ChosenWaits(states: seq<State>, events: seq<Event>, i: nat)
    requires IsRun(states, events) && i < |events| && events[i].Choose? && !states[i].disposed
    ensures Waits(states[i + 1], states[i].nextId) && states[i + 1].nextId == states[i].nextId + 1
  {
    RunInv(states, events, i);
    RunInv(states, events, i + 1);
    var s := states[i];
    LaunchedIs(s, events[i].spawn, events[i].posts);
    hide Inv, ChooseMove, IsRun;
    PendingWaits(states[i + 1]);
  }

  lemma LaunchedIs(s: State, spawn: Spawn, posts: bool)
    requires !s.disposed
    ensures var t := ChooseMove(s, spawn, posts); t.pending.Some? && t.pending.value.id == s.nextId && t.nextId == s.nextId + 1
  {
    assert Supersede(s).nextId == s.nextId;
    hide Supersede;
    ReadyPending(Supersede(s), spawn);
  }
}
