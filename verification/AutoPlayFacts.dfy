/** What every order of calls, worker events and timers leaves true of the engine manager. */
module AutoPlayFacts {
  import opened Wrappers
  import opened AutoPlay

  /** The pending request has exactly one armed way to end. */
  ghost predicate Armed(s: State, active: Pending) {
    || (&& s.worker.Some? && active.worker == s.worker && active.fallbackTimer.None? && active.watchdog.Some?
        && s.timers == map[active.watchdog.value := Watchdog(s.worker.value)])
    || (&& s.worker.None? && active.worker.None? && active.watchdog.None? && active.fallbackTimer.Some?
        && s.timers == map[active.fallbackTimer.value := Fallback(active.id)])
  }

  /** Every request issued is settled once, but for the pending one; every worker but the current one is terminated. */
  ghost predicate Ledger(s: State) {
    && s.nextId >= 1 && (forall t | t in s.timers :: t < s.nextTimer)
    && (s.disposed ==> s.worker.None? && s.pending.None?)
    && (s.pending.Some? ==> s.pending.value.id >= 1 && s.pending.value.id + 1 == s.nextId)
    && (forall id: nat :: id in s.settled <==> 1 <= id < s.nextId)
    && (forall id: nat | id in s.settled :: |s.settled[id]| == if s.pending.Some? && s.pending.value.id == id then 0 else 1)
    && (forall w: nat :: w in s.terminated <==> w < s.created && s.worker != Some(w))
    && (s.worker.Some? ==> s.worker.value < s.created)
  }

  ghost predicate Inv(s: State) {
    Ledger(s) && match s.pending case None => s.timers == map[] case Some(active) => Armed(s, active)
  }

  lemma SupersedeOk(s: State)
    requires Inv(s)
    ensures Inv(Supersede(s)) && Supersede(s).pending.None?
  {
  }

  lemma FailWorkerOk(s: State, target: nat, message: string)
    requires Inv(s)
    ensures Inv(FailWorker(s, target, message))
  {
  }

  lemma CompleteOk(s: State, result: EngineResult)
    requires Inv(s) && s.pending.Some?
    ensures Inv(Complete(s, s.pending.value.id, result))
  {
  }

  lemma AnsweredOk(s: State, target: nat, data: Data)
    requires Inv(s)
    ensures Inv(Answered(s, target, data))
    ensures Answered(s, target, data).pending == s.pending && Answered(s, target, data).worker == s.worker
  {
  }

  lemma MessageOk(s: State, target: nat, data: Data)
    requires Inv(s)
    ensures Inv(OnMessage(s, target, data))
  {
    hide Inv, FailWorker, Complete, Answered;
    var t := Answered(s, target, data);
    AnsweredOk(s, target, data);
    FailWorkerOk(t, target, INVALID_RESPONSE);
    if t.pending.Some? && data.Response? { CompleteOk(t, ResultOf(data)); }
  }

  /** The armed timer belongs to the pending request, and firing it is ending that request. */
  lemma TimerEnds(s: State, timer: nat, search: Search)
    requires Inv(s) && timer in s.timers
    ensures s.pending.Some?
    ensures OnTimer(s, timer, search) == match s.timers[timer]
                                         case Watchdog(target) => FailWorker(s, target, TOO_LONG)
                                         case Fallback(_) => Complete(s, s.pending.value.id, SearchResult(search))
  {
  }

  lemma TimerOk(s: State, timer: nat, search: Search)
    requires Inv(s) && timer in s.timers
    ensures Inv(OnTimer(s, timer, search))
  {
    hide Inv, OnTimer, FailWorker, Complete;
    TimerEnds(s, timer, search);
    match s.timers[timer]
    case Watchdog(target) => FailWorkerOk(s, target, TOO_LONG);
    case Fallback(_) => CompleteOk(s, SearchResult(search));
  }

  lemma RetireOk(s: State)
    requires Inv(s) && s.pending.None?
    ensures Inv(RetireWorker(s)) && RetireWorker(s).worker.None?
  {
  }

  lemma ResetOk(s: State)
    requires Inv(s)
    ensures Inv(Reset(s)) && Inv(Dispose(s)) && Dispose(s) == Reset(s).(disposed := true)
  {
    SupersedeOk(s);
    RetireOk(Supersede(s));
    assert Dispose(s) == Reset(s).(disposed := true);
  }

  /** A request just issued, with no way to end armed yet. */
  ghost predicate Issued(s: State, active: Pending) {
    Ledger(s) && s.pending == Some(active) && active == Pending(active.id, None, None, None) && s.timers == map[] && !s.disposed
  }

  lemma IssueOk(s: State)
    requires Inv(s) && s.pending.None? && !s.disposed
    ensures Issued(Issue(s), Pending(s.nextId, None, None, None))
  {
  }

  lemma ReadyOk(s: State, active: Pending, spawn: Spawn)
    requires Issued(s, active)
    ensures Issued(Ready(s, spawn), active)
  {
  }

  lemma FallbackOk(s: State, active: Pending)
    requires Issued(s, active) && s.worker.None?
    ensures Inv(ScheduleOnMainThread(s, active))
  {
  }

  lemma PostOk(s: State, active: Pending, target: nat, posts: bool)
    requires Issued(s, active) && s.worker == Some(target)
    ensures Inv(PostRequest(s, active, target, posts))
  {
  }

  lemma LaunchOk(s: State, active: Pending, posts: bool)
    requires Issued(s, active)
    ensures Inv(Launch(s, active, posts))
  {
    hide Inv, Issued, ScheduleOnMainThread, PostRequest;
    match s.worker
    case None => FallbackOk(s, active);
    case Some(target) => PostOk(s, active, target, posts);
  }

  lemma StillEnabled(s: State)
    ensures Supersede(s).disposed == s.disposed
  {
  }

  lemma ChooseOk(s: State, spawn: Spawn, posts: bool)
    requires Inv(s)
    ensures Inv(ChooseMove(s, spawn, posts))
  {
    hide Inv, Issued, Supersede, Issue, Ready, Launch;
    if !s.disposed {
      var active := Pending(Supersede(s).nextId, None, None, None);
      StillEnabled(s);
      SupersedeOk(s);
      IssueOk(Supersede(s));
      ReadyOk(Issue(Supersede(s)), active, spawn);
      LaunchOk(Ready(Issue(Supersede(s)), spawn), active, posts);
    }
  }

  lemma StepKeepsInv(s: State, e: Event)
    requires Inv(s) && Enabled(s, e)
    ensures Inv(Next(s, e))
  {
    hide Inv, ChooseMove, Reset, Dispose, FailWorker, OnMessage, OnTimer;
    match e
    case Choose(spawn, posts) => ChooseOk(s, spawn, posts);
    case ResetCalled => ResetOk(s);
    case DisposeCalled => ResetOk(s);
    case Message(w, data) => MessageOk(s, w, data);
    case Error(w) => FailWorkerOk(s, w, WORKER_FAILURE_MESSAGE);
    case MessageError(w) => FailWorkerOk(s, w, UNREADABLE_RESULT);
    case Fire(timer, search) => TimerOk(s, timer, search);
  }

  lemma {:induction false} RunInv(states: seq<State>, events: seq<Event>, i: nat)
    requires IsRun(states, events) && i < |states|
    ensures Inv(states[i])
  {
    hide Inv, Next, Enabled;
    if i == 0 {
      assert Inv(Init()) by { InitInv(); }
    } else {
      RunInv(states, events, i - 1);
      StepKeepsInv(states[i - 1], events[i - 1]);
    }
  }

  lemma InitInv()
    ensures Inv(Init())
  {
  }

  // ---- Requests --------------------------------------------------------------------------------

  /** Every request is settled at most once, and only the latest one can still be unsettled. */
  lemma SettledOnce(states: seq<State>, events: seq<Event>, i: nat, id: nat)
    requires IsRun(states, events) && i < |states| && 1 <= id < states[i].nextId
    ensures id in states[i].settled && |states[i].settled[id]| <= 1
    ensures states[i].settled[id] == [] <==> states[i].pending.Some? && states[i].pending.value.id == id
    ensures states[i].settled[id] == [] ==> id == states[i].nextId - 1
  {
    RunInv(states, events, i);
  }

  /** A settled request keeps its one result for good. */
  lemma {:induction false} ResultsStay(states: seq<State>, events: seq<Event>, i: nat, j: nat, id: nat)
    requires IsRun(states, events) && i <= j < |states| && id in states[i].settled && states[i].settled[id] != []
    ensures id in states[j].settled && states[j].settled[id] == states[i].settled[id]
    decreases j - i
  {
    assert |states| == |events| + 1;
    hide *;
    if i < j {
      ResultsStay(states, events, i, j - 1, id);
      RunInv(states, events, j - 1);
      RunStep(states, events, j - 1);
      SettledStays(states[j - 1], events[j - 1], id);
    }
  }

  lemma RunStep(states: seq<State>, events: seq<Event>, i: nat)
    requires IsRun(states, events) && i < |events|
    ensures |states| == |events| + 1 && Enabled(states[i], events[i]) && states[i + 1] == Next(states[i], events[i])
  {
    hide Next, Enabled;
  }

  /** No settled result is touched. */
  ghost predicate KeepsResults(s: State, t: State) {
    forall id: nat | id in s.settled && s.settled[id] != [] :: id in t.settled && t.settled[id] == s.settled[id]
  }

  lemma EndingKeeps(s: State, target: nat, message: string, result: EngineResult)
    requires Inv(s)
    ensures KeepsResults(s, Supersede(s)) && KeepsResults(s, FailWorker(s, target, message))
    ensures s.pending.Some? ==> KeepsResults(s, Complete(s, s.pending.value.id, result))
  {
  }

  lemma IssueKeeps(s: State, spawn: Spawn, posts: bool)
    requires Inv(s) && s.pending.None?
    ensures KeepsResults(s, Launch(Ready(Issue(s), spawn), Pending(s.nextId, None, None, None), posts))
  {
    assert s.nextId !in s.settled;
    hide Inv;
    assert Launch(Ready(Issue(s), spawn), Pending(s.nextId, None, None, None), posts).settled == Issue(s).settled;
  }

  lemma SettledStays(s: State, e: Event, id: nat)
    requires Inv(s) && Enabled(s, e) && id in s.settled && s.settled[id] != []
    ensures id in Next(s, e).settled && Next(s, e).settled[id] == s.settled[id]
  {
    hide Inv, Supersede, FailWorker, Complete, Issue, Ready, Launch, OnTimer;
    match e
    case Choose(spawn, posts) =>
      EndingKeeps(s, 0, "", Superseded);
      SupersedeOk(s);
      IssueKeeps(Supersede(s), spawn, posts);
    case ResetCalled =>
      EndingKeeps(s, 0, "", Superseded);
    case DisposeCalled =>
      EndingKeeps(s, 0, "", Superseded);
      ResetOk(s);
    case Message(w, data) =>
      AnsweredOk(s, w, data);
      assert Answered(s, w, data).settled == s.settled;
      EndingKeeps(Answered(s, w, data), w, INVALID_RESPONSE, if data.Response? then ResultOf(data) else Superseded);
    case Error(w) => EndingKeeps(s, w, WORKER_FAILURE_MESSAGE, Superseded);
    case MessageError(w) => EndingKeeps(s, w, UNREADABLE_RESULT, Superseded);
    case Fire(timer, search) =>
      TimerEnds(s, timer, search);
      var target := if s.timers[timer].Watchdog? then s.timers[timer].target else 0;
      EndingKeeps(s, target, TOO_LONG, SearchResult(search));
  }

  /** The one armed timer is the watchdog of a live worker that serves the request, or its fallback search. */
  ghost predicate EndsBy(s: State, timer: nat)
    requires s.pending.Some?
  {
    && s.timers.Keys == {timer}
    && (if s.worker.Some? then s.timers[timer] == Watchdog(s.worker.value) && s.pending.value.worker == s.worker && s.worker.value !in s.terminated
        else s.timers[timer] == Fallback(s.pending.value.id))
  }

  /** An unsettled request always has exactly one armed way to end, and that way settles it. */
  lemma AlwaysEnds(states: seq<State>, events: seq<Event>, i: nat, search: Search)
    returns (timer: nat)
    requires IsRun(states, events) && i < |states| && states[i].pending.Some?
    ensures EndsBy(states[i], timer) && Enabled(states[i], Fire(timer, search))
    ensures var t := Next(states[i], Fire(timer, search));
            t.pending.None? && states[i].pending.value.id in t.settled && |t.settled[states[i].pending.value.id]| == 1
  {
    var s := states[i];
    RunInv(states, events, i);
    timer := if s.worker.Some? then s.pending.value.watchdog.value else s.pending.value.fallbackTimer.value;
    assert s.timers.Keys == {timer};
    FiringEnds(s, timer, search);
  }

  lemma FiringEnds(s: State, timer: nat, search: Search)
    requires Inv(s) && timer in s.timers
    ensures s.pending.Some?
    ensures var t := OnTimer(s, timer, search);
            t.pending.None? && s.pending.value.id in t.settled && |t.settled[s.pending.value.id]| == 1
  {
    hide OnTimer;
    TimerEnds(s, timer, search);
  }

  // ---- Workers -----------------------------------------------------------------------------------

  lemma EndingRetires(s: State, target: nat, message: string, id: nat, result: EngineResult)
    ensures s.terminated <= Supersede(s).terminated && s.terminated <= RetireWorker(s).terminated
    ensures s.terminated <= FailWorker(s, target, message).terminated && s.terminated <= Complete(s, id, result).terminated
  {
    CompleteRetires(s, id, result);
    hide Complete;
    if s.pending.Some? {
      CompleteRetires(Terminate(s.(worker := None), target), s.pending.value.id, Failed(message));
    }
  }

  lemma CompleteRetires(s: State, id: nat, result: EngineResult)
    ensures Complete(s, id, result).terminated == s.terminated
  {
  }

  lemma ChoosingRetires(s: State, spawn: Spawn, active: Pending, posts: bool)
    ensures s.terminated <= Launch(Ready(Issue(s), spawn), active, posts).terminated
  {
    var t := Ready(Issue(s), spawn);
    assert s.terminated <= t.terminated;
    hide Ready, Issue;
    assert t.terminated <= Launch(t, active, posts).terminated;
  }

  /** A terminated worker stays terminated. */
  lemma RetiredStep(s: State, e: Event)
    requires Enabled(s, e)
    ensures s.terminated <= Next(s, e).terminated
  {
    hide Supersede, RetireWorker, FailWorker, Complete, Issue, Ready, Launch;
    match e
    case Choose(spawn, posts) =>
      EndingRetires(s, 0, "", 0, Superseded);
      ChoosingRetires(Supersede(s), spawn, Pending(Supersede(s).nextId, None, None, None), posts);
    case ResetCalled =>
      EndingRetires(s, 0, "", 0, Superseded);
      EndingRetires(Supersede(s), 0, "", 0, Superseded);
    case DisposeCalled =>
      var t := s.(disposed := true);
      EndingRetires(t, 0, "", 0, Superseded);
      EndingRetires(Supersede(t), 0, "", 0, Superseded);
    case Message(w, data) =>
      var t := Answered(s, w, data);
      EndingRetires(t, w, INVALID_RESPONSE, if t.pending.Some? then t.pending.value.id else 0,
                    if data.Response? then ResultOf(data) else Superseded);
    case Error(w) => EndingRetires(s, w, WORKER_FAILURE_MESSAGE, 0, Superseded);
    case MessageError(w) => EndingRetires(s, w, UNREADABLE_RESULT, 0, Superseded);
    case Fire(timer, search) => TimerRetires(s, timer, search);
  }

  lemma TimerRetires(s: State, timer: nat, search: Search)
    requires timer in s.timers
    ensures s.terminated <= OnTimer(s, timer, search).terminated
  {
  }

  /** The event comes from a worker. */
  predicate SentBy(e: Event, w: nat) {
    (e.Message? || e.Error? || e.MessageError?) && e.worker == w
  }

  lemma RetiredEvent(s: State, e: Event, w: nat)
    requires Enabled(s, e) && SentBy(e, w) && s.worker != Some(w)
    ensures Next(s, e) == s.(posted := Next(s, e).posted)
  {
  }

  /**
   * A worker that was terminated never becomes the current one again, and whatever it still sends
   * changes nothing but what it owes.
   */
  lemma {:induction false} RetiredForGood(states: seq<State>, events: seq<Event>, i: nat, j: nat, w: nat)
    requires IsRun(states, events) && i <= j < |states| && w in states[i].terminated
    ensures w in states[j].terminated && states[j].worker != Some(w)
    ensures j < |events| && SentBy(events[j], w) ==> states[j + 1] == states[j].(posted := states[j + 1].posted)
    decreases j - i
  {
    hide Inv, Next, Enabled, SentBy;
    RunInv(states, events, j);
    if i < j {
      RetiredForGood(states, events, i, j - 1, w);
      RetiredStep(states[j - 1], events[j - 1]);
    }
    TerminatedIsRetired(states[j], w);
    if j < |events| && SentBy(events[j], w) {
      RetiredEvent(states[j], events[j], w);
    }
  }

  lemma TerminatedIsRetired(s: State, w: nat)
    requires Inv(s) && w in s.terminated
    ensures s.worker != Some(w)
  {
  }

  /** No worker leaks: all that were ever created are terminated, but for the current one. */
  lemma NoWorkerLeaks(states: seq<State>, events: seq<Event>, i: nat, w: nat)
    requires IsRun(states, events) && i < |states| && w < states[i].created
    ensures w in states[i].terminated <==> states[i].worker != Some(w)
  {
    RunInv(states, events, i);
  }

  /** After dispose the worker and the pending request stay null, and later requests change nothing. */
  lemma {:induction false} DisposedForGood(states: seq<State>, events: seq<Event>, i: nat, j: nat)
    requires IsRun(states, events) && i < j < |states| && events[i] == DisposeCalled
    ensures states[j].disposed && states[j].worker.None? && states[j].pending.None? && states[j].timers == map[]
    ensures states[j].settled == states[i + 1].settled
    decreases j - i
  {
    hide Inv, Next, Enabled;
    RunInv(states, events, j);
    RunInv(states, events, j - 1);
    if i + 1 < j {
      DisposedForGood(states, events, i, j - 1);
      DisposedStep(states[j - 1], events[j - 1]);
    } else {
      DisposeStep(states[i]);
    }
    DisposedIsIdle(states[j]);
  }

  lemma DisposeStep(s: State)
    ensures Next(s, DisposeCalled).disposed
  {
  }

  lemma DisposedIsIdle(s: State)
    requires Inv(s) && s.disposed
    ensures s.worker.None? && s.pending.None? && s.timers == map[]
  {
  }

  lemma DisposedStep(s: State, e: Event)
    requires Inv(s) && Enabled(s, e) && s.disposed
    ensures Next(s, e).disposed && Next(s, e).settled == s.settled
  {
  }

  // ---- Well-behaved workers ------------------------------------------------------------------------

  /** A worker sends readable answers, only to requests it was posted and has not answered. */
  predicate WellBehaved(s: State, e: Event) {
    e.Message? ==> e.data.Response? && e.worker in s.posted && e.data.id in s.posted[e.worker]
  }

  /** The current worker owes an answer to the pending request it serves, and no other. */
  ghost predicate Owes(s: State) {
    && (forall w: nat :: w in s.posted <==> w < s.created)
    && (s.worker.Some? ==>
          && s.worker.value in s.posted
          && s.posted[s.worker.value] == if s.pending.Some? && s.pending.value.worker == s.worker then {s.pending.value.id as int} else {})
  }

  lemma EndingOwes(s: State, target: nat, message: string)
    requires Inv(s) && Owes(s)
    ensures Owes(Supersede(s)) && Owes(FailWorker(s, target, message)) && Owes(RetireWorker(s))
  {
  }

  lemma FallbackOwes(s: State, result: EngineResult)
    requires Inv(s) && Owes(s) && s.pending.Some? && s.worker.None?
    ensures Owes(Complete(s, s.pending.value.id, result))
  {
  }

  lemma MessageOwes(s: State, w: nat, data: Data)
    requires Inv(s) && Owes(s) && w < s.created && WellBehaved(s, Message(w, data))
    ensures Owes(OnMessage(s, w, data))
  {
    hide Ledger;
  }

  lemma ReadyOwes(s: State, spawn: Spawn)
    requires Inv(s) && Owes(s) && s.pending.None?
    ensures Owes(Ready(Issue(s), spawn))
  {
  }

  lemma LaunchOwes(s: State, active: Pending, posts: bool)
    requires Owes(s) && s.pending == Some(active) && active.worker.None?
    ensures Owes(Launch(s, active, posts))
  {
  }

  lemma OwesStep(s: State, e: Event)
    requires Inv(s) && Owes(s) && Enabled(s, e) && WellBehaved(s, e)
    ensures Owes(Next(s, e))
  {
    hide Inv, Owes, Supersede, FailWorker, Complete, RetireWorker, OnMessage, Ready, Launch, OnTimer;
    match e
    case Choose(spawn, posts) =>
      EndingOwes(s, 0, "");
      SupersedeOk(s);
      ReadyOwes(Supersede(s), spawn);
      ReadyPending(Supersede(s), spawn);
      LaunchOwes(Ready(Issue(Supersede(s)), spawn), Pending(Supersede(s).nextId, None, None, None), posts);
    case ResetCalled =>
      EndingOwes(s, 0, "");
      SupersedeOk(s);
      EndingOwes(Supersede(s), 0, "");
    case DisposeCalled =>
      EndingOwes(s, 0, "");
      SupersedeOk(s);
      EndingOwes(Supersede(s), 0, "");
      DisposeOwes(s);
    case Message(w, data) => MessageOwes(s, w, data);
    case Error(w) => EndingOwes(s, w, WORKER_FAILURE_MESSAGE);
    case MessageError(w) => EndingOwes(s, w, UNREADABLE_RESULT);
    case Fire(timer, search) =>
      TimerEnds(s, timer, search);
      TimerOwes(s, timer, search);
  }

  lemma ReadyPending(s: State, spawn: Spawn)
    ensures Ready(Issue(s), spawn).pending == Some(Pending(s.nextId, None, None, None))
  {
  }

  lemma DisposeOwes(s: State)
    requires Inv(s) && Owes(Reset(s))
    ensures Owes(Dispose(s))
  {
    ResetOk(s);
  }

  lemma TimerOwes(s: State, timer: nat, search: Search)
    requires Inv(s) && Owes(s) && timer in s.timers
    ensures Owes(OnTimer(s, timer, search))
  {
    TimerEnds(s, timer, search);
    hide OnTimer, FailWorker, Complete;
    match s.timers[timer]
    case Watchdog(target) => EndingOwes(s, target, TOO_LONG);
    case Fallback(_) => FallbackOwes(s, SearchResult(search));
  }

  /** With a worker that answers each request at most once with its own id, no answer is ever taken for a mismatch. */
  lemma {:induction false} NoMismatch(states: seq<State>, events: seq<Event>, i: nat)
    requires IsRun(states, events) && i <= |events| && forall k | 0 <= k < |events| :: WellBehaved(states[k], events[k])
    ensures Owes(states[i])
    ensures i < |events| && events[i].Message? ==> !Mismatch(states[i], events[i].worker, events[i].data)
  {
    hide Inv, Next, Enabled;
    if i < |events| { assert WellBehaved(states[i], events[i]); }
    if i > 0 {
      NoMismatch(states, events, i - 1);
      RunInv(states, events, i - 1);
      OwesStep(states[i - 1], events[i - 1]);
    }
  }
}
