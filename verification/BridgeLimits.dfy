/** The limits of the bridge: slots and tombstones. */
module BridgeLimits {
  import opened Wrappers
  import opened Sequences
  import opened TurnRegistry
  import opened BridgeProtocol
  import opened BridgeSafety
  import opened BridgeTheorems

  // ---- Concurrency slots -------------------------------------------------------------------------

  /** Requests that were admitted in and have not yet registered: their body is still being read. */
  function Unregistered(s: State): set<nat> {
    set r | r in s.reqs && s.reqs[r].phase == Waiting
  }

  function Taken(s: State): set<nat> {
    s.active + Unregistered(s)
  }

  lemma LimitKept(s: State, a: Action)
    requires Enabled(s, a)
    ensures Next(s, a).maxRuns == s.maxRuns
  {
    hide DrainTurns, CompleteTurn, SettleTurn, Reserve;
  }

  lemma {:induction false} LimitFixed(states: seq<State>, actions: seq<Action>, now: int, maxRuns: nat, i: nat)
    requires Runs(states, actions, now, maxRuns) && i < |states|
    ensures states[i].maxRuns == maxRuns
  {
    hide Enabled, Next;
    if i > 0 {
      LimitFixed(states, actions, now, maxRuns, i - 1);
      LimitKept(states[i - 1], actions[i - 1]);
    }
  }

  /** Nobody is admitted in when all slots are taken, and a status request, which registers at once, fills at most the last one. */
  lemma ArrivalsFindRoom(states: seq<State>, actions: seq<Action>, now: int, maxRuns: nat, i: nat)
    requires Runs(states, actions, now, maxRuns) && i < |actions| && actions[i].Arrive?
    ensures |states[i].active| < maxRuns && !states[i].closing
    ensures actions[i].endpoint == Status ==> |states[i + 1].active| <= maxRuns && actions[i].r in states[i + 1].active
    ensures actions[i].endpoint != Status ==> states[i + 1].active == states[i].active && actions[i].r in Unregistered(states[i + 1])
  {
    LimitFixed(states, actions, now, maxRuns, i);
  }

  lemma OneMore(a: set<nat>, b: set<nat>, r: nat)
    requires a <= b + {r}
    ensures |a| <= |b| + 1
  {
    SubsetFits(a, b + {r});
  }

  lemma OwnSlots(s: State, r: nat)
    requires r in s.reqs
    ensures Finish(s, r).active <= s.active && Retain(s, r).active == s.active && SettledExec(s, r).active <= s.active
    ensures AbortRequest(s, r).active == s.active && AbortProvider(s, r).active == s.active
  {
    hide DrainTurns, CompleteTurn, SettleTurn;
  }

  lemma EndingSlots(s: State, a: Action)
    requires Enabled(s, a) && Ending(a)
    ensures Next(s, a).active <= s.active
  {
    hide Finish, Retain;
    match a
    case CallFailed(r, _) =>
      OwnSlots(s, r);
      OwnSlots(s.(reqs := s.reqs[r := s.reqs[r].(phase := DrainWait)]), r);
    case Fail(r) => OwnSlots(s, r);
    case Reply(r) => OwnSlots(s.(reqs := s.reqs[r := s.reqs[r].(repliedAt := Some(s.now))]), r);
  }

  /** A step of one request, its arrival apart, takes no slot. */
  lemma SubjectSlots(s: State, a: Action)
    requires Enabled(s, a) && Subject(a).Some? && !a.Arrive?
    ensures Next(s, a).active <= s.active
  {
    if Ending(a) {
      hide Enabled, Next;
      EndingSlots(s, a);
    } else {
      OwnSlots(s, Subject(a).value);
      hide Finish, Retain, AbortRequest, AbortProvider, SettledExec;
    }
  }

  lemma SubjectTakes(s: State, a: Action)
    requires Inv(s) && Enabled(s, a) && Subject(a).Some? && !a.Arrive?
    ensures Next(s, a).active <= s.active && Unregistered(Next(s, a)) <= Unregistered(s)
  {
    var r := Subject(a).value;
    StepTouches(s, a);
    SubjectSlots(s, a);
    hide Inv, Enabled, Next;
    forall x | x in Unregistered(Next(s, a))
      ensures x in Unregistered(s)
    {
      if x == r && !(r in s.reqs && s.reqs[r].phase == Waiting) {
        SubjectKnown(s, a);
        OwnStepLeavesWaiting(s, a, r);
      }
    }
  }

  lemma SubjectKnown(s: State, a: Action)
    requires Enabled(s, a) && Subject(a).Some? && !a.Arrive?
    ensures Subject(a).value in s.reqs
  {
  }

  lemma OtherTakes(s: State, a: Action)
    requires Enabled(s, a) && Subject(a).None?
    ensures Unregistered(Next(s, a)) <= Unregistered(s)
    ensures Next(s, a).active <= s.active + if a.ReadBody? then Unregistered(s) else {}
  {
    hide DrainTurns, Reserve;
  }

  lemma ArrivalTakes(s: State, a: Action)
    requires Enabled(s, a) && a.Arrive?
    ensures Taken(Next(s, a)) <= Taken(s) + {a.r}
    ensures a.endpoint == Status ==> Unregistered(Next(s, a)) <= Unregistered(s)
  {
  }

  /** Only an arrival takes something that was not taken before, and only its own place. */
  lemma TakenStep(s: State, a: Action)
    requires Inv(s) && Enabled(s, a)
    ensures Taken(Next(s, a)) <= Taken(s) + if a.Arrive? then {a.r} else {}
    ensures (a.Arrive? ==> a.endpoint == Status) ==> Unregistered(Next(s, a)) <= Unregistered(s)
  {
    hide Inv, Enabled, Next, Unregistered;
    if a.Arrive? {
      ArrivalTakes(s, a);
    } else if Subject(a).Some? {
      SubjectTakes(s, a);
    } else {
      OtherTakes(s, a);
    }
  }

  /** If every arrival finds room among requests that are registered or still to register, no state exceeds the limit. */
  lemma {:induction false} SlotsCounted(states: seq<State>, actions: seq<Action>, now: int, maxRuns: nat, i: nat)
    requires Runs(states, actions, now, maxRuns) && i < |states|
    requires forall k | 0 <= k < |actions| && actions[k].Arrive? :: |Taken(states[k])| < maxRuns
    ensures |Taken(states[i])| <= maxRuns && |states[i].active| <= maxRuns
  {
    hide Enabled, Next, Taken, Inv;
    if i == 0 {
      NothingTaken(now, maxRuns);
    } else {
      SlotsCounted(states, actions, now, maxRuns, i - 1);
      RunInv(states, actions, now, maxRuns, i - 1);
      TakenStep(states[i - 1], actions[i - 1]);
      if actions[i - 1].Arrive? {
        OneMore(Taken(states[i]), Taken(states[i - 1]), actions[i - 1].r);
      } else {
        SubsetFits(Taken(states[i]), Taken(states[i - 1]));
      }
    }
    ActiveTaken(states[i]);
    SubsetFits(states[i].active, Taken(states[i]));
  }

  lemma NothingTaken(now: int, maxRuns: nat)
    ensures Taken(Init(now, maxRuns)) == {} && Unregistered(Init(now, maxRuns)) == {}
  {
  }

  lemma ActiveTaken(s: State)
    ensures s.active <= Taken(s)
  {
  }

  lemma {:induction false} NobodyWaits(states: seq<State>, actions: seq<Action>, now: int, maxRuns: nat, i: nat)
    requires Runs(states, actions, now, maxRuns) && i < |states|
    requires forall k | 0 <= k < |actions| && actions[k].Arrive? :: actions[k].endpoint == Status
    ensures Unregistered(states[i]) == {}
  {
    hide Enabled, Next, Inv, Unregistered;
    if i > 0 {
      NobodyWaits(states, actions, now, maxRuns, i - 1);
      RunInv(states, actions, now, maxRuns, i - 1);
      TakenStep(states[i - 1], actions[i - 1]);
    } else {
      NothingTaken(now, maxRuns);
    }
  }

  /** Status requests alone never exceed the limit. */
  lemma StatusWithinLimit(states: seq<State>, actions: seq<Action>, now: int, maxRuns: nat, i: nat)
    requires Runs(states, actions, now, maxRuns) && i < |states|
    requires forall k | 0 <= k < |actions| && actions[k].Arrive? :: actions[k].endpoint == Status
    ensures |states[i].active| <= maxRuns
  {
    hide Enabled, Next, Unregistered;
    forall k | 0 <= k < |actions| && actions[k].Arrive?
      ensures |Taken(states[k])| < maxRuns
    {
      NobodyWaits(states, actions, now, maxRuns, k);
      ArrivalsFindRoom(states, actions, now, maxRuns, k);
      assert Taken(states[k]) == states[k].active;
    }
    SlotsCounted(states, actions, now, maxRuns, i);
  }

  // ---- Posts are not bounded -------------------------------------------------------------------------

  /** A search that was admitted in at time 0, before or after its body was read. */
  function Searcher(started: bool): Request {
    var waiting := Request(Search, Waiting, 0, 0, OPENCLAW_STATUS_TIMEOUT_MS, false, false, None, None, NotStarted, None, None);
    if started then waiting.(phase := Preflight, timeoutMs := MIN_MODEL_TIMEOUT_MS, deadline := MIN_MODEL_TIMEOUT_MS) else waiting
  }

  /** Searches 0 .. admitted have been admitted in, searches 0 .. read have read their bodies. */
  function Searches(admitted: nat, read: nat, maxRuns: nat): State
    requires read <= admitted
  {
    Init(0, maxRuns).(reqs := map r | r in Naturals(admitted) :: Searcher(r < read), active := Naturals(read))
  }

  lemma SearchArrives(admitted: nat, maxRuns: nat)
    requires maxRuns > 0
    ensures Enabled(Searches(admitted, 0, maxRuns), Arrive(admitted, Search))
    ensures Next(Searches(admitted, 0, maxRuns), Arrive(admitted, Search)) == Searches(admitted + 1, 0, maxRuns)
  {
    assert Searches(admitted, 0, maxRuns).active == {};
    assert Next(Searches(admitted, 0, maxRuns), Arrive(admitted, Search)).reqs == Searches(admitted + 1, 0, maxRuns).reqs;
  }

  lemma SearchRead(s: State, r: nat)
    requires InPhase(s, r, Waiting) && s.reqs[r].endpoint == Search
    ensures Enabled(s, ReadBody(r, MIN_MODEL_TIMEOUT_MS, true, None))
    ensures Next(s, ReadBody(r, MIN_MODEL_TIMEOUT_MS, true, None)) ==
            s.(reqs := s.reqs[r := s.reqs[r].(phase := Preflight, startedAt := s.now, timeoutMs := MIN_MODEL_TIMEOUT_MS,
                                              deadline := s.now + MIN_MODEL_TIMEOUT_MS)],
               active := s.active + {r})
  {
    hide DrainTurns, Reserve, Finish, Retain, SettledExec, AbortRequest, AbortProvider, AbortAll;
  }

  lemma SearchersGrow(admitted: nat, read: nat)
    requires read < admitted
    ensures (map r | r in Naturals(admitted) :: Searcher(r < read))[read := Searcher(true)]
         == map r | r in Naturals(admitted) :: Searcher(r < read + 1)
    ensures Naturals(read) + {read} == Naturals(read + 1)
  {
    hide Searcher, Naturals;
    var m := (map r | r in Naturals(admitted) :: Searcher(r < read))[read := Searcher(true)];
    var n := map r | r in Naturals(admitted) :: Searcher(r < read + 1);
    assert m.Keys == Naturals(admitted) && n.Keys == Naturals(admitted);
    forall r | r in m
      ensures m[r] == n[r]
    {
      assert r == read || r < read <==> r < read + 1;
    }
  }

  lemma SearchReads(admitted: nat, read: nat, maxRuns: nat)
    requires read < admitted
    ensures Enabled(Searches(admitted, read, maxRuns), ReadBody(read, MIN_MODEL_TIMEOUT_MS, true, None))
    ensures Next(Searches(admitted, read, maxRuns), ReadBody(read, MIN_MODEL_TIMEOUT_MS, true, None)) == Searches(admitted, read + 1, maxRuns)
  {
    var s := Searches(admitted, read, maxRuns);
    SearchRead(s, read);
    assert Searcher(true) ==
           Searcher(false).(phase := Preflight, startedAt := 0, timeoutMs := MIN_MODEL_TIMEOUT_MS, deadline := MIN_MODEL_TIMEOUT_MS);
    hide Enabled, Next;
    SearchersGrow(admitted, read);
    hide Searcher, Naturals;
  }

  function PostState(n: nat, maxRuns: nat, i: nat): State {
    if i <= n then Searches(i, 0, maxRuns) else if i <= 2 * n then Searches(n, i - n, maxRuns) else Searches(n, n, maxRuns)
  }

  function PostAction(n: nat, i: nat): Action {
    if i < n then Arrive(i, Search) else ReadBody(i - n, MIN_MODEL_TIMEOUT_MS, true, None)
  }

  lemma PostStep(n: nat, maxRuns: nat, i: nat)
    requires maxRuns > 0 && i < 2 * n
    ensures Enabled(PostState(n, maxRuns, i), PostAction(n, i))
    ensures PostState(n, maxRuns, i + 1) == Next(PostState(n, maxRuns, i), PostAction(n, i))
  {
    hide Enabled, Next, Searches;
    if i < n { SearchArrives(i, maxRuns); } else { SearchReads(n, i - n, maxRuns); }
  }

  lemma PostEnds(n: nat, maxRuns: nat)
    ensures PostState(n, maxRuns, 0) == Init(0, maxRuns) && PostState(n, maxRuns, 2 * n).active == Naturals(n)
  {
  }

  /** Posts register only after their body has been read, so whatever the limit, any number of them can hold slots at once. */
  lemma PostsExceed(n: nat, maxRuns: nat) returns (states: seq<State>, actions: seq<Action>)
    requires maxRuns > 0
    ensures Runs(states, actions, 0, maxRuns) && |states[|states| - 1].active| == n
  {
    hide Enabled, Next, PostState, PostAction;
    states := seq(2 * n + 1, i requires 0 <= i < 2 * n + 1 => PostState(n, maxRuns, i));
    actions := seq(2 * n, i requires 0 <= i < 2 * n => PostAction(n, i));
    forall i | 0 <= i < 2 * n
      ensures Enabled(states[i], actions[i]) && states[i + 1] == Next(states[i], actions[i])
    {
      PostStep(n, maxRuns, i);
    }
    PostEnds(n, maxRuns);
  }

  // ---- Time allowances ---------------------------------------------------------------------------------

  /** A body may ask for 1 s up to 150 s for a model turn and up to 300 s for a search, and for nothing else. */
  lemma AllowancesRead(s: State, r: nat, timeoutMs: int, key: Option<(string, string)>)
    requires InPhase(s, r, Waiting) && s.reqs[r].endpoint != Status
    ensures Enabled(s, ReadBody(r, timeoutMs, true, key)) <==>
              1_000 <= timeoutMs <= if s.reqs[r].endpoint == Model then 150_000 else 300_000
  {
  }

  /** When the request as a whole is out of time: before the provider is called, while it is, or without one. */
  ghost predicate OutOfTime(now: int, q: Request) {
    match q.endpoint
    case Search => now >= q.startedAt + q.timeoutMs
    case Status => now >= q.startedAt + 150_000
    case Model =>
      if q.phase == Preflight || q.phase == Queued then now + q.timeoutMs + 30_000 >= q.startedAt + 300_000
      else now >= q.startedAt + 300_000
  }

  /** Over every run the timers of a request that is being served may fire exactly when their time is up. */
  lemma TimersExact(states: seq<State>, actions: seq<Action>, now: int, maxRuns: nat, i: nat, r: nat)
    requires Runs(states, actions, now, maxRuns) && i < |states| && r in states[i].reqs
    ensures var s, q := states[i], states[i].reqs[r];
            && (Enabled(s, RequestTimer(r)) <==> q.phase != Waiting && q.phase != Ended && OutOfTime(s.now, q))
            && (Enabled(s, ProviderTimer(r)) <==>
                  && (q.phase == Calling || q.phase == DrainWait)
                  && q.dispatchedAt.Some? && s.now >= q.dispatchedAt.value + q.timeoutMs)
  {
    RunInv(states, actions, now, maxRuns, i);
    assert ReqOk(states[i], r);
    hide Inv, SlotOk;
  }

  predicate Aborted(q: Request) {
    q.aborted || q.providerAborted
  }

  /**
   * Over every run a success leaves exactly while nobody has aborted the request, its time is not up and
   * its work is done: the stages after the provider for a model turn, no dependency for a status report.
   */
  lemma RepliesExact(states: seq<State>, actions: seq<Action>, now: int, maxRuns: nat, i: nat, r: nat)
    requires Runs(states, actions, now, maxRuns) && i < |states| && r in states[i].reqs
    ensures var s, q := states[i], states[i].reqs[r];
            Enabled(s, Reply(r)) <==>
              && !Aborted(q) && !OutOfTime(s.now, q)
              && match q.endpoint
                 case Model => q.phase == Postflight && q.exec == Settled
                 case Search => q.phase == Preflight
                 case Status => q.phase == Preflight && q.exec != Running
  {
    RunInv(states, actions, now, maxRuns, i);
    assert ReqOk(states[i], r);
    hide Inv, SlotOk;
  }

  /**
   * Over every run a call ends well exactly when the provider has answered an unaborted request within its
   * allowance; it fails otherwise once the provider has answered, or into the bounded drain once it is aborted.
   */
  lemma CallsExact(states: seq<State>, actions: seq<Action>, now: int, maxRuns: nat, i: nat, r: nat)
    requires Runs(states, actions, now, maxRuns) && i < |states| && r in states[i].reqs
    ensures var s, q := states[i], states[i].reqs[r];
            && (Enabled(s, CallDone(r)) <==>
                  && q.phase == Calling && q.exec == Settled && !Aborted(q)
                  && q.dispatchedAt.Some? && s.now < q.dispatchedAt.value + q.timeoutMs)
            && (Enabled(s, CallFailed(r, false)) <==> q.phase == Calling && q.exec == Settled)
            && (Enabled(s, CallFailed(r, true)) <==> q.phase == Calling && Aborted(q))
  {
    RunInv(states, actions, now, maxRuns, i);
    assert ReqOk(states[i], r);
    hide Inv, SlotOk;
  }

  /** Over every run a queued turn fails exactly when it is aborted, too late, or behind aborted work that has not settled. */
  lemma QueuedFails(states: seq<State>, actions: seq<Action>, now: int, maxRuns: nat, i: nat, r: nat)
    requires Runs(states, actions, now, maxRuns) && i < |states| && r in states[i].reqs && states[i].reqs[r].phase == Queued
    ensures var s, q := states[i], states[i].reqs[r];
            Enabled(s, Fail(r)) <==>
              Aborted(q) || s.now + q.timeoutMs + 30_000 >= q.startedAt + 300_000 || exists x :: Orphaned(s, x)
  {
    DispatchExclusion(states, actions, now, maxRuns, i, r);
    assert Enabled(states[i], Fail(r)) <==> !Enabled(states[i], Dispatch(r));
    hide Enabled, Orphaned, IsRun;
  }

  // ---- Tombstones last ---------------------------------------------------------------------------------

  /** In state s, request `owner` still has a record that is no tombstone. */
  ghost predicate LiveRecord(s: State, owner: nat) {
    exists u :: u in s.turns && u.owner == owner && u.state != Terminal
  }

  lemma CompletedStamp(turns: seq<Turn>, owner: nat, now: int, t: Turn)
    requires t.state == Terminal && (t in CompleteTurn(turns, owner, now) || t in SettleTurn(turns, owner, now))
    ensures t in turns || (t.expiresAt == Some(now + 600_000) && exists u :: u in turns && u.owner == t.owner && u.state != Terminal)
  {
    if t in CompleteTurn(turns, owner, now) {
      var i :| 0 <= i < |turns| && CompleteTurn(turns, owner, now)[i] == t;
      assert turns[i] in turns;
    } else {
      var i :| 0 <= i < |turns| && SettleTurn(turns, owner, now)[i] == t;
      assert turns[i] in turns;
    }
  }

  lemma DrainedIsOld(turns: seq<Turn>, owners: set<nat>, t: Turn)
    requires t.state == Terminal && t in DrainTurns(turns, owners)
    ensures t in turns
  {
    var i :| 0 <= i < |turns| && DrainTurns(turns, owners)[i] == t;
  }

  lemma FinishStamp(s: State, r: nat, t: Turn)
    requires r in s.reqs && t.state == Terminal
    ensures t in Retain(s, r).turns ==> t in s.turns
    ensures t in Finish(s, r).turns ==> t in s.turns || (t.expiresAt == Some(s.now + 600_000) && LiveRecord(s, t.owner))
    ensures t in SettledExec(s, r).turns ==> t in s.turns || (t.expiresAt == Some(s.now + 600_000) && LiveRecord(s, t.owner))
    ensures t in AbortRequest(s, r).turns || t in AbortProvider(s, r).turns ==> t in s.turns
  {
    if t in DrainTurns(s.turns, {r}) { DrainedIsOld(s.turns, {r}, t); }
    if t in CompleteTurn(s.turns, r, s.now) || t in SettleTurn(s.turns, r, s.now) { CompletedStamp(s.turns, r, s.now, t); }
    hide DrainTurns, CompleteTurn, SettleTurn;
  }

  lemma EndingStamp(s: State, a: Action, t: Turn)
    requires Enabled(s, a) && Ending(a) && t in Next(s, a).turns && t.state == Terminal
    ensures t in s.turns || (t.expiresAt == Some(s.now + 600_000) && LiveRecord(s, t.owner))
  {
    hide Finish, Retain;
    match a
    case CallFailed(r, _) =>
      FinishStamp(s, r, t);
      FinishStamp(s.(reqs := s.reqs[r := s.reqs[r].(phase := DrainWait)]), r, t);
    case Fail(r) => FinishStamp(s, r, t);
    case Reply(r) => FinishStamp(s.(reqs := s.reqs[r := s.reqs[r].(repliedAt := Some(s.now))]), r, t);
  }

  lemma BodyStamp(s: State, a: Action, t: Turn)
    requires Inv(s) && Enabled(s, a) && a.ReadBody? && t in Next(s, a).turns && t.state == Terminal
    ensures t in s.turns
  {
    NotYetOwner(s, a.r);
    if a.key.Some? {
      ReserveKeeps(s.turns, a.r, a.key.value.0, a.key.value.1, s.now);
      if t.owner == a.r && Reserve(s.turns, a.r, a.key.value.0, a.key.value.1, s.now).refusal.None? {
        OnlyRecord(Reserve(s.turns, a.r, a.key.value.0, a.key.value.1, s.now).turns, Turn(a.r, a.key.value.0, a.key.value.1, Active, None));
      }
    }
    hide Reserve, Inv;
  }

  /** A tombstone is old, or it is stamped with the time of the step that made it. */
  lemma StampStep(s: State, a: Action, t: Turn)
    requires Inv(s) && Enabled(s, a) && t in Next(s, a).turns && t.state == Terminal
    ensures t in s.turns || (t.expiresAt == Some(s.now + 600_000) && LiveRecord(s, t.owner))
  {
    if Ending(a) {
      hide Inv, Enabled, Next, LiveRecord;
      EndingStamp(s, a, t);
    } else if a.ReadBody? {
      hide Inv, Enabled, Next, LiveRecord;
      BodyStamp(s, a, t);
    } else if a.CloseStart? {
      hide Inv, LiveRecord;
      ClosingStamp(s, t);
    } else if Subject(a).Some? && !a.Arrive? {
      FinishStamp(s, Subject(a).value, t);
      hide Inv, Finish, Retain, AbortRequest, AbortProvider, SettledExec, LiveRecord;
    }
  }

  lemma ClosingStamp(s: State, t: Turn)
    requires t in AbortAll(s).turns && t.state == Terminal
    ensures t in s.turns
  {
    var drained := set r | r in s.reqs && r in s.active && Listening(s.reqs[r]) && !Signalled(s.reqs[r]) && s.reqs[r].exec == Running;
    assert AbortAll(s).turns == DrainTurns(s.turns, drained);
    DrainedIsOld(s.turns, drained, t);
  }

  /** Every tombstone was made at some earlier state, of a live record of its request, to expire ten minutes later. */
  lemma {:induction false} TombstoneStamped(states: seq<State>, actions: seq<Action>, now: int, maxRuns: nat, i: nat, t: Turn)
    returns (m: nat)
    requires Runs(states, actions, now, maxRuns) && i < |states| && t in states[i].turns && t.state == Terminal
    ensures m < i && t.expiresAt == Some(states[m].now + 600_000) && LiveRecord(states[m], t.owner)
  {
    hide Enabled, Next, Inv, LiveRecord;
    RunInv(states, actions, now, maxRuns, i - 1);
    StampStep(states[i - 1], actions[i - 1], t);
    if t in states[i - 1].turns {
      m := TombstoneStamped(states, actions, now, maxRuns, i - 1, t);
    } else {
      m := i - 1;
    }
  }

  lemma {:induction false} PastStays(states: seq<State>, actions: seq<Action>, now: int, maxRuns: nat, m: nat, i: nat, r: nat)
    requires Runs(states, actions, now, maxRuns) && m <= i < |states| && r in states[m].reqs && states[m].reqs[r].phase != Waiting
    ensures r in states[i].reqs && states[i].reqs[r].phase != Waiting
    decreases i - m
  {
    hide Enabled, Next, Inv;
    if m < i {
      PastStays(states, actions, now, maxRuns, m, i - 1, r);
      RunInv(states, actions, now, maxRuns, i - 1);
      WaitingOver(states[i - 1], actions[i - 1], r);
    }
  }

  lemma LiveIsPast(s: State, r: nat)
    requires Inv(s) && LiveRecord(s, r)
    ensures r in s.reqs && s.reqs[r].phase != Waiting
  {
    var u :| u in s.turns && u.owner == r && u.state != Terminal;
    assert TurnOk(s, u) && ReqOk(s, r);
  }

  lemma ReservedWaits(s: State, a: Action, r: nat, turnId: string)
    requires Reserves(s, a, r, turnId)
    ensures r in s.reqs && s.reqs[r].phase == Waiting
  {
  }

  lemma LeavesBy(s: State, a: Action, t: Turn)
    requires MayLeave(s, a, t)
    ensures t.state == Terminal && (|s.turns| >= 256 || (t.expiresAt.Some? && t.expiresAt.value <= s.now))
  {
  }

  /**
   * A turn id is taken again only after its first turn's work was over for ten minutes, or once the
   * registry holds 256 records.
   */
  lemma ReuseWaits(states: seq<State>, actions: seq<Action>, now: int, maxRuns: nat, i: nat, j: nat, r: nat, x: nat, turnId: string)
    returns (m: nat, k: nat)
    requires Runs(states, actions, now, maxRuns) && i < j < |actions|
    requires Reserves(states[i], actions[i], r, turnId) && Reserves(states[j], actions[j], x, turnId)
    ensures i < m < k <= j && LiveRecord(states[m], r)
    ensures states[k].now >= states[m].now + 600_000 || |states[k].turns| >= 256
  {
    hide Inv, Next, Enabled, MayLeave, Reserves, LiveRecord;
    ReservationsApart(states, actions, now, maxRuns, i, j, r, x, turnId);
    var t;
    k, t :| i < k <= j && t in states[k].turns && t.owner == r && t.turnId == turnId && MayLeave(states[k], actions[k], t);
    LeavesBy(states[k], actions[k], t);
    m := TombstoneStamped(states, actions, now, maxRuns, k, t);
    ReservedWaits(states[i], actions[i], r, turnId);
    if m <= i {
      RunInv(states, actions, now, maxRuns, m);
      LiveIsPast(states[m], r);
      PastStays(states, actions, now, maxRuns, m, i, r);
    }
  }
}
