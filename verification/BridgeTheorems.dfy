/** What holds over every interleaving of the bridge, from an empty bridge on. */
module BridgeTheorems {
  import opened Wrappers
  import opened TurnRegistry
  import opened BridgeProtocol
  import opened BridgeSafety

  ghost predicate Runs(states: seq<State>, actions: seq<Action>, now: int, maxRuns: nat) {
    IsRun(states, actions) && states[0] == Init(now, maxRuns)
  }

  lemma RunInv(states: seq<State>, actions: seq<Action>, now: int, maxRuns: nat, i: nat)
    requires Runs(states, actions, now, maxRuns) && i < |states|
    ensures Inv(states[i])
  {
    InitInv(now, maxRuns);
    RunsAreSafe(states, actions, i);
  }

  // ---- Dispatch exclusion ----------------------------------------------------------------------

  /** Provider work of request x was told to stop and has not settled. */
  predicate Orphaned(s: State, x: nat) {
    x in s.reqs && s.reqs[x].endpoint == Model && s.reqs[x].exec == Running && Signalled(s.reqs[x])
  }

  lemma DrainingIsOrphaned(s: State, r: nat, x: nat)
    requires Inv(s) && r in s.reqs && InFlight(s.reqs[r])
    ensures x in s.drainingModel <==> Orphaned(s, x)
  {
    assert ReqOk(s, r);
    if x in s.reqs { assert ReqOk(s, x); }
  }

  lemma QueuedDeadline(s: State, r: nat)
    requires Inv(s) && InPhase(s, r, Queued)
    ensures s.reqs[r].deadline == s.reqs[r].startedAt + 270_000 - s.reqs[r].timeoutMs
  {
    assert ReqOk(s, r);
  }

  /**
   * A queued turn is dispatched exactly when nobody has aborted it, its allowance and the postflight
   * reserve still fit in its envelope, and no aborted provider execution is unsettled.
   */
  lemma DispatchExclusion(states: seq<State>, actions: seq<Action>, now: int, maxRuns: nat, i: nat, r: nat)
    requires Runs(states, actions, now, maxRuns) && i < |states|
    ensures Enabled(states[i], Dispatch(r)) <==>
              && r in states[i].reqs
              && (var q := states[i].reqs[r];
                  && q.phase == Queued && !q.aborted && !q.providerAborted
                  && states[i].now + q.timeoutMs + 30_000 < q.startedAt + 300_000)
              && forall x :: !Orphaned(states[i], x)
  {
    hide Inv, Orphaned;
    var s := states[i];
    RunInv(states, actions, now, maxRuns, i);
    if InPhase(s, r, Queued) {
      QueuedDeadline(s, r);
      forall x
        ensures x in s.drainingModel <==> Orphaned(s, x)
      {
        DrainingIsOrphaned(s, r, x);
      }
      if s.drainingModel != {} {
        var x :| x in s.drainingModel;
        assert Orphaned(s, x);
      }
    }
  }

  // ---- Slots -------------------------------------------------------------------------------------

  predicate Draining(s: State, r: nat) {
    r in s.drainingModel || r in s.drainingStatus
  }

  /** A step leaves every other request as it is, but for the abort when the bridge closes. */
  lemma OthersKept(s: State, a: Action, r: nat)
    requires Inv(s) && Enabled(s, a) && r in s.reqs && Subject(a) != Some(r) && (a.ReadBody? ==> a.r != r)
    ensures r in Next(s, a).reqs
    ensures a != CloseStart ==> Next(s, a).reqs[r] == s.reqs[r]
    ensures a == CloseStart ==> Next(s, a).reqs[r].phase == s.reqs[r].phase
    ensures Draining(s, r) && a != CloseFinish ==> Draining(Next(s, a), r)
  {
    hide Inv, Retain, Finish, SettledExec, AbortRequest, AbortProvider, Reserve;
    if Subject(a).Some? {
      StepTouches(s, a);
      OffSet(s.drainingModel, Next(s, a).drainingModel, Subject(a).value, r);
      OffSet(s.drainingStatus, Next(s, a).drainingStatus, Subject(a).value, r);
    }
  }

  lemma DrainingStep(s: State, a: Action, r: nat)
    requires Inv(s) && Enabled(s, a) && Draining(s, r) && a != Settle(r) && a != CloseFinish
    ensures Draining(Next(s, a), r)
  {
    hide DrainTurns, CompleteTurn, Reserve;
    assert ReqOk(s, r);
    if Subject(a) != Some(r) && (a.ReadBody? ==> a.r != r) {
      OthersKept(s, a, r);
    } else {
      hide TimeOk, KeyedOk, TurnOk, RegistryOk;
    }
  }

  lemma DrainingHasSlot(s: State, r: nat)
    requires Inv(s) && Draining(s, r)
    ensures r in s.active && r in s.reqs && s.reqs[r].exec == Running
  {
    assert ReqOk(s, r);
  }

  /** Work that drains holds its concurrency slot in every later state until it settles or the bridge is closed. */
  lemma {:induction false} DrainingHoldsSlot(states: seq<State>, actions: seq<Action>, now: int, maxRuns: nat, i: nat, j: nat, r: nat)
    requires Runs(states, actions, now, maxRuns) && i <= j < |states| && Draining(states[i], r)
    requires forall k | i <= k < j :: actions[k] != Settle(r) && actions[k] != CloseFinish
    ensures Draining(states[j], r) && r in states[j].active && r in states[j].reqs && states[j].reqs[r].exec == Running
    decreases j - i
  {
    hide Inv, Next, Enabled;
    if i < j {
      DrainingHoldsSlot(states, actions, now, maxRuns, i, j - 1, r);
      RunInv(states, actions, now, maxRuns, j - 1);
      DrainingStep(states[j - 1], actions[j - 1], r);
    }
    RunInv(states, actions, now, maxRuns, j);
    DrainingHasSlot(states[j], r);
  }

  /** Aborted provider work is in the draining set from the very step that aborts it. */
  lemma OrphansDrain(states: seq<State>, actions: seq<Action>, now: int, maxRuns: nat, i: nat, r: nat)
    requires Runs(states, actions, now, maxRuns) && i < |states| && Orphaned(states[i], r) && !states[i].retired
    ensures r in states[i].drainingModel && r in states[i].active
  {
    RunInv(states, actions, now, maxRuns, i);
    assert ReqOk(states[i], r);
  }

  /** No slot leaks: with every request over and every execution settled, none is taken. */
  lemma NoSlotRemains(states: seq<State>, actions: seq<Action>, now: int, maxRuns: nat, i: nat)
    requires Runs(states, actions, now, maxRuns) && i < |states|
    requires forall r | r in states[i].reqs :: states[i].reqs[r].phase == Ended && states[i].reqs[r].exec != Running
    ensures states[i].active == {} && states[i].drainingModel == {} && states[i].drainingStatus == {}
  {
    var s := states[i];
    RunInv(states, actions, now, maxRuns, i);
    forall r
      ensures r !in s.active && r !in s.drainingModel && r !in s.drainingStatus
    {
      if r in s.reqs { assert ReqOk(s, r); }
    }
  }

  // ---- The turn registry -------------------------------------------------------------------------

  /** The registry never outgrows its limit and holds one record per turn id. */
  lemma RegistryBounded(states: seq<State>, actions: seq<Action>, now: int, maxRuns: nat, i: nat)
    requires Runs(states, actions, now, maxRuns) && i < |states|
    ensures |states[i].turns| <= 256 && DistinctTurns(states[i].turns)
  {
    RunInv(states, actions, now, maxRuns, i);
  }

  /** What a tombstone needs to go: it has expired, or the registry is full. */
  ghost predicate MayLeave(s: State, a: Action, t: Turn) {
    a.ReadBody? && t.state == Terminal && (Expired(t, s.now) || |s.turns| >= MAX_MODEL_TURN_RECORDS)
  }

  lemma RelabelAdvances(before: seq<Turn>, after: seq<Turn>, t: Turn)
    requires Relabels(before, after) && t in before
    ensures exists u :: u in after && Advances(t, u)
  {
    var i :| 0 <= i < |before| && before[i] == t;
    assert after[i] in after && Advances(t, after[i]);
  }

  /** The fate of a record in one step: it stays or advances, or it goes as a tombstone. */
  lemma TurnStep(s: State, a: Action, t: Turn)
    requires Inv(s) && Enabled(s, a) && t in s.turns
    ensures (exists u :: u in Next(s, a).turns && Advances(t, u)) || MayLeave(s, a, t)
  {
    hide TurnOk, ReqOk, KeyedOk, Retain, Finish, SettledExec, AbortRequest, AbortProvider, RegistryOk, Expired;
    if Subject(a).Some? {
      StepTouches(s, a);
      RelabelAdvances(s.turns, Next(s, a).turns, t);
    } else if a.CloseStart? {
      CloseRelabels(s);
      RelabelAdvances(s.turns, Next(s, a).turns, t);
    } else if a.ReadBody? {
      BodyTurns(s, a, t);
    } else {
      assert t in Next(s, a).turns && Advances(t, t);
    }
  }

  lemma BodyTurns(s: State, a: Action, t: Turn)
    requires Inv(s) && Enabled(s, a) && t in s.turns && a.ReadBody?
    ensures (t in Next(s, a).turns && Advances(t, t)) || MayLeave(s, a, t)
  {
    hide TurnOk, ReqOk, KeyedOk, RegistryOk, Reserve;
    NotYetOwner(s, a.r);
    if a.key.Some? { ReserveKeeps(s.turns, a.r, a.key.value.0, a.key.value.1, s.now); }
  }

  /** A record is a tombstone only once its request is over or aborted, and its provider work is not running and never will be. */
  lemma TombstonesAreQuiet(states: seq<State>, actions: seq<Action>, now: int, maxRuns: nat, i: nat, t: Turn)
    requires Runs(states, actions, now, maxRuns) && i < |states| && t in states[i].turns && t.state == Terminal
    ensures t.owner in states[i].reqs
    ensures var q := states[i].reqs[t.owner];
            && (q.exec == Settled || (q.exec == NotStarted && q.phase == Ended))
            && (q.phase == Ended || q.aborted || q.providerAborted)
  {
    RunInv(states, actions, now, maxRuns, i);
    assert TurnOk(states[i], t);
  }

  /** No turn id ever has two unsettled provider executions. */
  lemma OneExecutionPerTurn(states: seq<State>, actions: seq<Action>, now: int, maxRuns: nat, i: nat, x: nat, y: nat)
    requires Runs(states, actions, now, maxRuns) && i < |states| && x in states[i].reqs && y in states[i].reqs
    requires states[i].reqs[x].exec == Running && states[i].reqs[y].exec == Running
    requires states[i].reqs[x].turnId.Some? && states[i].reqs[x].turnId == states[i].reqs[y].turnId
    ensures x == y
  {
    var s := states[i];
    RunInv(states, actions, now, maxRuns, i);
    assert KeyedOk(s, x) && KeyedOk(s, y);
    var k :| 0 <= k < |s.turns| && s.turns[k].owner == x;
    var l :| 0 <= l < |s.turns| && s.turns[l].owner == y;
    assert TurnOk(s, s.turns[k]) && TurnOk(s, s.turns[l]);
  }

  /** The step reserves a turn id for request r. */
  predicate Reserves(s: State, a: Action, r: nat, turnId: string) {
    && a.ReadBody? && a.r == r && a.valid && a.key.Some? && a.key.value.0 == turnId
    && InPhase(s, r, Waiting) && s.reqs[r].endpoint == Model && s.drainingModel == {}
    && Reserve(s.turns, r, turnId, a.key.value.1, s.now).refusal.None?
  }

  ghost predicate HasRecord(turns: seq<Turn>, r: nat, turnId: string) {
    exists t :: t in turns && t.owner == r && t.turnId == turnId
  }

  lemma ReservedHasRecord(s: State, a: Action, r: nat, turnId: string, x: nat)
    requires Inv(s) && Enabled(s, a) && Reserves(s, a, r, turnId)
    ensures HasRecord(Next(s, a).turns, r, turnId)
    ensures x != r ==> !HasRecord(Next(s, a).turns, x, turnId)
  {
    hide TurnOk, ReqOk, KeyedOk, RegistryOk, Reserve;
    NotYetOwner(s, r);
    ReserveKeeps(s.turns, r, turnId, a.key.value.1, s.now);
    assert Turn(r, turnId, a.key.value.1, Active, None) in Next(s, a).turns;
  }

  /** A record that is there at i and gone at j left as a tombstone in between. */
  lemma {:induction false} GoneMeansLeft(states: seq<State>, actions: seq<Action>, now: int, maxRuns: nat, i: nat, j: nat, r: nat, turnId: string)
    returns (k: nat, t: Turn)
    requires Runs(states, actions, now, maxRuns) && i <= j < |states|
    requires HasRecord(states[i].turns, r, turnId) && !HasRecord(states[j].turns, r, turnId)
    ensures i <= k < j && t in states[k].turns && t.owner == r && t.turnId == turnId && MayLeave(states[k], actions[k], t)
    decreases j - i
  {
    hide Inv, Next, Enabled, MayLeave;
    if HasRecord(states[j - 1].turns, r, turnId) {
      k := j - 1;
      t :| t in states[k].turns && t.owner == r && t.turnId == turnId;
      RunInv(states, actions, now, maxRuns, k);
      TurnStep(states[k], actions[k], t);
    } else {
      k, t := GoneMeansLeft(states, actions, now, maxRuns, i, j - 1, r, turnId);
    }
  }

  lemma PhasesAfter(s: State, r: nat)
    requires r in s.reqs
    ensures r in Finish(s, r).reqs && Finish(s, r).reqs[r].phase == Ended
    ensures Retain(s, r).reqs == s.reqs
    ensures r in AbortRequest(s, r).reqs && AbortRequest(s, r).reqs[r].phase == s.reqs[r].phase
    ensures r in AbortProvider(s, r).reqs && AbortProvider(s, r).reqs[r].phase == s.reqs[r].phase
    ensures r in SettledExec(s, r).reqs && SettledExec(s, r).reqs[r].phase == s.reqs[r].phase
  {
    hide DrainTurns, CompleteTurn, SettleTurn;
  }

  predicate Ending(a: Action) {
    a.CallFailed? || a.Fail? || a.Reply?
  }

  lemma EndingLeavesWaiting(s: State, a: Action, r: nat)
    requires Enabled(s, a) && r in s.reqs && Subject(a) == Some(r) && Ending(a)
    ensures r in Next(s, a).reqs && Next(s, a).reqs[r].phase != Waiting
  {
    hide Finish, Retain;
    match a
    case CallFailed(_, _) =>
      PhasesAfter(s, r);
      PhasesAfter(s.(reqs := s.reqs[r := s.reqs[r].(phase := DrainWait)]), r);
    case Fail(_) => PhasesAfter(s, r);
    case Reply(_) => PhasesAfter(s.(reqs := s.reqs[r := s.reqs[r].(repliedAt := Some(s.now))]), r);
  }

  lemma OwnStepLeavesWaiting(s: State, a: Action, r: nat)
    requires Enabled(s, a) && r in s.reqs && Subject(a) == Some(r) && s.reqs[r].phase != Waiting
    ensures r in Next(s, a).reqs && Next(s, a).reqs[r].phase != Waiting
  {
    if Ending(a) {
      hide Enabled, Next;
      EndingLeavesWaiting(s, a, r);
    } else {
      hide Finish, Retain, AbortRequest, AbortProvider, SettledExec;
      PhasesAfter(s, r);
    }
  }

  lemma BodyLeavesWaiting(s: State, a: Action, r: nat)
    requires Enabled(s, a) && a.ReadBody? && a.r == r
    ensures r in Next(s, a).reqs && Next(s, a).reqs[r].phase != Waiting
  {
    hide Reserve;
  }

  lemma WaitingOver(s: State, a: Action, r: nat)
    requires Inv(s) && Enabled(s, a) && r in s.reqs
    requires s.reqs[r].phase != Waiting || (a.ReadBody? && a.r == r)
    ensures r in Next(s, a).reqs && Next(s, a).reqs[r].phase != Waiting
  {
    hide Inv, Enabled, Next;
    if a.ReadBody? && a.r == r {
      BodyLeavesWaiting(s, a, r);
    } else if Subject(a) == Some(r) {
      OwnStepLeavesWaiting(s, a, r);
    } else {
      OthersKept(s, a, r);
    }
  }

  /** A request reads its body once. */
  lemma {:induction false} PastWaiting(states: seq<State>, actions: seq<Action>, now: int, maxRuns: nat, i: nat, j: nat, r: nat)
    requires Runs(states, actions, now, maxRuns) && i < j < |states| && actions[i].ReadBody? && actions[i].r == r
    ensures r in states[j].reqs && states[j].reqs[r].phase != Waiting
    decreases j - i
  {
    hide Inv, Next;
    RunInv(states, actions, now, maxRuns, j - 1);
    assert Enabled(states[j - 1], actions[j - 1]);
    if i < j - 1 {
      hide Enabled;
      PastWaiting(states, actions, now, maxRuns, i, j - 1, r);
    }
    WaitingOver(states[j - 1], actions[j - 1], r);
  }

  /**
   * A turn id is reserved twice in a run only if, in between, the first record became a
   * tombstone, whose provider work is over, and then expired or was evicted from a full registry.
   */
  lemma ReservationsApart(states: seq<State>, actions: seq<Action>, now: int, maxRuns: nat, i: nat, j: nat, r: nat, x: nat, turnId: string)
    requires Runs(states, actions, now, maxRuns) && i < j < |actions|
    requires Reserves(states[i], actions[i], r, turnId) && Reserves(states[j], actions[j], x, turnId)
    ensures r != x
    ensures exists k, t :: i < k <= j && t in states[k].turns && t.owner == r && t.turnId == turnId && MayLeave(states[k], actions[k], t)
  {
    hide Inv, Next, Enabled, MayLeave;
    PastWaiting(states, actions, now, maxRuns, i, j, r);
    assert r != x;
    hide Reserves;
    RunInv(states, actions, now, maxRuns, i);
    RunInv(states, actions, now, maxRuns, j);
    ReservedHasRecord(states[i], actions[i], r, turnId, x);
    ReservedHasRecord(states[j], actions[j], x, turnId, r);
    var k, t := GoneMeansLeft(states, actions, now, maxRuns, i + 1, j + 1, r, turnId);
    assert i < k <= j;
  }

  // ---- Deadlines -----------------------------------------------------------------------------------

  /**
   * Work is dispatched only if its whole allowance and the postflight reserve still fit in the
   * envelope; the provider deadline is that allowance after dispatch, so before 270 s; and every
   * success leaves within 300 s of its start, a search within its own allowance, a status report
   * within 150 s.
   */
  lemma DeadlinesHold(states: seq<State>, actions: seq<Action>, now: int, maxRuns: nat, i: nat, r: nat)
    requires Runs(states, actions, now, maxRuns) && i < |states| && r in states[i].reqs
    ensures var q := states[i].reqs[r];
            && (q.endpoint == Model && q.exec != NotStarted ==>
                  && q.dispatchedAt.Some? && 1_000 <= q.timeoutMs <= 150_000
                  && q.dispatchedAt.value + q.timeoutMs + 30_000 < q.startedAt + 300_000)
            && (q.phase == Calling ==>
                  q.dispatchedAt.Some? && q.providerDeadline == Some(q.dispatchedAt.value + q.timeoutMs)
                  && q.providerDeadline.value < q.startedAt + 270_000)
            && (q.repliedAt.Some? ==>
                  && q.repliedAt.value < q.startedAt + 300_000
                  && (q.endpoint == Search ==> 1_000 <= q.timeoutMs <= 300_000 && q.repliedAt.value < q.startedAt + q.timeoutMs)
                  && (q.endpoint == Status ==> q.repliedAt.value < q.startedAt + 150_000))
  {
    RunInv(states, actions, now, maxRuns, i);
    assert ReqOk(states[i], r);
  }

  lemma AbortStep(s: State, a: Action, r: nat)
    requires Inv(s) && Enabled(s, a) && r in s.reqs && r in Next(s, a).reqs
    requires s.reqs[r].endpoint == Model && s.reqs[r].exec == Running && !Signalled(s.reqs[r]) && Signalled(Next(s, a).reqs[r])
    ensures || a == Disconnect(r) || a == CloseStart
            || (s.reqs[r].dispatchedAt.Some? && s.now >= s.reqs[r].dispatchedAt.value + s.reqs[r].timeoutMs)
  {
    hide DrainTurns, CompleteTurn, SettleTurn, Reserve;
    assert ReqOk(s, r);
    if Subject(a) != Some(r) && (a.ReadBody? ==> a.r != r) {
      OthersKept(s, a, r);
    } else {
      hide Inv;
    }
  }

  /** Running work is aborted early only by its client or by the close of the bridge: no timer shortens its allowance. */
  lemma AllowanceNotShortened(states: seq<State>, actions: seq<Action>, now: int, maxRuns: nat, i: nat, r: nat)
    requires Runs(states, actions, now, maxRuns) && i < |actions| && r in states[i].reqs && r in states[i + 1].reqs
    requires states[i].reqs[r].endpoint == Model && states[i].reqs[r].exec == Running
    requires !Signalled(states[i].reqs[r]) && Signalled(states[i + 1].reqs[r])
    ensures || actions[i] == Disconnect(r) || actions[i] == CloseStart
            || (states[i].reqs[r].dispatchedAt.Some? && states[i].now >= states[i].reqs[r].dispatchedAt.value + states[i].reqs[r].timeoutMs)
  {
    hide Inv, Next, Enabled;
    RunInv(states, actions, now, maxRuns, i);
    AbortStep(states[i], actions[i], r);
  }
}
