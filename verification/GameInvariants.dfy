/** What holds of a game after every event, for every generator the rules may use. */
module GameInvariants {
  import opened Wrappers
  import opened Types
  import opened Game
  import opened Replay
  import opened Conservation

  function SideAt(index: nat): Side {
    if index % 2 == 0 then White else Black
  }

  /** Plies since the last capture. */
  function QuietSince(events: seq<GameEvent>): nat {
    if events == [] then 0
    else
      var last := events[|events| - 1];
      if last.Move? && last.capturedPieceId.Some? then 0 else QuietSince(events[..|events| - 1]) + 1
  }

  /** The captured ids that the log records, in order. */
  function CapturedIds(events: seq<GameEvent>): seq<string> {
    if events == [] then []
    else
      var last := events[|events| - 1];
      CapturedIds(events[..|events| - 1]) +
      (if last.Move? && last.capturedPieceId.Some? then [last.capturedPieceId.value] else [])
  }

  ghost predicate Pieces(rules: Rules, s: ReplayState) {
    && BoardOk(s.pieces) && OnceOnly(s.pieces)
    && (forall id, side :: Census(s.pieces, id, side) + Census(CapturedPieces(s.captures), id, side) == Census(rules.initial, id, side))
    && |s.captures| == |CapturedIds(s.events)|
    && (forall i | 0 <= i < |s.captures| :: s.captures[i].captured.id == CapturedIds(s.events)[i])
  }

  /** The side that made the last event. */
  function LastSide(s: ReplayState): Side {
    if s.events == [] then White else s.events[|s.events| - 1].side
  }

  ghost predicate Kings(s: ReplayState) {
    if s.outcome.Some? && s.outcome.value.reason == KingCaptured then
      && s.captures != []
      && (var fallen := s.captures[|s.captures| - 1];
          && s.outcome.value.terminalCapture == Some(fallen)
          && fallen.captured.kind == King && fallen.captured.side == LastSide(s).Other()
          && s.outcome.value.winner == Some(LastSide(s))
          && HasKing(s.pieces, LastSide(s)) && !HasKing(s.pieces, LastSide(s).Other()))
    else
      && HasKing(s.pieces, White) && HasKing(s.pieces, Black)
      && (s.outcome.Some? ==> s.outcome.value.terminalCapture.None? && s.outcome.value.winner.None?)
  }

  ghost predicate Numbered(events: seq<GameEvent>) {
    forall i | 0 <= i < |events| :: events[i].ply == i + 1 && events[i].side == SideAt(i)
  }

  ghost predicate NoAdjacentPasses(events: seq<GameEvent>) {
    forall i | 0 <= i < |events| - 1 :: events[i].ForcedPass? ==> events[i + 1].Move?
  }

  ghost predicate Trajectory(rules: Rules, s: ReplayState) {
    && |s.events| == s.completedPlies <= MAX_GAME_PLIES
    && s.quietPlies == QuietSince(s.events) <= MAX_QUIET_PLIES
    && Numbered(s.events)
    && NoAdjacentPasses(s.events)
    && (s.outcome.None? ==> s.turn == SideAt(s.completedPlies))
    && (s.outcome.Some? ==> s.events != [] && s.turn == LastSide(s) && s.outcome.value.completedTurn == s.completedPlies)
    && (s.events != [] && s.events[|s.events| - 1].ForcedPass? && s.outcome.None? ==> rules.hasMove(s.pieces, s.turn))
  }

  /** A state without an outcome is one that the rules do not end. */
  ghost predicate Coherent(rules: Rules, s: ReplayState) {
    s.outcome.None? ==> GetGameOutcome(rules.hasMove, s.pieces, s.quietPlies, s.completedPlies).None?
  }

  ghost predicate GameInv(rules: Rules, s: ReplayState) {
    Coherent(rules, s) && Pieces(rules, s) && Kings(s) && Trajectory(rules, s)
  }

  /**
   * What the invariants need of the board rules: a well-formed opening in which White can move,
   * and moves of pieces that are on the board which conserve the pieces.
   */
  ghost predicate Lawful(rules: Rules) {
    && BoardOk(rules.initial) && OnceOnly(rules.initial)
    && HasKing(rules.initial, White) && HasKing(rules.initial, Black)
    && rules.hasMove(rules.initial, White)
    && (forall piece, pieces, to | rules.reaches(piece, pieces, to) :: ValidCoord(piece.at))
    && (forall pieces, mover: Piece, to, parts, turn |
          BoardOk(pieces) && OnceOnly(pieces) && mover in pieces && ValidCoord(to) && rules.move(pieces, mover.id, to, parts, turn).Ok? ::
          Conserves(pieces, mover, to, rules.move(pieces, mover.id, to, parts, turn).value))
  }

  lemma InitialInv(rules: Rules)
    requires Lawful(rules)
    ensures GameInv(rules, CreateReplayState(rules)) && CreateReplayState(rules).outcome.None?
  {
    NobodyCaptured();
  }

  lemma NobodyCaptured()
    ensures CapturedPieces([]) == [] && forall id, side :: Census([], id, side) == 0
  {
  }

  lemma EventNumbered(events: seq<GameEvent>, e: GameEvent)
    requires Numbered(events) && NoAdjacentPasses(events)
    requires e.ply == |events| + 1 && e.side == SideAt(|events|)
    requires e.ForcedPass? && events != [] ==> events[|events| - 1].Move?
    ensures Numbered(events + [e]) && NoAdjacentPasses(events + [e])
  {
    var all := events + [e];
    forall i | 0 <= i < |all|
      ensures all[i].ply == i + 1 && all[i].side == SideAt(i)
    {
      assert i < |events| ==> all[i] == events[i];
    }
    forall i | 0 <= i < |all| - 1 && all[i].ForcedPass?
      ensures all[i + 1].Move?
    {
      assert all[i] == events[i];
    }
  }

  lemma EventAppended(events: seq<GameEvent>, e: GameEvent)
    ensures QuietSince(events + [e]) == if e.Move? && e.capturedPieceId.Some? then 0 else QuietSince(events) + 1
    ensures CapturedIds(events + [e]) ==
            CapturedIds(events) + (if e.Move? && e.capturedPieceId.Some? then [e.capturedPieceId.value] else [])
  {
    assert (events + [e])[..|events|] == events;
  }

  lemma PassKeepsNumbers(rules: Rules, s: ReplayState)
    requires Trajectory(rules, s) && NeedsPass(rules, s)
    ensures Numbered(s.events + [PassEvent(s)]) && NoAdjacentPasses(s.events + [PassEvent(s)])
    ensures QuietSince(s.events + [PassEvent(s)]) == QuietSince(s.events) + 1
  {
    EventNumbered(s.events, PassEvent(s));
    EventAppended(s.events, PassEvent(s));
    hide Numbered, NoAdjacentPasses, QuietSince, CapturedIds;
  }

  lemma PassKeepsTrajectory(rules: Rules, s: ReplayState)
    requires Coherent(rules, s) && Trajectory(rules, s) && NeedsPass(rules, s)
    ensures Coherent(rules, AfterPass(rules, s)) && Trajectory(rules, AfterPass(rules, s))
  {
    PassKeepsNumbers(rules, s);
    hide Numbered, NoAdjacentPasses, QuietSince, HasKing;
  }

  lemma PassKeepsPieces(rules: Rules, s: ReplayState)
    requires Pieces(rules, s) && NeedsPass(rules, s)
    ensures Pieces(rules, AfterPass(rules, s))
  {
    EventAppended(s.events, PassEvent(s));
    assert AfterPass(rules, s).events == s.events + [PassEvent(s)];
    assert AfterPass(rules, s).pieces == s.pieces && AfterPass(rules, s).captures == s.captures;
    hide CapturedIds, BoardOk, OnceOnly, Census, AfterPass, NeedsPass;
  }

  lemma PassKeepsKings(rules: Rules, s: ReplayState)
    requires Kings(s) && NeedsPass(rules, s)
    ensures Kings(AfterPass(rules, s))
  {
    hide HasKing;
  }

  lemma PassKeepsInv(rules: Rules, s: ReplayState)
    requires GameInv(rules, s) && NeedsPass(rules, s)
    ensures GameInv(rules, AfterPass(rules, s))
  {
    hide Coherent, Trajectory, Pieces, Kings, AfterPass, NeedsPass;
    PassKeepsTrajectory(rules, s);
    PassKeepsPieces(rules, s);
    PassKeepsKings(rules, s);
  }

  lemma CaptureAppended(captures: seq<CaptureRecord>, c: CaptureRecord)
    ensures forall id, side ::
              Census(CapturedPieces(captures + [c]), id, side) == Census(CapturedPieces(captures), id, side) + One(c.captured, id, side)
  {
    assert CapturedPieces(captures + [c]) == CapturedPieces(captures) + [c.captured];
    forall id, side {
      CensusAppend(CapturedPieces(captures), c.captured, id, side);
    }
  }

  lemma MoveKeepsPieces(rules: Rules, s: ReplayState, mover: Piece, to: Coord, result: MoveResult)
    requires Pieces(rules, s) && Conserves(s.pieces, mover, to, result)
    ensures Pieces(rules, StateAfterMove(rules, s, mover, to, result).state)
  {
    EventAppended(s.events, StateAfterMove(rules, s, mover, to, result).event);
    if result.capture.Some? {
      CaptureAppended(s.captures, result.capture.value);
    }
  }

  lemma MoveKeepsKings(rules: Rules, s: ReplayState, mover: Piece, to: Coord, result: MoveResult)
    requires Kings(s) && s.outcome.None? && mover.side == s.turn && Conserves(s.pieces, mover, to, result)
    ensures Kings(StateAfterMove(rules, s, mover, to, result).state)
  {
  }

  lemma MoveKeepsNumbers(rules: Rules, s: ReplayState, mover: Piece, to: Coord, result: MoveResult)
    requires Trajectory(rules, s) && s.outcome.None?
    ensures var t := StateAfterMove(rules, s, mover, to, result).state;
            && Numbered(t.events) && NoAdjacentPasses(t.events) && t.quietPlies == QuietSince(t.events)
            && t.events == s.events + [StateAfterMove(rules, s, mover, to, result).event]
            && StateAfterMove(rules, s, mover, to, result).event.side == s.turn
  {
    var a := StateAfterMove(rules, s, mover, to, result);
    EventNumbered(s.events, a.event);
    EventAppended(s.events, a.event);
  }

  lemma MoveKeepsTrajectory(rules: Rules, s: ReplayState, mover: Piece, to: Coord, result: MoveResult)
    requires Coherent(rules, s) && Trajectory(rules, s) && s.outcome.None?
    ensures Trajectory(rules, StateAfterMove(rules, s, mover, to, result).state)
    ensures Coherent(rules, StateAfterMove(rules, s, mover, to, result).state)
  {
    MoveKeepsNumbers(rules, s, mover, to, result);
    hide Numbered, NoAdjacentPasses, QuietSince;
  }

  /** A validated move keeps everything, whoever captured whom. */
  lemma MoveKeepsInv(rules: Rules, s: ReplayState, mover: Piece, to: Coord, result: MoveResult)
    requires GameInv(rules, s) && s.outcome.None? && mover.side == s.turn
    requires Conserves(s.pieces, mover, to, result)
    ensures GameInv(rules, StateAfterMove(rules, s, mover, to, result).state)
  {
    MoveKeepsPieces(rules, s, mover, to, result);
    MoveKeepsKings(rules, s, mover, to, result);
    MoveKeepsTrajectory(rules, s, mover, to, result);
  }

  /** A validated command moves a piece of the side to move, and its move conserves the pieces. */
  lemma CommandConserves(rules: Rules, s: ReplayState, cmd: MoveCommand, parts: seq<ProblemPart>, mover: Piece, to: Coord)
    requires Lawful(rules) && GameInv(rules, s) && ApplyCanonicalMove(rules, s, cmd, parts).Ok?
    requires ValidateCommand(rules, s, cmd) == Ok((mover, to))
    ensures s.outcome.None? && mover.side == s.turn
    ensures rules.move(s.pieces, mover.id, to, parts, s.completedPlies + 1).Ok?
    ensures Conserves(s.pieces, mover, to, rules.move(s.pieces, mover.id, to, parts, s.completedPlies + 1).value)
  {
    hide Coherent, Kings, Trajectory, StateAfterMove, Conserves, BoardOk, OnceOnly, HasKing;
  }

  /** Every replayed event keeps the invariant. */
  lemma StepKeepsInv(rules: Rules, s: ReplayState, e: GameEvent, parts: seq<ProblemPart>)
    requires Lawful(rules) && GameInv(rules, s) && ReplayStep(rules, s, e, parts).Ok?
    ensures GameInv(rules, ReplayStep(rules, s, e, parts).value)
  {
    if e.ForcedPass? {
      PassStep(rules, s, e, parts);
      hide *;
      PassKeepsInv(rules, s);
    } else {
      MoveStep(rules, s, e, parts);
      hide *;
      CommandKeepsInv(rules, s, CommandOf(e), parts);
    }
  }

  lemma PassStep(rules: Rules, s: ReplayState, e: GameEvent, parts: seq<ProblemPart>)
    requires ReplayStep(rules, s, e, parts).Ok? && e.ForcedPass?
    ensures NeedsPass(rules, s) && ReplayStep(rules, s, e, parts) == Ok(AfterPass(rules, s))
  {
    hide GetGameOutcome;
  }

  lemma MoveStep(rules: Rules, s: ReplayState, e: GameEvent, parts: seq<ProblemPart>)
    requires ReplayStep(rules, s, e, parts).Ok? && e.Move?
    ensures ApplyCanonicalMove(rules, s, CommandOf(e), parts).Ok?
    ensures ReplayStep(rules, s, e, parts) == Ok(ApplyCanonicalMove(rules, s, CommandOf(e), parts).value.state)
  {
    hide ApplyCanonicalMove;
  }

  /** Every accepted command keeps the invariant. */
  lemma CommandKeepsInv(rules: Rules, s: ReplayState, cmd: MoveCommand, parts: seq<ProblemPart>)
    requires Lawful(rules) && GameInv(rules, s) && ApplyCanonicalMove(rules, s, cmd, parts).Ok?
    ensures GameInv(rules, ApplyCanonicalMove(rules, s, cmd, parts).value.state)
  {
    var (mover, to) := ValidateCommand(rules, s, cmd).value;
    CommandConserves(rules, s, cmd, parts, mover, to);
    hide GameInv, Lawful, ValidateCommand, StateAfterMove, Conserves;
    MoveKeepsInv(rules, s, mover, to, rules.move(s.pieces, mover.id, to, parts, s.completedPlies + 1).value);
  }

  lemma SettlingKeepsInv(rules: Rules, s: ReplayState)
    requires GameInv(rules, s)
    ensures GameInv(rules, Settled(rules, s))
  {
    if NeedsPass(rules, s) {
      PassKeepsInv(rules, s);
      SettledIsCurrent(rules, AfterPass(rules, s));
    } else {
      SettledIsCurrent(rules, s);
    }
  }

  lemma SettledIsCurrent(rules: Rules, s: ReplayState)
    requires Coherent(rules, s)
    ensures s.(outcome := CurrentOutcome(rules, s)) == s
  {
  }

  /** The invariant holds of every state that replaying a log reaches. */
  lemma {:induction false} ReplayKeepsInv(rules: Rules, s: ReplayState, log: seq<Value>, parts: seq<ProblemPart>, index: nat)
    requires Lawful(rules) && GameInv(rules, s) && ReplayFrom(rules, s, log, parts, index).Ok?
    ensures GameInv(rules, ReplayFrom(rules, s, log, parts, index).value)
    decreases |log|
  {
    if log != [] {
      StepKeepsInv(rules, s, ParseEvent(log[0]).value, parts);
      ReplayKeepsInv(rules, ReplayValue(rules, s, log[0], parts).value, log[1..], parts, index + 1);
    }
  }

  /** Conservation, kings and trajectory of every accepted log. */
  lemma ReplayedGamesAreSound(rules: Rules, log: seq<Value>, parts: seq<ProblemPart>)
    requires Lawful(rules) && Replayed(rules, log, parts).Ok?
    ensures GameInv(rules, Replayed(rules, log, parts).value)
  {
    InitialInv(rules);
    ReplayKeepsInv(rules, CreateReplayState(rules), log, parts, 0);
  }
}
