/** The event-sourced game: accepting commands and replaying logs (src/lib/game-replay.ts). */
module Replay {
  import opened Wrappers
  import opened Types
  import opened Game
  import Text

  // ---- Untrusted values -------------------------------------------------------------------

  /** The property names that the replay reads; every other name is `Unread`. */
  datatype Name =
    | VersionKey | PlyKey | SideKey | TypeKey | ReasonKey | PieceIdKey | FromKey | ToKey
    | CapturedPieceIdKey | PromotedToKey | RingKey | SectorKey | Unread(name: string)

  /** A JavaScript value of unknown shape; `Fraction` is any number that is not an integer. */
  datatype Value =
    | Undefined
    | Null
    | Bool(b: bool)
    | Int(n: int)
    | Fraction
    | Str(s: string)
    | Arr(items: seq<Value>)
    | Obj(fields: map<Name, Value>)

  function Field(fields: map<Name, Value>, name: Name): Value {
    if name in fields then fields[name] else Undefined
  }

  /** The coordinate that a value denotes; only a record with two on-board integers does. */
  function CoordFrom(v: Value): (r: Option<Coord>)
    ensures r.Some? ==> ValidCoord(r.value)
  {
    if !v.Obj? then None
    else
      var ring, sector := Field(v.fields, RingKey), Field(v.fields, SectorKey);
      if ring.Int? && sector.Int? && ValidCoord(Coord(ring.n, sector.n)) then Some(Coord(ring.n, sector.n)) else None
  }

  /** `s.trim() === ''`. */
  predicate IsBlank(s: string) {
    forall c | c in s :: Text.Blank(c as int)
  }

  // ---- Events and states ------------------------------------------------------------------

  const GAME_EVENT_VERSION := 1

  datatype GameEvent =
    | Move(ply: int, side: Side, pieceId: string, origin: Coord, to: Coord,
           capturedPieceId: Option<string>, promoted: bool)
    | ForcedPass(ply: int, side: Side)

  datatype MoveCommand = MoveCommand(expectedPly: Value, pieceId: Value, to: Value)

  datatype LastMove = LastMove(origin: Coord, to: Coord)

  datatype ReplayState = ReplayState(
    pieces: seq<Piece>, turn: Side, completedPlies: nat, quietPlies: nat, events: seq<GameEvent>,
    captures: seq<CaptureRecord>, lastMove: Option<LastMove>, outcome: Option<Outcome>)

  datatype RuleError =
    | GameComplete
    | StalePly
    | InvalidPiece
    | InvalidCoordinate
    | WrongSide
    | IllegalCommand
    | WrongParts
    | Unexpected(cause: MoveError)

  function WithTerminalCapture(outcome: Option<Outcome>, capture: Option<CaptureRecord>): Option<Outcome> {
    if outcome.None? || capture.None? || capture.value.captured.kind != King then outcome
    else Some(outcome.value.(terminalCapture := capture))
  }

  function CurrentOutcome(rules: Rules, s: ReplayState): Option<Outcome> {
    if s.outcome.Some? then s.outcome else GetGameOutcome(rules.hasMove, s.pieces, s.quietPlies, s.completedPlies)
  }

  function CreateReplayState(rules: Rules): ReplayState {
    ReplayState(rules.initial, White, 0, 0, [], [], None, GetGameOutcome(rules.hasMove, rules.initial, 0, 0))
  }

  // ---- Accepting commands -----------------------------------------------------------------

  datatype AppliedMove = AppliedMove(state: ReplayState, event: GameEvent)

  function ValidateCommand(rules: Rules, s: ReplayState, cmd: MoveCommand): Result<(Piece, Coord), RuleError> {
    if CurrentOutcome(rules, s).Some? then Err(GameComplete)
    else if cmd.expectedPly != Int(s.completedPlies + 1) then Err(StalePly)
    else if !cmd.pieceId.Str? || IsBlank(cmd.pieceId.s) then Err(InvalidPiece)
    else if CoordFrom(cmd.to).None? then Err(InvalidCoordinate)
    else
      var to := CoordFrom(cmd.to).value;
      match FindById(s.pieces, cmd.pieceId.s)
      case None => Err(InvalidPiece)
      case Some(mover) =>
        if mover.side != s.turn then Err(WrongSide)
        else if !rules.reaches(mover, s.pieces, to) then Err(IllegalCommand)
        else Ok((mover, to))
  }

  function StateAfterMove(rules: Rules, s: ReplayState, mover: Piece, to: Coord, result: MoveResult): AppliedMove {
    var ply := s.completedPlies + 1;
    var event := Move(ply, s.turn, mover.id, mover.at, to,
                      if result.capture.Some? then Some(result.capture.value.captured.id) else None, result.promoted);
    var quiet := if result.capture.Some? then 0 else s.quietPlies + 1;
    var outcome := WithTerminalCapture(GetGameOutcome(rules.hasMove, result.pieces, quiet, ply), result.capture);
    AppliedMove(
      s.(pieces := result.pieces,
         turn := if outcome.Some? then s.turn else s.turn.Other(),
         completedPlies := ply,
         quietPlies := quiet,
         events := s.events + [event],
         captures := if result.capture.Some? then s.captures + [result.capture.value] else s.captures,
         lastMove := Some(LastMove(mover.at, to)),
         outcome := outcome),
      event)
  }

  function ApplyCanonicalMove(rules: Rules, s: ReplayState, cmd: MoveCommand, parts: seq<ProblemPart>)
    : Result<AppliedMove, RuleError>
  {
    var (mover, to) :- ValidateCommand(rules, s, cmd);
    match rules.move(s.pieces, mover.id, to, parts, s.completedPlies + 1)
    case Err(cause) => Err(Unexpected(cause))
    case Ok(result) => Ok(StateAfterMove(rules, s, mover, to, result))
  }

  predicate NeedsPass(rules: Rules, s: ReplayState) {
    CurrentOutcome(rules, s).None? && !rules.hasMove(s.pieces, s.turn)
  }

  function PassEvent(s: ReplayState): GameEvent {
    ForcedPass(s.completedPlies + 1, s.turn)
  }

  function AfterPass(rules: Rules, s: ReplayState): ReplayState {
    var outcome := GetGameOutcome(rules.hasMove, s.pieces, s.quietPlies + 1, s.completedPlies + 1);
    s.(turn := if outcome.Some? then s.turn else s.turn.Other(),
       completedPlies := s.completedPlies + 1,
       quietPlies := s.quietPlies + 1,
       events := s.events + [PassEvent(s)],
       outcome := outcome)
  }

  /** At most one pass is forced, and afterwards the outcome is recorded. */
  function Settled(rules: Rules, s: ReplayState): ReplayState {
    var t := if NeedsPass(rules, s) then AfterPass(rules, s) else s;
    t.(outcome := CurrentOutcome(rules, t))
  }

  function SettledEvents(rules: Rules, s: ReplayState): seq<GameEvent> {
    if NeedsPass(rules, s) then [PassEvent(s)] else []
  }

  method SettleForcedPasses(rules: Rules, s: ReplayState) returns (state: ReplayState, appended: seq<GameEvent>)
    ensures state == Settled(rules, s) && appended == SettledEvents(rules, s)
    ensures |appended| <= 1 && state.events == s.events + appended
    ensures state.outcome.Some? || rules.hasMove(state.pieces, state.turn)
    ensures state.pieces == s.pieces && state.captures == s.captures
  {
    var next := s;
    appended := [];
    while CurrentOutcome(rules, next).None? && !rules.hasMove(next.pieces, next.turn)
      invariant (next == s && appended == []) ||
                (NeedsPass(rules, s) && !NeedsPass(rules, next) && next == AfterPass(rules, s) && appended == [PassEvent(s)])
      decreases if NeedsPass(rules, next) then 1 else 0
    {
      var ply := next.completedPlies + 1;
      var event := ForcedPass(ply, next.turn);
      var quiet := next.quietPlies + 1;
      var outcome := GetGameOutcome(rules.hasMove, next.pieces, quiet, ply);
      next := next.(turn := if outcome.Some? then next.turn else next.turn.Other(), completedPlies := ply,
                    quietPlies := quiet, events := next.events + [event], outcome := outcome);
      appended := appended + [event];
    }
    var outcome := CurrentOutcome(rules, next);
    if outcome.Some? && next.outcome != outcome {
      next := next.(outcome := outcome);
    }
    state := next;
  }

  datatype Acceptance = Acceptance(state: ReplayState, appended: seq<GameEvent>)

  function AcceptMoveCommand(rules: Rules, s: ReplayState, cmd: MoveCommand, parts: seq<ProblemPart>)
    : Result<Acceptance, RuleError>
  {
    if |parts| != RINGS * SECTORS then Err(WrongParts)
    else
      var applied :- ApplyCanonicalMove(rules, Settled(rules, s), cmd, parts);
      Ok(Acceptance(Settled(rules, applied.state),
                    SettledEvents(rules, s) + [applied.event] + SettledEvents(rules, applied.state)))
  }

  // ---- Replaying a log --------------------------------------------------------------------

  datatype ReplayCause =
    | Malformed
    | Rule(error: RuleError)
    | PassRequired
    | SideMismatch
    | OriginMismatch
    | CaptureMismatch
    | PromotionMismatch
    | AlreadyComplete
    | UnexpectedPly
    | UnexpectedSide
    | CannotPass
    | PassMissing

  datatype ReplayError = BadParts | AtEvent(index: nat, cause: ReplayCause)

  function ParseMove(f: map<Name, Value>, ply: int, side: Side): Option<GameEvent> {
    var pieceId, captured, promotedTo := Field(f, PieceIdKey), Field(f, CapturedPieceIdKey), Field(f, PromotedToKey);
    if !pieceId.Str? || IsBlank(pieceId.s) then None
    else if captured != Undefined && !(captured.Str? && captured.s != "") then None
    else if promotedTo != Undefined && promotedTo != Str("queen") then None
    else
      match (CoordFrom(Field(f, FromKey)), CoordFrom(Field(f, ToKey)))
      case (Some(origin), Some(to)) =>
        Some(Move(ply, side, pieceId.s, origin, to,
                  if captured == Undefined then None else Some(captured.s), promotedTo != Undefined))
      case _ => None
  }

  function ParseEvent(v: Value): Option<GameEvent> {
    if !v.Obj? then None
    else
      var f := v.fields;
      var ply, side, kind := Field(f, PlyKey), Field(f, SideKey), Field(f, TypeKey);
      if Field(f, VersionKey) != Int(GAME_EVENT_VERSION) then None
      else if !ply.Int? || ply.n < 1 then None
      else if side != Str("white") && side != Str("black") then None
      else
        var s := if side == Str("white") then White else Black;
        if kind == Str("forced-pass") then
          if Field(f, ReasonKey) == Str("no-legal-move") then Some(ForcedPass(ply.n, s)) else None
        else if kind == Str("move") then ParseMove(f, ply.n, s)
        else None
  }

  function ApplyReplayPass(rules: Rules, s: ReplayState, e: GameEvent): Result<ReplayState, ReplayCause>
    requires e.ForcedPass?
  {
    if CurrentOutcome(rules, s).Some? then Err(AlreadyComplete)
    else if e.ply != s.completedPlies + 1 then Err(UnexpectedPly)
    else if e.side != s.turn then Err(UnexpectedSide)
    else if rules.hasMove(s.pieces, s.turn) then Err(CannotPass)
    else
      var outcome := GetGameOutcome(rules.hasMove, s.pieces, s.quietPlies + 1, e.ply);
      Ok(s.(turn := if outcome.Some? then s.turn else s.turn.Other(), completedPlies := e.ply,
            quietPlies := s.quietPlies + 1, events := s.events + [e], outcome := outcome))
  }

  function CoordValue(c: Coord): Value {
    Obj(map[RingKey := Int(c.ring), SectorKey := Int(c.sector)])
  }

  /** The command that a recorded move answers: its ply, piece and destination, nothing else. */
  function CommandOf(e: GameEvent): MoveCommand
    requires e.Move?
  {
    MoveCommand(Int(e.ply), Str(e.pieceId), CoordValue(e.to))
  }

  function ApplyReplayMove(rules: Rules, s: ReplayState, e: GameEvent, parts: seq<ProblemPart>)
    : Result<ReplayState, ReplayCause>
    requires e.Move?
  {
    if !rules.hasMove(s.pieces, s.turn) then Err(PassRequired)
    else
      match ApplyCanonicalMove(rules, s, CommandOf(e), parts)
      case Err(error) => Err(Rule(error))
      case Ok(applied) =>
        var canonical := applied.event;
        if e.side != canonical.side then Err(SideMismatch)
        else if !SameCoord(e.origin, canonical.origin) then Err(OriginMismatch)
        else if e.capturedPieceId != canonical.capturedPieceId then Err(CaptureMismatch)
        else if e.promoted != canonical.promoted then Err(PromotionMismatch)
        else Ok(applied.state)
  }

  function ReplayStep(rules: Rules, s: ReplayState, e: GameEvent, parts: seq<ProblemPart>): Result<ReplayState, ReplayCause> {
    if e.Move? then ApplyReplayMove(rules, s, e, parts) else ApplyReplayPass(rules, s, e)
  }

  function ReplayValue(rules: Rules, s: ReplayState, v: Value, parts: seq<ProblemPart>): Result<ReplayState, ReplayCause> {
    match ParseEvent(v)
    case None => Err(Malformed)
    case Some(e) => ReplayStep(rules, s, e, parts)
  }

  function ReplayFrom(rules: Rules, s: ReplayState, log: seq<Value>, parts: seq<ProblemPart>, index: nat)
    : Result<ReplayState, ReplayError>
    decreases |log|
  {
    if log == [] then
      if s.outcome.None? && !rules.hasMove(s.pieces, s.turn) then Err(AtEvent(index, PassMissing)) else Ok(s)
    else
      match ReplayValue(rules, s, log[0], parts)
      case Err(cause) => Err(AtEvent(index, cause))
      case Ok(next) => ReplayFrom(rules, next, log[1..], parts, index + 1)
  }

  function Replayed(rules: Rules, log: seq<Value>, parts: seq<ProblemPart>): Result<ReplayState, ReplayError> {
    if |parts| != RINGS * SECTORS then Err(BadParts) else ReplayFrom(rules, CreateReplayState(rules), log, parts, 0)
  }

  method ReplayGameEvents(rules: Rules, log: seq<Value>, parts: seq<ProblemPart>)
    returns (r: Result<ReplayState, ReplayError>)
    ensures r == Replayed(rules, log, parts)
    ensures r.Ok? ==> r.value.outcome.Some? || rules.hasMove(r.value.pieces, r.value.turn)
  {
    if |parts| != RINGS * SECTORS {
      return Err(BadParts);
    }
    var state := CreateReplayState(rules);
    for index := 0 to |log|
      invariant Replayed(rules, log, parts) == ReplayFrom(rules, state, log[index..], parts, index)
    {
      assert log[index..][0] == log[index] && log[index..][1..] == log[index + 1..];
      var step := ReplayValue(rules, state, log[index], parts);
      if step.Err? {
        return Err(AtEvent(index, step.error));
      }
      state := step.value;
    }
    if state.outcome.None? && !rules.hasMove(state.pieces, state.turn) {
      return Err(AtEvent(|log|, PassMissing));
    }
    return Ok(state);
  }
}
