/** The command path and the replay path recognise the same logs and agree on every state. */
module ReplayAgreement {
  import opened Wrappers
  import opened Types
  import opened Game
  import opened Replay
  import opened Conservation
  import opened GameInvariants
  import Sequences

  // ---- Stored logs ------------------------------------------------------------------------

  ghost predicate WellFormedEvent(e: GameEvent) {
    && e.ply >= 1
    && (e.Move? ==> !IsBlank(e.pieceId) && ValidCoord(e.origin) && ValidCoord(e.to) && e.capturedPieceId != Some(""))
  }

  /** The record that persistence stores for an event: absent fields are omitted. */
  function EventValue(e: GameEvent): Value {
    Obj(if e.Move? then MoveFields(e) else CommonFields(e, "forced-pass")[ReasonKey := Str("no-legal-move")])
  }

  function CommonFields(e: GameEvent, kind: string): map<Name, Value> {
    map[VersionKey := Int(GAME_EVENT_VERSION), TypeKey := Str(kind), PlyKey := Int(e.ply), SideKey := Str(SideText(e.side))]
  }

  function MoveFields(e: GameEvent): map<Name, Value>
    requires e.Move?
  {
    var f := CommonFields(e, "move")[PieceIdKey := Str(e.pieceId)][FromKey := CoordValue(e.origin)][ToKey := CoordValue(e.to)];
    var f' := if e.capturedPieceId.Some? then f[CapturedPieceIdKey := Str(e.capturedPieceId.value)] else f;
    if e.promoted then f'[PromotedToKey := Str("queen")] else f'
  }

  lemma CoordRoundTrip(c: Coord)
    requires ValidCoord(c)
    ensures CoordFrom(CoordValue(c)) == Some(c)
  {
  }

  lemma ParseStoredMove(e: GameEvent)
    requires WellFormedEvent(e) && e.Move?
    ensures ParseMove(MoveFields(e), e.ply, e.side) == Some(e)
  {
    CoordRoundTrip(e.origin);
    CoordRoundTrip(e.to);
  }

  function SideText(side: Side): string {
    if side == White then "white" else "black"
  }

  lemma SideTexts()
    ensures SideText(White) != SideText(Black)
  {
    assert SideText(White)[0] != SideText(Black)[0];
  }

  /** The fields that every record has. */
  ghost predicate HasHeader(f: map<Name, Value>, e: GameEvent, kind: string) {
    && Field(f, VersionKey) == Int(GAME_EVENT_VERSION) && Field(f, TypeKey) == Str(kind)
    && Field(f, PlyKey) == Int(e.ply) && Field(f, SideKey) == Str(SideText(e.side))
  }

  lemma MoveHeader(e: GameEvent)
    requires e.Move?
    ensures HasHeader(MoveFields(e), e, "move")
  {
    hide CoordValue;
  }

  lemma ParseStored(e: GameEvent)
    requires WellFormedEvent(e)
    ensures ParseEvent(EventValue(e)) == Some(e)
  {
    SideTexts();
    if e.Move? {
      MoveHeader(e);
      ParseStoredMove(e);
      hide ParseMove, MoveFields, IsBlank;
      assert |"move"| != |"forced-pass"|;
    }
  }

  function LogValues(events: seq<GameEvent>): seq<Value> {
    seq(|events|, i requires 0 <= i < |events| => EventValue(events[i]))
  }

  // ---- Command histories ------------------------------------------------------------------

  function CommandsOf(events: seq<GameEvent>): seq<MoveCommand> {
    if events == [] then []
    else (if events[0].Move? then [CommandOf(events[0])] else []) + CommandsOf(events[1..])
  }

  /** Feeding commands one after the other, as long as each is accepted. */
  function RunCommands(rules: Rules, s: ReplayState, cmds: seq<MoveCommand>, parts: seq<ProblemPart>)
    : Result<ReplayState, RuleError>
    decreases |cmds|
  {
    if cmds == [] then Ok(s)
    else
      var accepted :- AcceptMoveCommand(rules, s, cmds[0], parts);
      RunCommands(rules, accepted.state, cmds[1..], parts)
  }

  // ---- Settling ---------------------------------------------------------------------------

  lemma SettledStays(rules: Rules, s: ReplayState)
    requires Coherent(rules, s) && !NeedsPass(rules, s)
    ensures Settled(rules, s) == s && SettledEvents(rules, s) == []
  {
  }

  lemma SettledAfterPass(rules: Rules, s: ReplayState)
    requires Coherent(rules, s) && NeedsPass(rules, s)
    ensures Coherent(rules, AfterPass(rules, s)) && !NeedsPass(rules, AfterPass(rules, s))
    ensures Settled(rules, s) == AfterPass(rules, s) && SettledEvents(rules, s) == [PassEvent(s)]
  {
  }

  lemma SettledIdempotent(rules: Rules, s: ReplayState)
    requires Coherent(rules, s)
    ensures Coherent(rules, Settled(rules, s)) && !NeedsPass(rules, Settled(rules, s))
    ensures Settled(rules, Settled(rules, s)) == Settled(rules, s)
  {
    if NeedsPass(rules, s) {
      SettledAfterPass(rules, s);
      SettledStays(rules, AfterPass(rules, s));
    } else {
      SettledStays(rules, s);
    }
  }

  // ---- One event against one command ------------------------------------------------------

  /** What a command is that passes every check before the move itself. */
  ghost predicate Validated(rules: Rules, s: ReplayState, cmd: MoveCommand, mover: Piece, to: Coord) {
    && CurrentOutcome(rules, s).None?
    && cmd.expectedPly == Int(s.completedPlies + 1) && cmd.pieceId == Str(mover.id) && CoordFrom(cmd.to) == Some(to)
    && !IsBlank(mover.id) && FindById(s.pieces, mover.id) == Some(mover)
    && mover.side == s.turn && rules.reaches(mover, s.pieces, to) && ValidCoord(mover.at) && ValidCoord(to)
  }

  lemma ValidationExact(rules: Rules, s: ReplayState, cmd: MoveCommand, mover: Piece, to: Coord)
    requires Lawful(rules)
    ensures ValidateCommand(rules, s, cmd) == Ok((mover, to)) <==> Validated(rules, s, cmd, mover, to)
  {
  }

  /** A replayed event is the canonical one: nothing in it can be chosen by whoever stored it. */
  lemma StepIsCanonical(rules: Rules, s: ReplayState, e: GameEvent, parts: seq<ProblemPart>)
    requires Lawful(rules) && ReplayStep(rules, s, e, parts).Ok?
    requires e.Move? ==> ValidCoord(e.origin) && ValidCoord(e.to)
    ensures e.ForcedPass? ==> NeedsPass(rules, s) && ReplayStep(rules, s, e, parts).value == AfterPass(rules, s)
    ensures e.Move? ==> !NeedsPass(rules, s) && ApplyCanonicalMove(rules, s, CommandOf(e), parts) ==
                                            Ok(AppliedMove(ReplayStep(rules, s, e, parts).value, e))
    ensures ReplayStep(rules, s, e, parts).value.events == s.events + [e]
  {
    hide IsBlank, CoordFrom, CoordValue, GetGameOutcome, ValidateCommand;
    if e.Move? {
      var a := ApplyCanonicalMove(rules, s, CommandOf(e), parts).value;
      var (mover, to) := ValidateCommand(rules, s, CommandOf(e)).value;
      ValidationExact(rules, s, CommandOf(e), mover, to);
      CoordRoundTrip(e.to);
      SameCoordOnBoard(e.origin, mover.at);
      assert a.event == e;
    }
  }

  /** A canonical move, once recorded, is accepted by the replay. */
  lemma CanonicalMoveReplays(rules: Rules, s: ReplayState, cmd: MoveCommand, parts: seq<ProblemPart>)
    requires Lawful(rules) && GameInv(rules, s) && !NeedsPass(rules, s) && ApplyCanonicalMove(rules, s, cmd, parts).Ok?
    ensures var a := ApplyCanonicalMove(rules, s, cmd, parts).value;
            && a.event.Move? && WellFormedEvent(a.event) && a.state.events == s.events + [a.event]
            && ReplayStep(rules, s, a.event, parts) == Ok(a.state)
            && cmd.expectedPly == Int(a.event.ply) && cmd.pieceId == Str(a.event.pieceId) && CoordFrom(cmd.to) == Some(a.event.to)
  {
    assert BoardOk(s.pieces) && OnceOnly(s.pieces) by { hide Lawful, ApplyCanonicalMove; }
    hide *;
    var mover, to, result := MoveUnfolds(rules, s, cmd, parts);
    ValidationExact(rules, s, cmd, mover, to);
    MoveRecord(rules, s, cmd, mover, to, result);
    CapturedIdNamed(rules, s.pieces, mover, to, parts, s.completedPlies + 1);
    MoverFound(rules, s, cmd, mover, to);
    RecordedValidates(rules, s, StateAfterMove(rules, s, mover, to, result).event, mover, to);
    CanonicalStep(rules, s, mover, to, parts);
  }

  lemma MoveUnfolds(rules: Rules, s: ReplayState, cmd: MoveCommand, parts: seq<ProblemPart>)
    returns (mover: Piece, to: Coord, result: MoveResult)
    requires ApplyCanonicalMove(rules, s, cmd, parts).Ok?
    ensures ValidateCommand(rules, s, cmd) == Ok((mover, to))
    ensures rules.move(s.pieces, mover.id, to, parts, s.completedPlies + 1) == Ok(result)
    ensures ApplyCanonicalMove(rules, s, cmd, parts) == Ok(StateAfterMove(rules, s, mover, to, result))
  {
    hide StateAfterMove, ValidateCommand;
    var (m, t) := ValidateCommand(rules, s, cmd).value;
    mover, to := m, t;
    result := rules.move(s.pieces, mover.id, to, parts, s.completedPlies + 1).value;
  }

  lemma MoverFound(rules: Rules, s: ReplayState, cmd: MoveCommand, mover: Piece, to: Coord)
    requires Validated(rules, s, cmd, mover, to)
    ensures mover in s.pieces && ValidCoord(mover.at) && ValidCoord(to) && mover.side == s.turn && CurrentOutcome(rules, s).None?
  {
    hide IsBlank, CurrentOutcome, CoordFrom, ValidCoord;
  }

  /** What the event of a validated move records. */
  lemma MoveRecord(rules: Rules, s: ReplayState, cmd: MoveCommand, mover: Piece, to: Coord, result: MoveResult)
    requires Validated(rules, s, cmd, mover, to)
    ensures var a := StateAfterMove(rules, s, mover, to, result);
            && a.event.Move? && a.event.ply == s.completedPlies + 1 && a.event.pieceId == mover.id && a.event.to == to
            && a.state.events == s.events + [a.event]
            && ((result.capture.Some? ==> result.capture.value.captured.id != "") ==> WellFormedEvent(a.event))
            && cmd.expectedPly == Int(a.event.ply) && cmd.pieceId == Str(a.event.pieceId) && CoordFrom(cmd.to) == Some(a.event.to)
  {
    hide IsBlank, CoordFrom, GetGameOutcome, CurrentOutcome;
  }

  /** The command of a recorded move passes the checks that the move's own command has passed. */
  lemma RecordedValidates(rules: Rules, s: ReplayState, e: GameEvent, mover: Piece, to: Coord)
    requires Lawful(rules) && e.Move? && e.ply == s.completedPlies + 1 && e.pieceId == mover.id && e.to == to
    requires exists cmd :: Validated(rules, s, cmd, mover, to)
    ensures ValidateCommand(rules, s, CommandOf(e)) == Ok((mover, to))
  {
    hide IsBlank, CoordFrom, CoordValue, ValidateCommand, Lawful;
    CoordRoundTrip(to);
    ValidationExact(rules, s, CommandOf(e), mover, to);
  }

  lemma CanonicalStep(rules: Rules, s: ReplayState, mover: Piece, to: Coord, parts: seq<ProblemPart>)
    requires rules.move(s.pieces, mover.id, to, parts, s.completedPlies + 1).Ok?
    requires CurrentOutcome(rules, s).None? && !NeedsPass(rules, s) && mover.side == s.turn && ValidCoord(mover.at)
    requires var a := StateAfterMove(rules, s, mover, to, rules.move(s.pieces, mover.id, to, parts, s.completedPlies + 1).value);
             ValidateCommand(rules, s, CommandOf(a.event)) == Ok((mover, to))
    ensures var a := StateAfterMove(rules, s, mover, to, rules.move(s.pieces, mover.id, to, parts, s.completedPlies + 1).value);
            ReplayStep(rules, s, a.event, parts) == Ok(a.state)
  {
    hide GetGameOutcome, ValidateCommand, CoordValue;
    SameCoordOnBoard(mover.at, mover.at);
  }

  lemma CapturedIdNamed(rules: Rules, pieces: seq<Piece>, mover: Piece, to: Coord, parts: seq<ProblemPart>, turn: int)
    requires Lawful(rules) && BoardOk(pieces) && OnceOnly(pieces) && mover in pieces && ValidCoord(to)
    ensures var r := rules.move(pieces, mover.id, to, parts, turn);
            r.Ok? && r.value.capture.Some? ==> r.value.capture.value.captured.id != ""
  {
  }

  // ---- Command path to replay path --------------------------------------------------------

  /** The states that a stored log drives the replay through, without the final check. */
  function Steps(rules: Rules, s: ReplayState, events: seq<GameEvent>, parts: seq<ProblemPart>)
    : Result<ReplayState, ReplayCause>
    decreases |events|
  {
    if events == [] then Ok(s)
    else
      var next :- ReplayStep(rules, s, events[0], parts);
      Steps(rules, next, events[1..], parts)
  }

  lemma {:induction false} StepsAppend(rules: Rules, s: ReplayState, first: seq<GameEvent>, second: seq<GameEvent>, parts: seq<ProblemPart>)
    requires Steps(rules, s, first, parts).Ok?
    ensures Steps(rules, s, first + second, parts) == Steps(rules, Steps(rules, s, first, parts).value, second, parts)
    decreases |first|
  {
    if first == [] {
      assert first + second == second;
    } else {
      assert (first + second)[1..] == first[1..] + second;
      StepsAppend(rules, ReplayStep(rules, s, first[0], parts).value, first[1..], second, parts);
    }
  }

  lemma {:induction false} StoredLogReplays(rules: Rules, s: ReplayState, events: seq<GameEvent>, parts: seq<ProblemPart>, index: nat)
    requires Steps(rules, s, events, parts).Ok? && forall e | e in events :: WellFormedEvent(e)
    requires var t := Steps(rules, s, events, parts).value; t.outcome.Some? || rules.hasMove(t.pieces, t.turn)
    ensures ReplayFrom(rules, s, LogValues(events), parts, index) == Ok(Steps(rules, s, events, parts).value)
    decreases |events|
  {
    if events != [] {
      hide ParseEvent, EventValue, ReplayStep, WellFormedEvent;
      ParseStored(events[0]);
      assert LogValues(events)[0] == EventValue(events[0]);
      assert LogValues(events)[1..] == LogValues(events[1..]);
      StoredLogReplays(rules, ReplayStep(rules, s, events[0], parts).value, events[1..], parts, index + 1);
    }
  }

  /** One accepted command appends events that the replay accepts with the same state. */
  lemma AcceptanceReplays(rules: Rules, s: ReplayState, cmd: MoveCommand, parts: seq<ProblemPart>)
    requires Lawful(rules) && GameInv(rules, s) && AcceptMoveCommand(rules, s, cmd, parts).Ok?
    ensures var a := AcceptMoveCommand(rules, s, cmd, parts).value;
            && Steps(rules, s, a.appended, parts) == Ok(a.state) && a.state.events == s.events + a.appended
            && GameInv(rules, a.state) && !NeedsPass(rules, a.state)
            && (forall e | e in a.appended :: WellFormedEvent(e))
  {
    hide GameInv, Lawful, ReplayStep, ApplyCanonicalMove, Settled, SettledEvents, WellFormedEvent, NeedsPass;
    var before := Settled(rules, s);
    SettlingReplays(rules, s, parts);
    var applied := ApplyCanonicalMove(rules, before, cmd, parts).value;
    CanonicalMoveReplays(rules, before, cmd, parts);
    CommandKeepsInv(rules, before, cmd, parts);
    SettlingReplays(rules, applied.state, parts);
    OneStep(rules, before, applied.event, parts);
    hide Steps;
    var e0, e2 := SettledEvents(rules, s), SettledEvents(rules, applied.state);
    StepsAppend(rules, s, e0, [applied.event], parts);
    StepsAppend(rules, s, e0 + [applied.event], e2, parts);
  }

  lemma OneStep(rules: Rules, s: ReplayState, e: GameEvent, parts: seq<ProblemPart>)
    ensures Steps(rules, s, [e], parts) == ReplayStep(rules, s, e, parts)
  {
    hide ReplayStep;
    assert [e][1..] == [];
  }

  lemma SettlingReplays(rules: Rules, s: ReplayState, parts: seq<ProblemPart>)
    requires GameInv(rules, s)
    ensures Steps(rules, s, SettledEvents(rules, s), parts) == Ok(Settled(rules, s))
    ensures Settled(rules, s).events == s.events + SettledEvents(rules, s)
    ensures GameInv(rules, Settled(rules, s)) && !NeedsPass(rules, Settled(rules, s))
    ensures forall e | e in SettledEvents(rules, s) :: WellFormedEvent(e)
  {
    SettlingKeepsInv(rules, s);
    SettledIdempotent(rules, s);
    if NeedsPass(rules, s) {
      SettledAfterPass(rules, s);
      OneStep(rules, s, PassEvent(s), parts);
    } else {
      SettledStays(rules, s);
    }
  }

  lemma {:induction false} CommandsReplay(rules: Rules, s: ReplayState, log: seq<GameEvent>, cmds: seq<MoveCommand>, parts: seq<ProblemPart>)
    returns (t: ReplayState)
    requires Lawful(rules) && GameInv(rules, s) && !NeedsPass(rules, s) && s.events == log
    requires Steps(rules, CreateReplayState(rules), log, parts) == Ok(s) && forall e | e in log :: WellFormedEvent(e)
    requires RunCommands(rules, s, cmds, parts).Ok?
    ensures t == RunCommands(rules, s, cmds, parts).value && GameInv(rules, t) && !NeedsPass(rules, t)
    ensures Steps(rules, CreateReplayState(rules), t.events, parts) == Ok(t) && forall e | e in t.events :: WellFormedEvent(e)
    decreases |cmds|
  {
    if cmds == [] {
      t := s;
    } else {
      var a := AcceptMoveCommand(rules, s, cmds[0], parts).value;
      AcceptanceReplays(rules, s, cmds[0], parts);
      StepsAppend(rules, CreateReplayState(rules), log, a.appended, parts);
      t := CommandsReplay(rules, a.state, log + a.appended, cmds[1..], parts);
    }
  }

  lemma SettledIsFinal(rules: Rules, s: ReplayState)
    requires GameInv(rules, s)
    ensures !NeedsPass(rules, s) <==> s.outcome.Some? || rules.hasMove(s.pieces, s.turn)
  {
  }

  lemma StartSettled(rules: Rules)
    requires Lawful(rules)
    ensures GameInv(rules, CreateReplayState(rules)) && !NeedsPass(rules, CreateReplayState(rules)) && CreateReplayState(rules).events == []
  {
    InitialInv(rules);
  }

  /** Round trip: replaying what accepted commands stored gives back exactly their state. */
  lemma AcceptedGamesReplay(rules: Rules, cmds: seq<MoveCommand>, parts: seq<ProblemPart>)
    requires Lawful(rules) && |parts| == 64
    requires RunCommands(rules, CreateReplayState(rules), cmds, parts).Ok?
    ensures var t := RunCommands(rules, CreateReplayState(rules), cmds, parts).value;
            Replayed(rules, LogValues(t.events), parts) == Ok(t)
  {
    StartSettled(rules);
    StepsNil(rules, CreateReplayState(rules), parts);
    var t := CommandsReplay(rules, CreateReplayState(rules), [], cmds, parts);
    SettledIsFinal(rules, t);
    StoredLogReplays(rules, CreateReplayState(rules), t.events, parts, 0);
  }

  lemma StepsNil(rules: Rules, s: ReplayState, parts: seq<ProblemPart>)
    ensures Steps(rules, s, [], parts) == Ok(s)
  {
  }

  /** Appending an acceptance to a valid log and replaying from scratch gives the incremental state. */
  lemma IncrementalReplay(rules: Rules, log: seq<Value>, cmd: MoveCommand, parts: seq<ProblemPart>)
    requires Lawful(rules) && Replayed(rules, log, parts).Ok?
    requires AcceptMoveCommand(rules, Replayed(rules, log, parts).value, cmd, parts).Ok?
    ensures var a := AcceptMoveCommand(rules, Replayed(rules, log, parts).value, cmd, parts).value;
            Replayed(rules, log + LogValues(a.appended), parts) == Ok(a.state)
  {
    hide GameInv, Steps, WellFormedEvent, NeedsPass, CreateReplayState, ReplayFrom, AcceptMoveCommand;
    var s := Replayed(rules, log, parts).value;
    var a := AcceptMoveCommand(rules, s, cmd, parts).value;
    ReplayedGamesAreSound(rules, log, parts);
    AcceptanceReplays(rules, s, cmd, parts);
    SettledIsFinal(rules, a.state);
    StoredLogReplays(rules, s, a.appended, parts, |log|);
    ReplayFromAppend(rules, CreateReplayState(rules), log, LogValues(a.appended), parts, 0);
  }

  lemma {:induction false} ReplayFromAppend(rules: Rules, s: ReplayState, first: seq<Value>, second: seq<Value>, parts: seq<ProblemPart>, index: nat)
    requires ReplayFrom(rules, s, first, parts, index).Ok?
    ensures ReplayFrom(rules, s, first + second, parts, index) ==
            ReplayFrom(rules, ReplayFrom(rules, s, first, parts, index).value, second, parts, index + |first|)
    decreases |first|
  {
    hide ReplayValue;
    if first == [] {
      assert first + second == second;
    } else {
      assert (first + second)[1..] == first[1..] + second;
      ReplayFromAppend(rules, ReplayValue(rules, s, first[0], parts).value, first[1..], second, parts, index + 1);
    }
  }

  // ---- Replay path to command path --------------------------------------------------------

  ghost predicate ParsesTo(log: seq<Value>, events: seq<GameEvent>) {
    |log| == |events| && forall i | 0 <= i < |log| :: ParseEvent(log[i]) == Some(events[i])
  }

  lemma ParsedIsOnBoard(v: Value)
    ensures ParseEvent(v).Some? && ParseEvent(v).value.Move? ==>
              ValidCoord(ParseEvent(v).value.origin) && ValidCoord(ParseEvent(v).value.to)
  {
  }

  lemma AcceptWhenSettled(rules: Rules, s: ReplayState, cmd: MoveCommand, parts: seq<ProblemPart>)
    requires Coherent(rules, s) && !NeedsPass(rules, s) && |parts| == 64 && ApplyCanonicalMove(rules, s, cmd, parts).Ok?
    ensures AcceptMoveCommand(rules, s, cmd, parts).Ok?
    ensures AcceptMoveCommand(rules, s, cmd, parts).value.state == Settled(rules, ApplyCanonicalMove(rules, s, cmd, parts).value.state)
  {
    SettledStays(rules, s);
  }

  lemma {:induction false} ReplayIsAccepted(rules: Rules, s: ReplayState, log: seq<Value>, parts: seq<ProblemPart>, index: nat)
    returns (events: seq<GameEvent>)
    requires Lawful(rules) && GameInv(rules, s) && |parts| == 64 && ReplayFrom(rules, s, log, parts, index).Ok?
    ensures ParsesTo(log, events) && ReplayFrom(rules, s, log, parts, index).value.events == s.events + events
    ensures RunCommands(rules, Settled(rules, s), CommandsOf(events), parts) == Ok(ReplayFrom(rules, s, log, parts, index).value)
    decreases |log|
  {
    events := [];
    if log == [] {
      SettledIsFinal(rules, s);
      assert Coherent(rules, s);
      SettledStays(rules, s);
      hide GameInv, Lawful, Settled;
    } else {
      var e := ParseEvent(log[0]).value;
      FirstEvent(rules, s, log, parts, index);
      assert Coherent(rules, s);
      hide *;
      var next := ReplayStep(rules, s, e, parts).value;
      StepKeepsInv(rules, s, e, parts);
      ParsedIsOnBoard(log[0]);
      StepIsCanonical(rules, s, e, parts);
      var rest := ReplayIsAccepted(rules, next, log[1..], parts, index + 1);
      events := [e] + rest;
      Sequences.Regroup(s.events, [e], rest);
      EventsBefore(log, e, rest);
      CommandsBefore(rules, Settled(rules, s), e, rest, parts);
      if e.ForcedPass? {
        SettledAfterPass(rules, s);
        SettledStays(rules, next);
      } else {
        SettledStays(rules, s);
        AcceptWhenSettled(rules, s, CommandOf(e), parts);
      }
    }
  }

  lemma FirstEvent(rules: Rules, s: ReplayState, log: seq<Value>, parts: seq<ProblemPart>, index: nat)
    requires log != [] && ReplayFrom(rules, s, log, parts, index).Ok?
    ensures ParseEvent(log[0]).Some? && ReplayStep(rules, s, ParseEvent(log[0]).value, parts).Ok?
    ensures var next := ReplayStep(rules, s, ParseEvent(log[0]).value, parts).value;
            ReplayFrom(rules, s, log, parts, index) == ReplayFrom(rules, next, log[1..], parts, index + 1)
  {
    hide ParseEvent, ReplayStep;
  }

  lemma EventsBefore(log: seq<Value>, e: GameEvent, rest: seq<GameEvent>)
    requires log != [] && ParseEvent(log[0]) == Some(e) && ParsesTo(log[1..], rest)
    ensures ParsesTo(log, [e] + rest)
  {
    hide ParseEvent;
    assert forall i | 1 <= i < |log| :: log[1..][i - 1] == log[i];
  }

  /** A pass answers no command, a move answers one. */
  lemma CommandsBefore(rules: Rules, s: ReplayState, e: GameEvent, rest: seq<GameEvent>, parts: seq<ProblemPart>)
    ensures e.ForcedPass? ==> CommandsOf([e] + rest) == CommandsOf(rest)
    ensures e.Move? && AcceptMoveCommand(rules, s, CommandOf(e), parts).Ok? ==>
              RunCommands(rules, s, CommandsOf([e] + rest), parts)
              == RunCommands(rules, AcceptMoveCommand(rules, s, CommandOf(e), parts).value.state, CommandsOf(rest), parts)
  {
    hide AcceptMoveCommand;
    assert ([e] + rest)[1..] == rest;
    if e.Move? { assert ([CommandOf(e)] + CommandsOf(rest))[1..] == CommandsOf(rest); }
  }

  /**
   * Exact language, from logs to commands: an accepted log is the one that the command path
   * writes when it is fed only the ply, piece and destination of the log's moves, and the two
   * paths end in the same state.
   */
  lemma AcceptedLogsAreCanonical(rules: Rules, log: seq<Value>, parts: seq<ProblemPart>)
    requires Lawful(rules) && Replayed(rules, log, parts).Ok?
    ensures var t := Replayed(rules, log, parts).value;
            && ParsesTo(log, t.events)
            && RunCommands(rules, CreateReplayState(rules), CommandsOf(t.events), parts) == Ok(t)
  {
    StartSettled(rules);
    StartStays(rules);
    var events := ReplayIsAccepted(rules, CreateReplayState(rules), log, parts, 0);
    assert [] + events == events;
  }

  lemma StartStays(rules: Rules)
    requires Lawful(rules)
    ensures Settled(rules, CreateReplayState(rules)) == CreateReplayState(rules)
  {
    StartSettled(rules);
    SettledStays(rules, CreateReplayState(rules));
  }

  /**
   * Exact language: some accepted log replays to a state exactly when some sequence of accepted
   * commands leads to it.
   */
  lemma ExactLanguage(rules: Rules, parts: seq<ProblemPart>, t: ReplayState)
    requires Lawful(rules) && |parts| == 64
    ensures (exists log :: Replayed(rules, log, parts) == Ok(t))
       <==> (exists cmds :: RunCommands(rules, CreateReplayState(rules), cmds, parts) == Ok(t))
  {
    hide CreateReplayState, RunCommands, Replayed, Lawful;
    if exists log :: Replayed(rules, log, parts) == Ok(t) {
      var log :| Replayed(rules, log, parts) == Ok(t);
      AcceptedLogsAreCanonical(rules, log, parts);
    }
    if exists cmds :: RunCommands(rules, CreateReplayState(rules), cmds, parts) == Ok(t) {
      var cmds :| RunCommands(rules, CreateReplayState(rules), cmds, parts) == Ok(t);
      AcceptedGamesReplay(rules, cmds, parts);
    }
  }
}
