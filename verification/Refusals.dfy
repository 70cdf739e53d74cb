/** Which commands are refused, and where a log fails. */
module Refusals {
  import opened Wrappers
  import opened Types
  import opened Game
  import opened Replay
  import opened Conservation
  import opened GameInvariants
  import opened WebChess
  import opened Turns
  import opened TurnFacts
  import opened Played
  import Agreement = ReplayAgreement
  import Text

  // ---- Commands ------------------------------------------------------------------------------------------

  /** The command is for the next ply of a game that goes on. */
  predicate Timely(s: ReplayState, cmd: MoveCommand) {
    s.outcome.None? && cmd.expectedPly == Int(s.completedPlies + 1)
  }

  predicate NamesSomething(cmd: MoveCommand) {
    cmd.pieceId.Str? && exists i :: 0 <= i < |cmd.pieceId.s| && !Text.Blank(cmd.pieceId.s[i] as int)
  }

  ghost predicate NamesCell(cmd: MoveCommand) {
    exists c :: IsCell(cmd.to, c)
  }

  /** The command asks piece p to go to cell c. */
  ghost predicate Asks(s: ReplayState, cmd: MoveCommand, p: Piece, c: Coord) {
    Timely(s, cmd) && NamesSomething(cmd) && p in s.pieces && cmd.pieceId == Str(p.id) && IsCell(cmd.to, c)
  }

  /** What each refusal means; they exclude each other. */
  ghost predicate Refused(s: ReplayState, cmd: MoveCommand, error: RuleError) {
    match error
    case GameComplete => s.outcome.Some?
    case StalePly => s.outcome.None? && !Timely(s, cmd)
    case InvalidPiece =>
      Timely(s, cmd) && (!NamesSomething(cmd) || (NamesCell(cmd) && forall p | p in s.pieces :: cmd.pieceId != Str(p.id)))
    case InvalidCoordinate => Timely(s, cmd) && NamesSomething(cmd) && !NamesCell(cmd)
    case WrongSide => exists p, c :: Asks(s, cmd, p, c) && p.side != s.turn
    case IllegalCommand => exists p, c :: Asks(s, cmd, p, c) && p.side == s.turn && !CanMove(s.pieces, p, c)
    case WrongParts => false
    case Unexpected(_) => false
  }

  ghost predicate Granted(s: ReplayState, cmd: MoveCommand, p: Piece, c: Coord) {
    Asks(s, cmd, p, c) && p.side == s.turn && CanMove(s.pieces, p, c)
  }

  lemma BlankIs(s: string)
    ensures !IsBlank(s) <==> exists i :: 0 <= i < |s| && !Text.Blank(s[i] as int)
  {
    hide Text.Blank;
    if !IsBlank(s) {
      var c :| c in s && !Text.Blank(c as int);
      var i :| 0 <= i < |s| && s[i] == c;
    }
    if i :| 0 <= i < |s| && !Text.Blank(s[i] as int) {
      assert s[i] in s;
    }
  }

  lemma CellNamed(cmd: MoveCommand)
    ensures NamesCell(cmd) <==> CoordFrom(cmd.to).Some?
    ensures forall c :: IsCell(cmd.to, c) <==> CoordFrom(cmd.to) == Some(c)
  {
    forall c
      ensures IsCell(cmd.to, c) <==> CoordFrom(cmd.to) == Some(c)
    {
      CellIs(cmd.to, c);
    }
    hide IsCell, CoordFrom;
  }

  lemma RulesReach(pieces: seq<Piece>, p: Piece, c: Coord)
    requires BoardOk(pieces) && p in pieces && OnBoard(c)
    ensures Shipped().reaches(p, pieces, c) <==> CanMove(pieces, p, c)
  {
    EngineReach(pieces, p, c);
    hide CanReach, CanMove;
  }

  lemma ValidationOpen(s: ReplayState, cmd: MoveCommand)
    requires Coherent(Shipped(), s)
    ensures s.outcome.Some? ==> ValidateCommand(Shipped(), s, cmd) == Err(GameComplete)
    ensures s.outcome.None? && !Timely(s, cmd) ==> ValidateCommand(Shipped(), s, cmd) == Err(StalePly)
    ensures Timely(s, cmd) && !NamesSomething(cmd) ==> ValidateCommand(Shipped(), s, cmd) == Err(InvalidPiece)
    ensures Timely(s, cmd) && NamesSomething(cmd) && !NamesCell(cmd) ==> ValidateCommand(Shipped(), s, cmd) == Err(InvalidCoordinate)
  {
    OpenState(s);
    if cmd.pieceId.Str? { BlankIs(cmd.pieceId.s); }
    CellNamed(cmd);
    hide Shipped, IsBlank, CoordFrom, CurrentOutcome, Coherent, NamesCell, Text.Blank;
  }

  lemma ValidationPiece(s: ReplayState, cmd: MoveCommand)
    requires BoardOk(s.pieces) && Coherent(Shipped(), s) && Timely(s, cmd) && NamesSomething(cmd) && NamesCell(cmd)
    ensures (forall p | p in s.pieces :: cmd.pieceId != Str(p.id)) ==> ValidateCommand(Shipped(), s, cmd) == Err(InvalidPiece)
    ensures forall p, c | Asks(s, cmd, p, c) :: ValidateCommand(Shipped(), s, cmd) ==
              if p.side != s.turn then Err(WrongSide) else if CanMove(s.pieces, p, c) then Ok((p, c)) else Err(IllegalCommand)
  {
    OpenState(s);
    BlankIs(cmd.pieceId.s);
    CellNamed(cmd);
    hide IsBlank, CoordFrom, CurrentOutcome, Coherent, CanMove, Shipped, Text.Blank, IsCell, NamesCell;
    forall p, c | Asks(s, cmd, p, c)
      ensures ValidateCommand(Shipped(), s, cmd) ==
              if p.side != s.turn then Err(WrongSide) else if CanMove(s.pieces, p, c) then Ok((p, c)) else Err(IllegalCommand)
    {
      Found(s.pieces, p);
      CellOn(cmd.to, c);
      RulesReach(s.pieces, p, c);
      hide BoardOk;
    }
  }

  lemma CellOn(v: Value, c: Coord)
    requires IsCell(v, c)
    ensures OnBoard(c)
  {
  }

  /** Every command is granted for one piece and cell, or refused for one reason, as the rules of movement say. */
  lemma ValidationDecides(s: ReplayState, cmd: MoveCommand)
    requires GameInv(Shipped(), s)
    ensures forall error :: ValidateCommand(Shipped(), s, cmd) == Err(error) <==> Refused(s, cmd, error)
    ensures forall p, c :: ValidateCommand(Shipped(), s, cmd) == Ok((p, c)) <==> Granted(s, cmd, p, c)
  {
    InvParts(s);
    ValidationOpen(s, cmd);
    if Timely(s, cmd) && NamesSomething(cmd) && NamesCell(cmd) {
      ValidationPiece(s, cmd);
      var c :| IsCell(cmd.to, c);
      CellNamed(cmd);
      hide *;
      if p :| p in s.pieces && cmd.pieceId == Str(p.id) {
        AskedDecides(s, cmd, p, c);
      } else {
        UnknownDecides(s, cmd);
      }
    } else {
      hide *;
      EarlyDecides(s, cmd);
    }
  }

  lemma EarlyDecides(s: ReplayState, cmd: MoveCommand)
    requires s.outcome.Some? ==> ValidateCommand(Shipped(), s, cmd) == Err(GameComplete)
    requires s.outcome.None? && !Timely(s, cmd) ==> ValidateCommand(Shipped(), s, cmd) == Err(StalePly)
    requires Timely(s, cmd) && !NamesSomething(cmd) ==> ValidateCommand(Shipped(), s, cmd) == Err(InvalidPiece)
    requires Timely(s, cmd) && NamesSomething(cmd) && !NamesCell(cmd) ==> ValidateCommand(Shipped(), s, cmd) == Err(InvalidCoordinate)
    requires !(Timely(s, cmd) && NamesSomething(cmd) && NamesCell(cmd))
    ensures forall error :: ValidateCommand(Shipped(), s, cmd) == Err(error) <==> Refused(s, cmd, error)
    ensures forall p, c :: ValidateCommand(Shipped(), s, cmd) == Ok((p, c)) <==> Granted(s, cmd, p, c)
  {
    hide ValidateCommand, Shipped, NamesSomething, IsCell, CanMove;
  }

  lemma UnknownDecides(s: ReplayState, cmd: MoveCommand)
    requires Timely(s, cmd) && NamesSomething(cmd) && NamesCell(cmd) && forall p | p in s.pieces :: cmd.pieceId != Str(p.id)
    requires ValidateCommand(Shipped(), s, cmd) == Err(InvalidPiece)
    ensures forall error :: ValidateCommand(Shipped(), s, cmd) == Err(error) <==> Refused(s, cmd, error)
    ensures forall p, c :: ValidateCommand(Shipped(), s, cmd) == Ok((p, c)) <==> Granted(s, cmd, p, c)
  {
    hide ValidateCommand, Shipped, NamesSomething, NamesCell, IsCell, CanMove;
  }

  lemma AskedDecides(s: ReplayState, cmd: MoveCommand, p: Piece, c: Coord)
    requires Timely(s, cmd) && NamesSomething(cmd) && NamesCell(cmd) && p in s.pieces && cmd.pieceId == Str(p.id)
    requires CoordFrom(cmd.to) == Some(c) && forall d :: IsCell(cmd.to, d) <==> CoordFrom(cmd.to) == Some(d)
    requires BoardOk(s.pieces)
    requires forall q, d | Asks(s, cmd, q, d) :: ValidateCommand(Shipped(), s, cmd) ==
               if q.side != s.turn then Err(WrongSide) else if CanMove(s.pieces, q, d) then Ok((q, d)) else Err(IllegalCommand)
    ensures forall error :: ValidateCommand(Shipped(), s, cmd) == Err(error) <==> Refused(s, cmd, error)
    ensures forall q, d :: ValidateCommand(Shipped(), s, cmd) == Ok((q, d)) <==> Granted(s, cmd, q, d)
  {
    assert forall q | q in s.pieces && cmd.pieceId == Str(q.id) :: q == p;
    hide BoardOk, ValidateCommand, Shipped, NamesSomething, NamesCell, IsCell, CanMove;
    assert forall q, d :: Asks(s, cmd, q, d) <==> q == p && d == c;
    hide Asks, CoordFrom;
    assert Asks(s, cmd, p, c);
  }

  lemma GrantedMoves(s: ReplayState, cmd: MoveCommand, p: Piece, c: Coord, parts: seq<ProblemPart>)
    requires GameInv(Shipped(), s) && |parts| == 64 && Granted(s, cmd, p, c)
    ensures ValidateCommand(Shipped(), s, cmd) == Ok((p, c)) && Shipped().move(s.pieces, p.id, c, parts, s.completedPlies + 1).Ok?
    ensures OnBoard(c)
  {
    ValidationDecides(s, cmd);
    InvParts(s);
    CellOn(cmd.to, c);
    MoveAllowed(s.pieces, p, c, parts, s.completedPlies + 1);
    hide GameInv, BoardOk, Shipped, CanMove, ValidateCommand, IsCell, Refused, Timely, NamesSomething;
  }

  /** The move itself never fails once the command is granted. */
  lemma CanonicalDecides(s: ReplayState, cmd: MoveCommand, parts: seq<ProblemPart>)
    requires GameInv(Shipped(), s) && |parts| == 64
    ensures forall error :: ApplyCanonicalMove(Shipped(), s, cmd, parts) == Err(error) <==> Refused(s, cmd, error)
    ensures forall p, c | Granted(s, cmd, p, c) ::
              && ApplyCanonicalMove(Shipped(), s, cmd, parts).Ok?
              && ApplyCanonicalMove(Shipped(), s, cmd, parts).value.event.Move?
              && ApplyCanonicalMove(Shipped(), s, cmd, parts).value.event.pieceId == p.id
              && ApplyCanonicalMove(Shipped(), s, cmd, parts).value.event.to == c
  {
    ValidationDecides(s, cmd);
    forall p, c | Granted(s, cmd, p, c)
      ensures Shipped().move(s.pieces, p.id, c, parts, s.completedPlies + 1).Ok?
    {
      GrantedMoves(s, cmd, p, c, parts);
    }
    hide GameInv, Shipped, ValidateCommand, Refused, Granted;
    CanonicalUnfolds(s, cmd, parts);
    hide ApplyCanonicalMove;
    if ValidateCommand(Shipped(), s, cmd).Ok? {
      var (p, c) := ValidateCommand(Shipped(), s, cmd).value;
      assert Granted(s, cmd, p, c);
    }
  }

  lemma CanonicalUnfolds(s: ReplayState, cmd: MoveCommand, parts: seq<ProblemPart>)
    ensures forall error :: ValidateCommand(Shipped(), s, cmd) == Err(error) ==> ApplyCanonicalMove(Shipped(), s, cmd, parts) == Err(error)
    ensures forall p: Piece, c: Coord |
              ValidateCommand(Shipped(), s, cmd) == Ok((p, c)) && Shipped().move(s.pieces, p.id, c, parts, s.completedPlies + 1).Ok? ::
              && ApplyCanonicalMove(Shipped(), s, cmd, parts).Ok?
              && ApplyCanonicalMove(Shipped(), s, cmd, parts).value.event.Move?
              && ApplyCanonicalMove(Shipped(), s, cmd, parts).value.event.pieceId == p.id
              && ApplyCanonicalMove(Shipped(), s, cmd, parts).value.event.to == c
  {
    hide Shipped, ValidateCommand, StateAfterMove;
    if ValidateCommand(Shipped(), s, cmd).Ok? {
      var (p, c) := ValidateCommand(Shipped(), s, cmd).value;
      if Shipped().move(s.pieces, p.id, c, parts, s.completedPlies + 1).Ok? {
        AfterMove(s, p, c, Shipped().move(s.pieces, p.id, c, parts, s.completedPlies + 1).value);
      }
    }
  }

  lemma AcceptSettled(s: ReplayState, cmd: MoveCommand, parts: seq<ProblemPart>)
    requires GameInv(Shipped(), s) && !NeedsPass(Shipped(), s) && |parts| == 64
    ensures forall error :: AcceptMoveCommand(Shipped(), s, cmd, parts) == Err(error) <==> ApplyCanonicalMove(Shipped(), s, cmd, parts) == Err(error)
    ensures ApplyCanonicalMove(Shipped(), s, cmd, parts).Ok? ==>
              && AcceptMoveCommand(Shipped(), s, cmd, parts).Ok?
              && AcceptMoveCommand(Shipped(), s, cmd, parts).value.appended != []
              && AcceptMoveCommand(Shipped(), s, cmd, parts).value.appended[0] == ApplyCanonicalMove(Shipped(), s, cmd, parts).value.event
  {
    InvParts(s);
    Agreement.SettledStays(Shipped(), s);
    hide GameInv, Shipped, ApplyCanonicalMove, Coherent, NeedsPass, BoardOk, Settled, SettledEvents;
  }

  /**
   * In every state that waits for a move, a command is refused for exactly the reason that applies, and
   * otherwise accepted: it plays the move it asks for, and at most one pass after it.
   */
  lemma CommandsDecided(s: ReplayState, cmd: MoveCommand, parts: seq<ProblemPart>)
    requires GameInv(Shipped(), s) && !NeedsPass(Shipped(), s) && |parts| == 64
    ensures forall error :: AcceptMoveCommand(Shipped(), s, cmd, parts) == Err(error) <==> Refused(s, cmd, error)
    ensures AcceptMoveCommand(Shipped(), s, cmd, parts).Ok? ==>
              var a := AcceptMoveCommand(Shipped(), s, cmd, parts).value;
              && a.appended != [] && a.appended[0].Move?
              && (exists p, c :: Granted(s, cmd, p, c) && a.appended[0].pieceId == p.id && a.appended[0].to == c)
              && (exists states :: Plays(states, a.appended, parts) && |states| == |a.appended| + 1
                                   && states[0] == s && states[|a.appended|] == a.state)
              && Rests(a.state)
  {
    CanonicalDecides(s, cmd, parts);
    AcceptSettled(s, cmd, parts);
    ValidationDecides(s, cmd);
    hide *;
    if AcceptMoveCommand(Shipped(), s, cmd, parts).Ok? {
      var a := AcceptMoveCommand(Shipped(), s, cmd, parts).value;
      GrantedSomeone(s, cmd, parts);
      var p, c :| Granted(s, cmd, p, c);
      ShippedIsLawful();
      Agreement.AcceptanceReplays(Shipped(), s, cmd, parts);
      var states := StepsPlayed(s, a.appended, parts);
      Agreement.SettledIsFinal(Shipped(), a.state);
      AlikeSelf(a.state);
      RestsAlike(a.state, a.state);
    }
  }

  lemma GrantedSomeone(s: ReplayState, cmd: MoveCommand, parts: seq<ProblemPart>)
    requires forall p, c :: ValidateCommand(Shipped(), s, cmd) == Ok((p, c)) <==> Granted(s, cmd, p, c)
    requires ApplyCanonicalMove(Shipped(), s, cmd, parts).Ok?
    ensures exists p, c :: Granted(s, cmd, p, c)
  {
    hide Granted, ValidateCommand, Shipped;
    var (p, c) := ValidateCommand(Shipped(), s, cmd).value;
    assert Granted(s, cmd, p, c);
  }

  // ---- Logs ------------------------------------------------------------------------------------------------

  /** After playing the first events of a log, its next value, or its end, is not what may follow. */
  ghost predicate Stops(states: seq<ReplayState>, log: seq<Value>, events: seq<GameEvent>, parts: seq<ProblemPart>, cause: ReplayCause)
    requires |parts| == 64
  {
    && |events| <= |log| && Logs(log[..|events|], events) && Plays(states, events, parts) && |states| == |events| + 1
    && (|events| < |log| ==>
          && (forall e | Records(log[|events|], e) :: !LegalTurn(states[|events|], e))
          && (cause == Malformed <==> forall e :: !Records(log[|events|], e)) && cause != PassMissing)
    && (|events| == |log| ==> !Rests(states[|events|]) && cause == PassMissing)
  }

  lemma ValueFails(s: ReplayState, v: Value, parts: seq<ProblemPart>)
    requires GameInv(Shipped(), s) && |parts| == 64 && ReplayValue(Shipped(), s, v, parts).Err?
    ensures forall e | Records(v, e) :: !LegalTurn(s, e)
    ensures ReplayValue(Shipped(), s, v, parts).error == Malformed <==> forall e :: !Records(v, e)
    ensures ReplayValue(Shipped(), s, v, parts).error != PassMissing
  {
    hide GameInv, Shipped, ReplayStep, LegalTurn, Records, ParseEvent;
    forall e
      ensures ParseEvent(v) == Some(e) <==> Records(v, e)
      ensures Records(v, e) ==> !LegalTurn(s, e)
    {
      ParseExact(v, e);
      if Records(v, e) {
        RecordsWellFormed(v, e);
        StepExact(s, e, parts);
      }
    }
    if ParseEvent(v).Some? {
      StepCauses(s, ParseEvent(v).value, parts);
    }
  }

  lemma StepCauses(s: ReplayState, e: GameEvent, parts: seq<ProblemPart>)
    ensures var r := ReplayStep(Shipped(), s, e, parts); r.Err? ==> r.error != Malformed && r.error != PassMissing
  {
    hide Shipped, ApplyCanonicalMove, CurrentOutcome, GetGameOutcome;
  }

  lemma {:induction false} StopsFrom(s: ReplayState, log: seq<Value>, parts: seq<ProblemPart>, index: nat)
    returns (states: seq<ReplayState>, events: seq<GameEvent>)
    requires GameInv(Shipped(), s) && |parts| == 64 && ReplayFrom(Shipped(), s, log, parts, index).Err?
    ensures var error := ReplayFrom(Shipped(), s, log, parts, index).error;
            error.AtEvent? && error.index == index + |events| && Stops(states, log, events, parts, error.cause) && states[0] == s
    decreases |log|
  {
    hide GameInv, Shipped, ReplayStep, ParseEvent, LegalTurn, TurnMade, Turn, Records, Plays;
    if log == [] {
      states, events := [s], [];
      AlikeSelf(s);
      RestsAlike(s, s);
      PlaysNothing(s, parts);
    } else if ReplayValue(Shipped(), s, log[0], parts).Err? {
      states, events := [s], [];
      ValueFails(s, log[0], parts);
      PlaysNothing(s, parts);
    } else {
      var e := ParseEvent(log[0]).value;
      ParseExact(log[0], e);
      RecordsWellFormed(log[0], e);
      StepPlays(s, e, parts);
      var next := ReplayStep(Shipped(), s, e, parts).value;
      var restStates, restEvents := StopsFrom(next, log[1..], parts, index + 1);
      states, events := [s] + restStates, [e] + restEvents;
      PlaysBefore(s, e, restStates, restEvents, parts);
      hide ReplayFrom, ReplayValue;
      assert log[..|events|] == [log[0]] + log[1..][..|restEvents|];
      assert |restEvents| < |log[1..]| ==> log[1..][|restEvents|] == log[|events|];
    }
  }

  lemma PlaysNothing(s: ReplayState, parts: seq<ProblemPart>)
    requires |parts| == 64
    ensures Plays([s], [], parts)
  {
  }

  /** A refused log is refused at the first value that is no record of a legal turn, or for a pass that is missing at its end. */
  lemma FailsWhereItStops(log: seq<Value>, parts: seq<ProblemPart>)
    requires |parts| == 64 && Replayed(Shipped(), log, parts).Err?
    ensures var error := Replayed(Shipped(), log, parts).error;
            && error.AtEvent?
            && exists states, events :: |events| == error.index && Stops(states, log, events, parts, error.cause)
                                        && states[0] == CreateReplayState(Shipped())
  {
    hide *;
    ShippedIsLawful();
    InitialInv(Shipped());
    FromStart(log, parts);
    var states, events := StopsFrom(CreateReplayState(Shipped()), log, parts, 0);
  }
}
