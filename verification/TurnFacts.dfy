/** The log of a game holds the legal turns, and nothing else. */
module TurnFacts {
  import opened Wrappers
  import opened Types
  import opened Game
  import opened Replay
  import opened Conservation
  import opened GameInvariants
  import opened WebChess
  import opened Turns
  import Agreement = ReplayAgreement
  import Movegen
  import Setup

  // ---- The board rules, in the words of Turns ---------------------------------------------------------

  lemma Found(pieces: seq<Piece>, mover: Piece)
    requires BoardOk(pieces) && mover in pieces
    ensures FindById(pieces, mover.id) == Some(mover)
  {
  }

  /** A move of a piece on the board is carried out exactly when it is one the piece can make. */
  lemma MoveAllowed(pieces: seq<Piece>, mover: Piece, to: Coord, parts: seq<ProblemPart>, turn: int)
    requires BoardOk(pieces) && mover in pieces && OnBoard(to) && |parts| == 64
    ensures Shipped().move(pieces, mover.id, to, parts, turn).Ok? <==> CanMove(pieces, mover, to)
  {
    EngineReach(pieces, mover, to);
    Found(pieces, mover);
    NormalizeSectorWraps(to.sector);
    hide CanReach, CanMove, Movegen.GenerateMoves, FindById, BoardOk, Without, Replacing, GetPieceAt, CaptureOf;
  }

  /** What a move makes of the pieces, and what it captures. */
  ghost predicate Made(pieces: seq<Piece>, mover: Piece, to: Coord, parts: seq<ProblemPart>, turn: int, r: MoveResult)
    requires OnBoard(to) && |parts| == 64
  {
    && r.promoted == Promotes(mover, to)
    && (forall p :: p in r.pieces <==>
          || p == Piece(mover.id, mover.side, if r.promoted then Queen else mover.kind, to, true)
          || (p in pieces && p != mover && p.at != to))
    && (r.capture.None? ==> forall q | q in pieces :: q.at != to)
    && (r.capture.Some? ==> r.capture.value.captured in pieces && r.capture.value.captured.at == to
                            && r.capture.value.captured.side != mover.side
                            && Recorded(r.capture.value, turn, mover, r.capture.value.captured, to, parts))
  }

  lemma MoveMakes(pieces: seq<Piece>, mover: Piece, to: Coord, parts: seq<ProblemPart>, turn: int)
    requires BoardOk(pieces) && mover in pieces && OnBoard(to) && |parts| == 64
    requires Shipped().move(pieces, mover.id, to, parts, turn).Ok?
    ensures Made(pieces, mover, to, parts, turn, Shipped().move(pieces, mover.id, to, parts, turn).value)
  {
    var r := ApplyMove(Movegen.GenerateMoves, pieces, mover.id, to, parts, turn).value;
    var victim := GetPieceAt(pieces, to);
    Movegen.EngineSound();
    MoveUnfolds(Movegen.GenerateMoves, pieces, mover, to, parts, turn);
    ReachedDestination(Movegen.GenerateMoves, pieces, mover, to);
    if victim.Some? {
      CaptureIs(pieces, mover, to, parts, turn);
      assert victim.value.side != mover.side;
    }
    hide *;
    LeftAre(pieces, mover, to, victim);
    Promoting(mover, to);
    MadeOf(pieces, mover, to, parts, turn, victim, r);
  }

  lemma CaptureIs(pieces: seq<Piece>, mover: Piece, to: Coord, parts: seq<ProblemPart>, turn: int)
    requires BoardOk(pieces) && mover in pieces && OnBoard(to) && |parts| == 64 && GetPieceAt(pieces, to).Some?
    requires ApplyMove(Movegen.GenerateMoves, pieces, mover.id, to, parts, turn).Ok?
    ensures var c := ApplyMove(Movegen.GenerateMoves, pieces, mover.id, to, parts, turn).value.capture;
            c.Some? && Recorded(c.value, turn, mover, GetPieceAt(pieces, to).value, to, parts)
  {
    hide CanReach, Movegen.GenerateMoves;
    NormalizeSectorWraps(to.sector);
    assert FindById(pieces, mover.id) == Some(mover);
  }

  lemma MadeOf(pieces: seq<Piece>, mover: Piece, to: Coord, parts: seq<ProblemPart>, turn: int, victim: Option<Piece>, r: MoveResult)
    requires OnBoard(to) && |parts| == 64 && r.promoted == Promotes(mover, to)
    requires forall p :: p in r.pieces <==>
               || p == Piece(mover.id, mover.side, if Promotes(mover, to) then Queen else mover.kind, to, true)
               || (p in pieces && p != mover && p.at != to)
    requires r.capture.Some? <==> victim.Some?
    requires victim.Some? ==> r.capture.value.captured == victim.value && victim.value in pieces && victim.value.at == to
                              && victim.value.side != mover.side && Recorded(r.capture.value, turn, mover, victim.value, to, parts)
    requires victim.None? ==> forall p | p in pieces :: p.at != to
    ensures Made(pieces, mover, to, parts, turn, r)
  {
    hide Recorded, Promotes;
  }

  lemma Promoting(mover: Piece, to: Coord)
    ensures ReachesFarEdge(mover, to) == Promotes(mover, to)
  {
  }

  /** The pieces after removing the one on the destination and landing the mover there. */
  lemma LeftAre(pieces: seq<Piece>, mover: Piece, to: Coord, victim: Option<Piece>)
    requires BoardOk(pieces) && mover in pieces
    requires victim.Some? ==> victim.value in pieces && victim.value.at == to && victim.value != mover
    requires victim.None? ==> forall p | p in pieces :: p.at != to
    ensures forall p :: p in Replacing(Left(pieces, victim), mover.id, Landed(mover, to)) <==>
              || p == Piece(mover.id, mover.side, if Promotes(mover, to) then Queen else mover.kind, to, true)
              || (p in pieces && p != mover && p.at != to)
  {
    var left, landed := Left(pieces, victim), Landed(mover, to);
    var after := Replacing(left, mover.id, landed);
    assert landed == Piece(mover.id, mover.side, if Promotes(mover, to) then Queen else mover.kind, to, true);
    forall p
      ensures p in left <==> p in pieces && (victim.Some? ==> p != victim.value)
    {
    }
    assert mover in left;
    forall p
      ensures p in after <==> p == landed || (p in left && p != mover)
    {
      if p in left && p != mover { assert p.id != mover.id; }
    }
    hide Left, Replacing, Landed;
  }

  // ---- One event ------------------------------------------------------------------------------------------

  lemma OpenState(s: ReplayState)
    requires Coherent(Shipped(), s)
    ensures CurrentOutcome(Shipped(), s).None? <==> s.outcome.None?
  {
    hide GetGameOutcome;
  }

  lemma PassExact(s: ReplayState, e: GameEvent, parts: seq<ProblemPart>)
    requires BoardOk(s.pieces) && Coherent(Shipped(), s) && e.ForcedPass? && |parts| == 64
    ensures ReplayStep(Shipped(), s, e, parts).Ok? <==> LegalTurn(s, e)
    ensures ReplayStep(Shipped(), s, e, parts).Ok? ==> TurnMade(s, e, parts, ReplayStep(Shipped(), s, e, parts).value)
  {
    OpenState(s);
    EngineMobile(s.pieces, s.turn);
    hide GetGameOutcome, HasLegalMove, Mobile, CurrentOutcome;
  }

  function CapturedId(r: MoveResult): Option<string> {
    if r.capture.Some? then Some(r.capture.value.captured.id) else None
  }

  /** The event of a move, and the state after it. */
  lemma AfterMove(s: ReplayState, mover: Piece, to: Coord, r: MoveResult)
    ensures var a := StateAfterMove(Shipped(), s, mover, to, r);
            && a.event == Move(s.completedPlies + 1, s.turn, mover.id, mover.at, to, CapturedId(r), r.promoted)
            && a.state.completedPlies == s.completedPlies + 1 && a.state.events == s.events + [a.event]
            && a.state.turn == (if a.state.outcome.Some? then s.turn else s.turn.Other())
            && a.state.pieces == r.pieces && a.state.lastMove == Some(LastMove(mover.at, to))
            && a.state.captures == (if r.capture.Some? then s.captures + [r.capture.value] else s.captures)
            && a.state.quietPlies == (if r.capture.Some? then 0 else s.quietPlies + 1)
  {
    hide GetGameOutcome;
  }

  lemma MadeTakes(pieces: seq<Piece>, mover: Piece, to: Coord, parts: seq<ProblemPart>, turn: int, r: MoveResult)
    requires OnBoard(to) && |parts| == 64 && Made(pieces, mover, to, parts, turn, r)
    ensures Takes(pieces, mover, to, CapturedId(r))
  {
    hide Recorded;
  }

  /** On a well-formed board only one id, or none, can be the captured one. */
  lemma TakesOne(pieces: seq<Piece>, mover: Piece, to: Coord, a: Option<string>, b: Option<string>)
    requires BoardOk(pieces) && Takes(pieces, mover, to, a) && Takes(pieces, mover, to, b)
    ensures a == b
  {
  }

  lemma MoveIsMade(s: ReplayState, e: GameEvent, mover: Piece, parts: seq<ProblemPart>, r: MoveResult, t: ReplayState)
    requires |parts| == 64 && e.Move? && OnBoard(e.to) && LegalMove(s, e, mover) && e.ply == s.completedPlies + 1
    requires Made(s.pieces, mover, e.to, parts, e.ply, r)
    requires t.completedPlies == e.ply && t.events == s.events + [e] && t.turn == (if t.outcome.Some? then s.turn else s.turn.Other())
    requires t.pieces == r.pieces && t.lastMove == Some(LastMove(mover.at, e.to))
    requires t.captures == if r.capture.Some? then s.captures + [r.capture.value] else s.captures
    requires t.quietPlies == if r.capture.Some? then 0 else s.quietPlies + 1
    requires e.capturedPieceId == CapturedId(r)
    ensures TurnMade(s, e, parts, t)
  {
    hide Recorded, CanMove, Takes;
    assert Lands(s, e, mover, t);
    assert Captures(s, e, mover, parts, t);
  }

  /** A move that the rules carry out, as an event and a new state. */
  lemma MoveMade(s: ReplayState, mover: Piece, to: Coord, parts: seq<ProblemPart>)
    requires BoardOk(s.pieces) && mover in s.pieces && mover.side == s.turn && OnBoard(to) && |parts| == 64
    requires Shipped().move(s.pieces, mover.id, to, parts, s.completedPlies + 1).Ok?
    ensures var a := StateAfterMove(Shipped(), s, mover, to, Shipped().move(s.pieces, mover.id, to, parts, s.completedPlies + 1).value);
            a.event.Move? && LegalMove(s, a.event, mover) && TurnMade(s, a.event, parts, a.state)
  {
    hide Shipped, BoardOk, CanMove, Takes, Made, Promotes, StateAfterMove, TurnMade;
    MoveAllowed(s.pieces, mover, to, parts, s.completedPlies + 1);
    MoveMakes(s.pieces, mover, to, parts, s.completedPlies + 1);
    var r := Shipped().move(s.pieces, mover.id, to, parts, s.completedPlies + 1).value;
    AfterMove(s, mover, to, r);
    MadeTakes(s.pieces, mover, to, parts, s.completedPlies + 1, r);
    MadePromotes(s.pieces, mover, to, parts, s.completedPlies + 1, r);
    var a := StateAfterMove(Shipped(), s, mover, to, r);
    assert LegalMove(s, a.event, mover);
    MoveIsMade(s, a.event, mover, parts, r, a.state);
  }

  lemma MadePromotes(pieces: seq<Piece>, mover: Piece, to: Coord, parts: seq<ProblemPart>, turn: int, r: MoveResult)
    requires OnBoard(to) && |parts| == 64 && Made(pieces, mover, to, parts, turn, r)
    ensures r.promoted == Promotes(mover, to)
  {
    hide Recorded, Promotes;
  }

  /** The event that a legal move must be recorded as is the one that was given. */
  lemma LegalEvent(s: ReplayState, e: GameEvent, mover: Piece, parts: seq<ProblemPart>)
    requires BoardOk(s.pieces) && e.Move? && LegalMove(s, e, mover) && e.ply == s.completedPlies + 1 && e.side == s.turn && |parts| == 64
    ensures OnBoard(e.to) && Shipped().move(s.pieces, mover.id, e.to, parts, e.ply).Ok?
    ensures StateAfterMove(Shipped(), s, mover, e.to, Shipped().move(s.pieces, mover.id, e.to, parts, e.ply).value).event == e
  {
    CanMoveOnBoard(s.pieces, mover, e.to);
    hide Shipped, BoardOk, CanMove, Takes, Made, Promotes, StateAfterMove;
    MoveAllowed(s.pieces, mover, e.to, parts, e.ply);
    MoveMakes(s.pieces, mover, e.to, parts, e.ply);
    var r := Shipped().move(s.pieces, mover.id, e.to, parts, e.ply).value;
    AfterMove(s, mover, e.to, r);
    MadeTakes(s.pieces, mover, e.to, parts, e.ply, r);
    MadePromotes(s.pieces, mover, e.to, parts, e.ply, r);
    TakesOne(s.pieces, mover, e.to, e.capturedPieceId, CapturedId(r));
  }

  lemma CanMoveOnBoard(pieces: seq<Piece>, mover: Piece, to: Coord)
    requires CanMove(pieces, mover, to)
    ensures OnBoard(to) && OnBoard(mover.at) && mover in pieces
  {
  }

  lemma NotBlank(e: GameEvent)
    requires Agreement.WellFormedEvent(e) && e.Move?
    ensures !IsBlank(e.pieceId) && ValidCoord(e.to) && ValidCoord(e.origin)
  {
    hide IsBlank;
  }

  lemma NoPassNeeded(rules: Rules, s: ReplayState)
    requires rules.hasMove(s.pieces, s.turn)
    ensures !NeedsPass(rules, s)
  {
  }

  /** The command of a legal move passes validation. */
  lemma LegalValidates(s: ReplayState, e: GameEvent, mover: Piece)
    requires BoardOk(s.pieces) && Coherent(Shipped(), s) && s.outcome.None? && Agreement.WellFormedEvent(e)
    requires e.Move? && LegalMove(s, e, mover) && e.ply == s.completedPlies + 1
    ensures Agreement.Validated(Shipped(), s, CommandOf(e), mover, e.to) && Shipped().hasMove(s.pieces, s.turn)
  {
    hide Takes, Promotes, CanMove, Shipped, BoardOk, Coherent, CurrentOutcome, Agreement.WellFormedEvent, IsBlank, CoordFrom, CoordValue;
    CanMoveOnBoard(s.pieces, mover, e.to);
    OpenState(s);
    Found(s.pieces, mover);
    RulesAllow(s.pieces, mover, e.to);
    NotBlank(e);
    Agreement.CoordRoundTrip(e.to);
  }

  lemma RulesAllow(pieces: seq<Piece>, mover: Piece, to: Coord)
    requires BoardOk(pieces) && CanMove(pieces, mover, to)
    ensures Shipped().reaches(mover, pieces, to) && Shipped().hasMove(pieces, mover.side)
  {
    assert mover in pieces && OnBoard(to);
    assert Mobile(pieces, mover.side);
    hide BoardOk, CanMove, Mobile, CanReach, HasLegalMove;
    EngineReach(pieces, mover, to);
    EngineMobile(pieces, mover.side);
  }

  lemma InvParts(s: ReplayState)
    requires GameInv(Shipped(), s)
    ensures BoardOk(s.pieces) && Coherent(Shipped(), s)
  {
    hide BoardOk, Coherent, Shipped, Kings, Trajectory;
  }

  lemma LegalMoveReplays(s: ReplayState, e: GameEvent, mover: Piece, parts: seq<ProblemPart>)
    requires GameInv(Shipped(), s) && Agreement.WellFormedEvent(e) && |parts| == 64
    requires e.Move? && s.outcome.None? && e.ply == s.completedPlies + 1 && e.side == s.turn && LegalMove(s, e, mover)
    ensures ReplayStep(Shipped(), s, e, parts).Ok?
  {
    hide GameInv, BoardOk, Coherent, Shipped, CanMove, Takes, Promotes, Lawful;
    hide ReplayStep, Agreement.WellFormedEvent, ValidateCommand, StateAfterMove, NeedsPass;
    InvParts(s);
    ShippedIsLawful();
    LegalEvent(s, e, mover, parts);
    LegalValidates(s, e, mover);
    hide LegalMove;
    Agreement.RecordedValidates(Shipped(), s, e, mover, e.to);
    ValidatedParts(s, CommandOf(e), mover, e.to);
    hide Agreement.Validated;
    NoPassNeeded(Shipped(), s);
    Agreement.CanonicalStep(Shipped(), s, mover, e.to, parts);
  }

  lemma ValidatedParts(s: ReplayState, cmd: MoveCommand, mover: Piece, to: Coord)
    requires Agreement.Validated(Shipped(), s, cmd, mover, to)
    ensures CurrentOutcome(Shipped(), s).None? && mover in s.pieces && mover.side == s.turn && OnBoard(to) && ValidCoord(mover.at)
    ensures cmd.expectedPly == Int(s.completedPlies + 1) && CoordFrom(cmd.to) == Some(to)
  {
    hide IsBlank, CoordFrom, CurrentOutcome, Shipped;
  }

  lemma MoveReplaysLegal(s: ReplayState, e: GameEvent, parts: seq<ProblemPart>)
    requires GameInv(Shipped(), s) && Agreement.WellFormedEvent(e) && |parts| == 64
    requires e.Move? && ReplayStep(Shipped(), s, e, parts).Ok?
    ensures LegalTurn(s, e) && TurnMade(s, e, parts, ReplayStep(Shipped(), s, e, parts).value)
  {
    hide *;
    InvParts(s);
    ShippedIsLawful();
    OpenState(s);
    NotBlank(e);
    Agreement.StepIsCanonical(Shipped(), s, e, parts);
    var mover, to, result := Agreement.MoveUnfolds(Shipped(), s, CommandOf(e), parts);
    Agreement.ValidationExact(Shipped(), s, CommandOf(e), mover, to);
    Agreement.CoordRoundTrip(e.to);
    ValidatedParts(s, CommandOf(e), mover, to);
    CommandTells(e);
    MoveMade(s, mover, to, parts);
    AfterMove(s, mover, to, result);
    LegalIs(s, e, mover);
  }

  lemma CommandTells(e: GameEvent)
    requires e.Move?
    ensures CommandOf(e).expectedPly == Int(e.ply) && CommandOf(e).to == CoordValue(e.to)
  {
    hide CoordValue;
  }

  lemma LegalIs(s: ReplayState, e: GameEvent, mover: Piece)
    requires e.Move? && s.outcome.None? && e.ply == s.completedPlies + 1 && e.side == s.turn && LegalMove(s, e, mover)
    ensures LegalTurn(s, e)
  {
    hide LegalMove;
  }

  /** A stored event is accepted exactly when it is a legal turn, and it does what such a turn does. */
  lemma StepExact(s: ReplayState, e: GameEvent, parts: seq<ProblemPart>)
    requires GameInv(Shipped(), s) && Agreement.WellFormedEvent(e) && |parts| == 64
    ensures ReplayStep(Shipped(), s, e, parts).Ok? <==> LegalTurn(s, e)
    ensures ReplayStep(Shipped(), s, e, parts).Ok? ==> TurnMade(s, e, parts, ReplayStep(Shipped(), s, e, parts).value)
  {
    hide GameInv, Shipped, ReplayStep, LegalMove, TurnMade, Mobile, BoardOk, Coherent, Agreement.WellFormedEvent;
    InvParts(s);
    if e.ForcedPass? {
      PassExact(s, e, parts);
    } else {
      if ReplayStep(Shipped(), s, e, parts).Ok? { MoveReplaysLegal(s, e, parts); }
      if LegalTurn(s, e) {
        var mover :| LegalMove(s, e, mover);
        LegalMoveReplays(s, e, mover, parts);
      }
    }
  }
}
