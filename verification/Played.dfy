/** The replay accepts exactly the games of the rules. */
module Played {
  import opened Wrappers
  import opened Types
  import opened Game
  import opened Replay
  import opened Conservation
  import opened GameInvariants
  import opened WebChess
  import opened Turns
  import opened TurnFacts
  import Agreement = ReplayAgreement
  import Endings
  import Reach

  /** Both kings stand, somebody can move, and neither limit is reached. */
  ghost predicate GoesOn(s: ReplayState) {
    && Endings.BothKings(s.pieces) && (Mobile(s.pieces, White) || Mobile(s.pieces, Black))
    && s.quietPlies < 100 && s.completedPlies < 256
  }

  /** A legal turn of the state before it that makes the one after it, which is over when it must be. */
  ghost predicate Turn(s: ReplayState, e: GameEvent, parts: seq<ProblemPart>, t: ReplayState)
    requires |parts| == 64
  {
    LegalTurn(s, e) && TurnMade(s, e, parts, t) && (t.outcome.None? <==> GoesOn(t))
  }

  /** Turn by turn, from state to state. */
  ghost predicate Plays(states: seq<ReplayState>, events: seq<GameEvent>, parts: seq<ProblemPart>)
    requires |parts| == 64
  {
    |states| == |events| + 1 && forall i | 0 <= i < |events| :: Turn(states[i], events[i], parts, states[i + 1])
  }

  /** A game stops when it is over or the side to move can move: a pass that is due has been made. */
  ghost predicate Rests(s: ReplayState) {
    s.outcome.Some? || Mobile(s.pieces, s.turn)
  }

  /** From the opening, turn by turn, to a state that waits for a move or is over. */
  ghost predicate IsGame(states: seq<ReplayState>, events: seq<GameEvent>, parts: seq<ProblemPart>)
    requires |parts| == 64
  {
    Plays(states, events, parts) && states[0] == CreateReplayState(Shipped()) && Rests(states[|events|])
  }

  // ---- From logs to games -----------------------------------------------------------------------------

  lemma StepPlays(s: ReplayState, e: GameEvent, parts: seq<ProblemPart>)
    requires GameInv(Shipped(), s) && Agreement.WellFormedEvent(e) && |parts| == 64 && ReplayStep(Shipped(), s, e, parts).Ok?
    ensures var t := ReplayStep(Shipped(), s, e, parts).value;
            Turn(s, e, parts, t) && GameInv(Shipped(), t)
  {
    hide *;
    ShippedIsLawful();
    StepExact(s, e, parts);
    StepKeepsInv(Shipped(), s, e, parts);
    Endings.StepEndsRight(Shipped(), s, e, parts);
    OverIsOver(ReplayStep(Shipped(), s, e, parts).value);
    TurnIs(s, e, parts, ReplayStep(Shipped(), s, e, parts).value);
  }

  lemma TurnIs(s: ReplayState, e: GameEvent, parts: seq<ProblemPart>, t: ReplayState)
    requires |parts| == 64
    ensures Turn(s, e, parts, t) <==> LegalTurn(s, e) && TurnMade(s, e, parts, t) && (t.outcome.None? <==> GoesOn(t))
  {
    hide LegalTurn, TurnMade, GoesOn;
  }

  lemma OverIsOver(t: ReplayState)
    requires GameInv(Shipped(), t) && Endings.EndsRight(Shipped(), t)
    ensures t.outcome.None? <==> GoesOn(t)
  {
    InvParts(t);
    EngineMobile(t.pieces, White);
    EngineMobile(t.pieces, Black);
    hide GameInv, HasLegalMove, Mobile, BoardOk, Endings.EndsBy, Endings.BothKings;
  }

  lemma PlaysBefore(s: ReplayState, e: GameEvent, states: seq<ReplayState>, events: seq<GameEvent>, parts: seq<ProblemPart>)
    requires |parts| == 64 && Plays(states, events, parts) && Turn(s, e, parts, states[0])
    ensures Plays([s] + states, [e] + events, parts)
  {
    hide Turn;
    var all, log := [s] + states, [e] + events;
    forall i | 0 <= i < |log|
      ensures Turn(all[i], log[i], parts, all[i + 1])
    {
      if i > 0 { assert log[i] == events[i - 1] && all[i] == states[i - 1]; }
    }
  }

  lemma PlaysAfter(states: seq<ReplayState>, events: seq<GameEvent>, parts: seq<ProblemPart>)
    requires |parts| == 64 && Plays(states, events, parts) && events != []
    ensures Turn(states[0], events[0], parts, states[1]) && Plays(states[1..], events[1..], parts)
  {
    hide Turn;
    forall i | 0 <= i < |events[1..]|
      ensures Turn(states[1..][i], events[1..][i], parts, states[1..][i + 1])
    {
      assert events[1..][i] == events[i + 1];
    }
  }

  lemma {:induction false} StepsPlayed(s: ReplayState, events: seq<GameEvent>, parts: seq<ProblemPart>) returns (states: seq<ReplayState>)
    requires GameInv(Shipped(), s) && |parts| == 64 && forall e | e in events :: Agreement.WellFormedEvent(e)
    requires Agreement.Steps(Shipped(), s, events, parts).Ok?
    ensures Plays(states, events, parts) && |states| == |events| + 1 && states[0] == s
    ensures states[|events|] == Agreement.Steps(Shipped(), s, events, parts).value
    decreases |events|
  {
    hide GameInv, Agreement.WellFormedEvent, Shipped, ReplayStep, Turn;
    if events == [] {
      states := [s];
    } else {
      StepPlays(s, events[0], parts);
      var rest := StepsPlayed(ReplayStep(Shipped(), s, events[0], parts).value, events[1..], parts);
      hide Agreement.Steps;
      PlaysBefore(s, events[0], rest, events[1..], parts);
      states := [s] + rest;
      assert [events[0]] + events[1..] == events;
    }
  }

  // ---- From games to logs -------------------------------------------------------------------------------

  /** The same pieces in any order, and the same moment of the game. */
  ghost predicate Alike(s: ReplayState, t: ReplayState) {
    && (forall p :: p in s.pieces <==> p in t.pieces) && s.turn == t.turn
    && s.completedPlies == t.completedPlies && s.quietPlies == t.quietPlies && (s.outcome.None? <==> t.outcome.None?)
  }

  lemma CanMoveAlike(pieces: seq<Piece>, others: seq<Piece>, p: Piece, to: Coord)
    requires (forall q :: q in pieces <==> q in others) && CanMove(pieces, p, to)
    ensures CanMove(others, p, to)
  {
    hide Reach.Reaches;
    var b: Position :| Shows(b, pieces) && Reach.Reaches(b, p.side, p.kind, Square(p.at), Square(to));
    assert Shows(b, others) by { ShowsAlike(b, pieces, others); }
  }

  lemma ShowsAlike(b: Position, pieces: seq<Piece>, others: seq<Piece>)
    requires (forall q :: q in pieces <==> q in others) && Shows(b, pieces)
    ensures Shows(b, others)
  {
    forall c: Coord | OnBoard(c) && (forall p | p in others :: p.at != c)
      ensures b[Square(c)] == Empty
    {
      assert forall p | p in pieces :: p.at != c;
    }
  }

  lemma MobileAlike(pieces: seq<Piece>, others: seq<Piece>, side: Side)
    requires (forall q :: q in pieces <==> q in others) && Mobile(pieces, side)
    ensures Mobile(others, side)
  {
    hide CanMove;
    var p, to :| p in pieces && p.side == side && CanMove(pieces, p, to);
    CanMoveAlike(pieces, others, p, to);
  }

  lemma LegalMoveAlike(s: ReplayState, t: ReplayState, e: GameEvent, mover: Piece)
    requires Alike(s, t) && e.Move? && LegalMove(s, e, mover)
    ensures LegalMove(t, e, mover)
  {
    hide CanMove;
    CanMoveAlike(s.pieces, t.pieces, mover, e.to);
  }

  lemma LegalTurnAlike(s: ReplayState, t: ReplayState, e: GameEvent)
    requires Alike(s, t) && LegalTurn(s, e)
    ensures LegalTurn(t, e)
  {
    hide LegalMove, Mobile;
    if e.ForcedPass? {
      if Mobile(t.pieces, t.turn) { MobileAlike(t.pieces, s.pieces, t.turn); }
    } else {
      var mover :| LegalMove(s, e, mover);
      LegalMoveAlike(s, t, e, mover);
    }
  }

  lemma GoesOnAlike(s: ReplayState, t: ReplayState)
    requires (forall p :: p in s.pieces <==> p in t.pieces) && s.completedPlies == t.completedPlies && s.quietPlies == t.quietPlies
    requires GoesOn(s)
    ensures GoesOn(t)
  {
    hide Mobile;
    if Mobile(s.pieces, White) { MobileAlike(s.pieces, t.pieces, White); } else { MobileAlike(s.pieces, t.pieces, Black); }
  }

  /** A well-formed board has one mover of an id, so the turn makes one state, up to the order of the pieces. */
  lemma MoverOnce(s: ReplayState, t: ReplayState, e: GameEvent, p: Piece, q: Piece)
    requires BoardOk(s.pieces) && Alike(s, t) && e.Move? && LegalMove(s, e, p) && LegalMove(t, e, q)
    ensures p == q
  {
    hide CanMove;
  }

  lemma TurnMadeAlike(s: ReplayState, s': ReplayState, e: GameEvent, parts: seq<ProblemPart>, t: ReplayState, t': ReplayState)
    requires BoardOk(s.pieces) && Alike(s, s') && |parts| == 64 && TurnMade(s, e, parts, t) && TurnMade(s', e, parts, t')
    requires (t.outcome.None? <==> GoesOn(t)) && (t'.outcome.None? <==> GoesOn(t'))
    ensures Alike(t, t')
  {
    hide GoesOn, BoardOk, LegalMove;
    if e.Move? {
      var p :| LegalMove(s, e, p) && Lands(s, e, p, t) && Captures(s, e, p, parts, t);
      var q :| LegalMove(s', e, q) && Lands(s', e, q, t') && Captures(s', e, q, parts, t');
      MoverOnce(s, s', e, p, q);
      hide Recorded;
    }
    if GoesOn(t) { GoesOnAlike(t, t'); }
    if GoesOn(t') { GoesOnAlike(t', t); }
  }

  /** A turn of a state alike is accepted here and leads to a state alike. */
  lemma TurnReplays(s: ReplayState, s': ReplayState, e: GameEvent, parts: seq<ProblemPart>, t': ReplayState)
    requires GameInv(Shipped(), s) && Agreement.WellFormedEvent(e) && |parts| == 64 && Alike(s, s') && Turn(s', e, parts, t')
    ensures ReplayStep(Shipped(), s, e, parts).Ok?
    ensures var t := ReplayStep(Shipped(), s, e, parts).value; GameInv(Shipped(), t) && Alike(t, t')
  {
    hide *;
    TurnIs(s', e, parts, t');
    AlikeBack(s, s');
    LegalTurnAlike(s', s, e);
    StepExact(s, e, parts);
    StepPlays(s, e, parts);
    var t := ReplayStep(Shipped(), s, e, parts).value;
    TurnIs(s, e, parts, t);
    InvParts(s);
    TurnMadeAlike(s, s', e, parts, t, t');
  }

  lemma {:induction false} GameReplays(s: ReplayState, states: seq<ReplayState>, events: seq<GameEvent>, parts: seq<ProblemPart>)
    requires GameInv(Shipped(), s) && |parts| == 64 && forall e | e in events :: Agreement.WellFormedEvent(e)
    requires Plays(states, events, parts) && |states| == |events| + 1 && Alike(s, states[0])
    ensures var r := Agreement.Steps(Shipped(), s, events, parts);
            r.Ok? && GameInv(Shipped(), r.value) && Alike(r.value, states[|events|])
    decreases |events|
  {
    hide GameInv, Agreement.WellFormedEvent, Shipped, ReplayStep, Turn, Alike, Plays;
    if events != [] {
      PlaysAfter(states, events, parts);
      TurnReplays(s, states[0], events[0], parts, states[1]);
      var t := ReplayStep(Shipped(), s, events[0], parts).value;
      GameReplays(t, states[1..], events[1..], parts);
    }
  }

  lemma AlikeBack(s: ReplayState, t: ReplayState)
    requires Alike(s, t)
    ensures Alike(t, s)
  {
  }

  lemma RestsAlike(s: ReplayState, t: ReplayState)
    requires GameInv(Shipped(), s) && Alike(s, t)
    ensures Rests(t) <==> s.outcome.Some? || Shipped().hasMove(s.pieces, s.turn)
  {
    InvParts(s);
    EngineMobile(s.pieces, s.turn);
    hide GameInv, Mobile, HasLegalMove, BoardOk;
    if Mobile(s.pieces, s.turn) { MobileAlike(s.pieces, t.pieces, s.turn); }
    if Mobile(t.pieces, t.turn) { MobileAlike(t.pieces, s.pieces, s.turn); }
  }

  /**
   * The stored events of a game replay exactly when they are a game of the rules: legal turns from the
   * opening, each with its effect, over when the rules end them, and no pass left to make.
   */
  lemma ReplaysIffPlayed(events: seq<GameEvent>, parts: seq<ProblemPart>)
    requires |parts| == 64 && forall e | e in events :: Agreement.WellFormedEvent(e)
    ensures Replayed(Shipped(), Agreement.LogValues(events), parts).Ok? <==> exists states :: IsGame(states, events, parts)
  {
    var start := CreateReplayState(Shipped());
    hide *;
    ShippedIsLawful();
    InitialInv(Shipped());
    if Replayed(Shipped(), Agreement.LogValues(events), parts).Ok? {
      var states := LogPlayed(events, parts);
    }
    if states :| IsGame(states, events, parts) {
      GameIs(states, events, parts);
      AlikeSelf(start);
      GameReplays(start, states, events, parts);
      RestsAlike(Agreement.Steps(Shipped(), start, events, parts).value, states[|events|]);
      Agreement.StoredLogReplays(Shipped(), start, events, parts, 0);
      FromStart(Agreement.LogValues(events), parts);
    }
  }

  lemma GameIs(states: seq<ReplayState>, events: seq<GameEvent>, parts: seq<ProblemPart>)
    requires |parts| == 64
    ensures IsGame(states, events, parts) <==>
            && Plays(states, events, parts) && |states| == |events| + 1
            && states[0] == CreateReplayState(Shipped()) && Rests(states[|events|])
  {
    hide Turn, Rests, CreateReplayState, Shipped;
  }

  lemma AlikeSelf(s: ReplayState)
    ensures Alike(s, s)
  {
  }

  lemma FromStart(log: seq<Value>, parts: seq<ProblemPart>)
    requires |parts| == 64
    ensures Replayed(Shipped(), log, parts) == ReplayFrom(Shipped(), CreateReplayState(Shipped()), log, parts, 0)
  {
    hide ReplayFrom, CreateReplayState;
  }

  lemma LogPlayed(events: seq<GameEvent>, parts: seq<ProblemPart>) returns (states: seq<ReplayState>)
    requires |parts| == 64 && forall e | e in events :: Agreement.WellFormedEvent(e)
    requires Replayed(Shipped(), Agreement.LogValues(events), parts).Ok?
    ensures IsGame(states, events, parts) && |states| == |events| + 1
    ensures states[|events|] == Replayed(Shipped(), Agreement.LogValues(events), parts).value
  {
    var start := CreateReplayState(Shipped());
    hide *;
    ShippedIsLawful();
    InitialInv(Shipped());
    FromStart(Agreement.LogValues(events), parts);
    LogSteps(start, events, parts, 0);
    states := StepsPlayed(start, events, parts);
    ReplayKeepsInv(Shipped(), start, Agreement.LogValues(events), parts, 0);
    var t := Agreement.Steps(Shipped(), start, events, parts).value;
    AlikeSelf(t);
    RestsAlike(t, t);
    GameIs(states, events, parts);
  }

  /** Replaying a stored log takes the steps of its events and ends in a settled state. */
  lemma {:induction false} LogSteps(s: ReplayState, events: seq<GameEvent>, parts: seq<ProblemPart>, index: nat)
    requires forall e | e in events :: Agreement.WellFormedEvent(e)
    requires ReplayFrom(Shipped(), s, Agreement.LogValues(events), parts, index).Ok?
    ensures Agreement.Steps(Shipped(), s, events, parts) == Ok(ReplayFrom(Shipped(), s, Agreement.LogValues(events), parts, index).value)
    ensures var t := Agreement.Steps(Shipped(), s, events, parts).value; t.outcome.Some? || Shipped().hasMove(t.pieces, t.turn)
    decreases |events|
  {
    hide Shipped, ParseEvent, Agreement.EventValue, ReplayStep, Agreement.WellFormedEvent;
    if events != [] {
      var log := Agreement.LogValues(events);
      Agreement.ParseStored(events[0]);
      assert log[0] == Agreement.EventValue(events[0]) && log[1..] == Agreement.LogValues(events[1..]);
      Agreement.FirstEvent(Shipped(), s, log, parts, index);
      LogSteps(ReplayStep(Shipped(), s, events[0], parts).value, events[1..], parts, index + 1);
    }
  }

  // ---- Untrusted logs -------------------------------------------------------------------------------------

  predicate IsCell(v: Value, c: Coord) {
    v.Obj? && OnBoard(c) && Field(v.fields, RingKey) == Int(c.ring) && Field(v.fields, SectorKey) == Int(c.sector)
  }

  /** The record of an event, field by field; whatever else it holds is not read. */
  ghost predicate Records(v: Value, e: GameEvent) {
    && v.Obj? && Field(v.fields, VersionKey) == Int(1)
    && e.ply >= 1 && Field(v.fields, PlyKey) == Int(e.ply)
    && Field(v.fields, SideKey) == Str(if e.side == White then "white" else "black")
    && (e.ForcedPass? ==> Field(v.fields, TypeKey) == Str("forced-pass") && Field(v.fields, ReasonKey) == Str("no-legal-move"))
    && (e.Move? ==>
          && Field(v.fields, TypeKey) == Str("move")
          && Field(v.fields, PieceIdKey) == Str(e.pieceId) && !IsBlank(e.pieceId)
          && IsCell(Field(v.fields, FromKey), e.origin) && IsCell(Field(v.fields, ToKey), e.to)
          && (match e.capturedPieceId
              case None => Field(v.fields, CapturedPieceIdKey) == Undefined
              case Some(id) => Field(v.fields, CapturedPieceIdKey) == Str(id) && |id| > 0)
          && Field(v.fields, PromotedToKey) == if e.promoted then Str("queen") else Undefined)
  }

  lemma CellIs(v: Value, c: Coord)
    ensures CoordFrom(v) == Some(c) <==> IsCell(v, c)
  {
  }

  lemma MoveRecords(f: map<Name, Value>, ply: int, side: Side, e: GameEvent)
    requires e.Move?
    ensures ParseMove(f, ply, side) == Some(e) <==>
              && ply == e.ply && side == e.side
              && Field(f, PieceIdKey) == Str(e.pieceId) && !IsBlank(e.pieceId)
              && IsCell(Field(f, FromKey), e.origin) && IsCell(Field(f, ToKey), e.to)
              && (match e.capturedPieceId
                  case None => Field(f, CapturedPieceIdKey) == Undefined
                  case Some(id) => Field(f, CapturedPieceIdKey) == Str(id) && |id| > 0)
              && Field(f, PromotedToKey) == if e.promoted then Str("queen") else Undefined
  {
    CellIs(Field(f, FromKey), e.origin);
    CellIs(Field(f, ToKey), e.to);
    assert forall s: string :: s == "" <==> |s| == 0;
    hide IsBlank, CoordFrom, IsCell;
  }

  lemma SidesDiffer(side: Side)
    ensures Str("white") != Str("black") && Str("move") != Str("forced-pass")
  {
    assert "white"[0] != "black"[0] && |"move"| != |"forced-pass"|;
  }

  /** A value is parsed as an event exactly when it is a record of it. */
  lemma ParseExact(v: Value, e: GameEvent)
    ensures ParseEvent(v) == Some(e) <==> Records(v, e)
  {
    SidesDiffer(White);
    if v.Obj? && e.Move? { MoveRecords(v.fields, e.ply, e.side, e); }
    hide ParseMove, IsBlank, IsCell;
    if v.Obj? && Field(v.fields, TypeKey) == Str("move") { MoveSays(v.fields, e); }
  }

  lemma MoveSays(f: map<Name, Value>, e: GameEvent)
    ensures forall ply, side :: ParseMove(f, ply, side) == Some(e) ==> e.Move? && e.ply == ply && e.side == side
  {
    hide CoordFrom, IsBlank;
  }

  lemma RecordsWellFormed(v: Value, e: GameEvent)
    requires Records(v, e)
    ensures Agreement.WellFormedEvent(e)
  {
    hide IsBlank;
  }

  /** Only what a log parses to matters. */
  lemma {:induction false} SameParse(s: ReplayState, log: seq<Value>, events: seq<GameEvent>, parts: seq<ProblemPart>, index: nat)
    requires |log| == |events| && forall i | 0 <= i < |log| :: ParseEvent(log[i]) == Some(events[i]) && Agreement.WellFormedEvent(events[i])
    ensures ReplayFrom(Shipped(), s, log, parts, index) == ReplayFrom(Shipped(), s, Agreement.LogValues(events), parts, index)
    decreases |log|
  {
    hide Shipped, ParseEvent, Agreement.EventValue, Agreement.WellFormedEvent, ReplayStep;
    if log != [] {
      var stored := Agreement.LogValues(events);
      Agreement.ParseStored(events[0]);
      assert stored[0] == Agreement.EventValue(events[0]) && stored[1..] == Agreement.LogValues(events[1..]);
      match ReplayStep(Shipped(), s, events[0], parts)
      case Ok(next) => SameParse(next, log[1..], events[1..], parts, index + 1);
      case Err(_) =>
    }
  }

  /** The log records these events, one after the other. */
  ghost predicate Logs(log: seq<Value>, events: seq<GameEvent>) {
    |log| == |events| && forall i | 0 <= i < |log| :: Records(log[i], events[i])
  }

  lemma LogsParse(log: seq<Value>, events: seq<GameEvent>)
    ensures Logs(log, events) <==> Agreement.ParsesTo(log, events)
    ensures Logs(log, events) ==>
              && |log| == |events|
              && forall i | 0 <= i < |log| :: ParseEvent(log[i]) == Some(events[i]) && Agreement.WellFormedEvent(events[i])
  {
    hide Records, ParseEvent, Agreement.WellFormedEvent;
    if |log| == |events| {
      forall i | 0 <= i < |log|
        ensures ParseEvent(log[i]) == Some(events[i]) <==> Records(log[i], events[i])
        ensures Records(log[i], events[i]) ==> Agreement.WellFormedEvent(events[i])
      {
        ParseExact(log[i], events[i]);
        if Records(log[i], events[i]) { RecordsWellFormed(log[i], events[i]); }
      }
    }
  }

  lemma LogsReplay(log: seq<Value>, events: seq<GameEvent>, parts: seq<ProblemPart>)
    requires |parts| == 64 && Logs(log, events)
    ensures Replayed(Shipped(), log, parts) == Replayed(Shipped(), Agreement.LogValues(events), parts)
    ensures forall e | e in events :: Agreement.WellFormedEvent(e)
  {
    var start := CreateReplayState(Shipped());
    LogsParse(log, events);
    hide *;
    SameParse(start, log, events, parts, 0);
    FromStart(log, parts);
    FromStart(Agreement.LogValues(events), parts);
  }

  /** Whatever is handed to it, the replay accepts exactly the records of a game of the rules. */
  lemma AcceptsExactlyGames(log: seq<Value>, parts: seq<ProblemPart>)
    requires |parts| == 64
    ensures Replayed(Shipped(), log, parts).Ok? <==> exists events, states :: Logs(log, events) && IsGame(states, events, parts)
  {
    hide *;
    if Replayed(Shipped(), log, parts).Ok? {
      ShippedIsLawful();
      Agreement.AcceptedLogsAreCanonical(Shipped(), log, parts);
      var events := Replayed(Shipped(), log, parts).value.events;
      LogsParse(log, events);
      LogsReplay(log, events, parts);
      ReplaysIffPlayed(events, parts);
      var states :| IsGame(states, events, parts);
    }
    if events, states :| Logs(log, events) && IsGame(states, events, parts) {
      LogsReplay(log, events, parts);
      ReplaysIffPlayed(events, parts);
    }
  }
}
