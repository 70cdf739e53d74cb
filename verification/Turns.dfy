/** Every turn of the shipped game, on the board. */
module Turns {
  import opened Wrappers
  import opened Types
  import opened Game
  import opened Replay
  import opened Conservation
  import opened GameInvariants
  import opened WebChess
  import Agreement = ReplayAgreement
  import Movegen
  import Reach
  import Setup
  import Text

  // ---- The board that the pieces show -----------------------------------------------------------------

  /** The square of a cell on the board. */
  function Square(c: Coord): int {
    c.ring * 8 + c.sector
  }

  predicate OnBoard(c: Coord) {
    0 <= c.ring < 8 && 0 <= c.sector < 8
  }

  /** Every piece is on its square, and the other squares are empty. */
  ghost predicate Shows(b: Position, pieces: seq<Piece>) {
    && (forall p | p in pieces :: OnBoard(p.at) && b[Square(p.at)] == Occupied(p.side, p.kind, p.moved))
    && (forall c: Coord | OnBoard(c) && (forall p | p in pieces :: p.at != c) :: b[Square(c)] == Empty)
  }

  lemma BoardCells(pieces: seq<Piece>)
    requires BoardOk(pieces)
    ensures forall p | p in pieces :: ValidCoord(p.at)
    ensures forall p, q | p in pieces && q in pieces && p.at == q.at :: p == q
  {
  }

  lemma PositionShows(pieces: seq<Piece>)
    requires BoardOk(pieces)
    ensures Shows(PositionOf(pieces), pieces)
  {
    BoardCells(pieces);
    hide BoardOk, PositionOf;
    forall p | p in pieces
      ensures OnBoard(p.at) && PositionOf(pieces)[Square(p.at)] == Occupied(p.side, p.kind, p.moved)
    {
      PieceShows(pieces, p);
    }
    forall c: Coord | OnBoard(c) && (forall p | p in pieces :: p.at != c)
      ensures PositionOf(pieces)[Square(c)] == Empty
    {
      PositionEmpty(pieces, c);
    }
  }

  lemma PieceShows(pieces: seq<Piece>, p: Piece)
    requires BoardOk(pieces) && p in pieces
    ensures OnBoard(p.at) && PositionOf(pieces)[Square(p.at)] == Occupied(p.side, p.kind, p.moved)
  {
    BoardCells(pieces);
    hide BoardOk, PositionOf;
    PositionHolds(pieces, p);
  }

  /** The pieces determine the board, whatever their order and however often they are listed. */
  lemma ShownOnce(b: Position, d: Position, pieces: seq<Piece>, others: seq<Piece>)
    requires Shows(b, pieces) && Shows(d, others) && forall p :: p in pieces <==> p in others
    ensures b == d
  {
    forall i | 0 <= i < 64
      ensures b[i] == d[i]
    {
      var c := Coord(i / 8, i % 8);
      assert OnBoard(c) && Square(c) == i;
      if p :| p in pieces && p.at == c { assert p in others; }
    }
  }

  /** The rules of movement let this piece go to this cell. */
  ghost predicate CanMove(pieces: seq<Piece>, p: Piece, to: Coord) {
    && p in pieces && OnBoard(p.at) && OnBoard(to)
    && exists b: Position :: Shows(b, pieces) && Reach.Reaches(b, p.side, p.kind, Square(p.at), Square(to))
  }

  lemma WithCopy(pieces: seq<Piece>, p: Piece)
    requires BoardOk(pieces) && p in pieces
    ensures BoardOk(pieces + [p]) && PositionOf(pieces + [p]) == PositionOf(pieces)
  {
    hide PositionOf;
    assert forall q :: q in pieces + [p] <==> q in pieces;
    PositionShows(pieces);
    PositionShows(pieces + [p]);
    ShownOnce(PositionOf(pieces), PositionOf(pieces + [p]), pieces, pieces + [p]);
  }

  lemma CanMoveShown(pieces: seq<Piece>, p: Piece, to: Coord)
    requires BoardOk(pieces) && p in pieces && OnBoard(to)
    ensures CanMove(pieces, p, to) <==> Reach.Reaches(PositionOf(pieces), p.side, p.kind, Square(p.at), Square(to))
  {
    hide Reach.Reaches, PositionOf;
    PositionShows(pieces);
    if CanMove(pieces, p, to) {
      var b: Position :| Shows(b, pieces) && Reach.Reaches(b, p.side, p.kind, Square(p.at), Square(to));
      ShownOnce(b, PositionOf(pieces), pieces, pieces);
    }
  }

  lemma SquareIs(c: Coord)
    requires OnBoard(c)
    ensures ValidCoord(c) && SquareOf(c) == Square(c) && Square(c) < 64 && CoordOf(Square(c)) == c
  {
  }

  /** What the rules ask the engine for is what the rules of movement say. */
  lemma EngineReach(pieces: seq<Piece>, p: Piece, to: Coord)
    requires BoardOk(pieces) && p in pieces && OnBoard(to)
    ensures CanReach(Movegen.GenerateMoves, p, pieces, to) <==> CanMove(pieces, p, to)
  {
    var b := PositionOf(pieces);
    WithCopy(pieces, p);
    CanMoveShown(pieces, p, to);
    PositionShows(pieces);
    SquareIs(p.at);
    SquareIs(to);
    Reach.MovesExact(b, p.side, Square(p.at), Square(to));
    TargetsFromExactly(Movegen.GenerateMoves(b, p.side), Square(p.at));
    Movegen.EngineSound();
    hide PositionOf, Reach.Reaches, CanMove, Movegen.GenerateMoves, TargetsFrom, BoardOk;
    if CanReach(Movegen.GenerateMoves, p, pieces, to) {
      var c :| c in LegalMoves(Movegen.GenerateMoves, p, pieces) && SameCoord(c, to);
      var m :| m in Movegen.GenerateMoves(b, p.side) && m.origin == Square(p.at) && c == CoordOf(m.target);
      OnlyTarget(m.target, to);
      assert m == Step(Square(p.at), Square(to));
    }
    if CanMove(pieces, p, to) {
      assert Step(Square(p.at), Square(to)) in Movegen.GenerateMoves(b, p.side);
      assert to in LegalMoves(Movegen.GenerateMoves, p, pieces);
      assert SameCoord(to, to);
    }
  }

  lemma OnlyTarget(target: nat, to: Coord)
    requires target < 64 && OnBoard(to) && SameCoord(CoordOf(target), to)
    ensures target == Square(to)
  {
    NormalizeSectorWraps(target % 8);
    NormalizeSectorWraps(to.sector);
  }

  /** Some piece of the side can move. */
  ghost predicate Mobile(pieces: seq<Piece>, side: Side) {
    exists p, to :: p in pieces && p.side == side && CanMove(pieces, p, to)
  }

  lemma EngineMobile(pieces: seq<Piece>, side: Side)
    requires BoardOk(pieces)
    ensures HasLegalMove(Movegen.GenerateMoves, pieces, side) <==> Mobile(pieces, side)
  {
    var b := PositionOf(pieces);
    var moves := Movegen.GenerateMoves(b, side);
    Movegen.EngineSound();
    hide PositionOf, Reach.Reaches, CanMove, Movegen.GenerateMoves;
    if HasLegalMove(Movegen.GenerateMoves, pieces, side) {
      var m := moves[0];
      assert m in moves;
      var p := PieceOn(pieces, m.origin);
      var to := CoordOf(m.target);
      Reach.MovesExact(b, side, m.origin, m.target);
      CanMoveShown(pieces, p, to);
    }
    if Mobile(pieces, side) {
      var p, to :| p in pieces && p.side == side && CanMove(pieces, p, to);
      MoveListed(pieces, p, to);
    }
  }

  /** The piece on an occupied square. */
  lemma PieceOn(pieces: seq<Piece>, square: nat) returns (p: Piece)
    requires BoardOk(pieces) && square < 64 && PositionOf(pieces)[square].Occupied?
    ensures p in pieces && Square(p.at) == square && PositionOf(pieces)[square] == Occupied(p.side, p.kind, p.moved)
  {
    hide PositionOf;
    PositionShows(pieces);
    var c := Coord(square / 8, square % 8);
    assert OnBoard(c) && Square(c) == square;
    p :| p in pieces && p.at == c;
  }

  lemma MoveListed(pieces: seq<Piece>, p: Piece, to: Coord)
    requires BoardOk(pieces) && CanMove(pieces, p, to)
    ensures Step(Square(p.at), Square(to)) in Movegen.GenerateMoves(PositionOf(pieces), p.side)
  {
    PositionShows(pieces);
    SquareIs(p.at);
    SquareIs(to);
    CanMoveShown(pieces, p, to);
    hide PositionOf, Reach.Reaches, CanMove;
    Reach.MovesExact(PositionOf(pieces), p.side, Square(p.at), Square(to));
  }

  // ---- The opening ----------------------------------------------------------------------------------------

  function OpeningKind(c: Coord): Kind {
    if c.ring == 1 || c.ring == 6 then Pawn
    else match c.sector
      case 0 => Rook
      case 1 => Knight
      case 2 => Bishop
      case 3 => Queen
      case 4 => King
      case 5 => Bishop
      case 6 => Knight
      case _ => Rook
  }

  /** Black stands on the two inner rings, White on the two outer ones, the pawns in front. */
  predicate InOpening(side: Side, kind: Kind, at: Coord) {
    && OnBoard(at) && kind == OpeningKind(at)
    && (side == Black ==> at.ring == 0 || at.ring == 1) && (side == White ==> at.ring == 7 || at.ring == 6)
  }

  lemma OpeningIs(side: Side, kind: Kind, at: Coord, moved: bool)
    ensures (exists p :: p in InitialPieces() && p.side == side && p.kind == kind && p.at == at && p.moved == moved)
       <==> InOpening(side, kind, at) && !moved
  {
    hide InitialPieces, Setup.SlotPiece;
    Setup.InitialSlots();
    if p :| p in InitialPieces() && p.side == side && p.kind == kind && p.at == at && p.moved == moved {
      var k :| 0 <= k < 32 && InitialPieces()[k] == p;
      SlotInOpening(k);
    }
    if InOpening(side, kind, at) && !moved {
      var k := (if at.ring == 0 then 0 else if at.ring == 1 then 8 else if at.ring == 7 then 16 else 24) + at.sector;
      SlotInOpening(k);
      assert InitialPieces()[k] in InitialPieces();
    }
  }

  function Word(kind: Kind): string {
    match kind
    case King => "king"
    case Queen => "queen"
    case Rook => "rook"
    case Bishop => "bishop"
    case Knight => "knight"
    case Pawn => "pawn"
  }

  /** Pawns are numbered by their sectors; of the other pairs the one in the higher sector is the second. */
  function NumberAt(at: Coord): string
    requires OnBoard(at)
  {
    if at.ring == 1 || at.ring == 6 then ["1", "2", "3", "4", "5", "6", "7", "8"][at.sector]
    else if at.sector >= 5 then "2" else "1"
  }

  lemma OpeningIds(p: Piece)
    requires p in InitialPieces()
    ensures OnBoard(p.at) && p.id == (if p.side == White then "white" else "black") + "-" + Word(p.kind) + "-" + NumberAt(p.at)
  {
    hide InitialPieces, Setup.SlotPiece;
    Setup.InitialSlots();
    var k :| 0 <= k < 32 && InitialPieces()[k] == p;
    SlotInOpening(k);
    SlotId(k);
  }

  lemma SlotId(k: nat)
    requires k < 32
    ensures var p := Setup.SlotPiece(k);
            OnBoard(p.at) && p.id == (if p.side == White then "white" else "black") + "-" + Word(p.kind) + "-" + NumberAt(p.at)
  {
    SlotInOpening(k);
    SlotNumber(k);
    WordIs(Setup.KindOfSlot(k));
    hide Setup.CountOfSlot, Setup.KindOfSlot, Word, KindName, Text.Decimal, InOpening, NumberAt;
  }

  lemma SlotNumber(k: nat)
    requires k < 32
    ensures OnBoard(Setup.SlotPiece(k).at) && NumberAt(Setup.SlotPiece(k).at) == Text.Decimal(Setup.CountOfSlot(k))
  {
    SlotCount(k);
    SlotRow(k);
    hide Setup.CountOfSlot, Setup.KindOfSlot, Setup.RingOfSlot, PieceId, NumberAt;
    NumberIs(Setup.RingOfSlot(k), k % 8, Setup.CountOfSlot(k));
  }

  lemma SlotRow(k: nat)
    requires k < 32
    ensures if k % 16 >= 8 then k % 16 == k % 8 + 8 && Setup.RingOfSlot(k) in {1, 6} else k % 16 == k % 8 && Setup.RingOfSlot(k) in {0, 7}
  {
  }

  lemma NumberIs(ring: int, sector: int, count: nat)
    requires ring in {0, 1, 6, 7} && 0 <= sector < 8
    requires count == if ring in {1, 6} then sector + 1 else if sector >= 5 then 2 else 1
    ensures NumberAt(Coord(ring, sector)) == Text.Decimal(count)
  {
    CountText(count);
    hide Text.Decimal;
  }

  lemma WordIs(kind: Kind)
    ensures KindName(kind) == Word(kind)
  {
  }

  lemma CountText(n: nat)
    requires 1 <= n <= 8
    ensures Text.Decimal(n) == ["1", "2", "3", "4", "5", "6", "7", "8"][n - 1]
  {
    assert Text.Decimal(n) == [Text.Digit(n)];
  }

  lemma SlotCount(k: nat)
    requires k < 32
    ensures Setup.CountOfSlot(k) == if k % 16 >= 8 then k % 16 - 7 else if k % 16 >= 5 then 2 else 1
  {
    if k % 16 < 8 {
      Counted(BACK_RANK[k % 16]);
      hide CountUpTo;
    }
  }

  /** The count of a kind along the back rank, step by step. */
  lemma Counted(kind: Kind)
    ensures CountUpTo(kind, 0) == 0
    ensures CountUpTo(kind, 1) == CountUpTo(kind, 0) + if kind == Rook then 1 else 0
    ensures CountUpTo(kind, 2) == CountUpTo(kind, 1) + if kind == Knight then 1 else 0
    ensures CountUpTo(kind, 3) == CountUpTo(kind, 2) + if kind == Bishop then 1 else 0
    ensures CountUpTo(kind, 4) == CountUpTo(kind, 3) + if kind == Queen then 1 else 0
    ensures CountUpTo(kind, 5) == CountUpTo(kind, 4) + if kind == King then 1 else 0
    ensures CountUpTo(kind, 6) == CountUpTo(kind, 5) + if kind == Bishop then 1 else 0
    ensures CountUpTo(kind, 7) == CountUpTo(kind, 6) + if kind == Knight then 1 else 0
  {
  }

  lemma SlotInOpening(k: nat)
    requires k < 32
    ensures var p := Setup.SlotPiece(k);
            && InOpening(p.side, p.kind, p.at) && !p.moved && p.at.sector == k % 8
            && p.at.ring == if k < 8 then 0 else if k < 16 then 1 else if k < 24 then 7 else 6
  {
    hide PieceId, Setup.CountOfSlot;
    assert k % 16 < 8 ==> k % 16 == k % 8;
  }

  // ---- Captures ---------------------------------------------------------------------------------------------

  function Worth(kind: Kind): real {
    match kind
    case King => 10.0
    case Queen => 9.0
    case Rook => 5.0
    case Bishop => 3.0
    case Knight => 3.0
    case Pawn => 1.0
  }

  /** Twice the distance from the nearer edge, measured on a scale that has its middle between rings 3 and 4. */
  function Meeting(ring: int): real {
    var distance := if ring as real < 3.5 then 3.5 - ring as real else ring as real - 3.5;
    (if distance > 3.5 then 0.0 else 3.5 - distance) * 2.0
  }

  /** The weight is the weighted sum, rounded to the nearest integer, halves upwards. */
  lemma WeightIsRounded(attacker: Piece, captured: Piece, cell: Coord)
    ensures CaptureAttentionWeight(attacker, captured, cell) ==
            (52.0 + 2.5 * Worth(captured.kind) + Worth(attacker.kind) + Meeting(cell.ring) + 0.5).Floor
  {
    assert 2.5 * Worth(captured.kind) == (5 * PieceValue(captured.kind)) as real / 2.0;
    assert Worth(attacker.kind) == PieceValue(attacker.kind) as real;
    var d := 7 - 2 * cell.ring;
    var meeting := 7 - (if d < 0 then -d else d);
    assert Meeting(cell.ring) == if meeting < 0 then 0.0 else meeting as real;
    hide PieceValue, Worth, Meeting;
    var doubled := 2 * (52 + PieceValue(attacker.kind) + (if meeting < 0 then 0 else meeting)) + 5 * PieceValue(captured.kind);
    HalfUp(doubled);
  }

  lemma HalfUp(doubled: int)
    ensures (doubled + 1) / 2 == (doubled as real / 2.0 + 0.5).Floor
  {
    var q := (doubled + 1) / 2;
    assert 2 * q <= doubled + 1 < 2 * q + 2;
    assert q as real <= doubled as real / 2.0 + 0.5 < q as real + 1.0;
  }

  /** What is recorded of a capture; only the weight is left to WeightIsRounded. */
  ghost predicate Recorded(c: CaptureRecord, turn: int, mover: Piece, victim: Piece, to: Coord, parts: seq<ProblemPart>)
    requires OnBoard(to) && |parts| == 64
  {
    && c.id == CaptureId(turn, mover.id, victim.id) && c.turn == turn
    && c.attacker == mover.(at := to, moved := true) && c.captured == victim && c.cell == to
    && c.part == parts[to.ring * 8 + to.sector]
    && c.resonance == CaptureAttentionWeight(mover, victim, to)
  }

  // ---- One turn -----------------------------------------------------------------------------------------------

  /** The piece standing on the destination: an opponent that the event names, or nobody. */
  ghost predicate Takes(pieces: seq<Piece>, mover: Piece, to: Coord, id: Option<string>) {
    if id.None? then forall q | q in pieces :: q.at != to
    else exists q :: q in pieces && q.at == to && q.side != mover.side && q.id == id.value
  }

  predicate Promotes(mover: Piece, to: Coord) {
    mover.kind == Pawn && to.ring == if mover.side == White then 0 else 7
  }

  /** The mover that a move event names may make this move. */
  ghost predicate LegalMove(s: ReplayState, e: GameEvent, mover: Piece)
    requires e.Move?
  {
    && mover in s.pieces && mover.id == e.pieceId && mover.at == e.origin && mover.side == s.turn
    && CanMove(s.pieces, mover, e.to) && Takes(s.pieces, mover, e.to, e.capturedPieceId)
    && (e.promoted <==> Promotes(mover, e.to))
  }

  /** The event may come next. */
  ghost predicate LegalTurn(s: ReplayState, e: GameEvent) {
    && s.outcome.None? && e.ply == s.completedPlies + 1 && e.side == s.turn
    && (e.ForcedPass? ==> !Mobile(s.pieces, s.turn))
    && (e.Move? ==> exists mover :: LegalMove(s, e, mover))
  }

  /** The mover lands, changed into a queen on the far edge; whoever stood there is gone; nothing else changes. */
  ghost predicate Lands(s: ReplayState, e: GameEvent, mover: Piece, t: ReplayState)
    requires e.Move?
  {
    var landed := Piece(mover.id, mover.side, if e.promoted then Queen else mover.kind, e.to, true);
    forall p :: p in t.pieces <==> p == landed || (p in s.pieces && p != mover && p.at != e.to)
  }

  ghost predicate Captures(s: ReplayState, e: GameEvent, mover: Piece, parts: seq<ProblemPart>, t: ReplayState)
    requires e.Move? && OnBoard(e.to) && |parts| == 64
  {
    if e.capturedPieceId.None? then t.captures == s.captures && t.quietPlies == s.quietPlies + 1
    else
      && t.quietPlies == 0 && |t.captures| == |s.captures| + 1 && s.captures <= t.captures
      && exists victim :: victim in s.pieces && victim.at == e.to
                          && Recorded(t.captures[|s.captures|], e.ply, mover, victim, e.to, parts)
  }

  /** What the event makes of the state. */
  ghost predicate TurnMade(s: ReplayState, e: GameEvent, parts: seq<ProblemPart>, t: ReplayState)
    requires |parts| == 64
  {
    && t.completedPlies == e.ply && t.events == s.events + [e]
    && t.turn == (if t.outcome.Some? then s.turn else s.turn.Other())
    && (e.ForcedPass? ==>
          t.pieces == s.pieces && t.captures == s.captures && t.quietPlies == s.quietPlies + 1 && t.lastMove == s.lastMove)
    && (e.Move? ==>
          && OnBoard(e.to) && t.lastMove == Some(LastMove(e.origin, e.to))
          && exists mover :: LegalMove(s, e, mover) && Lands(s, e, mover, t) && Captures(s, e, mover, parts, t))
  }
}
