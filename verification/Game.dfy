/** The board rules around the move generator (src/lib/game.ts, src/lib/engine/position.ts). */
module Game {
  import opened Wrappers
  import opened Types
  import Text

  const RINGS := 8
  const SECTORS := 8
  const MAX_QUIET_PLIES := 100
  const MAX_GAME_PLIES := 256

  // ---- The packed board and the move generator -------------------------------------------

  datatype Cell = Empty | Occupied(side: Side, kind: Kind, moved: bool)

  type Position = b: seq<Cell> | |b| == 64 witness seq(64, _ => Empty)

  /** A pseudo-legal move between two of the 64 squares. */
  datatype Step = Step(origin: nat, target: nat)

  type Generator = (Position, Side) -> seq<Step>

  /** All that the rules rely on in a move generator. */
  ghost predicate Sound(g: Generator) {
    forall b: Position, side: Side, m: Step | m in g(b, side) ::
      && m.origin < 64 && m.target < 64
      && b[m.origin].Occupied? && b[m.origin].side == side
      && !(b[m.target].Occupied? && b[m.target].side == side)
  }

  predicate ValidCoord(c: Coord) {
    0 <= c.ring < RINGS && 0 <= c.sector < SECTORS
  }

  /** The sector on the ring that an unwrapped sector denotes. */
  function NormalizeSector(sector: int): int {
    sector % SECTORS
  }

  /** The remainder of the source truncates towards zero. */
  function TruncatedRemainder(a: int, n: int): int
    requires n > 0
  {
    if a >= 0 then a % n else -((-a) % n)
  }

  /** Taking the truncated remainder, adding the modulus and reducing again wraps every sector. */
  lemma NormalizeSectorWraps(sector: int)
    ensures TruncatedRemainder(TruncatedRemainder(sector, SECTORS) + SECTORS, SECTORS) == NormalizeSector(sector)
    ensures 0 <= NormalizeSector(sector) < SECTORS
    ensures 0 <= sector < SECTORS ==> NormalizeSector(sector) == sector
  {
    var q := if sector >= 0 then sector / 8 else if (-sector) % 8 == 0 then -((-sector) / 8) else -((-sector) / 8) - 1;
    assert sector - q * 8 == TruncatedRemainder(TruncatedRemainder(sector, SECTORS) + SECTORS, SECTORS);
  }

  predicate SameCoord(left: Coord, right: Coord) {
    left.ring == right.ring && NormalizeSector(left.sector) == NormalizeSector(right.sector)
  }

  function SquareOf(c: Coord): (square: nat)
    requires ValidCoord(c)
    ensures square < 64
  {
    c.ring * SECTORS + c.sector
  }

  function CoordOf(square: nat): Coord {
    Coord(square / SECTORS, square % SECTORS)
  }

  function CellOf(p: Piece): Cell {
    Occupied(p.side, p.kind, p.moved)
  }

  /** Packs a piece list; the last piece written to a square wins, off-board rings are skipped. */
  function PositionOf(pieces: seq<Piece>): Position {
    if pieces == [] then seq(64, _ => Empty)
    else
      var last := pieces[|pieces| - 1];
      var board := PositionOf(pieces[..|pieces| - 1]);
      var c := Coord(last.at.ring, NormalizeSector(last.at.sector));
      NormalizeSectorWraps(last.at.sector);
      if 0 <= c.ring < RINGS then board[SquareOf(c) := CellOf(last)] else board
  }

  // ---- Looking pieces up ------------------------------------------------------------------

  function FindById(pieces: seq<Piece>, id: string): (r: Option<Piece>)
    ensures r.Some? ==> r.value in pieces && r.value.id == id
    ensures r.None? ==> forall p | p in pieces :: p.id != id
  {
    if pieces == [] then None
    else if pieces[0].id == id then Some(pieces[0])
    else FindById(pieces[1..], id)
  }

  function GetPieceAt(pieces: seq<Piece>, c: Coord): (r: Option<Piece>)
    ensures r.Some? ==> r.value in pieces && SameCoord(r.value.at, c)
    ensures r.None? ==> forall p | p in pieces :: !SameCoord(p.at, c)
  {
    if pieces == [] then None
    else if SameCoord(pieces[0].at, c) then Some(pieces[0])
    else GetPieceAt(pieces[1..], c)
  }

  // ---- Legal moves ------------------------------------------------------------------------

  function TargetsFrom(moves: seq<Step>, origin: nat): seq<Coord> {
    if moves == [] then []
    else
      var rest := TargetsFrom(moves[..|moves| - 1], origin);
      var last := moves[|moves| - 1];
      if last.origin == origin then rest + [CoordOf(last.target)] else rest
  }

  function LegalMoves(g: Generator, piece: Piece, pieces: seq<Piece>): seq<Coord> {
    if !ValidCoord(piece.at) then []
    else TargetsFrom(g(PositionOf(pieces + [piece]), piece.side), SquareOf(piece.at))
  }

  method GetLegalMoves(g: Generator, piece: Piece, pieces: seq<Piece>) returns (results: seq<Coord>)
    ensures results == LegalMoves(g, piece, pieces)
    ensures forall c :: c in results <==>
      ValidCoord(piece.at) && exists m :: m in g(PositionOf(pieces + [piece]), piece.side)
                                      && m.origin == SquareOf(piece.at) && c == CoordOf(m.target)
  {
    results := [];
    if !ValidCoord(piece.at) {
      return;
    }
    var moves := g(PositionOf(pieces + [piece]), piece.side);
    var origin := SquareOf(piece.at);
    for index := 0 to |moves|
      invariant results == TargetsFrom(moves[..index], origin)
    {
      assert moves[..index + 1][..index] == moves[..index];
      if moves[index].origin == origin {
        results := results + [CoordOf(moves[index].target)];
      }
    }
    assert moves[..|moves|] == moves;
    TargetsFromExactly(moves, origin);
  }

  lemma {:induction false} TargetsFromExactly(moves: seq<Step>, origin: nat)
    ensures forall c :: c in TargetsFrom(moves, origin) <==>
                        exists m :: m in moves && m.origin == origin && c == CoordOf(m.target)
  {
    if moves != [] {
      var front, last := moves[..|moves| - 1], moves[|moves| - 1];
      TargetsFromExactly(front, origin);
      assert moves == front + [last];
      assert forall m :: m in moves <==> m in front || m == last;
    }
  }

  predicate HasLegalMove(g: Generator, pieces: seq<Piece>, side: Side) {
    |g(PositionOf(pieces), side)| > 0
  }

  predicate CanReach(g: Generator, piece: Piece, pieces: seq<Piece>, to: Coord) {
    exists c | c in LegalMoves(g, piece, pieces) :: SameCoord(c, to)
  }

  // ---- Outcomes ---------------------------------------------------------------------------

  datatype EndReason = KingCaptured | NoMoves | NoProgress | MoveLimit

  datatype Outcome = Outcome(
    winner: Option<Side>, reason: EndReason, completedTurn: int, terminalCapture: Option<CaptureRecord>)

  predicate HasKing(pieces: seq<Piece>, side: Side) {
    exists p | p in pieces :: p.side == side && p.kind == King
  }

  function GetGameOutcome(hasMove: (seq<Piece>, Side) -> bool, pieces: seq<Piece>, quietPlies: int, ply: int)
    : Option<Outcome>
  {
    var whiteKing, blackKing := HasKing(pieces, White), HasKing(pieces, Black);
    if !whiteKing || !blackKing then
      Some(Outcome(if whiteKing == blackKing then None else Some(if whiteKing then White else Black),
                   KingCaptured, ply, None))
    else if !hasMove(pieces, White) && !hasMove(pieces, Black) then
      Some(Outcome(None, NoMoves, ply, None))
    else if quietPlies >= MAX_QUIET_PLIES then Some(Outcome(None, NoProgress, ply, None))
    else if ply >= MAX_GAME_PLIES then Some(Outcome(None, MoveLimit, ply, None))
    else None
  }

  // ---- Applying one move ------------------------------------------------------------------

  function PieceValue(kind: Kind): nat {
    match kind
    case King => 10
    case Queen => 9
    case Rook => 5
    case Bishop => 3
    case Knight => 3
    case Pawn => 1
  }

  /** round(52 + 2.5 * challenged + active + meeting), halves rounding up. */
  function CaptureAttentionWeight(attacker: Piece, captured: Piece, cell: Coord): int {
    var doubledDistance := 7 - 2 * cell.ring;
    var meeting := 7 - (if doubledDistance < 0 then -doubledDistance else doubledDistance);
    (2 * (52 + PieceValue(attacker.kind) + (if meeting < 0 then 0 else meeting)) + 5 * PieceValue(captured.kind) + 1) / 2
  }

  datatype MoveError = UnknownPiece | InvalidDestination | IllegalMove | WrongPartCount

  datatype MoveResult = MoveResult(pieces: seq<Piece>, capture: Option<CaptureRecord>, promoted: bool)

  function Without(pieces: seq<Piece>, id: string): (r: seq<Piece>)
    ensures forall p :: p in r <==> p in pieces && p.id != id
  {
    if pieces == [] then []
    else if pieces[0].id == id then Without(pieces[1..], id)
    else [pieces[0]] + Without(pieces[1..], id)
  }

  function Replacing(pieces: seq<Piece>, id: string, next: Piece): (r: seq<Piece>)
    ensures |r| == |pieces|
    ensures forall p | p in r :: p == next || (p in pieces && p.id != id)
    ensures forall p | p in pieces :: (if p.id == id then next else p) in r
  {
    if pieces == [] then []
    else [if pieces[0].id == id then next else pieces[0]] + Replacing(pieces[1..], id, next)
  }

  predicate ReachesFarEdge(piece: Piece, to: Coord) {
    piece.kind == Pawn && to.ring == (if piece.side == Black then RINGS - 1 else 0)
  }

  function PartAt(parts: seq<ProblemPart>, c: Coord): Result<ProblemPart, MoveError> {
    if |parts| != RINGS * SECTORS then Err(WrongPartCount)
    else if !ValidCoord(c) then Err(InvalidDestination)
    else Ok(parts[c.ring * SECTORS + c.sector])
  }

  function CaptureOf(mover: Piece, captured: Piece, cell: Coord, part: ProblemPart, turn: int): CaptureRecord {
    CaptureRecord(CaptureId(turn, mover.id, captured.id), turn,
                  mover.(at := cell, moved := true), captured, cell, part,
                  CaptureAttentionWeight(mover, captured, cell))
  }

  function ApplyMove(g: Generator, pieces: seq<Piece>, pieceId: string, destination: Coord,
                     parts: seq<ProblemPart>, turn: int): Result<MoveResult, MoveError> {
    var found := FindById(pieces, pieceId);
    if found.None? then Err(UnknownPiece)
    else
      var mover := found.value;
      var to := Coord(destination.ring, NormalizeSector(destination.sector));
      if !ValidCoord(to) then Err(InvalidDestination)
      else if !CanReach(g, mover, pieces, to) then Err(IllegalMove)
      else
        var promoted := ReachesFarEdge(mover, to);
        var landed := mover.(at := to, moved := true, kind := if promoted then Queen else mover.kind);
        match GetPieceAt(pieces, to)
        case None => Ok(MoveResult(Replacing(pieces, pieceId, landed), None, promoted))
        case Some(victim) =>
          var part :- PartAt(parts, to);
          Ok(MoveResult(Replacing(Without(pieces, victim.id), pieceId, landed),
                        Some(CaptureOf(mover, victim, to, part, turn)), promoted))
  }

  // ---- The initial position ---------------------------------------------------------------

  const BACK_RANK: seq<Kind> := [Rook, Knight, Bishop, Queen, King, Bishop, Knight, Rook]

  function SideName(side: Side): string {
    if side == White then "white" else "black"
  }

  function KindName(kind: Kind): string {
    match kind
    case King => "king"
    case Queen => "queen"
    case Rook => "rook"
    case Bishop => "bishop"
    case Knight => "knight"
    case Pawn => "pawn"
  }

  function PieceId(side: Side, kind: Kind, count: nat): string {
    SideName(side) + "-" + KindName(kind) + "-" + Text.Decimal(count)
  }

  /** How many of the first `n` back-rank pieces are of this kind. */
  function CountUpTo(kind: Kind, n: nat): nat
    requires n <= 8
  {
    if n == 0 then 0 else CountUpTo(kind, n - 1) + (if BACK_RANK[n - 1] == kind then 1 else 0)
  }

  function BackPiece(side: Side, ring: int, sector: nat): Piece
    requires sector < 8
  {
    var kind := BACK_RANK[sector];
    Piece(PieceId(side, kind, CountUpTo(kind, sector) + 1), side, kind, Coord(ring, sector), false)
  }

  function PawnPiece(side: Side, ring: int, sector: nat): Piece {
    Piece(PieceId(side, Pawn, sector + 1), side, Pawn, Coord(ring, sector), false)
  }

  function InitialSide(side: Side, backRing: int, pawnRing: int): seq<Piece> {
    seq(16, k requires 0 <= k < 16 =>
      if k < 8 then BackPiece(side, backRing, k) else PawnPiece(side, pawnRing, k - 8))
  }

  function InitialPieces(): seq<Piece> {
    InitialSide(Black, 0, 1) + InitialSide(White, 7, 6)
  }

  /** The counting loop of createSide over the back rank. */
  method CreateBackRank(side: Side, ring: int) returns (pieces: seq<Piece>)
    ensures |pieces| == 8 && forall i | 0 <= i < 8 :: pieces[i] == BackPiece(side, ring, i)
  {
    hide PieceId;
    var kindCounts: map<Kind, nat> := map[];
    pieces := [];
    var sector := 0;
    while sector < |BACK_RANK|
      invariant 0 <= sector <= 8
      invariant forall k: Kind :: (if k in kindCounts then kindCounts[k] else 0) == CountUpTo(k, sector)
      invariant |pieces| == sector
      invariant forall i | 0 <= i < sector :: pieces[i] == BackPiece(side, ring, i)
    {
      var kind := BACK_RANK[sector];
      var count := (if kind in kindCounts then kindCounts[kind] else 0) + 1;
      kindCounts := kindCounts[kind := count];
      var piece := Piece(PieceId(side, kind, count), side, kind, Coord(ring, sector), false);
      assert piece == BackPiece(side, ring, sector);
      pieces := pieces + [piece];
      sector := sector + 1;
    }
  }

  method CreateSide(side: Side, backRing: int, pawnRing: int) returns (pieces: seq<Piece>)
    ensures pieces == InitialSide(side, backRing, pawnRing)
  {
    var backPieces := CreateBackRank(side, backRing);
    var pawns := seq(SECTORS, sector requires 0 <= sector < SECTORS => PawnPiece(side, pawnRing, sector));
    pieces := backPieces + pawns;
  }

  // ---- What the replay imports from the board rules ----------------------------------------

  /** The rules as src/lib/game-replay.ts uses them: it reaches the board only through these. */
  datatype Rules = Rules(
    initial: seq<Piece>,
    hasMove: (seq<Piece>, Side) -> bool,
    reaches: (Piece, seq<Piece>, Coord) -> bool,
    move: (seq<Piece>, string, Coord, seq<ProblemPart>, int) -> Result<MoveResult, MoveError>)

  function ChessRules(g: Generator): Rules {
    Rules(InitialPieces(),
          (pieces, side) => HasLegalMove(g, pieces, side),
          (piece, pieces, to) => CanReach(g, piece, pieces, to),
          (pieces, id, to, parts, turn) => ApplyMove(g, pieces, id, to, parts, turn))
  }
}
