/** The engine's pseudo-legal moves on the polar board, origin by origin (src/lib/engine/movegen.ts:1-304). */
module Movegen {
  import opened Wrappers
  import opened Types
  import opened Game
  import opened Conservation
  import Setup

  const DIRECTIONS: seq<(int, int)> := [(1, 0), (-1, 0), (0, 1), (0, -1), (1, 1), (1, -1), (-1, 1), (-1, -1)]
  const KNIGHT_STEPS: seq<(int, int)> := [(-2, -1), (-2, 1), (-1, -2), (-1, 2), (1, -2), (1, 2), (2, -1), (2, 1)]
  const KING_STEPS: seq<(int, int)> := [(-1, -1), (-1, 0), (-1, 1), (0, -1), (0, 1), (1, -1), (1, 0), (1, 1)]
  const MAX_RAY_STEPS := 7

  /** The square some steps away; rings end at the edges, sectors wrap. */
  function Offset(from: nat, ringSteps: int, sectorSteps: int): (r: Option<nat>)
    requires from < 64
    ensures r.Some? ==> r.value < 64
  {
    var ring := from / 8 + ringSteps;
    NormalizeSectorWraps(from % 8 + sectorSteps);
    if 0 <= ring < RINGS then Some(ring * 8 + NormalizeSector(from % 8 + sectorSteps)) else None
  }

  predicate Friendly(b: Position, side: Side, square: nat)
    requires square < 64
  {
    b[square].Occupied? && b[square].side == side
  }

  /** Targets a piece of `side` may land on: on the board and not its own. */
  ghost predicate Landable(b: Position, side: Side, targets: seq<nat>) {
    forall t | t in targets :: t < 64 && !Friendly(b, side, t)
  }

  function AddOnce(targets: seq<nat>, t: nat): seq<nat> {
    if t in targets then targets else targets + [t]
  }

  /** Knights and kings: one step, unless a friend stands there. */
  function StepTargets(b: Position, side: Side, from: nat, steps: seq<(int, int)>): (r: seq<nat>)
    requires from < 64
    ensures Landable(b, side, r)
  {
    if steps == [] then []
    else
      var first := Offset(from, steps[0].0, steps[0].1);
      (if first.None? || Friendly(b, side, first.value) then [] else [first.value]) + StepTargets(b, side, from, steps[1..])
  }

  /** A ray runs over empty squares and may end on an opponent. */
  function RayTargets(b: Position, side: Side, from: nat, direction: (int, int), distance: nat, found: seq<nat>): (r: seq<nat>)
    requires from < 64 && 1 <= distance <= 8 && Landable(b, side, found)
    ensures Landable(b, side, r)
    decreases 8 - distance
  {
    if distance > MAX_RAY_STEPS then found
    else
      match Offset(from, direction.0 * distance, direction.1 * distance)
      case None => found
      case Some(to) =>
        if to == from then found
        else if b[to] == Empty then RayTargets(b, side, from, direction, distance + 1, AddOnce(found, to))
        else if b[to].side != side then AddOnce(found, to)
        else found
  }

  function SlideTargets(b: Position, side: Side, from: nat, directions: seq<(int, int)>, found: seq<nat>): (r: seq<nat>)
    requires from < 64 && Landable(b, side, found)
    ensures Landable(b, side, r)
  {
    if directions == [] then found
    else SlideTargets(b, side, from, directions[1..], RayTargets(b, side, from, directions[0], 1, found))
  }

  function Forward(side: Side): int {
    if side == Black then 1 else -1
  }

  function PawnStartRing(side: Side): int {
    if side == Black then 1 else 6
  }

  function PawnAdvances(b: Position, side: Side, from: nat): (r: seq<nat>)
    requires from < 64
    ensures Landable(b, side, r)
  {
    var one, two := Offset(from, Forward(side), 0), Offset(from, 2 * Forward(side), 0);
    if one.None? || b[one.value] != Empty then []
    else
      [one.value] +
      (if b[from].Occupied? && !b[from].moved && from / 8 == PawnStartRing(side) && two.Some? && b[two.value] == Empty
       then [two.value] else [])
  }

  function PawnCaptures(b: Position, side: Side, from: nat, steps: seq<int>): (r: seq<nat>)
    requires from < 64
    ensures Landable(b, side, r)
  {
    if steps == [] then []
    else
      var to := Offset(from, Forward(side), steps[0]);
      (if to.Some? && b[to.value].Occupied? && b[to.value].side != side then [to.value] else []) +
      PawnCaptures(b, side, from, steps[1..])
  }

  function PieceTargets(b: Position, side: Side, kind: Kind, from: nat): (r: seq<nat>)
    requires from < 64
    ensures Landable(b, side, r)
  {
    match kind
    case Pawn => PawnAdvances(b, side, from) + PawnCaptures(b, side, from, [-1, 1])
    case Knight => StepTargets(b, side, from, KNIGHT_STEPS)
    case King => StepTargets(b, side, from, KING_STEPS)
    case Rook => SlideTargets(b, side, from, DIRECTIONS[..4], [])
    case Bishop => SlideTargets(b, side, from, DIRECTIONS[4..], [])
    case Queen => SlideTargets(b, side, from, DIRECTIONS, [])
  }

  function StepsFrom(from: nat, targets: seq<nat>): (r: seq<Step>)
    ensures forall m | m in r :: m.origin == from && m.target in targets
  {
    seq(|targets|, i requires 0 <= i < |targets| => Step(from, targets[i]))
  }

  /** Every move of `side` whose origin is below `bound`, origin by origin. */
  function MovesBelow(b: Position, side: Side, bound: nat): (r: seq<Step>)
    requires bound <= 64
    ensures forall m | m in r ::
              m.origin < bound && m.target < 64 && Friendly(b, side, m.origin) && !Friendly(b, side, m.target)
  {
    if bound == 0 then []
    else
      var from := bound - 1;
      MovesBelow(b, side, from) +
      (if Friendly(b, side, from) then StepsFrom(from, PieceTargets(b, side, b[from].kind, from)) else [])
  }

  function GenerateMoves(b: Position, side: Side): seq<Step> {
    MovesBelow(b, side, 64)
  }

  /** The engine meets everything the rules rely on. */
  lemma EngineSound()
    ensures Sound(GenerateMoves)
  {
    forall b: Position, side: Side, m: Step | m in GenerateMoves(b, side)
      ensures m.origin < 64 && m.target < 64 && Friendly(b, side, m.origin) && !Friendly(b, side, m.target)
    {
      assert m in MovesBelow(b, side, 64);
    }
  }

  lemma {:induction false} MovesGrow(b: Position, side: Side, low: nat, high: nat)
    requires low <= high <= 64
    ensures |MovesBelow(b, side, low)| <= |MovesBelow(b, side, high)|
  {
    if low < high {
      MovesGrow(b, side, low, high - 1);
    }
  }

  /** White can move in the opening: the pawn of the first sector steps forward. */
  lemma EngineStartMobile()
    ensures HasLegalMove(GenerateMoves, InitialPieces(), White)
  {
    hide InitialPieces, PositionOf, PieceTargets, Setup.SlotPiece;
    var ps := InitialPieces();
    var b := PositionOf(ps);
    Setup.InitialBoard();
    Setup.InitialSlots();
    PawnSlot();
    assert ps[24] in ps;
    PositionHolds(ps, ps[24]);
    forall p | p in ps
      ensures p.at != Coord(5, 0)
    {
      var k :| 0 <= k < 32 && ps[k] == p;
      SlotRing(k);
    }
    PositionEmpty(ps, Coord(5, 0));
    OpeningAdvance(b);
    MovesGrow(b, White, 49, 64);
  }

  lemma PawnSlot()
    ensures Setup.SlotPiece(24).kind == Pawn && Setup.SlotPiece(24).side == White && Setup.SlotPiece(24).at == Coord(6, 0)
  {
    hide PieceId;
  }

  lemma SlotRing(k: nat)
    requires k < 32
    ensures Setup.SlotPiece(k).at.ring != 5
  {
    hide PieceId;
  }

  lemma OpeningAdvance(b: Position)
    requires b[48].Occupied? && b[48].side == White && b[48].kind == Pawn && b[40] == Empty
    ensures |MovesBelow(b, White, 49)| > 0
  {
    hide RayTargets, SlideTargets, StepTargets, PawnCaptures;
    assert Offset(48, -1, 0) == Some(40);
    assert PieceTargets(b, White, Pawn, 48)[0] == 40;
  }
}
