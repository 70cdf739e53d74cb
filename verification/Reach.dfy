/** What each piece reaches, in rings and sectors. */
module Reach {
  import opened Wrappers
  import opened Types
  import opened Game
  import opened Conservation
  import opened Movegen
  import MovegenFacts

  // ---- The rules of movement -----------------------------------------------------------------------

  function Ring(square: nat): int { square / 8 }

  function Sector(square: nat): int { square % 8 }

  /** The square on a ring and an unwrapped sector. */
  function At(ring: int, sector: int): (square: nat)
    requires 0 <= ring < 8
    ensures square < 64
  {
    ring * 8 + sector % 8
  }

  function RingGap(o: nat, t: nat): int {
    if Ring(o) < Ring(t) then Ring(t) - Ring(o) else Ring(o) - Ring(t)
  }

  /** Sectors lie in a circle: the shorter way around counts. */
  function SectorGap(o: nat, t: nat): int {
    var d := (Sector(t) - Sector(o)) % 8;
    if d <= 4 then d else 8 - d
  }

  predicate KnightReaches(o: nat, t: nat) {
    (RingGap(o, t) == 1 && SectorGap(o, t) == 2) || (RingGap(o, t) == 2 && SectorGap(o, t) == 1)
  }

  predicate KingReaches(o: nat, t: nat) {
    o != t && RingGap(o, t) <= 1 && SectorGap(o, t) <= 1
  }

  /** Square t lies n steps away in one direction, and every square before it is empty. */
  predicate Along(b: Position, o: nat, t: nat, direction: (int, int), n: nat)
    requires o < 64
  {
    && 0 <= Ring(o) + n * direction.0 < 8 && t == At(Ring(o) + n * direction.0, Sector(o) + n * direction.1)
    && forall k | 1 <= k < n ::
         0 <= Ring(o) + k * direction.0 < 8 && b[At(Ring(o) + k * direction.0, Sector(o) + k * direction.1)] == Empty
  }

  predicate Straight(direction: (int, int)) {
    direction == (1, 0) || direction == (-1, 0) || direction == (0, 1) || direction == (0, -1)
  }

  predicate Diagonal(direction: (int, int)) {
    direction == (1, 1) || direction == (1, -1) || direction == (-1, 1) || direction == (-1, -1)
  }

  /** Up to seven steps along some direction of a kind of slider; a ring may be run all around. */
  ghost predicate Slides(b: Position, kind: Kind, o: nat, t: nat)
    requires o < 64
  {
    exists direction: (int, int), n: nat ::
      && 1 <= n <= 7 && Along(b, o, t, direction, n)
      && ((kind != Bishop && Straight(direction)) || (kind != Rook && Diagonal(direction)))
  }

  /** White moves inwards from ring 6, Black outwards from ring 1. */
  predicate PawnReaches(b: Position, side: Side, o: nat, t: nat)
    requires o < 64 && t < 64
  {
    var step, start := if side == White then -1 else 1, if side == White then 6 else 1;
    || (Sector(t) == Sector(o) && Ring(t) == Ring(o) + step && b[t] == Empty)
    || (&& Sector(t) == Sector(o) && Ring(t) == Ring(o) + 2 * step && Ring(o) == start
        && b[o].Occupied? && !b[o].moved && b[t] == Empty && b[At(start + step, Sector(o))] == Empty)
    || (SectorGap(o, t) == 1 && Ring(t) == Ring(o) + step && b[t].Occupied? && b[t].side != side)
  }

  ghost predicate Reaches(b: Position, side: Side, kind: Kind, o: nat, t: nat)
    requires o < 64
  {
    && t < 64 && !(b[t].Occupied? && b[t].side == side)
    && match kind
    case Pawn => PawnReaches(b, side, o, t)
    case Knight => KnightReaches(o, t)
    case King => KingReaches(o, t)
    case _ => Slides(b, kind, o, t)
  }

  // ---- Single steps ------------------------------------------------------------------------------------

  lemma OffsetIs(from: nat, ringSteps: int, sectorSteps: int)
    requires from < 64
    ensures Offset(from, ringSteps, sectorSteps) ==
            if 0 <= Ring(from) + ringSteps < 8 then Some(At(Ring(from) + ringSteps, Sector(from) + sectorSteps)) else None
  {
  }

  lemma AtParts(ring: int, sector: int)
    requires 0 <= ring < 8
    ensures At(ring, sector) < 64 && Ring(At(ring, sector)) == ring && Sector(At(ring, sector)) == sector % 8
  {
  }

  /** The sector steps, at most four to either side, that lead from one square to another. */
  function Turn(o: nat, t: nat): (d: int)
    ensures (Sector(o) + d) % 8 == Sector(t) && -4 < d <= 4 && (d == SectorGap(o, t) || d == -SectorGap(o, t))
  {
    var d := (Sector(t) - Sector(o)) % 8;
    assert (Sector(o) + d) % 8 == Sector(t) && (Sector(o) + d - 8) % 8 == Sector(t);
    if d <= 4 then d else d - 8
  }

  /** A few steps and their way back around the circle. */
  lemma TurnBack(o: nat, d: int, t: nat)
    requires -4 < d < 4 && Sector(t) == (Sector(o) + d) % 8
    ensures SectorGap(o, t) == if d < 0 then -d else d
  {
    assert (Sector(t) - Sector(o)) % 8 == d % 8;
  }

  lemma SameSquare(o: nat, t: nat)
    requires Ring(o) == Ring(t) && Sector(o) == Sector(t)
    ensures o == t
  {
  }

  lemma OffsetBetween(o: nat, t: nat)
    requires o < 64 && t < 64
    ensures Offset(o, Ring(t) - Ring(o), Turn(o, t)) == Some(t)
  {
    hide *;
    RingsAre(t);
    OffsetIs(o, Ring(t) - Ring(o), Turn(o, t));
    AtParts(Ring(t), Sector(o) + Turn(o, t));
    SameSquare(At(Ring(t), Sector(o) + Turn(o, t)), t);
  }

  lemma RingsAre(t: nat)
    requires t < 64
    ensures 0 <= Ring(t) < 8 && 0 <= Sector(t) < 8
  {
  }

  lemma OffsetGaps(o: nat, dr: int, ds: int, t: nat)
    requires o < 64 && -4 < ds < 4 && Offset(o, dr, ds) == Some(t)
    ensures t < 64 && Ring(t) == Ring(o) + dr && SectorGap(o, t) == if ds < 0 then -ds else ds
  {
    OffsetIs(o, dr, ds);
    AtParts(Ring(o) + dr, Sector(o) + ds);
    TurnBack(o, ds, t);
  }

  lemma {:induction false} StepExact(b: Position, side: Side, o: nat, steps: seq<(int, int)>, t: nat)
    requires o < 64
    ensures t in StepTargets(b, side, o, steps) <==>
            t < 64 && !Friendly(b, side, t) && exists i :: 0 <= i < |steps| && Offset(o, steps[i].0, steps[i].1) == Some(t)
  {
    hide Offset, Friendly;
    if steps != [] {
      StepExact(b, side, o, steps[1..], t);
      if i :| 0 <= i < |steps| && Offset(o, steps[i].0, steps[i].1) == Some(t) {
        if i > 0 { assert steps[1..][i - 1] == steps[i]; }
      }
      if i :| 0 <= i < |steps[1..]| && Offset(o, steps[1..][i].0, steps[1..][i].1) == Some(t) {
        assert steps[i + 1] == steps[1..][i];
      }
    }
  }

  lemma KnightSteps(dr: int, ds: int)
    ensures (dr, ds) in KNIGHT_STEPS <==>
            ((dr == 1 || dr == -1) && (ds == 2 || ds == -2)) || ((dr == 2 || dr == -2) && (ds == 1 || ds == -1))
  {
    Listed(KNIGHT_STEPS, (dr, ds));
  }

  lemma KingSteps(dr: int, ds: int)
    ensures (dr, ds) in KING_STEPS <==> -1 <= dr <= 1 && -1 <= ds <= 1 && (dr != 0 || ds != 0)
  {
    Listed(KING_STEPS, (dr, ds));
  }

  lemma Listed(steps: seq<(int, int)>, p: (int, int))
    requires |steps| == 8
    ensures p in steps <==>
            || p == steps[0] || p == steps[1] || p == steps[2] || p == steps[3]
            || p == steps[4] || p == steps[5] || p == steps[6] || p == steps[7]
  {
  }

  lemma KnightExact(b: Position, side: Side, o: nat, t: nat)
    requires o < 64
    ensures t in StepTargets(b, side, o, KNIGHT_STEPS) <==> t < 64 && !Friendly(b, side, t) && KnightReaches(o, t)
  {
    StepExact(b, side, o, KNIGHT_STEPS, t);
    hide Offset, Friendly, StepTargets, KNIGHT_STEPS, SectorGap;
    if i :| 0 <= i < |KNIGHT_STEPS| && Offset(o, KNIGHT_STEPS[i].0, KNIGHT_STEPS[i].1) == Some(t) {
      KnightSteps(KNIGHT_STEPS[i].0, KNIGHT_STEPS[i].1);
      OffsetGaps(o, KNIGHT_STEPS[i].0, KNIGHT_STEPS[i].1, t);
    }
    if t < 64 && KnightReaches(o, t) {
      OffsetBetween(o, t);
      KnightSteps(Ring(t) - Ring(o), Turn(o, t));
      var i :| 0 <= i < |KNIGHT_STEPS| && KNIGHT_STEPS[i] == (Ring(t) - Ring(o), Turn(o, t));
    }
  }

  lemma KingStepReaches(o: nat, dr: int, ds: int, t: nat)
    requires o < 64 && (dr, ds) in KING_STEPS && Offset(o, dr, ds) == Some(t)
    ensures t < 64 && KingReaches(o, t)
  {
    KingSteps(dr, ds);
    OffsetGaps(o, dr, ds, t);
    NoGap(o);
    hide Offset, SectorGap, KING_STEPS;
  }

  lemma KingReachedByStep(o: nat, t: nat)
    requires o < 64 && t < 64 && KingReaches(o, t)
    ensures (Ring(t) - Ring(o), Turn(o, t)) in KING_STEPS && Offset(o, Ring(t) - Ring(o), Turn(o, t)) == Some(t)
  {
    OffsetBetween(o, t);
    KingSteps(Ring(t) - Ring(o), Turn(o, t));
    hide Offset, SectorGap, KING_STEPS;
    if Ring(t) == Ring(o) && Turn(o, t) == 0 { SameSquare(o, t); }
  }

  lemma KingExact(b: Position, side: Side, o: nat, t: nat)
    requires o < 64
    ensures t in StepTargets(b, side, o, KING_STEPS) <==> t < 64 && !Friendly(b, side, t) && KingReaches(o, t)
  {
    StepExact(b, side, o, KING_STEPS, t);
    hide Offset, Friendly, StepTargets, KING_STEPS, KingReaches;
    if i :| 0 <= i < |KING_STEPS| && Offset(o, KING_STEPS[i].0, KING_STEPS[i].1) == Some(t) {
      KingStepReaches(o, KING_STEPS[i].0, KING_STEPS[i].1, t);
    }
    if t < 64 && KingReaches(o, t) {
      KingReachedByStep(o, t);
      var i :| 0 <= i < |KING_STEPS| && KING_STEPS[i] == (Ring(t) - Ring(o), Turn(o, t));
    }
  }

  lemma NoGap(o: nat)
    ensures RingGap(o, o) == 0 && SectorGap(o, o) == 0
  {
  }

  // ---- Sliders -----------------------------------------------------------------------------------------

  predicate Unit(direction: (int, int)) {
    Straight(direction) || Diagonal(direction)
  }

  /** From step m on, the ray is clear up to step n, which leads to t. */
  predicate Clear(b: Position, o: nat, direction: (int, int), m: nat, n: nat, t: nat)
    requires o < 64
  {
    && m <= n <= 7 && Offset(o, direction.0 * n, direction.1 * n) == Some(t)
    && forall k | m <= k < n ::
         Offset(o, direction.0 * k, direction.1 * k).Some? && b[Offset(o, direction.0 * k, direction.1 * k).value] == Empty
  }

  lemma SectorMoves(s: int, k: int)
    requires 0 <= s < 8 && -8 < k < 8 && k != 0
    ensures (s + k) % 8 != s
  {
  }

  lemma UnitSteps(direction: (int, int), n: nat)
    requires Unit(direction) && 1 <= n <= 7
    ensures direction.0 * n != 0 || (direction.1 * n != 0 && -8 < direction.1 * n < 8)
  {
    assert direction.0 == 0 || direction.0 == 1 || direction.0 == -1;
    assert direction.1 == 0 || direction.1 == 1 || direction.1 == -1;
  }

  lemma NotHome(o: nat, direction: (int, int), n: nat)
    requires o < 64 && Unit(direction) && 1 <= n <= 7
    ensures Offset(o, direction.0 * n, direction.1 * n) != Some(o)
  {
    UnitSteps(direction, n);
    StepsAway(o, direction.0 * n, direction.1 * n);
    hide Unit, Offset;
  }

  lemma StepsAway(o: nat, dr: int, ds: int)
    requires o < 64 && (dr != 0 || (ds != 0 && -8 < ds < 8))
    ensures Offset(o, dr, ds) != Some(o)
  {
    OffsetTo(o, dr, ds, o);
    RingsAre(o);
    hide Offset, Ring, Sector;
    if dr == 0 { SectorMoves(Sector(o), ds); }
  }

  lemma ClearTail(b: Position, o: nat, direction: (int, int), m: nat, n: nat, t: nat)
    requires o < 64 && m < n && Offset(o, direction.0 * m, direction.1 * m).Some?
    requires b[Offset(o, direction.0 * m, direction.1 * m).value] == Empty
    ensures Clear(b, o, direction, m, n, t) <==> Clear(b, o, direction, m + 1, n, t)
  {
    hide Offset;
  }

  lemma ClearHead(b: Position, o: nat, direction: (int, int), m: nat, n: nat, t: nat)
    requires o < 64 && Clear(b, o, direction, m, n, t)
    ensures Offset(o, direction.0 * m, direction.1 * m).Some?
    ensures n == m ==> Offset(o, direction.0 * m, direction.1 * m) == Some(t)
    ensures n > m ==> b[Offset(o, direction.0 * m, direction.1 * m).value] == Empty
  {
    hide Offset;
  }

  ghost predicate Hits(b: Position, o: nat, direction: (int, int), m: nat, t: nat)
    requires o < 64
  {
    exists n :: Clear(b, o, direction, m, n, t)
  }

  lemma HitsStep(b: Position, o: nat, direction: (int, int), m: nat, t: nat)
    requires o < 64 && 1 <= m <= 7
    ensures var to := Offset(o, direction.0 * m, direction.1 * m);
            Hits(b, o, direction, m, t) <==>
              to.Some? && (t == to.value || (b[to.value] == Empty && Hits(b, o, direction, m + 1, t)))
  {
    hide Offset, Clear;
    var to := Offset(o, direction.0 * m, direction.1 * m);
    if n: nat :| Clear(b, o, direction, m, n, t) {
      ClearHead(b, o, direction, m, n, t);
      ClearBounds(b, o, direction, m, n, t);
      if n > m { ClearTail(b, o, direction, m, n, t); }
    }
    if to == Some(t) {
      ClearHere(b, o, direction, m, t);
    }
    if to.Some? && b[to.value] == Empty && Hits(b, o, direction, m + 1, t) {
      var n :| Clear(b, o, direction, m + 1, n, t);
      ClearBounds(b, o, direction, m + 1, n, t);
      ClearTail(b, o, direction, m, n, t);
    }
  }

  lemma ClearBounds(b: Position, o: nat, direction: (int, int), m: nat, n: nat, t: nat)
    requires o < 64 && Clear(b, o, direction, m, n, t)
    ensures m <= n <= 7
  {
  }

  lemma ClearHere(b: Position, o: nat, direction: (int, int), m: nat, t: nat)
    requires o < 64 && m <= 7 && Offset(o, direction.0 * m, direction.1 * m) == Some(t)
    ensures Clear(b, o, direction, m, m, t)
  {
  }

  lemma NoHits(b: Position, o: nat, direction: (int, int), t: nat)
    requires o < 64
    ensures !Hits(b, o, direction, 8, t)
  {
  }

  lemma Added(targets: seq<nat>, x: nat, t: nat)
    ensures t in AddOnce(targets, x) <==> t in targets || t == x
  {
  }

  lemma {:induction false} RayExact(b: Position, side: Side, o: nat, direction: (int, int), m: nat, found: seq<nat>, t: nat)
    requires o < 64 && Unit(direction) && 1 <= m <= 8 && Landable(b, side, found)
    ensures t in RayTargets(b, side, o, direction, m, found) <==>
            t in found || (Hits(b, o, direction, m, t) && t < 64 && !Friendly(b, side, t))
    decreases 8 - m
  {
    hide Offset, Hits, AddOnce, Unit;
    if m > MAX_RAY_STEPS {
      NoHits(b, o, direction, t);
    } else {
      HitsStep(b, o, direction, m, t);
      NotHome(o, direction, m);
      var to := Offset(o, direction.0 * m, direction.1 * m);
      if to.Some? {
        Added(found, to.value, t);
        if b[to.value] == Empty {
          MovegenFacts.AddLandable(b, side, found, to.value);
          RayExact(b, side, o, direction, m + 1, AddOnce(found, to.value), t);
        }
      }
    }
  }

  lemma {:induction false} SlideExact(b: Position, side: Side, o: nat, directions: seq<(int, int)>, found: seq<nat>, t: nat)
    requires o < 64 && Landable(b, side, found) && forall i | 0 <= i < |directions| :: Unit(directions[i])
    ensures t in SlideTargets(b, side, o, directions, found) <==>
            t in found || (t < 64 && !Friendly(b, side, t) && exists d :: d in directions && Hits(b, o, d, 1, t))
    decreases |directions|
  {
    hide Hits, Unit, Friendly, Landable;
    if directions != [] {
      assert forall i | 0 <= i < |directions[1..]| :: directions[1..][i] == directions[i + 1];
      assert forall d :: d in directions <==> d == directions[0] || d in directions[1..];
      RayExact(b, side, o, directions[0], 1, found, t);
      SlideExact(b, side, o, directions[1..], RayTargets(b, side, o, directions[0], 1, found), t);
    }
  }

  /** The steps of a ray, by rings and sectors. */
  lemma RayOffset(o: nat, direction: (int, int), k: nat)
    requires o < 64
    ensures Offset(o, direction.0 * k, direction.1 * k) ==
            if 0 <= Ring(o) + k * direction.0 < 8 then Some(At(Ring(o) + k * direction.0, Sector(o) + k * direction.1)) else None
  {
    OffsetIs(o, direction.0 * k, direction.1 * k);
    assert direction.0 * k == k * direction.0 && direction.1 * k == k * direction.1;
  }

  lemma ClearIsAlong(b: Position, o: nat, direction: (int, int), n: nat, t: nat)
    requires o < 64
    ensures Clear(b, o, direction, 1, n, t) <==> 1 <= n <= 7 && Along(b, o, t, direction, n)
  {
    hide Offset, At, Ring, Sector;
    RayOffset(o, direction, n);
    if Clear(b, o, direction, 1, n, t) {
      forall k | 1 <= k < n
        ensures 0 <= Ring(o) + k * direction.0 < 8 && b[At(Ring(o) + k * direction.0, Sector(o) + k * direction.1)] == Empty
      {
        RayOffset(o, direction, k);
      }
    }
    if 1 <= n <= 7 && Along(b, o, t, direction, n) {
      forall k | 1 <= k < n
        ensures Offset(o, direction.0 * k, direction.1 * k).Some? && b[Offset(o, direction.0 * k, direction.1 * k).value] == Empty
      {
        RayOffset(o, direction, k);
      }
    }
  }

  lemma Directions(d: (int, int))
    ensures d in DIRECTIONS <==> Unit(d)
    ensures d in DIRECTIONS[..4] <==> Straight(d)
    ensures d in DIRECTIONS[4..] <==> Diagonal(d)
  {
    Listed(DIRECTIONS, d);
    FirstFour(DIRECTIONS, d);
  }

  lemma FirstFour(steps: seq<(int, int)>, p: (int, int))
    requires |steps| == 8
    ensures p in steps[..4] <==> p == steps[0] || p == steps[1] || p == steps[2] || p == steps[3]
    ensures p in steps[4..] <==> p == steps[4] || p == steps[5] || p == steps[6] || p == steps[7]
  {
    assert steps[..4] == [steps[0], steps[1], steps[2], steps[3]];
    assert steps[4..] == [steps[4], steps[5], steps[6], steps[7]];
  }

  function DirectionsOf(kind: Kind): seq<(int, int)> {
    match kind
    case Rook => DIRECTIONS[..4]
    case Bishop => DIRECTIONS[4..]
    case _ => DIRECTIONS
  }

  lemma DirectionOf(kind: Kind, d: (int, int))
    ensures d in DirectionsOf(kind) <==> ((kind != Bishop && Straight(d)) || (kind != Rook && Diagonal(d)))
  {
    Directions(d);
    hide DIRECTIONS, Straight, Diagonal;
  }

  lemma SlidesExact(b: Position, side: Side, kind: Kind, o: nat, t: nat)
    requires o < 64
    ensures t in SlideTargets(b, side, o, DirectionsOf(kind), []) <==> t < 64 && !Friendly(b, side, t) && Slides(b, kind, o, t)
  {
    var directions := DirectionsOf(kind);
    hide DirectionsOf, Clear, Along, SlideTargets, Friendly, Straight, Diagonal;
    forall i | 0 <= i < |directions|
      ensures Unit(directions[i])
    {
      DirectionOf(kind, directions[i]);
    }
    SlideExact(b, side, o, directions, [], t);
    if d :| d in directions && Hits(b, o, d, 1, t) {
      var n: nat :| Clear(b, o, d, 1, n, t);
      DirectionOf(kind, d);
      ClearIsAlong(b, o, d, n, t);
      assert Slides(b, kind, o, t);
    }
    if Slides(b, kind, o, t) {
      var d: (int, int), n: nat :| 1 <= n <= 7 && Along(b, o, t, d, n)
                                   && ((kind != Bishop && Straight(d)) || (kind != Rook && Diagonal(d)));
      DirectionOf(kind, d);
      ClearIsAlong(b, o, d, n, t);
      assert Hits(b, o, d, 1, t);
    }
  }

  // ---- Pawns -------------------------------------------------------------------------------------------

  lemma IsAt(ring: int, sector: int, t: nat)
    requires 0 <= ring < 8
    ensures t == At(ring, sector) <==> t < 64 && Ring(t) == ring && Sector(t) == sector % 8
  {
    AtParts(ring, sector);
    if t < 64 && Ring(t) == ring && Sector(t) == sector % 8 { SameSquare(t, At(ring, sector)); }
  }

  lemma OffsetTo(o: nat, ringSteps: int, sectorSteps: int, t: nat)
    requires o < 64
    ensures Offset(o, ringSteps, sectorSteps) == Some(t) <==>
            t < 64 && Ring(t) == Ring(o) + ringSteps && Sector(t) == (Sector(o) + sectorSteps) % 8
  {
    OffsetIs(o, ringSteps, sectorSteps);
    if 0 <= Ring(o) + ringSteps < 8 { IsAt(Ring(o) + ringSteps, Sector(o) + sectorSteps, t); }
    hide Offset, At;
  }

  lemma NextSector(o: nat, t: nat)
    ensures SectorGap(o, t) == 1 <==> Sector(t) == (Sector(o) + 1) % 8 || Sector(t) == (Sector(o) - 1) % 8
    ensures Sector(o) == (Sector(o) + 0) % 8
  {
  }

  lemma AdvancesExact(b: Position, side: Side, o: nat, t: nat)
    requires o < 64
    ensures var f := Forward(side);
            t in PawnAdvances(b, side, o) <==>
              || (Offset(o, f, 0) == Some(t) && b[t] == Empty)
              || (&& Offset(o, 2 * f, 0) == Some(t) && b[t] == Empty && b[o].Occupied? && !b[o].moved && o / 8 == PawnStartRing(side)
                  && Offset(o, f, 0).Some? && b[Offset(o, f, 0).value] == Empty)
  {
    hide Offset;
  }

  lemma CapturesExact(b: Position, side: Side, o: nat, t: nat)
    requires o < 64
    ensures t in PawnCaptures(b, side, o, [-1, 1]) <==>
              && (Offset(o, Forward(side), -1) == Some(t) || Offset(o, Forward(side), 1) == Some(t))
              && b[t].Occupied? && b[t].side != side
  {
    assert [-1, 1][1..] == [1] && [1][1..] == [] && PawnCaptures(b, side, o, []) == [];
    hide Offset;
  }

  lemma PawnExact(b: Position, side: Side, o: nat, t: nat)
    requires o < 64
    ensures t in PawnAdvances(b, side, o) + PawnCaptures(b, side, o, [-1, 1]) <==>
            t < 64 && !Friendly(b, side, t) && PawnReaches(b, side, o, t)
  {
    AdvancesExact(b, side, o, t);
    CapturesExact(b, side, o, t);
    var f := Forward(side);
    OffsetIs(o, f, 0);
    OffsetTo(o, f, 0, t);
    OffsetTo(o, 2 * f, 0, t);
    OffsetTo(o, f, -1, t);
    OffsetTo(o, f, 1, t);
    NextSector(o, t);
    hide Offset, PawnAdvances, PawnCaptures, SectorGap;
  }

  // ---- All pieces ----------------------------------------------------------------------------------------

  /** The targets of a piece are exactly the squares it reaches. */
  lemma TargetsExact(b: Position, side: Side, kind: Kind, o: nat, t: nat)
    requires o < 64
    ensures t in PieceTargets(b, side, kind, o) <==> Reaches(b, side, kind, o, t)
  {
    hide StepTargets, SlideTargets, PawnAdvances, PawnCaptures, PawnReaches, KnightReaches, KingReaches, Slides, KNIGHT_STEPS, KING_STEPS, DIRECTIONS;
    match kind
    case Pawn => PawnExact(b, side, o, t);
    case Knight => KnightExact(b, side, o, t);
    case King => KingExact(b, side, o, t);
    case _ => SlidesExact(b, side, kind, o, t);
  }

  lemma {:induction false} MovesExactBelow(b: Position, side: Side, bound: nat, o: nat, t: nat)
    requires bound <= 64
    ensures Step(o, t) in MovesBelow(b, side, bound) <==>
            o < bound && Friendly(b, side, o) && Reaches(b, side, b[o].kind, o, t)
  {
    hide PieceTargets, Reaches;
    if bound > 0 {
      var from := bound - 1;
      MovesExactBelow(b, side, from, o, t);
      if Friendly(b, side, from) {
        var targets := PieceTargets(b, side, b[from].kind, from);
        TargetsExact(b, side, b[from].kind, from, t);
        InSteps(from, targets, o, t);
        hide StepsFrom;
      }
    }
  }

  lemma InSteps(from: nat, targets: seq<nat>, o: nat, t: nat)
    ensures Step(o, t) in StepsFrom(from, targets) <==> o == from && t in targets
  {
    var steps := StepsFrom(from, targets);
    if o == from && t in targets {
      var i :| 0 <= i < |targets| && targets[i] == t;
      assert steps[i] == Step(o, t);
    }
  }

  /** The engine generates exactly the moves that the rules of movement allow. */
  lemma MovesExact(b: Position, side: Side, o: nat, t: nat)
    ensures Step(o, t) in GenerateMoves(b, side) <==>
            o < 64 && b[o].Occupied? && b[o].side == side && Reaches(b, side, b[o].kind, o, t)
  {
    MovesExactBelow(b, side, 64, o, t);
    hide Reaches, MovesBelow;
  }
}
