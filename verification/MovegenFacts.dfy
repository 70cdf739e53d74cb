/** Why the packed move buffer never overflows (src/lib/engine/movegen.ts:24-40). */
module MovegenFacts {
  import opened Wrappers
  import opened Sequences
  import opened Types
  import opened Game
  import opened Movegen

  /** SQUARE_COUNT * (SQUARE_COUNT - 1), the capacity of a move buffer. */
  const MAX_MOVES := 4032

  /** Different squares of the board, none of them the piece's own. */
  ghost predicate Apart(targets: seq<nat>, from: nat) {
    Distinct(targets) && from !in targets && forall t | t in targets :: t < 64
  }

  // ---- Squares and steps -----------------------------------------------------------------------

  lemma OffsetAt(from: nat, ringSteps: int, sectorSteps: int)
    requires from < 64 && Offset(from, ringSteps, sectorSteps).Some?
    ensures var to := Offset(from, ringSteps, sectorSteps).value;
            to / 8 == from / 8 + ringSteps && to % 8 == (from % 8 + sectorSteps) % 8
  {
  }

  /** Two steps that lead to different squares from everywhere. */
  predicate Diverge(p: (int, int), q: (int, int)) {
    p.0 != q.0 || (p.1 - q.1) % 8 != 0
  }

  lemma SameResidue(x: int, s: int, t: int)
    requires (x + s) % 8 == (x + t) % 8
    ensures (s - t) % 8 == 0
  {
    assert s - t == 8 * ((x + s) / 8 - (x + t) / 8);
  }

  lemma OffsetsDiverge(from: nat, p: (int, int), q: (int, int))
    requires from < 64 && Diverge(p, q) && Offset(from, p.0, p.1).Some?
    ensures Offset(from, p.0, p.1) != Offset(from, q.0, q.1)
  {
    if Offset(from, q.0, q.1) == Offset(from, p.0, p.1) {
      OffsetAt(from, p.0, p.1);
      OffsetAt(from, q.0, q.1);
      if p.0 == q.0 { SameResidue(from % 8, p.1, q.1); }
    }
  }

  lemma OffsetLeaves(from: nat, p: (int, int))
    requires from < 64 && Diverge(p, (0, 0)) && Offset(from, p.0, p.1).Some?
    ensures Offset(from, p.0, p.1) != Some(from)
  {
    assert Offset(from, 0, 0) == Some(from);
    OffsetsDiverge(from, p, (0, 0));
  }

  // ---- One kind of piece after the other ------------------------------------------------------------

  ghost predicate AllDiverge(steps: seq<(int, int)>) {
    && (forall i, j | 0 <= i < j < |steps| :: Diverge(steps[i], steps[j]))
    && forall i | 0 <= i < |steps| :: Diverge(steps[i], (0, 0))
  }

  lemma {:induction false} StepTargetIsOffset(b: Position, side: Side, from: nat, steps: seq<(int, int)>, t: nat)
    requires from < 64 && t in StepTargets(b, side, from, steps)
    ensures exists i :: 0 <= i < |steps| && Offset(from, steps[i].0, steps[i].1) == Some(t)
  {
    hide Offset, Friendly;
    if Offset(from, steps[0].0, steps[0].1) != Some(t) {
      StepTargetIsOffset(b, side, from, steps[1..], t);
      var i :| 0 <= i < |steps[1..]| && Offset(from, steps[1..][i].0, steps[1..][i].1) == Some(t);
      assert steps[i + 1] == steps[1..][i];
    }
  }

  lemma Cons(t: nat, targets: seq<nat>, from: nat)
    requires Apart(targets, from) && t !in targets && t != from && t < 64
    ensures Apart([t] + targets, from)
  {
  }

  lemma {:induction false} StepsApart(b: Position, side: Side, from: nat, steps: seq<(int, int)>)
    requires from < 64 && AllDiverge(steps)
    ensures Apart(StepTargets(b, side, from, steps), from)
  {
    hide Offset, Diverge;
    if steps != [] {
      StepsApart(b, side, from, steps[1..]);
      var first, rest := Offset(from, steps[0].0, steps[0].1), StepTargets(b, side, from, steps[1..]);
      if first.Some? && !Friendly(b, side, first.value) {
        OffsetLeaves(from, steps[0]);
        if first.value in rest {
          StepTargetIsOffset(b, side, from, steps[1..], first.value);
          var i :| 0 <= i < |steps[1..]| && Offset(from, steps[1..][i].0, steps[1..][i].1) == Some(first.value);
          OffsetsDiverge(from, steps[0], steps[i + 1]);
        }
        hide Apart;
        Cons(first.value, rest, from);
      }
    }
  }

  /** Steps of at most two sectors to either side do not meet around the ring. */
  lemma ShortStepsDiverge(steps: seq<(int, int)>)
    requires Distinct(steps) && (0, 0) !in steps && forall i | 0 <= i < |steps| :: -2 <= steps[i].1 <= 2
    ensures AllDiverge(steps)
  {
    hide Diverge;
    forall i, j | 0 <= i < j < |steps|
      ensures Diverge(steps[i], steps[j])
    {
      ShortDiverge(steps[i], steps[j]);
    }
    forall i | 0 <= i < |steps|
      ensures Diverge(steps[i], (0, 0))
    {
      ShortDiverge(steps[i], (0, 0));
    }
  }

  lemma ShortDiverge(p: (int, int), q: (int, int))
    requires p != q && -2 <= p.1 <= 2 && -2 <= q.1 <= 2
    ensures Diverge(p, q)
  {
  }

  lemma KnightSteps()
    ensures AllDiverge(KNIGHT_STEPS)
  {
    hide AllDiverge;
    ShortStepsDiverge(KNIGHT_STEPS);
  }

  lemma KingSteps()
    ensures AllDiverge(KING_STEPS)
  {
    hide AllDiverge;
    ShortStepsDiverge(KING_STEPS);
  }

  lemma AddApart(targets: seq<nat>, t: nat, from: nat)
    requires Apart(targets, from) && t != from && t < 64
    ensures Apart(AddOnce(targets, t), from)
  {
  }

  lemma {:induction false} RayApart(b: Position, side: Side, from: nat, direction: (int, int), distance: nat, found: seq<nat>)
    requires from < 64 && 1 <= distance <= 8 && Landable(b, side, found) && Apart(found, from)
    ensures Apart(RayTargets(b, side, from, direction, distance, found), from)
    decreases 8 - distance
  {
    hide Offset, Apart, AddOnce;
    if distance <= MAX_RAY_STEPS {
      var to := Offset(from, direction.0 * distance, direction.1 * distance);
      if to.Some? && to.value != from {
        AddApart(found, to.value, from);
        if b[to.value] == Empty {
          AddLandable(b, side, found, to.value);
          RayApart(b, side, from, direction, distance + 1, AddOnce(found, to.value));
        }
      }
    }
  }

  lemma AddLandable(b: Position, side: Side, found: seq<nat>, t: nat)
    requires Landable(b, side, found) && t < 64 && b[t] == Empty
    ensures Landable(b, side, AddOnce(found, t))
  {
  }

  lemma {:induction false} SlideApart(b: Position, side: Side, from: nat, directions: seq<(int, int)>, found: seq<nat>)
    requires from < 64 && Landable(b, side, found) && Apart(found, from)
    ensures Apart(SlideTargets(b, side, from, directions, found), from)
    decreases |directions|
  {
    hide Apart, Landable;
    if directions != [] {
      RayApart(b, side, from, directions[0], 1, found);
      SlideApart(b, side, from, directions[1..], RayTargets(b, side, from, directions[0], 1, found));
    }
  }

  /** The square of an offset, if it is taken. */
  function Taken(to: Option<nat>, take: bool): seq<nat> {
    if take && to.Some? then [to.value] else []
  }

  lemma TakenApart(to: Option<nat>, take: bool, targets: seq<nat>, from: nat)
    requires Apart(targets, from) && (to.Some? ==> to.value !in targets && to.value != from && to.value < 64)
    ensures Apart(Taken(to, take) + targets, from)
  {
    if take && to.Some? { Cons(to.value, targets, from); } else { assert Taken(to, take) + targets == targets; }
  }

  lemma AdvanceTargets(b: Position, side: Side, from: nat) returns (ahead: bool, twice: bool)
    requires from < 64
    ensures PawnAdvances(b, side, from)
            == Taken(Offset(from, Forward(side), 0), ahead) + Taken(Offset(from, 2 * Forward(side), 0), twice)
  {
    hide Offset;
    var one, two := Offset(from, Forward(side), 0), Offset(from, 2 * Forward(side), 0);
    ahead := one.Some? && b[one.value] == Empty;
    twice := ahead && b[from].Occupied? && !b[from].moved && from / 8 == PawnStartRing(side) && two.Some? && b[two.value] == Empty;
  }

  lemma CaptureTarget(b: Position, side: Side, from: nat, steps: seq<int>) returns (take: bool)
    requires from < 64 && steps != []
    ensures PawnCaptures(b, side, from, steps)
            == Taken(Offset(from, Forward(side), steps[0]), take) + PawnCaptures(b, side, from, steps[1..])
  {
    hide Offset;
    var to := Offset(from, Forward(side), steps[0]);
    take := to.Some? && b[to.value].Occupied? && b[to.value].side != side;
  }

  lemma PawnTargets(b: Position, side: Side, from: nat) returns (ahead: bool, twice: bool, left: bool, right: bool)
    requires from < 64
    ensures var f := Forward(side);
            PawnAdvances(b, side, from) + PawnCaptures(b, side, from, [-1, 1])
            == Taken(Offset(from, f, 0), ahead) + (Taken(Offset(from, 2 * f, 0), twice)
               + (Taken(Offset(from, f, -1), left) + (Taken(Offset(from, f, 1), right) + [])))
  {
    assert [-1, 1][1..] == [1] && [1][1..] == [] && PawnCaptures(b, side, from, []) == [];
    hide Offset, PawnAdvances, PawnCaptures, Taken;
    ahead, twice := AdvanceTargets(b, side, from);
    left := CaptureTarget(b, side, from, [-1, 1]);
    right := CaptureTarget(b, side, from, [1]);
    hide *;
    var f := Forward(side);
    Regroup(Taken(Offset(from, f, 0), ahead), Taken(Offset(from, 2 * f, 0), twice), PawnCaptures(b, side, from, [-1, 1]));
  }

  /** The pawn's steps, in the order in which they are tried. */
  function PawnSteps(side: Side): seq<(int, int)> {
    [(Forward(side), 0), (2 * Forward(side), 0), (Forward(side), -1), (Forward(side), 1)]
  }

  lemma PawnStepsDiverge(side: Side)
    ensures AllDiverge(PawnSteps(side))
  {
    hide AllDiverge;
    ShortStepsDiverge(PawnSteps(side));
  }

  lemma PawnApart(b: Position, side: Side, from: nat)
    requires from < 64
    ensures Apart(PawnAdvances(b, side, from) + PawnCaptures(b, side, from, [-1, 1]), from)
  {
    var all := PawnSteps(side);
    assert |all| == 4;
    assert all[0] == (Forward(side), 0) && all[1] == (2 * Forward(side), 0) && all[2] == (Forward(side), -1) && all[3] == (Forward(side), 1);
    EmptyApart(from);
    assert FromLater(from, all, 4, []);
    hide *;
    var ahead, twice, left, right := PawnTargets(b, side, from);
    PawnStepsDiverge(side);
    var targets := OffsetsTaken(from, all, 3, right, []);
    targets := OffsetsTaken(from, all, 2, left, targets);
    targets := OffsetsTaken(from, all, 1, twice, targets);
    targets := OffsetsTaken(from, all, 0, ahead, targets);
  }

  lemma EmptyApart(from: nat)
    ensures Apart([], from)
  {
  }

  /** Offsets by the later of some diverging steps. */
  ghost predicate FromLater(from: nat, steps: seq<(int, int)>, i: nat, targets: seq<nat>)
    requires from < 64
  {
    forall t | t in targets :: exists j :: i <= j < |steps| && Offset(from, steps[j].0, steps[j].1) == Some(t)
  }

  lemma OffsetsTaken(from: nat, steps: seq<(int, int)>, i: nat, take: bool, targets: seq<nat>) returns (more: seq<nat>)
    requires from < 64 && AllDiverge(steps) && i < |steps| && Apart(targets, from) && FromLater(from, steps, i + 1, targets)
    ensures more == Taken(Offset(from, steps[i].0, steps[i].1), take) + targets
    ensures Apart(more, from) && FromLater(from, steps, i, more)
  {
    hide Offset, Apart;
    var to := Offset(from, steps[i].0, steps[i].1);
    more := Taken(to, take) + targets;
    if to.Some? {
      OffsetLeaves(from, steps[i]);
      if to.value in targets {
        var j :| i < j < |steps| && Offset(from, steps[j].0, steps[j].1) == Some(to.value);
        OffsetsDiverge(from, steps[i], steps[j]);
      }
    }
    TakenApart(to, take, targets, from);
  }

  lemma TargetsApart(b: Position, side: Side, kind: Kind, from: nat)
    requires from < 64
    ensures Apart(PieceTargets(b, side, kind, from), from)
  {
    hide AllDiverge, PawnAdvances, PawnCaptures, StepTargets, SlideTargets;
    match kind
    case Pawn => PawnApart(b, side, from);
    case Knight =>
      KnightSteps();
      StepsApart(b, side, from, KNIGHT_STEPS);
    case King =>
      KingSteps();
      StepsApart(b, side, from, KING_STEPS);
    case Rook => SlideApart(b, side, from, DIRECTIONS[..4], []);
    case Bishop => SlideApart(b, side, from, DIRECTIONS[4..], []);
    case Queen => SlideApart(b, side, from, DIRECTIONS, []);
  }

  // ---- Counting ------------------------------------------------------------------------------------

  lemma {:induction false} DistinctFits(s: seq<nat>, all: set<nat>)
    requires Distinct(s) && forall t | t in s :: t in all
    ensures |s| <= |all|
    decreases |s|
  {
    if s != [] {
      var front, last := s[..|s| - 1], s[|s| - 1];
      assert s[|s| - 1] in s;
      forall t | t in front
        ensures t in all - {last}
      {
        assert t in s;
      }
      DistinctFits(front, all - {last});
    }
  }

  lemma TargetsFit(targets: seq<nat>, from: nat)
    requires Apart(targets, from) && from < 64
    ensures |targets| <= 63
  {
    hide Naturals, Distinct;
    DistinctFits(targets, Naturals(64) - {from});
  }

  lemma StepsDistinct(from: nat, targets: seq<nat>)
    requires Apart(targets, from)
    ensures Distinct(StepsFrom(from, targets)) && forall m | m in StepsFrom(from, targets) :: m.origin != m.target
  {
  }

  lemma DistinctJoin(s: seq<Step>, t: seq<Step>, from: nat)
    requires Distinct(s) && Distinct(t) && (forall m | m in s :: m.origin < from) && forall m | m in t :: m.origin == from
    ensures Distinct(s + t)
  {
    forall i, j | 0 <= i < j < |s + t|
      ensures (s + t)[i] != (s + t)[j]
    {
      if i < |s| <= j { assert s[i] in s && t[j - |s|] in t; }
    }
  }

  lemma {:induction false} MovesFitBelow(b: Position, side: Side, bound: nat)
    requires bound <= 64
    ensures var moves := MovesBelow(b, side, bound);
            Distinct(moves) && |moves| <= 63 * bound && forall m | m in moves :: m.origin != m.target
  {
    if bound > 0 {
      var from := bound - 1;
      var below := MovesBelow(b, side, from);
      MovesFitBelow(b, side, from);
      if Friendly(b, side, from) {
        var targets := PieceTargets(b, side, b[from].kind, from);
        TargetsApart(b, side, b[from].kind, from);
        TargetsFit(targets, from);
        StepsDistinct(from, targets);
        hide Apart, PieceTargets, Distinct;
        DistinctJoin(below, StepsFrom(from, targets), from);
      }
    }
  }

  /**
   * In every position each move has its own pair of origin and target, and no piece moves to its own
   * square; so the moves fit the buffer, and appending one never fails.
   */
  lemma MovesFit(b: Position, side: Side)
    ensures var moves := GenerateMoves(b, side);
            Distinct(moves) && |moves| <= MAX_MOVES && forall m | m in moves :: m.origin != m.target
  {
    MovesFitBelow(b, side, 64);
  }
}
