/** What every event keeps true of a game: pieces, kings and the trajectory. */
module Conservation {
  import opened Wrappers
  import opened Types
  import opened Game

  // ---- The board and the packed position agree --------------------------------------------

  ghost predicate BoardOk(pieces: seq<Piece>) {
    && (forall p | p in pieces :: ValidCoord(p.at) && p.id != "")
    && (forall p, q | p in pieces && q in pieces && p.id == q.id :: p == q)
    && (forall p, q | p in pieces && q in pieces && p.at == q.at :: p == q)
    && (forall p, q | p in pieces && q in pieces && p.kind == King && q.kind == King && p.side == q.side :: p == q)
  }

  lemma {:induction false} PositionHolds(pieces: seq<Piece>, q: Piece)
    requires q in pieces
    requires forall p | p in pieces :: ValidCoord(p.at)
    requires forall p | p in pieces && p.at == q.at :: p == q
    ensures PositionOf(pieces)[SquareOf(q.at)] == CellOf(q)
  {
    var front, last := pieces[..|pieces| - 1], pieces[|pieces| - 1];
    assert pieces == front + [last];
    NormalizeSectorWraps(last.at.sector);
    if last.at != q.at {
      assert last in pieces && q in front;
      PositionHolds(front, q);
    }
  }

  lemma {:induction false} PositionEmpty(pieces: seq<Piece>, c: Coord)
    requires ValidCoord(c)
    requires forall p | p in pieces :: ValidCoord(p.at) && p.at != c
    ensures PositionOf(pieces)[SquareOf(c)] == Empty
  {
    if pieces != [] {
      var front, last := pieces[..|pieces| - 1], pieces[|pieces| - 1];
      assert pieces == front + [last];
      NormalizeSectorWraps(last.at.sector);
      assert last in pieces;
      PositionEmpty(front, c);
    }
  }

  /** A legal destination is on the board and never holds a piece of the mover's side. */
  lemma LegalDestination(g: Generator, piece: Piece, pieces: seq<Piece>, to: Coord)
    requires Sound(g) && BoardOk(pieces) && piece in pieces && to in LegalMoves(g, piece, pieces)
    ensures ValidCoord(to) && forall q | q in pieces && q.at == to :: q.side != piece.side
  {
    var all := pieces + [piece];
    var board, origin := PositionOf(all), SquareOf(piece.at);
    TargetsFromExactly(g(board, piece.side), origin);
    var m :| m in g(board, piece.side) && m.origin == origin && to == CoordOf(m.target);
    assert SquareOf(to) == m.target;
    forall q | q in pieces && q.at == to
      ensures q.side != piece.side
    {
      PositionHolds(all, q);
    }
  }

  // ---- Conservation of pieces -------------------------------------------------------------

  /** How often an id occurs on the board for a side. */
  function Census(pieces: seq<Piece>, id: string, side: Side): nat {
    if pieces == [] then 0
    else Census(pieces[1..], id, side) + (if pieces[0].id == id && pieces[0].side == side then 1 else 0)
  }

  function One(p: Piece, id: string, side: Side): nat {
    if p.id == id && p.side == side then 1 else 0
  }

  ghost function CapturedPieces(captures: seq<CaptureRecord>): seq<Piece> {
    seq(|captures|, i requires 0 <= i < |captures| => captures[i].captured)
  }

  lemma {:induction false} CensusAppend(pieces: seq<Piece>, p: Piece, id: string, side: Side)
    ensures Census(pieces + [p], id, side) == Census(pieces, id, side) + One(p, id, side)
  {
    if pieces == [] {
      assert pieces + [p] == [p];
    } else {
      assert (pieces + [p])[1..] == pieces[1..] + [p];
      CensusAppend(pieces[1..], p, id, side);
    }
  }

  lemma {:induction false} CensusReplacing(pieces: seq<Piece>, next: Piece, id: string, side: Side)
    requires forall p | p in pieces && p.id == next.id :: p.side == next.side
    ensures Census(Replacing(pieces, next.id, next), id, side) == Census(pieces, id, side)
  {
    if pieces != [] {
      var r := Replacing(pieces, next.id, next);
      assert r[1..] == Replacing(pieces[1..], next.id, next);
      assert pieces[0] in pieces;
      CensusReplacing(pieces[1..], next, id, side);
    }
  }

  lemma {:induction false} WithoutAbsent(pieces: seq<Piece>, id: string)
    requires forall p | p in pieces :: p.id != id
    ensures Without(pieces, id) == pieces
  {
    if pieces != [] {
      WithoutAbsent(pieces[1..], id);
    }
  }

  /** No id occurs twice in the list. */
  ghost predicate OnceOnly(pieces: seq<Piece>) {
    pieces == [] || ((forall q | q in pieces[1..] :: q.id != pieces[0].id) && OnceOnly(pieces[1..]))
  }

  lemma {:induction false} CensusWithout(pieces: seq<Piece>, p: Piece)
    requires OnceOnly(pieces) && p in pieces
    ensures forall id, side :: Census(pieces, id, side) == Census(Without(pieces, p.id), id, side) + One(p, id, side)
    ensures OnceOnly(Without(pieces, p.id))
  {
    if pieces[0] == p {
      WithoutAbsent(pieces[1..], p.id);
    } else {
      assert p in pieces[1..];
      CensusWithout(pieces[1..], p);
      var rest := Without(pieces[1..], p.id);
      assert Without(pieces, p.id) == [pieces[0]] + rest;
      assert ([pieces[0]] + rest)[1..] == rest;
    }
  }

  lemma {:induction false} ReplacingAbsent(pieces: seq<Piece>, id: string, next: Piece)
    requires forall p | p in pieces :: p.id != id
    ensures Replacing(pieces, id, next) == pieces
  {
    if pieces != [] {
      ReplacingAbsent(pieces[1..], id, next);
    }
  }

  lemma {:induction false} ReplacingOnce(pieces: seq<Piece>, id: string, next: Piece)
    requires OnceOnly(pieces) && next.id == id
    ensures OnceOnly(Replacing(pieces, id, next))
  {
    if pieces != [] {
      ReplacingOnce(pieces[1..], id, next);
      if pieces[0].id == id {
        ReplacingAbsent(pieces[1..], id, next);
      }
      var head, tail := if pieces[0].id == id then next else pieces[0], Replacing(pieces[1..], id, next);
      assert Replacing(pieces, id, next) == [head] + tail && ([head] + tail)[1..] == tail;
    }
  }

  /** A reachable destination of a canonical coordinate is one the generator offered. */
  lemma ReachedDestination(g: Generator, pieces: seq<Piece>, mover: Piece, to: Coord)
    requires Sound(g) && BoardOk(pieces) && mover in pieces && ValidCoord(to) && CanReach(g, mover, pieces, to)
    ensures forall q | q in pieces && q.at == to :: q.side != mover.side
  {
    var c :| c in LegalMoves(g, mover, pieces) && SameCoord(c, to);
    LegalDestination(g, mover, pieces, c);
    NormalizeSectorWraps(to.sector);
    NormalizeSectorWraps(c.sector);
    assert c == to;
  }

  lemma SameCoordOnBoard(a: Coord, b: Coord)
    requires ValidCoord(a) && ValidCoord(b)
    ensures SameCoord(a, b) <==> a == b
  {
    NormalizeSectorWraps(a.sector);
    NormalizeSectorWraps(b.sector);
  }

  /** The pieces that a move leaves besides the mover's own change. */
  ghost function Left(pieces: seq<Piece>, victim: Option<Piece>): seq<Piece> {
    if victim.None? then pieces else Without(pieces, victim.value.id)
  }

  function Landed(mover: Piece, to: Coord): Piece {
    mover.(at := to, moved := true, kind := if ReachesFarEdge(mover, to) then Queen else mover.kind)
  }

  lemma MoveUnfolds(g: Generator, pieces: seq<Piece>, mover: Piece, to: Coord, parts: seq<ProblemPart>, turn: int)
    requires Sound(g) && BoardOk(pieces) && mover in pieces && ValidCoord(to)
    requires ApplyMove(g, pieces, mover.id, to, parts, turn).Ok?
    ensures CanReach(g, mover, pieces, to)
    ensures var r := ApplyMove(g, pieces, mover.id, to, parts, turn).value;
            var victim := GetPieceAt(pieces, to);
            && r.pieces == Replacing(Left(pieces, victim), mover.id, Landed(mover, to))
            && r.promoted == ReachesFarEdge(mover, to)
            && (r.capture.Some? <==> victim.Some?)
            && (victim.Some? ==> r.capture.value.captured == victim.value && victim.value in pieces && victim.value.at == to)
            && (victim.None? ==> forall p | p in pieces :: p.at != to)
  {
    NormalizeSectorWraps(to.sector);
    assert FindById(pieces, mover.id) == Some(mover);
    forall p | p in pieces
      ensures SameCoord(p.at, to) <==> p.at == to
    {
      SameCoordOnBoard(p.at, to);
    }
  }

  /** Moving one piece keeps the board well formed once its destination is clear. */
  lemma LandingKeepsBoard(left: seq<Piece>, mover: Piece, to: Coord)
    requires BoardOk(left) && mover in left && ValidCoord(to) && forall p | p in left :: p.at != to
    ensures BoardOk(Replacing(left, mover.id, Landed(mover, to)))
  {
    var after := Replacing(left, mover.id, Landed(mover, to));
    assert forall p | p in after :: p == Landed(mover, to) || (p in left && p.id != mover.id);
  }

  lemma LandingConserves(pieces: seq<Piece>, mover: Piece, to: Coord, victim: Option<Piece>)
    requires BoardOk(pieces) && OnceOnly(pieces) && mover in pieces && ValidCoord(to)
    requires victim.Some? ==> victim.value in pieces && victim.value.at == to && victim.value.side != mover.side
    requires victim.None? ==> forall p | p in pieces :: p.at != to
    ensures var after := Replacing(Left(pieces, victim), mover.id, Landed(mover, to));
            && BoardOk(after) && OnceOnly(after)
            && forall id, side :: Census(pieces, id, side) == Census(after, id, side) + (if victim.Some? then One(victim.value, id, side) else 0)
  {
    var left := Left(pieces, victim);
    if victim.Some? {
      CensusWithout(pieces, victim.value);
    }
    assert forall p | p in left :: p in pieces && p.at != to;
    LandingKeepsBoard(left, mover, to);
    forall id, side
      ensures Census(Replacing(left, mover.id, Landed(mover, to)), id, side) == Census(left, id, side)
    {
      CensusReplacing(left, Landed(mover, to), id, side);
    }
    ReplacingOnce(left, mover.id, Landed(mover, to));
  }

  /** What one legal move does: nobody appears or vanishes except one captured opponent. */
  ghost predicate Conserves(pieces: seq<Piece>, mover: Piece, to: Coord, r: MoveResult) {
    && BoardOk(r.pieces) && OnceOnly(r.pieces)
    && HasKing(r.pieces, mover.side) == HasKing(pieces, mover.side)
    && (r.capture.None? ==>
          && (forall id, side :: Census(r.pieces, id, side) == Census(pieces, id, side))
          && HasKing(r.pieces, mover.side.Other()) == HasKing(pieces, mover.side.Other()))
    && (r.capture.Some? ==>
          var victim := r.capture.value.captured;
          && victim in pieces && victim.side == mover.side.Other() && victim.at == to
          && (forall id, side :: Census(pieces, id, side) == Census(r.pieces, id, side) + One(victim, id, side))
          && HasKing(r.pieces, victim.side) == (HasKing(pieces, victim.side) && victim.kind != King))
  }

  /** Sound generators conserve the pieces in every legal move. */
  lemma MoveConserves(g: Generator, pieces: seq<Piece>, mover: Piece, to: Coord, parts: seq<ProblemPart>, turn: int)
    requires Sound(g) && BoardOk(pieces) && OnceOnly(pieces) && mover in pieces && ValidCoord(to)
    requires ApplyMove(g, pieces, mover.id, to, parts, turn).Ok?
    ensures Conserves(pieces, mover, to, ApplyMove(g, pieces, mover.id, to, parts, turn).value)
  {
    var r := ApplyMove(g, pieces, mover.id, to, parts, turn).value;
    var victim := GetPieceAt(pieces, to);
    assert && r.pieces == Replacing(Left(pieces, victim), mover.id, Landed(mover, to))
           && (r.capture.Some? <==> victim.Some?)
           && (victim.Some? ==> r.capture.value.captured == victim.value && victim.value in pieces
                                && victim.value.at == to && victim.value.side != mover.side)
           && (victim.None? ==> forall p | p in pieces :: p.at != to) by {
      MoveUnfolds(g, pieces, mover, to, parts, turn);
      ReachedDestination(g, pieces, mover, to);
    }
    MoveConservesAs(pieces, mover, to, victim, r);
  }

  lemma MoveConservesAs(pieces: seq<Piece>, mover: Piece, to: Coord, victim: Option<Piece>, r: MoveResult)
    requires BoardOk(pieces) && OnceOnly(pieces) && mover in pieces && ValidCoord(to)
    requires victim.Some? ==> victim.value in pieces && victim.value.at == to && victim.value.side != mover.side
    requires victim.None? ==> forall p | p in pieces :: p.at != to
    requires r.pieces == Replacing(Left(pieces, victim), mover.id, Landed(mover, to))
    requires r.capture.Some? <==> victim.Some?
    requires victim.Some? ==> r.capture.value.captured == victim.value
    ensures Conserves(pieces, mover, to, r)
  {
    LandingConserves(pieces, mover, to, victim);
    MoveKings(pieces, Left(pieces, victim), mover, Landed(mover, to), victim);
  }

  lemma MoveKings(pieces: seq<Piece>, left: seq<Piece>, mover: Piece, landed: Piece, victim: Option<Piece>)
    requires BoardOk(pieces) && mover in left && landed.id == mover.id && landed.side == mover.side
    requires landed.kind == mover.kind || (mover.kind == Pawn && landed.kind == Queen)
    requires forall p :: p in left <==> p in pieces && (victim.Some? ==> p.id != victim.value.id)
    requires victim.Some? ==> victim.value in pieces && victim.value.side != mover.side
    ensures var after := Replacing(left, mover.id, landed);
            && HasKing(after, mover.side) == HasKing(pieces, mover.side)
            && (victim.None? ==> forall side :: HasKing(after, side) == HasKing(pieces, side))
            && (victim.Some? ==> HasKing(after, victim.value.side) ==
                                 (HasKing(pieces, victim.value.side) && victim.value.kind != King))
  {
    var after := Replacing(left, mover.id, landed);
    forall side
      ensures HasKing(after, side) == HasKing(left, side)
    {
      if HasKing(left, side) {
        var k :| k in left && k.side == side && k.kind == King;
        if k.id == mover.id {
          assert k == mover && landed in after;
        } else {
          assert k in after;
        }
      }
      if HasKing(after, side) {
        var k :| k in after && k.side == side && k.kind == King;
        if k == landed {
          assert mover in left;
        } else {
          assert k in left;
        }
      }
    }
    forall side | victim.Some? ==> side != victim.value.side
      ensures HasKing(left, side) == HasKing(pieces, side)
    {
      if HasKing(pieces, side) {
        var k :| k in pieces && k.side == side && k.kind == King;
        assert k in left;
      }
    }
    if victim.Some? && victim.value.kind != King && HasKing(pieces, victim.value.side) {
      var k :| k in pieces && k.side == victim.value.side && k.kind == King;
      assert k in left;
    }
  }
}
