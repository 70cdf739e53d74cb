/** The canonical 32-piece setup (src/lib/game.ts:43-118), slot by slot, and why no two pieces share an id or a cell. */
module Setup {
  import opened Types
  import opened Game
  import opened Conservation
  import Sequences
  import Text

  lemma SideNamesDiffer(s1: Side, rest1: string, s2: Side, rest2: string)
    requires SideName(s1) + rest1 == SideName(s2) + rest2
    ensures s1 == s2
  {
    assert (SideName(s1) + rest1)[0] == SideName(s1)[0] && (SideName(s2) + rest2)[0] == SideName(s2)[0];
  }

  lemma KindNamesDiffer(k1: Kind, rest1: string, k2: Kind, rest2: string)
    requires KindName(k1) + rest1 == KindName(k2) + rest2
    ensures k1 == k2
  {
    var a, b := KindName(k1) + rest1, KindName(k2) + rest2;
    assert a[0] == KindName(k1)[0] && a[1] == KindName(k1)[1];
    assert b[0] == KindName(k2)[0] && b[1] == KindName(k2)[1];
  }

  /** An id says which side, which kind and which number it is. */
  lemma PieceIdInjective(s1: Side, k1: Kind, n1: nat, s2: Side, k2: Kind, n2: nat)
    requires PieceId(s1, k1, n1) == PieceId(s2, k2, n2)
    ensures s1 == s2 && k1 == k2 && n1 == n2
  {
    hide Text.Decimal, SideName, KindName;
    var d1, d2 := "-" + Text.Decimal(n1), "-" + Text.Decimal(n2);
    var r1, r2 := "-" + (KindName(k1) + d1), "-" + (KindName(k2) + d2);
    assert PieceId(s1, k1, n1) == SideName(s1) + r1 && PieceId(s2, k2, n2) == SideName(s2) + r2;
    SideNamesDiffer(s1, r1, s2, r2);
    Sequences.SamePrefix(SideName(s1), r1, r2);
    Sequences.SamePrefix("-", KindName(k1) + d1, KindName(k2) + d2);
    KindNamesDiffer(k1, d1, k2, d2);
    Sequences.SamePrefix(KindName(k1), d1, d2);
    Sequences.SamePrefix("-", Text.Decimal(n1), Text.Decimal(n2));
    Text.DecimalInjective(n1, n2);
  }

  lemma {:induction false} CountGrows(kind: Kind, i: nat, j: nat)
    requires i <= j <= 8
    ensures CountUpTo(kind, i) <= CountUpTo(kind, j)
  {
    if i < j {
      CountGrows(kind, i, j - 1);
    }
  }

  function SideOfSlot(k: nat): Side { if k < 16 then Black else White }

  function KindOfSlot(k: nat): Kind
    requires k < 32
  { if k % 16 < 8 then BACK_RANK[k % 16] else Pawn }

  function CountOfSlot(k: nat): nat
    requires k < 32
  { if k % 16 < 8 then CountUpTo(BACK_RANK[k % 16], k % 16) + 1 else k % 16 - 7 }

  function RingOfSlot(k: nat): int {
    if k < 8 then 0 else if k < 16 then 1 else if k < 24 then 7 else 6
  }

  function SlotPiece(k: nat): Piece
    requires k < 32
  {
    Piece(PieceId(SideOfSlot(k), KindOfSlot(k), CountOfSlot(k)), SideOfSlot(k), KindOfSlot(k),
          Coord(RingOfSlot(k), k % 8), false)
  }

  lemma BlackSlot(k: nat)
    requires k < 16
    ensures SlotPiece(k) == if k < 8 then BackPiece(Black, 0, k) else PawnPiece(Black, 1, k - 8)
  {
    hide PieceId, CountUpTo;
    assert k % 16 == k && k % 8 == if k < 8 then k else k - 8;
  }

  lemma WhiteSlot(k: nat)
    requires k < 16
    ensures SlotPiece(k + 16) == if k < 8 then BackPiece(White, 7, k) else PawnPiece(White, 6, k - 8)
  {
    hide PieceId, CountUpTo;
    assert (k + 16) % 16 == k && (k + 16) % 8 == if k < 8 then k else k - 8;
  }

  lemma InitialSlots()
    ensures |InitialPieces()| == 32 && forall k | 0 <= k < 32 :: InitialPieces()[k] == SlotPiece(k)
  {
    hide SlotPiece, BackPiece, PawnPiece;
    forall k | 0 <= k < 32
      ensures InitialPieces()[k] == SlotPiece(k)
    {
      if k < 16 { BlackSlot(k); } else { WhiteSlot(k - 16); }
    }
  }

  /** Side, kind and number tell the 32 slots apart. */
  lemma SlotsDistinct(j: nat, k: nat)
    requires j < k < 32 && SideOfSlot(j) == SideOfSlot(k) && KindOfSlot(j) == KindOfSlot(k)
    ensures CountOfSlot(j) < CountOfSlot(k)
  {
    hide CountUpTo;
    var u, v := j % 16, k % 16;
    assert u < v;
    if v < 8 {
      CountGrows(BACK_RANK[u], u + 1, v);
      CountSteps(u);
    } else {
      assert u >= 8;
    }
  }

  lemma SlotsDiffer(j: nat, k: nat)
    requires j < k < 32
    ensures SlotPiece(j).id != SlotPiece(k).id
  {
    hide PieceId, CountOfSlot, KindOfSlot, SideOfSlot;
    if SlotPiece(j).id == SlotPiece(k).id {
      PieceIdInjective(SideOfSlot(j), KindOfSlot(j), CountOfSlot(j), SideOfSlot(k), KindOfSlot(k), CountOfSlot(k));
      SlotsDistinct(j, k);
    }
  }

  lemma CountSteps(u: nat)
    requires u < 8
    ensures CountUpTo(BACK_RANK[u], u + 1) == CountUpTo(BACK_RANK[u], u) + 1
  {
  }

  lemma SlotOfKing(k: nat)
    requires k < 32
    ensures KindOfSlot(k) == King ==> k == 4 || k == 20
  {
  }

  lemma SlotPlaces(j: nat, k: nat)
    requires j < k < 32
    ensures SlotPiece(j).at != SlotPiece(k).at
    ensures SlotPiece(j).kind == King && SlotPiece(k).kind == King ==> SlotPiece(j).side != SlotPiece(k).side
  {
    hide PieceId, CountOfSlot;
    SlotOfKing(j);
    SlotOfKing(k);
  }

  lemma SlotOk(k: nat)
    requires k < 32
    ensures ValidCoord(SlotPiece(k).at) && SlotPiece(k).id != ""
    ensures k % 16 == 4 ==> SlotPiece(k).kind == King && SlotPiece(k).side == SideOfSlot(k)
  {
    hide CountUpTo;
  }

  lemma {:induction false} DistinctIsOnceOnly(pieces: seq<Piece>)
    requires forall i, j | 0 <= i < j < |pieces| :: pieces[i].id != pieces[j].id
    ensures OnceOnly(pieces)
  {
    if pieces != [] {
      DistinctIsOnceOnly(pieces[1..]);
    }
  }

  /** Two different positions of the list hold pieces that clash in nothing. */
  ghost predicate Apart(p: Piece, q: Piece) {
    p.id != q.id && p.at != q.at && !(p.kind == King && q.kind == King && p.side == q.side)
  }

  lemma ApartIsBoardOk(pieces: seq<Piece>)
    requires forall k | 0 <= k < |pieces| :: ValidCoord(pieces[k].at) && pieces[k].id != ""
    requires forall i, j | 0 <= i < j < |pieces| :: Apart(pieces[i], pieces[j])
    ensures BoardOk(pieces)
  {
    forall p, q | p in pieces && q in pieces && p != q
      ensures Apart(p, q)
    {
      var i :| 0 <= i < |pieces| && pieces[i] == p;
      var j :| 0 <= j < |pieces| && pieces[j] == q;
      assert if i < j then Apart(pieces[i], pieces[j]) else Apart(pieces[j], pieces[i]);
    }
  }

  lemma InitialApart()
    ensures |InitialPieces()| == 32
    ensures forall i, j | 0 <= i < j < 32 :: Apart(InitialPieces()[i], InitialPieces()[j])
    ensures forall k | 0 <= k < 32 :: ValidCoord(InitialPieces()[k].at) && InitialPieces()[k].id != ""
  {
    hide SlotPiece, InitialPieces;
    InitialSlots();
    forall j, k | 0 <= j < k < 32
      ensures Apart(InitialPieces()[j], InitialPieces()[k])
    {
      SlotsDiffer(j, k);
      SlotPlaces(j, k);
    }
    forall k | 0 <= k < 32
      ensures ValidCoord(InitialPieces()[k].at) && InitialPieces()[k].id != ""
    {
      SlotOk(k);
    }
  }

  lemma InitialKings()
    ensures HasKing(InitialPieces(), White) && HasKing(InitialPieces(), Black)
  {
    hide SlotPiece, InitialPieces;
    InitialSlots();
    SlotOk(4);
    SlotOk(20);
    assert InitialPieces()[4] in InitialPieces() && InitialPieces()[20] in InitialPieces();
  }

  /** Thirty-two pieces with distinct ids on distinct cells, one king a side. */
  lemma InitialBoard()
    ensures |InitialPieces()| == 32 && BoardOk(InitialPieces()) && OnceOnly(InitialPieces())
    ensures HasKing(InitialPieces(), White) && HasKing(InitialPieces(), Black)
  {
    hide InitialPieces;
    InitialApart();
    InitialKings();
    ApartIsBoardOk(InitialPieces());
    DistinctIsOnceOnly(InitialPieces());
  }
}
