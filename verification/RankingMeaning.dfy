/** The ranking in plain terms. */
module RankingMeaning {
  import opened Wrappers
  import opened Sequences
  import opened Sorting
  import opened Ranking
  import opened RankingFacts

  /** More resonance or score; what is no finite number is below every number. */
  predicate Greater(a: Option<real>, b: Option<real>) {
    match (a, b)
    case (Some(x), Some(y)) => x > y
    case (Some(_), None) => true
    case (None, _) => false
  }

  /**
   * The capture at index i goes before the one at index k: by more resonance, then the earlier turn,
   * then the host's order of ids, then the earlier index.
   */
  predicate Precedes(c: Capture, i: int, d: Capture, k: int, ids: (string, string) -> int) {
    || Greater(c.resonance, d.resonance)
    || (c.resonance == d.resonance && c.turn < d.turn)
    || (c.resonance == d.resonance && c.turn == d.turn && ids(c.id, d.id) < 0)
    || (c.resonance == d.resonance && c.turn == d.turn && ids(c.id, d.id) == 0 && i < k)
  }

  /** A signal ranks before another one: by more score, then as its capture does. */
  predicate RanksBefore(s: RankedSignal, t: RankedSignal, ids: (string, string) -> int) {
    || Greater(s.score, t.score)
    || (s.score == t.score && Precedes(s.capture, s.originalIndex, t.capture, t.originalIndex, ids))
  }

  lemma EntryOrderMeans(c: Capture, i: nat, d: Capture, k: nat, ids: (string, string) -> int)
    requires i != k && EntryOrder(ids)(Entry(c, i), Entry(d, k)) <= 0
    ensures Precedes(c, i, d, k, ids)
  {
  }

  lemma SignalOrderMeans(s: RankedSignal, t: RankedSignal, ids: (string, string) -> int)
    requires s.originalIndex != t.originalIndex && SignalOrder(ids)(s, t) <= 0
    ensures RanksBefore(s, t, ids)
  {
  }

  /** The representative of a part goes before every other capture of its part. */
  lemma RepresentativeIsBest(captures: seq<Capture>, ids: (string, string) -> int, s: RankedSignal, k: nat)
    requires Ordering(ids) && s in RankCaptureSignals(captures, ids)
    requires k < |captures| && captures[k].partId == s.capture.partId && k != s.originalIndex
    ensures s.originalIndex < |captures| && captures[s.originalIndex] == s.capture
    ensures Precedes(s.capture, s.originalIndex, captures[k], k, ids)
    ensures !Greater(captures[k].resonance, s.capture.resonance)
    ensures captures[k].resonance == s.capture.resonance ==> captures[k].turn >= s.capture.turn
  {
    RankingConserves(captures, ids);
    assert Represents(captures, ids, s);
    hide RankCaptureSignals, Ordering, EntryOrder, Score, Count, SortedBy;
    EntryOrderMeans(s.capture, s.originalIndex, captures[k], k, ids);
  }

  /** The signals stand in ranking order. */
  lemma SignalsInOrder(captures: seq<Capture>, ids: (string, string) -> int, i: nat, j: nat)
    requires Ordering(ids) && i < j < |RankCaptureSignals(captures, ids)|
    ensures var signals := RankCaptureSignals(captures, ids);
            && RanksBefore(signals[i], signals[j], ids)
            && !Greater(signals[j].score, signals[i].score)
            && (signals[i].score == signals[j].score ==> !Greater(signals[j].capture.resonance, signals[i].capture.resonance))
  {
    RankingConserves(captures, ids);
    var signals := RankCaptureSignals(captures, ids);
    var parts := Map(SignalPart(), signals);
    assert signals[i] in signals && signals[j] in signals;
    assert parts[i] != parts[j];
    assert Represents(captures, ids, signals[i]) && Represents(captures, ids, signals[j]);
    assert SignalOrder(ids)(signals[i], signals[j]) <= 0;
    hide RankCaptureSignals, Ordering, EntryOrder, SignalOrder, Score, Count, SortedBy;
    SignalOrderMeans(signals[i], signals[j], ids);
  }

  // ---- The order leaves no choice ------------------------------------------------------------------------

  /** A signal carries the capture of its part that goes before all others, their number, and the lifted score. */
  ghost predicate Stands(captures: seq<Capture>, ids: (string, string) -> int, s: RankedSignal) {
    && s.originalIndex < |captures| && captures[s.originalIndex] == s.capture
    && s.occurrences == Count(captures, s.capture.partId) > 0
    && s.score == Score(s.capture.resonance, s.occurrences)
    && forall k | 0 <= k < |captures| && captures[k].partId == s.capture.partId && k != s.originalIndex ::
         Precedes(s.capture, s.originalIndex, captures[k], k, ids)
  }

  ghost predicate InRankingOrder(signals: seq<RankedSignal>, ids: (string, string) -> int) {
    forall i, j | 0 <= i < j < |signals| :: RanksBefore(signals[i], signals[j], ids)
  }

  /** One signal per part of the captures, in ranking order: what the ranking is, without saying how it is made. */
  ghost predicate IsRanking(captures: seq<Capture>, ids: (string, string) -> int, signals: seq<RankedSignal>) {
    && (forall s | s in signals :: Stands(captures, ids, s))
    && (forall c | c in captures :: c.partId in Map(SignalPart(), signals))
    && Distinct(Map(SignalPart(), signals)) && InRankingOrder(signals, ids)
  }

  lemma RankedStand(captures: seq<Capture>, ids: (string, string) -> int, s: RankedSignal)
    requires Ordering(ids) && s in RankCaptureSignals(captures, ids)
    ensures Stands(captures, ids, s)
  {
    RankingConserves(captures, ids);
    assert Represents(captures, ids, s);
    hide RankCaptureSignals, Ordering, EntryOrder, Score, Count, Precedes;
    forall k | 0 <= k < |captures| && captures[k].partId == s.capture.partId && k != s.originalIndex
      ensures Precedes(s.capture, s.originalIndex, captures[k], k, ids)
    {
      RepresentativeIsBest(captures, ids, s, k);
    }
  }

  lemma RankedInOrder(captures: seq<Capture>, ids: (string, string) -> int)
    requires Ordering(ids)
    ensures InRankingOrder(RankCaptureSignals(captures, ids), ids)
  {
    hide RankCaptureSignals, Ordering, RanksBefore;
    var signals := RankCaptureSignals(captures, ids);
    forall i, j | 0 <= i < j < |signals|
      ensures RanksBefore(signals[i], signals[j], ids)
    {
      SignalsInOrder(captures, ids, i, j);
    }
  }

  lemma RankedIsRanking(captures: seq<Capture>, ids: (string, string) -> int)
    requires Ordering(ids)
    ensures IsRanking(captures, ids, RankCaptureSignals(captures, ids))
  {
    RankingConserves(captures, ids);
    RankedInOrder(captures, ids);
    hide RankCaptureSignals, Ordering, SortedBy, Stands, Represents, InRankingOrder, Sum, Distinct;
    forall s | s in RankCaptureSignals(captures, ids)
      ensures Stands(captures, ids, s)
    {
      RankedStand(captures, ids, s);
    }
  }

  lemma PrecedesOnce(c: Capture, i: int, d: Capture, k: int, ids: (string, string) -> int)
    requires Ordering(ids) && Precedes(c, i, d, k, ids)
    ensures !Precedes(d, k, c, i, ids)
  {
    OrderingFlips(ids, c.id, d.id);
    OrderingFlips(ids, d.id, c.id);
    hide Ordering;
  }

  /** A part has only one signal that stands for it. */
  lemma OneStands(captures: seq<Capture>, ids: (string, string) -> int, s: RankedSignal, t: RankedSignal)
    requires Ordering(ids) && Stands(captures, ids, s) && Stands(captures, ids, t) && s.capture.partId == t.capture.partId
    ensures s == t
  {
    hide Ordering, Precedes, Count, Score;
    if s.originalIndex != t.originalIndex {
      PrecedesOnce(s.capture, s.originalIndex, captures[t.originalIndex], t.originalIndex, ids);
    }
  }

  lemma RanksBeforeMeans(s: RankedSignal, t: RankedSignal, ids: (string, string) -> int)
    requires RanksBefore(s, t, ids)
    ensures SignalOrder(ids)(s, t) < 0
  {
  }

  lemma InOrderSorted(signals: seq<RankedSignal>, ids: (string, string) -> int)
    requires Ordering(ids) && InRankingOrder(signals, ids)
    ensures SortedBy(signals, SignalOrder(ids)) && Antisymmetric(signals, SignalOrder(ids))
  {
    hide Ordering, RanksBefore, SignalOrder;
    SignalOrdering(ids);
    forall i, j | 0 <= i < j < |signals|
      ensures SignalOrder(ids)(signals[i], signals[j]) < 0 && SignalOrder(ids)(signals[j], signals[i]) > 0
    {
      RanksBeforeMeans(signals[i], signals[j], ids);
      OrderingFlips(SignalOrder(ids), signals[i], signals[j]);
    }
    forall s, t | s in signals && t in signals && SignalOrder(ids)(s, t) <= 0 && SignalOrder(ids)(t, s) <= 0
      ensures s == t
    {
      var i, j :| 0 <= i < |signals| && 0 <= j < |signals| && signals[i] == s && signals[j] == t;
    }
  }

  lemma SignalsWithin(captures: seq<Capture>, ids: (string, string) -> int, f: seq<RankedSignal>, g: seq<RankedSignal>, s: RankedSignal)
    requires Ordering(ids) && IsRanking(captures, ids, f) && IsRanking(captures, ids, g) && s in f
    ensures s in g
  {
    assert Stands(captures, ids, s);
    assert captures[s.originalIndex] in captures && s.capture.partId in Map(SignalPart(), g);
    var parts := Map(SignalPart(), g);
    var j :| 0 <= j < |parts| && parts[j] == s.capture.partId;
    assert g[j] in g;
    hide Ordering, Stands, InRankingOrder, Distinct;
    OneStands(captures, ids, s, g[j]);
  }

  lemma PartsApart(signals: seq<RankedSignal>)
    requires Distinct(Map(SignalPart(), signals))
    ensures Distinct(signals)
  {
    var parts := Map(SignalPart(), signals);
    forall i, j | 0 <= i < j < |signals|
      ensures signals[i] != signals[j]
    {
      assert parts[i] != parts[j];
    }
  }

  /** The result is the one and only ranking of the captures. */
  lemma TheRanking(captures: seq<Capture>, ids: (string, string) -> int, signals: seq<RankedSignal>)
    requires Ordering(ids)
    ensures IsRanking(captures, ids, signals) <==> signals == RankCaptureSignals(captures, ids)
  {
    RankedIsRanking(captures, ids);
    var ranked := RankCaptureSignals(captures, ids);
    hide RankCaptureSignals, Ordering, Stands, InRankingOrder, SortedBy, SignalOrder;
    if IsRanking(captures, ids, signals) {
      forall s
        ensures s in signals <==> s in ranked
      {
        if s in signals { SignalsWithin(captures, ids, signals, ranked, s); }
        if s in ranked { SignalsWithin(captures, ids, ranked, signals, s); }
      }
      PartsApart(signals);
      PartsApart(ranked);
      DistinctSameMembers(signals, ranked);
      InOrderSorted(signals, ids);
      InOrderSorted(ranked, ids);
      SortedUnique(signals, ranked, SignalOrder(ids));
    }
  }
}
