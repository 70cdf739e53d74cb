/** What the ranking conserves, picks and ignores. */
module RankingFacts {
  import opened Wrappers
  import opened Sequences
  import opened Sorting
  import opened Ranking

  // ---- The orders ----------------------------------------------------------------------------

  lemma BasicOrders()
    ensures Ordering(Descending()) && Ordering(Ascending())
  {
  }

  lemma CaptureOrdering(ids: (string, string) -> int)
    requires Ordering(ids)
    ensures Ordering(CaptureOrder(ids))
  {
    BasicOrders();
    hide Ordering, Descending, Ascending, By, Then;
    ByOrdering((c: Capture) => c.resonance, Descending());
    ByOrdering((c: Capture) => c.turn, Ascending());
    ByOrdering((c: Capture) => c.id, ids);
    ThenOrdering(By((c: Capture) => c.turn, Ascending()), By((c: Capture) => c.id, ids));
    ThenOrdering(By((c: Capture) => c.resonance, Descending()),
                 Then(By((c: Capture) => c.turn, Ascending()), By((c: Capture) => c.id, ids)));
  }

  lemma EntryOrdering(ids: (string, string) -> int)
    requires Ordering(ids)
    ensures Ordering(EntryOrder(ids))
  {
    BasicOrders();
    CaptureOrdering(ids);
    hide Ordering, Ascending, By, Then, CaptureOrder;
    ByOrdering((e: Entry) => e.capture, CaptureOrder(ids));
    ByOrdering((e: Entry) => e.originalIndex, Ascending());
    ThenOrdering(By((e: Entry) => e.capture, CaptureOrder(ids)), By((e: Entry) => e.originalIndex, Ascending()));
  }

  lemma SignalOrdering(ids: (string, string) -> int)
    requires Ordering(ids)
    ensures Ordering(SignalOrder(ids))
  {
    BasicOrders();
    CaptureOrdering(ids);
    hide Ordering, Descending, Ascending, By, Then, CaptureOrder;
    ByOrdering((s: RankedSignal) => s.score, Descending());
    ByOrdering((s: RankedSignal) => s.capture, CaptureOrder(ids));
    ByOrdering((s: RankedSignal) => s.originalIndex, Ascending());
    ThenOrdering(By((s: RankedSignal) => s.capture, CaptureOrder(ids)), By((s: RankedSignal) => s.originalIndex, Ascending()));
    ThenOrdering(By((s: RankedSignal) => s.score, Descending()),
                 Then(By((s: RankedSignal) => s.capture, CaptureOrder(ids)), By((s: RankedSignal) => s.originalIndex, Ascending())));
  }

  // ---- The groups --------------------------------------------------------------------------------

  function PartOf(): Capture -> int {
    (c: Capture) => c.partId
  }

  function KeyOf(): Group -> int {
    (g: Group) => g.partId
  }

  /** How many captures a part has. */
  function Count(captures: seq<Capture>, partId: int): nat {
    multiset(Map(PartOf(), captures))[partId]
  }

  lemma CountLast(captures: seq<Capture>, partId: int)
    requires captures != []
    ensures var front, last := captures[..|captures| - 1], captures[|captures| - 1];
            Count(captures, partId) == Count(front, partId) + if last.partId == partId then 1 else 0
  {
    var front, last := captures[..|captures| - 1], captures[|captures| - 1];
    assert captures == front + [last];
    MapConcat(PartOf(), front, [last]);
    assert Map(PartOf(), [last]) == [last.partId];
  }

  function GroupIndex(groups: seq<Group>, partId: int): (i: nat)
    ensures i <= |groups| && (i < |groups| ==> groups[i].partId == partId)
    ensures forall j | 0 <= j < i :: groups[j].partId != partId
  {
    if groups == [] || groups[0].partId == partId then 0 else 1 + GroupIndex(groups[1..], partId)
  }

  /** A group holds its part's captures and no others, each at its index, none twice. */
  ghost predicate GroupOk(captures: seq<Capture>, g: Group) {
    && |g.entries| > 0 && |g.entries| == Count(captures, g.partId)
    && (forall k | 0 <= k < |g.entries| ::
          g.entries[k].capture.partId == g.partId
          && g.entries[k].originalIndex < |captures| && captures[g.entries[k].originalIndex] == g.entries[k].capture)
    && (forall k | 0 <= k < |captures| && captures[k].partId == g.partId :: Entry(captures[k], k) in g.entries)
  }

  ghost predicate GroupsOk(captures: seq<Capture>, groups: seq<Group>) {
    && Distinct(Map(KeyOf(), groups))
    && (forall i | 0 <= i < |groups| :: GroupOk(captures, groups[i]))
    && (forall k | 0 <= k < |captures| :: captures[k].partId in Map(KeyOf(), groups))
  }

  lemma GroupGrows(captures: seq<Capture>, g: Group)
    requires captures != [] && GroupOk(captures[..|captures| - 1], g)
    ensures var last := captures[|captures| - 1];
            if last.partId == g.partId then GroupOk(captures, g.(entries := g.entries + [Entry(last, |captures| - 1)]))
            else GroupOk(captures, g)
  {
    hide Count;
    CountLast(captures, g.partId);
    var front, last := captures[..|captures| - 1], captures[|captures| - 1];
    var grown := g.entries + [Entry(last, |captures| - 1)];
    assert grown[|g.entries|] == Entry(last, |captures| - 1);
    forall k | 0 <= k < |captures| - 1 && captures[k].partId == g.partId
      ensures Entry(captures[k], k) in g.entries && Entry(captures[k], k) in grown
    {
      assert front[k] == captures[k];
    }
  }

  lemma NoCaptures(captures: seq<Capture>, partId: int)
    requires forall k | 0 <= k < |captures| :: captures[k].partId != partId
    ensures Count(captures, partId) == 0
  {
    var parts := Map(PartOf(), captures);
    assert partId !in parts;
  }

  lemma NewGroup(captures: seq<Capture>)
    requires captures != []
    requires forall k | 0 <= k < |captures| - 1 :: captures[k].partId != captures[|captures| - 1].partId
    ensures GroupOk(captures, Group(captures[|captures| - 1].partId, [Entry(captures[|captures| - 1], |captures| - 1)]))
  {
    CountLast(captures, captures[|captures| - 1].partId);
    NoCaptures(captures[..|captures| - 1], captures[|captures| - 1].partId);
    hide Count;
    var entry := Entry(captures[|captures| - 1], |captures| - 1);
    assert [entry][0] == entry;
  }

  lemma KeysKept(groups: seq<Group>, i: nat, g: Group)
    requires i < |groups| && g.partId == groups[i].partId
    ensures Map(KeyOf(), groups[i := g]) == Map(KeyOf(), groups)
  {
  }

  lemma GroupsGrow(captures: seq<Capture>, groups: seq<Group>, i: nat)
    requires captures != [] && GroupsOk(captures[..|captures| - 1], groups) && i < |groups|
    requires groups[i].partId == captures[|captures| - 1].partId
    ensures GroupsOk(captures, groups[i := groups[i].(entries := groups[i].entries + [Entry(captures[|captures| - 1], |captures| - 1)])])
  {
    hide GroupOk;
    var last := captures[|captures| - 1];
    var g := groups[i].(entries := groups[i].entries + [Entry(last, |captures| - 1)]);
    KeysKept(groups, i, g);
    var keys := Map(KeyOf(), groups);
    var grown := groups[i := g];
    forall j | 0 <= j < |groups|
      ensures GroupOk(captures, grown[j])
    {
      GroupGrows(captures, groups[j]);
      assert keys[i] == groups[i].partId && keys[j] == groups[j].partId;
    }
    assert keys[i] == last.partId;
    forall k | 0 <= k < |captures|
      ensures captures[k].partId in keys
    {
      assert k < |captures| - 1 ==> captures[..|captures| - 1][k] == captures[k];
    }
  }

  lemma GroupsExtend(captures: seq<Capture>, groups: seq<Group>)
    requires captures != [] && GroupsOk(captures[..|captures| - 1], groups)
    requires forall j | 0 <= j < |groups| :: groups[j].partId != captures[|captures| - 1].partId
    ensures GroupsOk(captures, groups + [Group(captures[|captures| - 1].partId, [Entry(captures[|captures| - 1], |captures| - 1)])])
  {
    hide GroupOk;
    var front, last := captures[..|captures| - 1], captures[|captures| - 1];
    var g := Group(last.partId, [Entry(last, |captures| - 1)]);
    var keys := Map(KeyOf(), groups);
    MapConcat(KeyOf(), groups, [g]);
    assert Map(KeyOf(), groups + [g]) == keys + [last.partId];
    assert last.partId !in keys;
    forall k | 0 <= k < |captures| - 1
      ensures captures[k].partId in keys
    {
      assert front[k] == captures[k];
    }
    NewGroup(captures);
    forall j | 0 <= j < |groups|
      ensures GroupOk(captures, groups[j])
    {
      GroupGrows(captures, groups[j]);
    }
  }

  /** Grouping loses and repeats no capture, and gives each part one group. */
  lemma {:induction false} GroupsAreOk(captures: seq<Capture>)
    ensures GroupsOk(captures, Groups(captures))
  {
    if captures != [] {
      var last := captures[|captures| - 1];
      var groups := Groups(captures[..|captures| - 1]);
      GroupsAreOk(captures[..|captures| - 1]);
      var i := GroupIndex(groups, last.partId);
      AddEntryAt(groups, Entry(last, |captures| - 1), i);
      hide GroupsOk;
      if i < |groups| { GroupsGrow(captures, groups, i); } else { GroupsExtend(captures, groups); }
    }
  }

  // ---- The ranked signals ---------------------------------------------------------------------------

  function SignalPart(): RankedSignal -> int {
    (s: RankedSignal) => s.capture.partId
  }

  function Occurrences(): RankedSignal -> int {
    (s: RankedSignal) => s.occurrences
  }

  /** A signal stands for its part: the best of its captures, the first of them if several tie; their number; the lifted score. */
  ghost predicate Represents(captures: seq<Capture>, ids: (string, string) -> int, s: RankedSignal) {
    && s.originalIndex < |captures| && captures[s.originalIndex] == s.capture
    && s.occurrences == Count(captures, s.capture.partId) > 0
    && s.score == Score(s.capture.resonance, s.occurrences)
    && forall k | 0 <= k < |captures| && captures[k].partId == s.capture.partId ::
         EntryOrder(ids)(Entry(s.capture, s.originalIndex), Entry(captures[k], k)) <= 0
  }

  lemma BestOfGroup(captures: seq<Capture>, ids: (string, string) -> int, g: Group)
    requires Ordering(ids) && GroupOk(captures, g)
    ensures Represents(captures, ids, SignalOf(ids)(g)) && SignalOf(ids)(g).capture.partId == g.partId
    ensures SignalOf(ids)(g).occurrences == |g.entries|
  {
    hide Count, EntryOrder, Score, Ordering, Sort;
    EntryOrdering(ids);
    OrderingConsistent(EntryOrder(ids));
    SortedFirst(g.entries, EntryOrder(ids));
    var first := Sort(g.entries, EntryOrder(ids))[0];
    var k :| 0 <= k < |g.entries| && g.entries[k] == first;
  }

  /** One capture scores its resonance; each repetition lifts it by 8 %, up to the fourth capture. */
  lemma ScoreSteps(resonance: real, n: nat)
    requires n > 0
    ensures Score(Some(resonance), 1) == Some(resonance)
    ensures n < 4 ==> Score(Some(resonance), n + 1) == Some(Score(Some(resonance), n).value + resonance * 0.08)
    ensures n >= 4 ==> Score(Some(resonance), n) == Score(Some(resonance), 4)
    ensures Score(None, n) == None
  {
    if n < 4 {
      Distribute(resonance, (n - 1) as real);
      assert Min(3, n - 1) == n - 1 && Min(3, n) == n && n as real == (n - 1) as real + 1.0;
    } else {
      assert Min(3, n - 1) == 3 && Min(3, 4 - 1) == 3;
    }
    Whole(resonance);
  }

  lemma Whole(x: real)
    ensures x * (1.0 + 0.0 * 0.08) == x && Min(3, 0) == 0
  {
  }

  lemma Distribute(x: real, k: real)
    ensures x * (1.0 + (k + 1.0) * 0.08) == x * (1.0 + k * 0.08) + x * 0.08
  {
  }

  // ---- Conservation ------------------------------------------------------------------------------

  function SizeOf(): Group -> int {
    (g: Group) => |g.entries|
  }

  lemma {:induction false} SizesSum(captures: seq<Capture>)
    ensures Sum(Map(SizeOf(), Groups(captures))) == |captures|
  {
    if captures == [] {
      assert Map(SizeOf(), Groups(captures)) == [];
    } else {
      var last := captures[|captures| - 1];
      var groups := Groups(captures[..|captures| - 1]);
      SizesSum(captures[..|captures| - 1]);
      var i := GroupIndex(groups, last.partId);
      var entry := Entry(last, |captures| - 1);
      AddEntryAt(groups, entry, i);
      hide Sum;
      SizesGrow(groups, entry, i);
    }
  }

  lemma SizesGrow(groups: seq<Group>, entry: Entry, i: nat)
    requires i <= |groups|
    ensures var grown := if i < |groups| then groups[i := groups[i].(entries := groups[i].entries + [entry])]
                         else groups + [Group(entry.capture.partId, [entry])];
            Sum(Map(SizeOf(), grown)) == Sum(Map(SizeOf(), groups)) + 1
  {
    var sizes := Map(SizeOf(), groups);
    if i < |groups| {
      var grown := Map(SizeOf(), groups[i := groups[i].(entries := groups[i].entries + [entry])]);
      SumSplit(sizes, i);
      SumSplit(grown, i);
      assert grown[..i] + grown[i + 1..] == sizes[..i] + sizes[i + 1..];
    } else {
      var g := Group(entry.capture.partId, [entry]);
      assert Map(SizeOf(), groups + [g]) == sizes + [1];
      SumConcat(sizes, [1]);
      assert [1][1..] == [];
    }
  }

  lemma SignalsOfGroups(captures: seq<Capture>, ids: (string, string) -> int)
    requires Ordering(ids)
    ensures var signals := Map(SignalOf(ids), Groups(captures));
            && (forall s | s in signals :: Represents(captures, ids, s))
            && Map(SignalPart(), signals) == Map(KeyOf(), Groups(captures))
            && Map(Occurrences(), signals) == Map(SizeOf(), Groups(captures))
  {
    GroupsAreOk(captures);
    var groups := Groups(captures);
    var signals := Map(SignalOf(ids), groups);
    hide Represents, GroupOk, SignalOf, Groups, Ordering;
    forall i | 0 <= i < |groups|
      ensures Represents(captures, ids, signals[i]) && signals[i].capture.partId == groups[i].partId
      ensures signals[i].occurrences == |groups[i].entries|
    {
      BestOfGroup(captures, ids, groups[i]);
    }
  }

  /**
   * The ranking holds one signal per part of the captures, each the best of its part; the
   * occurrences add up to the number of captures; and the list is in ranking order.
   */
  lemma RankingConserves(captures: seq<Capture>, ids: (string, string) -> int)
    requires Ordering(ids)
    ensures var signals := RankCaptureSignals(captures, ids);
            && Distinct(Map(SignalPart(), signals))
            && (forall s | s in signals :: Represents(captures, ids, s))
            && (forall c | c in captures :: c.partId in Map(SignalPart(), signals))
            && Sum(Map(Occurrences(), signals)) == |captures|
            && SortedBy(signals, SignalOrder(ids))
  {
    GroupsAreOk(captures);
    SizesSum(captures);
    SignalsOfGroups(captures, ids);
    SignalOrdering(ids);
    OrderingConsistent(SignalOrder(ids));
    var unsorted := Map(SignalOf(ids), Groups(captures));
    var signals := RankCaptureSignals(captures, ids);
    SortSorts(unsorted, SignalOrder(ids));
    SortPermutes(unsorted, SignalOrder(ids));
    MapPermutes(SignalPart(), unsorted, signals);
    MapPermutes(Occurrences(), unsorted, signals);
    SumPermutes(Map(Occurrences(), unsorted), Map(Occurrences(), signals));
    DistinctPermutes(Map(SignalPart(), unsorted), Map(SignalPart(), signals));
    hide Represents, GroupOk, SignalOf, Groups, Ordering, Sort, SortedBy, Sum, Distinct, SignalOrder, Consistent;
    SameMembers(unsorted, signals);
    SameMembers(Map(SignalPart(), unsorted), Map(SignalPart(), signals));
    forall c | c in captures
      ensures c.partId in Map(SignalPart(), signals)
    {
      var k :| 0 <= k < |captures| && captures[k] == c;
      assert captures[k].partId in Map(KeyOf(), Groups(captures));
    }
  }

  // ---- The order of the captures ----------------------------------------------------------------------

  /** A signal without the position it was found at. */
  datatype View = View(capture: Capture, occurrences: nat, score: Option<real>)

  function ViewOf(): RankedSignal -> View {
    (s: RankedSignal) => View(s.capture, s.occurrences, s.score)
  }

  function ViewOrder(ids: (string, string) -> int): (View, View) -> int {
    Then(By((v: View) => v.score, Descending()), By((v: View) => v.capture, CaptureOrder(ids)))
  }

  ghost predicate IsView(captures: seq<Capture>, ids: (string, string) -> int, v: View) {
    && Leads(captures, ids, v.capture) && v.occurrences == Count(captures, v.capture.partId) > 0
    && v.score == Score(v.capture.resonance, v.occurrences)
  }

  /** Two captures that compare equal in every respect but their position. */
  ghost predicate Tie(captures: seq<Capture>, ids: (string, string) -> int, a: Capture, b: Capture) {
    && a.resonance == b.resonance && a.turn == b.turn && ids(a.id, b.id) == 0
    && Count(captures, a.partId) > 0 && Count(captures, b.partId) > 0
    && Score(a.resonance, Count(captures, a.partId)) == Score(b.resonance, Count(captures, b.partId))
  }

  /** No capture of its part is better. */
  ghost predicate Leads(captures: seq<Capture>, ids: (string, string) -> int, a: Capture) {
    a in captures && forall c | c in captures && c.partId == a.partId :: CaptureOrder(ids)(a, c) <= 0
  }

  /** No two different captures, each leading its part, tie. */
  ghost predicate Unambiguous(captures: seq<Capture>, ids: (string, string) -> int) {
    forall a, b | Leads(captures, ids, a) && Leads(captures, ids, b) && Tie(captures, ids, a, b) :: a == b
  }

  lemma CaptureTies(ids: (string, string) -> int, a: Capture, b: Capture)
    requires Ordering(ids) && CaptureOrder(ids)(a, b) <= 0 && CaptureOrder(ids)(b, a) <= 0
    ensures CaptureOrder(ids)(a, b) == 0 && CaptureOrder(ids)(b, a) == 0
    ensures a.resonance == b.resonance && a.turn == b.turn && ids(a.id, b.id) == 0
  {
    CaptureOrdering(ids);
    OrderingFlips(CaptureOrder(ids), a, b);
    hide Ordering;
  }

  lemma CountsPart(captures: seq<Capture>, a: Capture)
    requires a in captures
    ensures Count(captures, a.partId) > 0
  {
    var k :| 0 <= k < |captures| && captures[k] == a;
    var parts := Map(PartOf(), captures);
    assert parts[k] == a.partId;
  }

  /** Two leading captures of one part tie. */
  lemma LeadersTie(captures: seq<Capture>, ids: (string, string) -> int, a: Capture, b: Capture)
    requires Ordering(ids) && Leads(captures, ids, a) && Leads(captures, ids, b) && a.partId == b.partId
    ensures Tie(captures, ids, a, b) && CaptureOrder(ids)(a, b) == 0 && CaptureOrder(ids)(b, a) == 0
  {
    CountsPart(captures, a);
    hide Count, Score, CaptureOrder, Ordering;
    CaptureTies(ids, a, b);
  }

  lemma RepresentsLeads(captures: seq<Capture>, ids: (string, string) -> int, s: RankedSignal)
    requires Represents(captures, ids, s)
    ensures Leads(captures, ids, s.capture)
  {
    hide Count, Score, CaptureOrder;
    assert s.capture in captures;
    forall c | c in captures && c.partId == s.capture.partId
      ensures CaptureOrder(ids)(s.capture, c) <= 0
    {
      var k :| 0 <= k < |captures| && captures[k] == c;
      assert EntryOrder(ids)(Entry(s.capture, s.originalIndex), Entry(captures[k], k)) <= 0;
    }
  }

  lemma RankedAreViews(captures: seq<Capture>, ids: (string, string) -> int, v: View)
    requires Ordering(ids) && v in Map(ViewOf(), RankCaptureSignals(captures, ids))
    ensures IsView(captures, ids, v)
  {
    RankingConserves(captures, ids);
    var signals := RankCaptureSignals(captures, ids);
    hide RankCaptureSignals, SortedBy, Count, Score, Distinct, Sum, Ordering, Leads;
    var i :| 0 <= i < |signals| && Map(ViewOf(), signals)[i] == v;
    RepresentsLeads(captures, ids, signals[i]);
  }

  lemma ViewsAreRanked(captures: seq<Capture>, ids: (string, string) -> int, v: View)
    requires Ordering(ids) && Unambiguous(captures, ids) && IsView(captures, ids, v)
    ensures v in Map(ViewOf(), RankCaptureSignals(captures, ids))
  {
    RankingConserves(captures, ids);
    var signals := RankCaptureSignals(captures, ids);
    var views, parts := Map(ViewOf(), signals), Map(SignalPart(), signals);
    assert v.capture in captures;
    hide RankCaptureSignals, SortedBy, Count, Score, Distinct, Sum, Ordering, Leads, Tie;
    var i :| 0 <= i < |parts| && parts[i] == v.capture.partId;
    RepresentsLeads(captures, ids, signals[i]);
    LeadersTie(captures, ids, signals[i].capture, v.capture);
    assert views[i] == v;
  }

  lemma ViewsAreExact(captures: seq<Capture>, ids: (string, string) -> int, v: View)
    requires Ordering(ids) && Unambiguous(captures, ids)
    ensures v in Map(ViewOf(), RankCaptureSignals(captures, ids)) <==> IsView(captures, ids, v)
  {
    hide Map, RankCaptureSignals, IsView, Unambiguous, Ordering;
    if v in Map(ViewOf(), RankCaptureSignals(captures, ids)) { RankedAreViews(captures, ids, v); }
    if IsView(captures, ids, v) { ViewsAreRanked(captures, ids, v); }
  }

  lemma CountPermutes(s: seq<Capture>, t: seq<Capture>)
    requires multiset(s) == multiset(t)
    ensures forall c :: c in s <==> c in t
    ensures forall partId :: Count(s, partId) == Count(t, partId)
  {
    SameMembers(s, t);
    MapPermutes(PartOf(), s, t);
  }

  lemma LeadsPermutes(s: seq<Capture>, t: seq<Capture>, ids: (string, string) -> int)
    requires multiset(s) == multiset(t)
    ensures forall a :: Leads(s, ids, a) <==> Leads(t, ids, a)
    ensures forall a, b :: Tie(s, ids, a, b) <==> Tie(t, ids, a, b)
    ensures forall v :: IsView(s, ids, v) <==> IsView(t, ids, v)
  {
    CountPermutes(s, t);
    hide CaptureOrder, Score, Count;
  }

  lemma ViewsDistinct(captures: seq<Capture>, ids: (string, string) -> int)
    requires Ordering(ids)
    ensures Distinct(Map(ViewOf(), RankCaptureSignals(captures, ids)))
  {
    RankingConserves(captures, ids);
    var signals := RankCaptureSignals(captures, ids);
    var views, parts := Map(ViewOf(), signals), Map(SignalPart(), signals);
    hide RankCaptureSignals, SignalOrder, SortedBy, Represents;
    forall i, j | 0 <= i < j < |views|
      ensures views[i] != views[j]
    {
      assert parts[i] != parts[j];
    }
  }

  lemma ViewsSorted(captures: seq<Capture>, ids: (string, string) -> int)
    requires Ordering(ids)
    ensures SortedBy(Map(ViewOf(), RankCaptureSignals(captures, ids)), ViewOrder(ids))
  {
    RankingConserves(captures, ids);
    var signals := RankCaptureSignals(captures, ids);
    var views := Map(ViewOf(), signals);
    hide RankCaptureSignals, Represents, CaptureOrder, Descending, Distinct;
    forall i, j | 0 <= i < j < |views|
      ensures ViewOrder(ids)(views[i], views[j]) <= 0
    {
      assert SignalOrder(ids)(signals[i], signals[j]) <= 0;
    }
  }

  lemma ViewTies(captures: seq<Capture>, ids: (string, string) -> int, v: View, w: View)
    requires Ordering(ids) && Unambiguous(captures, ids) && IsView(captures, ids, v) && IsView(captures, ids, w)
    requires ViewOrder(ids)(v, w) <= 0 && ViewOrder(ids)(w, v) <= 0
    ensures v == w
  {
    hide CaptureOrder, Count, Score, Ordering, Leads;
    assert v.score == w.score;
    assert CaptureOrder(ids)(v.capture, w.capture) <= 0 && CaptureOrder(ids)(w.capture, v.capture) <= 0;
    CaptureTies(ids, v.capture, w.capture);
    assert Tie(captures, ids, v.capture, w.capture);
  }

  lemma ViewsAntisymmetric(captures: seq<Capture>, ids: (string, string) -> int)
    requires Ordering(ids) && Unambiguous(captures, ids)
    ensures Antisymmetric(Map(ViewOf(), RankCaptureSignals(captures, ids)), ViewOrder(ids))
  {
    hide RankCaptureSignals, Ordering, Unambiguous, IsView, ViewOrder;
    var f := Map(ViewOf(), RankCaptureSignals(captures, ids));
    forall v, w | v in f && w in f && ViewOrder(ids)(v, w) <= 0 && ViewOrder(ids)(w, v) <= 0
      ensures v == w
    {
      ViewsAreExact(captures, ids, v);
      ViewsAreExact(captures, ids, w);
      ViewTies(captures, ids, v, w);
    }
  }

  lemma UnambiguousPermutes(s: seq<Capture>, t: seq<Capture>, ids: (string, string) -> int)
    requires Unambiguous(s, ids) && multiset(s) == multiset(t)
    ensures Unambiguous(t, ids)
  {
    LeadsPermutes(s, t, ids);
    hide Leads, Tie, IsView;
  }

  /** Where no leading captures tie, the ranking does not depend on the order of the captures. */
  lemma OrderIrrelevant(s: seq<Capture>, t: seq<Capture>, ids: (string, string) -> int)
    requires Ordering(ids) && Unambiguous(s, ids) && multiset(s) == multiset(t)
    ensures Map(ViewOf(), RankCaptureSignals(s, ids)) == Map(ViewOf(), RankCaptureSignals(t, ids))
  {
    hide *;
    var f, g := Map(ViewOf(), RankCaptureSignals(s, ids)), Map(ViewOf(), RankCaptureSignals(t, ids));
    UnambiguousPermutes(s, t, ids);
    ViewsDistinct(s, ids);
    ViewsDistinct(t, ids);
    ViewsSorted(s, ids);
    ViewsSorted(t, ids);
    LeadsPermutes(s, t, ids);
    forall v
      ensures v in f <==> v in g
    {
      ViewsAreExact(s, ids, v);
      ViewsAreExact(t, ids, v);
    }
    DistinctSameMembers(f, g);
    ViewsAntisymmetric(s, ids);
    SortedUnique(f, g, ViewOrder(ids));
  }

  // ---- When the order shows ----------------------------------------------------------------------------

  lemma FirstRepresents(t: seq<Capture>, ids: (string, string) -> int, s: RankedSignal)
    requires Ordering(ids) && t != [] && Leads(t, ids, t[0]) && Represents(t, ids, s) && s.capture.partId == t[0].partId
    ensures s.capture == t[0] && s.originalIndex == 0
  {
    RepresentsLeads(t, ids, s);
    LeadersTie(t, ids, t[0], s.capture);
    hide Leads, Tie, Count, Score, CaptureOrder, Ordering;
    assert EntryOrder(ids)(Entry(s.capture, s.originalIndex), Entry(t[0], 0)) <= 0;
  }

  /** A signal of the part of a capture that ties with the first one ranks behind the first one. */
  lemma FirstRanksAhead(t: seq<Capture>, ids: (string, string) -> int, b: Capture, s: RankedSignal, first: RankedSignal)
    requires Ordering(ids) && t != [] && Represents(t, ids, s) && Represents(t, ids, first)
    requires Leads(t, ids, t[0]) && Leads(t, ids, b) && Tie(t, ids, t[0], b) && s.capture.partId == b.partId
    requires first.capture == t[0] && first.originalIndex == 0 && SignalOrder(ids)(s, first) <= 0
    ensures s.capture == t[0]
  {
    RepresentsLeads(t, ids, s);
    LeadersTie(t, ids, s.capture, b);
    assert ids(b.id, t[0].id) == 0;
    CaptureOrdering(ids);
    assert CaptureOrder(ids)(b, t[0]) == 0;
    OrderingTransitive(CaptureOrder(ids), s.capture, b, t[0]);
    OrderingFlips(CaptureOrder(ids), s.capture, t[0]);
    OrderingFlips(CaptureOrder(ids), b, t[0]);
    OrderingTransitive(CaptureOrder(ids), t[0], b, s.capture);
    assert CaptureOrder(ids)(s.capture, t[0]) == 0;
    assert s.score == first.score;
    hide Leads, Count, Score, CaptureOrder, Ordering;
  }

  /** Of captures that tie, the one that comes first in the list ranks first. */
  lemma FirstWins(t: seq<Capture>, ids: (string, string) -> int, b: Capture) returns (i: nat)
    requires Ordering(ids) && t != [] && Leads(t, ids, t[0]) && Leads(t, ids, b) && Tie(t, ids, t[0], b)
    ensures var views := Map(ViewOf(), RankCaptureSignals(t, ids));
            i < |views| && views[i].capture == t[0] && forall j | 0 <= j < i :: views[j].capture.partId != b.partId
  {
    RankingConserves(t, ids);
    var signals := RankCaptureSignals(t, ids);
    var parts := Map(SignalPart(), signals);
    assert t[0] in t && t[0].partId in parts;
    hide RankCaptureSignals, Count, Score, Sum, Ordering, Leads, Tie, SignalOrder, Represents;
    i :| i < |parts| && parts[i] == t[0].partId;
    FirstRepresents(t, ids, signals[i]);
    forall j | 0 <= j < i
      ensures signals[j].capture.partId != b.partId
    {
      assert parts[j] != parts[i];
      if signals[j].capture.partId == b.partId {
        FirstRanksAhead(t, ids, b, signals[j], signals[i]);
      }
    }
  }

  lemma BringToFront(s: seq<Capture>, a: Capture) returns (t: seq<Capture>)
    requires a in s
    ensures t != [] && t[0] == a && multiset(t) == multiset(s)
  {
    var k :| 0 <= k < |s| && s[k] == a;
    RemoveAt(s, k);
    t := [a] + (s[..k] + s[k + 1..]);
    assert a in multiset(s);
  }

  lemma TieFlips(s: seq<Capture>, ids: (string, string) -> int, a: Capture, b: Capture)
    requires Ordering(ids) && Tie(s, ids, a, b)
    ensures Tie(s, ids, b, a)
  {
    hide Count, Score;
  }

  lemma FrontsDiffer(f: seq<View>, g: seq<View>, i: nat, j: nat, a: Capture, b: Capture)
    requires i < |f| && f[i].capture == a && forall k | 0 <= k < i :: f[k].capture.partId != b.partId
    requires j < |g| && g[j].capture == b && forall k | 0 <= k < j :: g[k].capture.partId != a.partId
    requires a != b
    ensures f != g
  {
    assert j < i ==> f[j].capture.partId != b.partId;
    assert i < j ==> g[i].capture.partId != a.partId;
  }

  /** Two different leading captures that tie: some rearrangement ranks otherwise. */
  lemma TieShows(s: seq<Capture>, ids: (string, string) -> int, a: Capture, b: Capture) returns (t: seq<Capture>)
    requires Ordering(ids) && Leads(s, ids, a) && Leads(s, ids, b) && Tie(s, ids, a, b) && a != b
    ensures multiset(t) == multiset(s)
    ensures Map(ViewOf(), RankCaptureSignals(t, ids)) != Map(ViewOf(), RankCaptureSignals(s, ids))
  {
    assert a in s && b in s;
    hide *;
    var x := BringToFront(s, a);
    var y := BringToFront(s, b);
    LeadsPermutes(s, x, ids);
    LeadsPermutes(s, y, ids);
    TieFlips(s, ids, a, b);
    var f, g := Map(ViewOf(), RankCaptureSignals(x, ids)), Map(ViewOf(), RankCaptureSignals(y, ids));
    var i := FirstWins(x, ids, b);
    var j := FirstWins(y, ids, a);
    FrontsDiffer(f, g, i, j, a, b);
    t := if f == Map(ViewOf(), RankCaptureSignals(s, ids)) then y else x;
  }

  /** The order of the captures shows in the ranking exactly when two different leading captures tie. */
  lemma OrderBlindIffUnambiguous(s: seq<Capture>, ids: (string, string) -> int)
    requires Ordering(ids)
    ensures Unambiguous(s, ids) <==>
            forall t | multiset(t) == multiset(s) ::
              Map(ViewOf(), RankCaptureSignals(t, ids)) == Map(ViewOf(), RankCaptureSignals(s, ids))
  {
    if Unambiguous(s, ids) {
      hide *;
      forall t | multiset(t) == multiset(s)
        ensures Map(ViewOf(), RankCaptureSignals(t, ids)) == Map(ViewOf(), RankCaptureSignals(s, ids))
      {
        OrderIrrelevant(s, t, ids);
      }
    } else {
      var a, b :| Leads(s, ids, a) && Leads(s, ids, b) && Tie(s, ids, a, b) && a != b;
      hide *;
      var t := TieShows(s, ids, a, b);
    }
  }

  /** In particular, the order is irrelevant when the ids of different captures of the list do not tie. */
  lemma RankingPermutes(s: seq<Capture>, t: seq<Capture>, ids: (string, string) -> int)
    requires Ordering(ids) && multiset(s) == multiset(t)
    requires forall a, b | a in s && b in s && ids(a.id, b.id) == 0 :: a == b
    ensures Map(ViewOf(), RankCaptureSignals(s, ids)) == Map(ViewOf(), RankCaptureSignals(t, ids))
  {
    hide RankCaptureSignals, Ordering;
    assert Unambiguous(s, ids);
    OrderIrrelevant(s, t, ids);
  }
}
