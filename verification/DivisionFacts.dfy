/** The two routes to the cast agree, whatever the order of the model's facets. */
module DivisionFacts {
  import opened Wrappers
  import opened Types
  import opened JsonText
  import opened Sequences
  import opened Sorting
  import opened SeededRandom
  import opened Shuffle
  import opened Division

  /** 64 facets with the ids 1 to 64, in any order. */
  ghost predicate AllIds(facets: seq<Facet>) {
    && |facets| == FACET_COUNT && Distinct(Map(IdOf(), facets))
    && forall i | 0 <= i < FACET_COUNT :: 1 <= facets[i].id <= FACET_COUNT
  }

  lemma {:induction false} SetOfDistinct(s: seq<int>, ids: set<int>)
    requires ids == set x | x in s
    ensures |ids| <= |s| && (|ids| == |s| <==> Distinct(s))
  {
    if s != [] {
      var front, last := s[..|s| - 1], s[|s| - 1];
      var fewer := set x | x in front;
      SetOfDistinct(front, fewer);
      assert s == front + [last];
      assert ids == fewer + {last};
      if Distinct(s) {
        assert last !in fewer;
      } else if Distinct(front) {
        var i, j :| 0 <= i < j < |s| && s[i] == s[j];
        assert j == |s| - 1 && front[i] == last;
      }
    }
  }

  lemma {:induction false} ParsedInRange(tools: TextTools, candidates: seq<Candidate>, position: nat)
    requires ParseEach(tools, candidates, position).Ok?
    ensures forall f | f in ParseEach(tools, candidates, position).value :: 1 <= f.id <= FACET_COUNT
    decreases |candidates|
  {
    hide CleanField, CleanCastApplication;
    if candidates != [] {
      ParsedInRange(tools, candidates[1..], position + 1);
    }
  }

  /** Accepted facets have the ids 1 to 64, each once. */
  lemma ParsedHaveAllIds(tools: TextTools, value: Option<seq<Candidate>>)
    requires ParseFacets(tools, value).Ok?
    ensures AllIds(ParseFacets(tools, value).value)
  {
    hide ParseEach;
    var facets := ParseFacets(tools, value).value;
    ParsedInRange(tools, value.value, 1);
    var ids := set f | f in facets :: f.id;
    assert ids == set x | x in Map(IdOf(), facets) by {
      forall x
        ensures x in ids <==> x in Map(IdOf(), facets)
      {
        if x in ids {
          var f :| f in facets && f.id == x;
          var i :| 0 <= i < |facets| && facets[i] == f;
          assert Map(IdOf(), facets)[i] == x;
        }
      }
    }
    SetOfDistinct(Map(IdOf(), facets), ids);
  }

  /** Strictly increasing numbers from 1 to 64 are all of them. */
  lemma {:induction false} IncreasingFrom(s: seq<int>, i: nat)
    requires |s| == FACET_COUNT && i < FACET_COUNT
    requires forall k | 0 <= k < FACET_COUNT :: 1 <= s[k] <= FACET_COUNT
    requires forall k, l | 0 <= k < l < FACET_COUNT :: s[k] < s[l]
    ensures s[i] >= i + 1
  {
    if i > 0 { IncreasingFrom(s, i - 1); }
  }

  lemma {:induction false} IncreasingTo(s: seq<int>, i: nat)
    requires |s| == FACET_COUNT && i < FACET_COUNT
    requires forall k | 0 <= k < FACET_COUNT :: 1 <= s[k] <= FACET_COUNT
    requires forall k, l | 0 <= k < l < FACET_COUNT :: s[k] < s[l]
    ensures s[i] <= i + 1
    decreases FACET_COUNT - i
  {
    if i < FACET_COUNT - 1 { IncreasingTo(s, i + 1); }
  }

  lemma ByIdConsistent()
    ensures Consistent(ById())
  {
  }

  /** 64 distinct sorted numbers from 1 to 64 are the ids in order. */
  lemma SortedAreIds(s: seq<int>)
    requires |s| == FACET_COUNT && Distinct(s) && SortedBy(s, ById())
    requires forall k | 0 <= k < FACET_COUNT :: 1 <= s[k] <= FACET_COUNT
    ensures s == FacetIds()
  {
    forall k, l | 0 <= k < l < FACET_COUNT
      ensures s[k] < s[l]
    {
      assert ById()(s[k], s[l]) <= 0;
    }
    hide SortedBy, Distinct;
    forall k | 0 <= k < FACET_COUNT
      ensures s[k] == k + 1
    {
      IncreasingFrom(s, k);
      IncreasingTo(s, k);
    }
  }

  lemma IdsInRange(facets: seq<Facet>, s: seq<int>)
    requires AllIds(facets) && multiset(s) == multiset(Map(IdOf(), facets))
    ensures |s| == FACET_COUNT && Distinct(s) && forall k | 0 <= k < FACET_COUNT :: 1 <= s[k] <= FACET_COUNT
  {
    var ids := Map(IdOf(), facets);
    assert |s| == |multiset(s)| == |multiset(ids)| == |ids|;
    DistinctPermutes(ids, s);
    hide Distinct, Map;
    forall k | 0 <= k < FACET_COUNT
      ensures 1 <= s[k] <= FACET_COUNT
    {
      PermutationMembers(ids, s, s[k]);
      var i :| 0 <= i < |ids| && ids[i] == s[k];
      assert ids[i] == facets[i].id;
    }
  }

  /** Sorted by id, the facets' ids are 1 to 64 in order. */
  lemma SortedIds(facets: seq<Facet>)
    requires AllIds(facets)
    ensures Map(IdOf(), Sort(facets, By(IdOf(), ById()))) == FacetIds()
  {
    hide Sort, Distinct, SortedBy, Consistent, Map, FacetIds, AllIds;
    var ids := Map(IdOf(), facets);
    var sorted := Sort(ids, ById());
    SortMaps(IdOf(), facets, ById());
    ByIdConsistent();
    SortSorts(ids, ById());
    SortPermutes(ids, ById());
    IdsInRange(facets, sorted);
    SortedAreIds(sorted);
  }

  /** The shuffled facets carry the shuffled ids: shuffling facets and shuffling ids is the same. */
  lemma ShuffledFacetIds(facets: seq<Facet>, seed: Text)
    requires AllIds(facets)
    ensures Map(IdOf(), ShuffledFacets(facets, seed)) == ShuffledIds(seed)
  {
    hide DivisionSeed;
    SortedIds(facets);
    hide Sort, Shuffled;
    ShuffleMaps(IdOf(), Sort(facets, By(IdOf(), ById())), DivisionSeed(seed, Facets));
  }

  lemma {:induction false} FindById(assignments: seq<Assignment>, id: int)
    requires 1 <= id <= |assignments| && forall i | 0 <= i < |assignments| :: assignments[i].id == i + 1
    ensures FindAssignment(assignments, id) == Some(assignments[id - 1])
  {
    if id < |assignments| { FindById(assignments[..|assignments| - 1], id); }
  }

  lemma PositionAt(seed: Text, i: nat)
    requires i < FACET_COUNT
    ensures 1 <= ShuffledIds(seed)[i] <= FACET_COUNT && PositionOfId(seed, ShuffledIds(seed)[i]) == i
  {
    IdsDistinct(seed);
    var id := ShuffledIds(seed)[i];
    var k := PositionOfId(seed, id);
    hide ShuffledIds, PositionOfId;
    assert ShuffledIds(seed)[k] == id;
  }

  /** At position i of the shuffles, facet id and hexagram belong together. */
  lemma AssignmentAt(lenses: Lenses, seed: Text, i: nat)
    requires Canonical(lenses) && i < FACET_COUNT
    ensures var id := ShuffledIds(seed)[i];
            && 1 <= id <= FACET_COUNT
            && FindAssignment(CastAssignments(lenses, seed), id) == Some(Assign(lenses, id, ShuffledHexagrams(lenses, seed)[i]))
  {
    hide *;
    PositionAt(seed, i);
    var id := ShuffledIds(seed)[i];
    var cast := CastAssignments(lenses, seed);
    forall k | 0 <= k < FACET_COUNT
      ensures cast[k].id == k + 1
    {
      CastAt(lenses, seed, k);
    }
    CastAt(lenses, seed, id - 1);
    FindById(cast, id);
  }

  lemma CastAt(lenses: Lenses, seed: Text, k: nat)
    requires Canonical(lenses) && k < FACET_COUNT
    ensures CastAssignments(lenses, seed)[k].id == k + 1
    ensures CastAssignments(lenses, seed)[k] == Assign(lenses, k + 1, ShuffledHexagrams(lenses, seed)[PositionOfId(seed, k + 1)])
  {
    hide ShuffledIds, PositionOfId, ShuffledHexagrams, DirectionalCue, Canonical;
  }

  /** Every entry of a list of facets as long as the cast has an id of the cast. */
  ghost predicate InRange(shuffled: seq<Facet>) {
    |shuffled| == FACET_COUNT && forall i | 0 <= i < FACET_COUNT :: 1 <= shuffled[i].id <= FACET_COUNT
  }

  /** The part made of the facet at position i and the hexagram at position i. */
  function PairedAt(lenses: Lenses, shuffled: seq<Facet>, seed: Text, i: nat): ProblemPart
    requires Canonical(lenses) && InRange(shuffled) && i < FACET_COUNT
  {
    PartOf(shuffled[i], Assign(lenses, shuffled[i].id, ShuffledHexagrams(lenses, seed)[i]))
  }

  lemma PairStep(facets: seq<Facet>, assignments: seq<Assignment>, assignment: Assignment, rest: seq<ProblemPart>)
    requires facets != [] && FindAssignment(assignments, facets[0].id) == Some(assignment)
    requires PairFacets(facets[1..], assignments) == Some(rest)
    ensures PairFacets(facets, assignments) == Some([PartOf(facets[0], assignment)] + rest)
  {
  }

  function PairsAfter(lenses: Lenses, shuffled: seq<Facet>, seed: Text, from: nat): (r: seq<ProblemPart>)
    requires Canonical(lenses) && InRange(shuffled) && from <= FACET_COUNT
    ensures |r| == FACET_COUNT - from
  {
    hide PairedAt, InRange, Canonical;
    seq(FACET_COUNT - from, k requires 0 <= k < FACET_COUNT - from => PairedAt(lenses, shuffled, seed, from + k))
  }

  lemma ShuffledInRange(shuffled: seq<Facet>, seed: Text)
    requires |shuffled| == FACET_COUNT && Map(IdOf(), shuffled) == ShuffledIds(seed)
    ensures InRange(shuffled)
  {
    IdsDistinct(seed);
    assert forall i | 0 <= i < FACET_COUNT :: shuffled[i].id == ShuffledIds(seed)[i];
  }

  lemma PairsAfterStep(lenses: Lenses, shuffled: seq<Facet>, seed: Text, from: nat)
    requires Canonical(lenses) && InRange(shuffled) && from < FACET_COUNT
    ensures PairsAfter(lenses, shuffled, seed, from) == [PairedAt(lenses, shuffled, seed, from)] + PairsAfter(lenses, shuffled, seed, from + 1)
  {
    hide PairedAt, InRange, Canonical;
  }

  lemma PairFound(lenses: Lenses, shuffled: seq<Facet>, seed: Text, i: nat)
    requires Canonical(lenses) && InRange(shuffled) && Map(IdOf(), shuffled) == ShuffledIds(seed) && i < FACET_COUNT
    ensures FindAssignment(CastAssignments(lenses, seed), shuffled[i].id)
            == Some(Assign(lenses, shuffled[i].id, ShuffledHexagrams(lenses, seed)[i]))
  {
    AssignmentAt(lenses, seed, i);
    assert shuffled[i].id == Map(IdOf(), shuffled)[i];
  }

  lemma {:induction false} PairsFrom(lenses: Lenses, shuffled: seq<Facet>, seed: Text, from: nat)
    requires Canonical(lenses) && InRange(shuffled) && Map(IdOf(), shuffled) == ShuffledIds(seed) && from <= FACET_COUNT
    ensures PairFacets(shuffled[from..], CastAssignments(lenses, seed)) == Some(PairsAfter(lenses, shuffled, seed, from))
    decreases FACET_COUNT - from
  {
    hide CastAssignments, Assign, ShuffledIds, FindAssignment, PartOf, DirectionalCue, Shuffled, Map;
    if from < FACET_COUNT {
      PairsFrom(lenses, shuffled, seed, from + 1);
      PairFound(lenses, shuffled, seed, from);
      PairsAfterStep(lenses, shuffled, seed, from);
      assert shuffled[from..][0] == shuffled[from] && shuffled[from..][1..] == shuffled[from + 1..];
      var assignment := Assign(lenses, shuffled[from].id, ShuffledHexagrams(lenses, seed)[from]);
      hide PairFacets, InRange, Canonical, PairsAfter;
      PairStep(shuffled[from..], CastAssignments(lenses, seed), assignment, PairsAfter(lenses, shuffled, seed, from + 1));
    }
  }

  /**
   * Although it looks pairs up by id, composing gives the facet at shuffled position i the
   * hexagram at shuffled position i; and it succeeds whenever the facets are accepted.
   */
  lemma CastAgreement(tools: TextTools, lenses: Lenses, value: Option<seq<Candidate>>, seed: Text)
    requires Canonical(lenses)
    ensures ComposeProblemParts(tools, lenses, value, seed).Ok? <==> ParseFacets(tools, value).Ok?
    ensures ParseFacets(tools, value).Ok? ==>
              var shuffled := ShuffledFacets(ParseFacets(tools, value).value, seed);
              && InRange(shuffled) && Map(IdOf(), shuffled) == ShuffledIds(seed)
              && ComposeProblemParts(tools, lenses, value, seed)
                 == Ok(Shuffled(PairsAfter(lenses, shuffled, seed, 0), DivisionSeed(seed, Board)))
  {
    hide ParseFacets, ShuffledFacets, ShuffledIds, CastAssignments, DivisionSeed, Shuffled, PairFacets, Canonical, AllIds;
    if ParseFacets(tools, value).Ok? {
      var facets := ParseFacets(tools, value).value;
      ParsedHaveAllIds(tools, value);
      ShuffledFacetIds(facets, seed);
      var shuffled := ShuffledFacets(facets, seed);
      assert |Map(IdOf(), shuffled)| == |shuffled|;
      ShuffledInRange(shuffled, seed);
      PairsFrom(lenses, shuffled, seed, 0);
      assert shuffled[0..] == shuffled;
    }
  }

  // ---- The order of the model's facets -----------------------------------------------------------

  /** What a candidate parses to; its position only shows in errors. */
  function FacetOf(tools: TextTools): Candidate -> Facet {
    (c: Candidate) => match ParseFacet(tools, c, 0) case Ok(f) => f case Err(_) => Facet(0, "", "", "", "", None)
  }

  lemma PositionOnlyInErrors(tools: TextTools, c: Candidate, position: nat)
    ensures ParseFacet(tools, c, position).Ok? <==> ParseFacet(tools, c, 0).Ok?
    ensures ParseFacet(tools, c, position).Ok? ==> ParseFacet(tools, c, position) == Ok(FacetOf(tools)(c))
  {
    hide CleanField, CleanCastApplication;
  }

  lemma {:induction false} ParseEachMaps(tools: TextTools, candidates: seq<Candidate>, position: nat)
    ensures ParseEach(tools, candidates, position).Ok? <==> forall c | c in candidates :: ParseFacet(tools, c, 0).Ok?
    ensures ParseEach(tools, candidates, position).Ok? ==> ParseEach(tools, candidates, position) == Ok(Map(FacetOf(tools), candidates))
    decreases |candidates|
  {
    if candidates == [] {
      assert Map(FacetOf(tools), candidates) == [];
    } else {
      PositionOnlyInErrors(tools, candidates[0], position);
      ParseEachMaps(tools, candidates[1..], position + 1);
      hide ParseFacet;
      assert forall c :: c in candidates <==> c == candidates[0] || c in candidates[1..];
      MapFirst(FacetOf(tools), candidates);
      hide Map, FacetOf;
    }
  }

  lemma MapFirst<T, U>(f: T -> U, s: seq<T>)
    requires s != []
    ensures Map(f, s) == [f(s[0])] + Map(f, s[1..])
  {
    assert s == [s[0]] + s[1..];
    MapConcat(f, [s[0]], s[1..]);
    assert Map(f, [s[0]]) == [f(s[0])];
  }

  lemma ParsePermutes(tools: TextTools, s: seq<Candidate>, t: seq<Candidate>)
    requires multiset(s) == multiset(t) && ParseFacets(tools, Some(s)).Ok?
    ensures ParseFacets(tools, Some(t)).Ok?
    ensures multiset(ParseFacets(tools, Some(t)).value) == multiset(ParseFacets(tools, Some(s)).value)
  {
    assert |s| == |multiset(s)| == |t|;
    ParseEachMaps(tools, s, 1);
    ParseEachMaps(tools, t, 1);
    SameMembers(s, t);
    var f, g := Map(FacetOf(tools), s), Map(FacetOf(tools), t);
    MapPermutes(FacetOf(tools), s, t);
    SameMembers(f, g);
    assert (set x | x in f :: x.id) == (set x | x in g :: x.id);
  }

  lemma TiesAreEqual(f: seq<Facet>, g: seq<Facet>, a: Facet, b: Facet)
    requires AllIds(f) && multiset(f) == multiset(g) && a in g && b in g && a.id == b.id
    ensures a == b
  {
    PermutationMembers(f, g, a);
    PermutationMembers(f, g, b);
    var i :| 0 <= i < |f| && f[i] == a;
    var j :| 0 <= j < |f| && f[j] == b;
    assert Map(IdOf(), f)[i] == Map(IdOf(), f)[j];
  }

  lemma ByIdSorts(f: seq<Facet>)
    ensures SortedBy(Sort(f, By(IdOf(), ById())), By(IdOf(), ById()))
    ensures multiset(Sort(f, By(IdOf(), ById()))) == multiset(f)
  {
    hide Sort;
    assert Consistent(By(IdOf(), ById()));
    SortSorts(f, By(IdOf(), ById()));
    SortPermutes(f, By(IdOf(), ById()));
  }

  /** Facets with distinct ids have one arrangement by id. */
  lemma SortedByIdUnique(f: seq<Facet>, g: seq<Facet>)
    requires AllIds(f) && multiset(f) == multiset(g)
    ensures Sort(f, By(IdOf(), ById())) == Sort(g, By(IdOf(), ById()))
  {
    var cmp := By(IdOf(), ById());
    var sorted := Sort(f, cmp);
    hide Sort, SortedBy, AllIds;
    ByIdSorts(f);
    ByIdSorts(g);
    forall a, b | a in sorted && b in sorted && cmp(a, b) <= 0 && cmp(b, a) <= 0
      ensures a == b
    {
      TiesAreEqual(f, sorted, a, b);
    }
    SortedUnique(sorted, Sort(g, cmp), cmp);
  }

  /** Permuting the model's facets changes nothing: the same parts in the same places. */
  lemma OrderIrrelevant(tools: TextTools, lenses: Lenses, s: seq<Candidate>, t: seq<Candidate>, seed: Text)
    requires Canonical(lenses) && multiset(s) == multiset(t)
    requires ComposeProblemParts(tools, lenses, Some(s), seed).Ok?
    ensures ComposeProblemParts(tools, lenses, Some(t), seed) == ComposeProblemParts(tools, lenses, Some(s), seed)
  {
    hide ParseFacets, CastAssignments, DivisionSeed, Shuffled, PairFacets, Canonical, AllIds, Sort;
    ParsePermutes(tools, s, t);
    ParsedHaveAllIds(tools, Some(s));
    SortedByIdUnique(ParseFacets(tools, Some(s)).value, ParseFacets(tools, Some(t)).value);
  }

  // ---- Everything exactly once ---------------------------------------------------------------------

  /** The list holds each element of a list without repetition exactly once, and nothing else. */
  ghost predicate EachOnce<T>(s: seq<T>, all: seq<T>) {
    multiset(s) == multiset(all) && Distinct(all)
  }

  function PartId(): ProblemPart -> int {
    (p: ProblemPart) => p.id
  }

  function HexagramOf(): ProblemPart -> int {
    (p: ProblemPart) => p.hexagram
  }

  function LensOf(): ProblemPart -> (string, string) {
    (p: ProblemPart) => (p.dimension, p.movement)
  }

  function NumberOf(): Hexagram -> int {
    (h: Hexagram) => h.number
  }

  function LensOfId(lenses: Lenses): int -> (string, string)
    requires Canonical(lenses)
  {
    (id: int) => (lenses.dimensions[(id - 1) / 8 % 8].name, lenses.movements[(id - 1) % 8].name)
  }

  /** The dimension and movement pairs of the board. */
  function AllLenses(lenses: Lenses): seq<(string, string)>
    requires Canonical(lenses)
  {
    Map(LensOfId(lenses), FacetIds())
  }

  lemma LensAt(lenses: Lenses, i: nat)
    requires Canonical(lenses) && i < FACET_COUNT
    ensures AllLenses(lenses)[i] == (lenses.dimensions[i / 8].name, lenses.movements[i % 8].name)
  {
    assert FacetIds()[i] == i + 1;
  }

  lemma RowsAndColumns(i: nat, j: nat)
    requires i != j
    ensures i / 8 != j / 8 || i % 8 != j % 8
  {
  }

  lemma NamesDiffer(lenses: Lenses)
    requires Canonical(lenses)
    ensures forall i, j | 0 <= i < 8 && 0 <= j < 8 && i != j :: lenses.dimensions[i].name != lenses.dimensions[j].name
    ensures forall i, j | 0 <= i < 8 && 0 <= j < 8 && i != j :: lenses.movements[i].name != lenses.movements[j].name
  {
  }

  lemma LensesDistinct(lenses: Lenses)
    requires Canonical(lenses)
    ensures Distinct(AllLenses(lenses))
  {
    var all := AllLenses(lenses);
    NamesDiffer(lenses);
    hide Canonical, AllLenses;
    forall i, j | 0 <= i < j < FACET_COUNT
      ensures all[i] != all[j]
    {
      LensAt(lenses, i);
      LensAt(lenses, j);
      RowsAndColumns(i, j);
    }
  }

  lemma PairFields(lenses: Lenses, shuffled: seq<Facet>, seed: Text, i: nat)
    requires Canonical(lenses) && InRange(shuffled) && Map(IdOf(), shuffled) == ShuffledIds(seed) && i < FACET_COUNT
    ensures var p := PairsAfter(lenses, shuffled, seed, 0)[i];
            && PartId()(p) == ShuffledIds(seed)[i] && HexagramOf()(p) == NumberOf()(ShuffledHexagrams(lenses, seed)[i])
            && LensOf()(p) == LensOfId(lenses)(ShuffledIds(seed)[i])
  {
    hide ShuffledIds, ShuffledHexagrams, DirectionalCue;
    assert shuffled[i].id == Map(IdOf(), shuffled)[i];
    assert PairsAfter(lenses, shuffled, seed, 0)[i] == PairedAt(lenses, shuffled, seed, i);
  }

  /** The lists of the pairs, before the last shuffle. */
  lemma PairsByField(lenses: Lenses, shuffled: seq<Facet>, seed: Text)
    requires Canonical(lenses) && InRange(shuffled) && Map(IdOf(), shuffled) == ShuffledIds(seed)
    ensures var pairs := PairsAfter(lenses, shuffled, seed, 0);
            && Map(PartId(), pairs) == ShuffledIds(seed)
            && Map(HexagramOf(), pairs) == Map(NumberOf(), ShuffledHexagrams(lenses, seed))
            && Map(LensOf(), pairs) == Map(LensOfId(lenses), ShuffledIds(seed))
  {
    hide *;
    PairIds(lenses, shuffled, seed);
    PairHexagrams(lenses, shuffled, seed);
    PairLenses(lenses, shuffled, seed);
  }

  lemma PairIds(lenses: Lenses, shuffled: seq<Facet>, seed: Text)
    requires Canonical(lenses) && InRange(shuffled) && Map(IdOf(), shuffled) == ShuffledIds(seed)
    ensures Map(PartId(), PairsAfter(lenses, shuffled, seed, 0)) == ShuffledIds(seed)
  {
    hide *;
    var mapped := Map(PartId(), PairsAfter(lenses, shuffled, seed, 0));
    forall i | 0 <= i < FACET_COUNT
      ensures mapped[i] == ShuffledIds(seed)[i]
    {
      PairFields(lenses, shuffled, seed, i);
    }
    assert mapped == ShuffledIds(seed);
  }

  lemma PairHexagrams(lenses: Lenses, shuffled: seq<Facet>, seed: Text)
    requires Canonical(lenses) && InRange(shuffled) && Map(IdOf(), shuffled) == ShuffledIds(seed)
    ensures Map(HexagramOf(), PairsAfter(lenses, shuffled, seed, 0)) == Map(NumberOf(), ShuffledHexagrams(lenses, seed))
  {
    assert |ShuffledHexagrams(lenses, seed)| == FACET_COUNT;
    hide *;
    var pairs := PairsAfter(lenses, shuffled, seed, 0);
    forall i | 0 <= i < FACET_COUNT
      ensures HexagramOf()(pairs[i]) == NumberOf()(ShuffledHexagrams(lenses, seed)[i])
    {
      PairFields(lenses, shuffled, seed, i);
    }
    MapsAlike(HexagramOf(), pairs, NumberOf(), ShuffledHexagrams(lenses, seed));
  }

  lemma PairLenses(lenses: Lenses, shuffled: seq<Facet>, seed: Text)
    requires Canonical(lenses) && InRange(shuffled) && Map(IdOf(), shuffled) == ShuffledIds(seed)
    ensures Map(LensOf(), PairsAfter(lenses, shuffled, seed, 0)) == Map(LensOfId(lenses), ShuffledIds(seed))
  {
    hide *;
    var pairs := PairsAfter(lenses, shuffled, seed, 0);
    forall i | 0 <= i < FACET_COUNT
      ensures LensOf()(pairs[i]) == LensOfId(lenses)(ShuffledIds(seed)[i])
    {
      PairFields(lenses, shuffled, seed, i);
    }
    MapsAlike(LensOf(), pairs, LensOfId(lenses), ShuffledIds(seed));
  }

  lemma MapsAlike<T, U, V>(f: T -> V, s: seq<T>, g: U -> V, t: seq<U>)
    requires |s| == |t| && forall i | 0 <= i < |s| :: f(s[i]) == g(t[i])
    ensures Map(f, s) == Map(g, t)
  {
  }

  lemma HexagramNumbers(lenses: Lenses)
    requires Canonical(lenses)
    ensures Map(NumberOf(), lenses.hexagrams) == FacetIds()
  {
  }

  /** The parts hold each facet id, each hexagram and each dimension-movement pair exactly once. */
  lemma EverythingOnce(tools: TextTools, lenses: Lenses, value: Option<seq<Candidate>>, seed: Text)
    requires Canonical(lenses) && ComposeProblemParts(tools, lenses, value, seed).Ok?
    ensures var parts := ComposeProblemParts(tools, lenses, value, seed).value;
            && |parts| == FACET_COUNT
            && EachOnce(Map(PartId(), parts), FacetIds())
            && EachOnce(Map(HexagramOf(), parts), FacetIds())
            && EachOnce(Map(LensOf(), parts), AllLenses(lenses))
  {
    hide ParseFacets, ShuffledFacets, DivisionSeed, Shuffled, ComposeProblemParts;
    CastAgreement(tools, lenses, value, seed);
    var shuffled := ShuffledFacets(ParseFacets(tools, value).value, seed);
    var pairs := PairsAfter(lenses, shuffled, seed, 0);
    var parts := Shuffled(pairs, DivisionSeed(seed, Board));
    ShufflePermutes(pairs, DivisionSeed(seed, Board));
    MapPermutes(PartId(), pairs, parts);
    MapPermutes(HexagramOf(), pairs, parts);
    MapPermutes(LensOf(), pairs, parts);
    PairsByField(lenses, shuffled, seed);
    ShufflePermutes(FacetIds(), DivisionSeed(seed, Facets));
    ShuffleMaps(NumberOf(), lenses.hexagrams, DivisionSeed(seed, Hexagrams));
    HexagramNumbers(lenses);
    ShufflePermutes(FacetIds(), DivisionSeed(seed, Hexagrams));
    MapPermutes(LensOfId(lenses), FacetIds(), ShuffledIds(seed));
    LensesDistinct(lenses);
  }

  // ---- Every part field by field -----------------------------------------------------------------

  /** The part carries the texts of a facet under its id. */
  ghost predicate CarriesFacet(p: ProblemPart, f: Facet) {
    && f.id == p.id && f.title == p.title && f.focus == p.focus && f.question == p.prompt && f.keyword == p.keyword
    && f.castApplication == p.castApplication
  }

  /** The part names the row of its hexagram and the dimension and movement of its id. */
  ghost predicate CarriesLens(p: ProblemPart, lenses: Lenses)
    requires Canonical(lenses)
  {
    && 1 <= p.id <= FACET_COUNT && 1 <= p.hexagram <= FACET_COUNT
    && p.hexagramName == lenses.hexagrams[p.hexagram - 1].name && p.theme == lenses.hexagrams[p.hexagram - 1].theme
    && p.dimension == lenses.dimensions[(p.id - 1) / BOARD_SECTOR_COUNT].name
    && p.movement == lenses.movements[(p.id - 1) % BOARD_SECTOR_COUNT].name
  }

  lemma HexagramRow(lenses: Lenses, h: Hexagram)
    requires Canonical(lenses) && h in lenses.hexagrams
    ensures 1 <= h.number <= FACET_COUNT && lenses.hexagrams[h.number - 1] == h
  {
    var k :| 0 <= k < |lenses.hexagrams| && lenses.hexagrams[k] == h;
  }

  lemma ShuffledHexagramAt(lenses: Lenses, seed: Text, i: nat)
    requires Canonical(lenses) && i < FACET_COUNT
    ensures var h := ShuffledHexagrams(lenses, seed)[i];
            1 <= h.number <= FACET_COUNT && lenses.hexagrams[h.number - 1] == h
  {
    hide DivisionSeed, Shuffled;
    var h := ShuffledHexagrams(lenses, seed)[i];
    ShufflePermutes(lenses.hexagrams, DivisionSeed(seed, Hexagrams));
    assert multiset(ShuffledHexagrams(lenses, seed)) == multiset(lenses.hexagrams);
    hide ShuffledHexagrams, Canonical;
    PermutationMembers(lenses.hexagrams, ShuffledHexagrams(lenses, seed), h);
    HexagramRow(lenses, h);
  }

  lemma ShuffledFacetAt(facets: seq<Facet>, seed: Text, i: nat)
    requires i < |ShuffledFacets(facets, seed)|
    ensures ShuffledFacets(facets, seed)[i] in facets
  {
    hide DivisionSeed;
    var sorted := Sort(facets, By(IdOf(), ById()));
    SortPermutes(facets, By(IdOf(), ById()));
    ShufflePermutes(sorted, DivisionSeed(seed, Facets));
    PermutationMembers(sorted, ShuffledFacets(facets, seed), ShuffledFacets(facets, seed)[i]);
    PermutationMembers(facets, sorted, ShuffledFacets(facets, seed)[i]);
  }

  lemma PartCarries(lenses: Lenses, f: Facet, h: Hexagram)
    requires Canonical(lenses) && 1 <= f.id <= FACET_COUNT && 1 <= h.number <= FACET_COUNT && lenses.hexagrams[h.number - 1] == h
    ensures CarriesFacet(PartOf(f, Assign(lenses, f.id, h)), f) && CarriesLens(PartOf(f, Assign(lenses, f.id, h)), lenses)
  {
    hide DirectionalCue;
  }

  lemma PairCarries(lenses: Lenses, shuffled: seq<Facet>, seed: Text, i: nat)
    requires Canonical(lenses) && InRange(shuffled) && i < FACET_COUNT
    ensures CarriesFacet(PairedAt(lenses, shuffled, seed, i), shuffled[i])
    ensures CarriesLens(PairedAt(lenses, shuffled, seed, i), lenses)
  {
    hide Assign, ShuffledHexagrams, CarriesFacet, CarriesLens, PartOf;
    ShuffledHexagramAt(lenses, seed, i);
    PartCarries(lenses, shuffled[i], ShuffledHexagrams(lenses, seed)[i]);
  }

  /** Every part carries the texts of the accepted facet with its id, its hexagram's row, and the lens of its id. */
  lemma PartsAreFaithful(tools: TextTools, lenses: Lenses, value: Option<seq<Candidate>>, seed: Text, k: nat)
    requires Canonical(lenses) && ComposeProblemParts(tools, lenses, value, seed).Ok?
    requires k < |ComposeProblemParts(tools, lenses, value, seed).value|
    ensures var p := ComposeProblemParts(tools, lenses, value, seed).value[k];
            && ParseFacets(tools, value).Ok?
            && (exists f :: f in ParseFacets(tools, value).value && CarriesFacet(p, f))
            && CarriesLens(p, lenses)
  {
    hide ParseFacets, ShuffledFacets, DivisionSeed, Shuffled, ComposeProblemParts, PairedAt, CarriesFacet, CarriesLens, Canonical;
    CastAgreement(tools, lenses, value, seed);
    var facets := ParseFacets(tools, value).value;
    var shuffled := ShuffledFacets(facets, seed);
    var pairs := PairsAfter(lenses, shuffled, seed, 0);
    var parts := Shuffled(pairs, DivisionSeed(seed, Board));
    ShufflePermutes(pairs, DivisionSeed(seed, Board));
    PermutationMembers(pairs, parts, parts[k]);
    var i :| 0 <= i < |pairs| && pairs[i] == parts[k];
    assert pairs[i] == PairedAt(lenses, shuffled, seed, i);
    PairCarries(lenses, shuffled, seed, i);
    ShuffledFacetAt(facets, seed, i);
  }
}
