/** One pass over a Web memory accepts exactly the memories that keep its promises. */
module WebMemoryFacts {
  import opened Wrappers
  import opened Sequences
  import opened Text
  import opened WebMemory

  // ---- Binding keys --------------------------------------------------------------------------

  lemma {:induction false} DigitsNoColon(n: nat)
    ensures forall i | 0 <= i < |Digits(n)| :: Digits(n)[i] != ':'
  {
    assert AllDigits(Digits(n));
  }

  /** The key has one colon that only digits follow, so it tells run and index apart. */
  lemma BindingKeyInjective(r: string, i: nat, s: string, j: nat)
    requires BindingKey(r, i) == BindingKey(s, j)
    ensures r == s && i == j
  {
    hide Digits;
    DigitsNoColon(i);
    DigitsNoColon(j);
    var x, y := BindingKey(r, i), BindingKey(s, j);
    assert x[|r|] == ':' && y[|s|] == ':';
    LastColon(r, Digits(i), s);
    LastColon(s, Digits(j), r);
    assert |r| == |s|;
    assert r == x[..|r|] && s == y[..|s|];
    assert Digits(i) == x[|r| + 1..] && Digits(j) == y[|s| + 1..];
    DigitsInjective(i, j);
  }

  lemma LastColon(r: string, digits: string, s: string)
    requires forall k | 0 <= k < |digits| :: digits[k] != ':'
    ensures |r| < |s| < |r| + 1 + |digits| ==> (r + ":" + digits)[|s|] != ':'
  {
  }

  function KeyText(): ((string, int)) -> string {
    (pair: (string, int)) => BindingKey(pair.0, pair.1)
  }

  ghost predicate Indices(pairs: seq<(string, int)>) {
    forall i | 0 <= i < |pairs| :: pairs[i].1 >= 0
  }

  lemma KeysDistinct(pairs: seq<(string, int)>)
    requires Indices(pairs)
    ensures Distinct(Map(KeyText(), pairs)) <==> Distinct(pairs)
  {
    var keys := Map(KeyText(), pairs);
    hide BindingKey;
    forall i, j | 0 <= i < j < |pairs|
      ensures keys[i] == keys[j] <==> pairs[i] == pairs[j]
    {
      if keys[i] == keys[j] {
        BindingKeyInjective(pairs[i].0, pairs[i].1, pairs[j].0, pairs[j].1);
      }
    }
  }

  // ---- One pass, as a whole ----------------------------------------------------------------------

  /** The listing repeats nothing and nothing that has been seen. */
  ghost predicate AllFresh(l: Listing, seen: Seen) {
    && Fresh(l.cases, seen.cases) && Fresh(l.actions, seen.actions)
    && Fresh(Map(KeyText(), l.bound), seen.keys) && Fresh(l.observations, seen.observations)
  }

  function Plus(seen: Seen, l: Listing): Seen {
    Seen(seen.cases + Elems(l.cases), seen.actions + Elems(l.actions), seen.keys + Elems(Map(KeyText(), l.bound)),
         seen.observations + Elems(l.observations), seen.current + l.current)
  }

  lemma JoinedFresh(a: Listing, b: Listing, seen: Seen)
    ensures AllFresh(Joined(a, b), seen) <==> AllFresh(a, seen) && AllFresh(b, Plus(seen, a))
    ensures Plus(seen, Joined(a, b)) == Plus(Plus(seen, a), b)
  {
    hide KeyText, Fresh;
    FreshConcat(a.cases, b.cases, seen.cases);
    FreshConcat(a.actions, b.actions, seen.actions);
    MapConcat(KeyText(), a.bound, b.bound);
    FreshConcat(Map(KeyText(), a.bound), Map(KeyText(), b.bound), seen.keys);
    FreshConcat(a.observations, b.observations, seen.observations);
  }

  /** A step that accepts a valid item with a fresh listing, and notes the listing. */
  ghost predicate Notes(result: Option<Seen>, valid: bool, l: Listing, seen: Seen) {
    result == if valid && AllFresh(l, seen) then Some(Plus(seen, l)) else None
  }

  lemma NotesJoin(first: Option<Seen>, v: bool, a: Listing, second: Option<Seen>, w: bool, b: Listing, seen: Seen)
    requires Notes(first, v, a, seen)
    requires first.Some? ==> Notes(second, w, b, first.value)
    ensures Notes(if first.None? then None else second, v && w, Joined(a, b), seen)
  {
    JoinedFresh(a, b, seen);
    hide AllFresh, Plus, Joined;
  }

  lemma EmptyNotes(seen: Seen)
    ensures Notes(Some(seen), true, EMPTY, seen)
  {
    NoKeys();
    AddNothing(seen.cases);
    AddNothing(seen.actions);
    AddNothing(seen.keys);
    AddNothing(seen.observations);
  }

  lemma NoKeys()
    ensures Map(KeyText(), []) == []
  {
  }

  lemma AddNothing(s: set<string>)
    ensures s + Elems([]) == s
  {
  }

  lemma AddOne(s: set<string>, x: string)
    ensures s + Elems([x]) == s + {x} && (Fresh([x], s) <==> x !in s)
  {
  }

  // ---- Observations --------------------------------------------------------------------------------

  ghost predicate ObservationsValid(actionId: string, observations: seq<Observation>) {
    forall i | 0 <= i < |observations| :: observations[i].fieldsValid && observations[i].actionId == actionId
  }

  function ObservationsListing(observations: seq<Observation>): Listing {
    Listing([], [], [], Map(ObservationId(), observations), 0)
  }

  lemma OneObservation(o: Observation, actionId: string, seen: Seen)
    ensures Notes(SeeObservations(seen, actionId, [o]), o.fieldsValid && o.actionId == actionId, Listing([], [], [], [o.id], 0), seen)
  {
    assert [o][..0] == [];
    NoKeys();
    AddNothing(seen.cases);
    AddNothing(seen.actions);
    AddNothing(seen.keys);
    AddOne(seen.observations, o.id);
    hide Elems;
  }

  lemma SplitObservations(seen: Seen, actionId: string, observations: seq<Observation>)
    requires observations != []
    ensures var front, o := observations[..|observations| - 1], observations[|observations| - 1];
            var first := SeeObservations(seen, actionId, front);
            && SeeObservations(seen, actionId, observations)
               == (if first.None? then None else SeeObservations(first.value, actionId, [o]))
            && Joined(ObservationsListing(front), Listing([], [], [], [o.id], 0)) == ObservationsListing(observations)
            && (ObservationsValid(actionId, observations) <==>
                  ObservationsValid(actionId, front) && o.fieldsValid && o.actionId == actionId)
  {
    var front, o := observations[..|observations| - 1], observations[|observations| - 1];
    assert [o][..0] == [];
    assert observations == front + [o];
    MapConcat(ObservationId(), front, [o]);
    assert Map(ObservationId(), [o]) == [o.id];
  }

  lemma {:induction false} ObservationsNote(seen: Seen, actionId: string, observations: seq<Observation>)
    ensures Notes(SeeObservations(seen, actionId, observations), ObservationsValid(actionId, observations),
                  ObservationsListing(observations), seen)
    decreases |observations|
  {
    if observations == [] {
      EmptyNotes(seen);
      assert ObservationsListing(observations) == EMPTY;
    } else {
      var front, o := observations[..|observations| - 1], observations[|observations| - 1];
      ObservationsNote(seen, actionId, front);
      SplitObservations(seen, actionId, observations);
      hide *;
      var first := SeeObservations(seen, actionId, front);
      var second := if first.Some? then SeeObservations(first.value, actionId, [o]) else None;
      if first.Some? { OneObservation(o, actionId, first.value); }
      NotesJoin(first, ObservationsValid(actionId, front), ObservationsListing(front), second,
                o.fieldsValid && o.actionId == actionId, Listing([], [], [], [o.id], 0), seen);
    }
  }

  // ---- Actions ---------------------------------------------------------------------------------

  /** The part of an action that stands before its observations. */
  function SeeHead(seen: Seen, a: Action): Option<Seen> {
    if !ActionValid(a) || a.id in seen.actions then None
    else if a.binding != Current then Some(seen.(actions := seen.actions + {a.id}))
    else if BindingKey(a.lifecycleRunId, a.charlotteActionIndex.value) in seen.keys then None
    else Some(seen.(actions := seen.actions + {a.id}, keys := seen.keys + {BindingKey(a.lifecycleRunId, a.charlotteActionIndex.value)}))
  }

  function HeadListing(a: Action): Listing {
    Listing([], [a.id], if a.binding == Current && a.charlotteActionIndex.Some? then [(a.lifecycleRunId, a.charlotteActionIndex.value)] else [],
            [], 0)
  }

  lemma HeadNotes(seen: Seen, a: Action)
    ensures Notes(SeeHead(seen, a), ActionValid(a), HeadListing(a), seen)
  {
    NoKeys();
    AddNothing(seen.cases);
    AddOne(seen.actions, a.id);
    AddNothing(seen.observations);
    AddNothing(seen.keys);
    if a.charlotteActionIndex.Some? {
      var pair := (a.lifecycleRunId, a.charlotteActionIndex.value);
      assert Map(KeyText(), [pair]) == [BindingKey(pair.0, pair.1)];
      AddOne(seen.keys, BindingKey(pair.0, pair.1));
    }
    hide Elems, BindingKey;
  }

  function SeeTail(seen: Seen, r: ActionRecord): Option<Seen> {
    if r.observations.None? then None else SeeObservations(seen, r.action.id, r.observations.value)
  }

  function TailListing(r: ActionRecord): Listing {
    if r.observations.Some? then ObservationsListing(r.observations.value) else EMPTY
  }

  ghost predicate TailValid(r: ActionRecord) {
    r.observations.Some? && ObservationsValid(r.action.id, r.observations.value)
  }

  lemma TailNotes(seen: Seen, r: ActionRecord)
    ensures Notes(SeeTail(seen, r), TailValid(r), TailListing(r), seen)
  {
    if r.observations.Some? { ObservationsNote(seen, r.action.id, r.observations.value); }
    hide AllFresh, Plus, SeeObservations;
  }

  lemma ActionSplits(seen: Seen, r: ActionRecord)
    ensures SeeAction(seen, r) == (if SeeHead(seen, r.action).None? then None else SeeTail(SeeHead(seen, r.action).value, r))
  {
    hide BindingKey, SeeObservations, ActionValid;
    assert ActionValid(r.action) && r.action.binding == Current ==> r.action.charlotteActionIndex.Some? by { BoundHasIndex(r.action); }
  }

  lemma BoundHasIndex(a: Action)
    ensures ActionValid(a) && a.binding == Current ==> a.charlotteActionIndex.Some?
  {
  }

  lemma RecordSplits(r: ActionRecord)
    ensures Joined(HeadListing(r.action), TailListing(r)) == RecordListing(r)
    ensures RecordValid(r) <==> ActionValid(r.action) && TailValid(r)
  {
    ActionExact(r.action);
    hide ActionValid, ActionSound;
  }

  lemma ActionNotes(seen: Seen, r: ActionRecord)
    ensures Notes(SeeAction(seen, r), RecordValid(r), RecordListing(r), seen)
  {
    hide *;
    ActionSplits(seen, r);
    RecordSplits(r);
    HeadNotes(seen, r.action);
    var first := SeeHead(seen, r.action);
    var second := if first.Some? then SeeTail(first.value, r) else None;
    if first.Some? { TailNotes(first.value, r); }
    NotesJoin(first, ActionValid(r.action), HeadListing(r.action), second, TailValid(r), TailListing(r), seen);
  }

  ghost predicate RecordsValid(records: seq<ActionRecord>) {
    forall i | 0 <= i < |records| :: RecordValid(records[i])
  }

  lemma RecordsSplit(seen: Seen, records: seq<ActionRecord>)
    requires records != []
    ensures var front, r := records[..|records| - 1], records[|records| - 1];
            && SeeActions(seen, records)
               == (if SeeActions(seen, front).None? then None else SeeAction(SeeActions(seen, front).value, r))
            && RecordsListing(records) == Joined(RecordsListing(front), RecordListing(r))
            && (RecordsValid(records) <==> RecordsValid(front) && RecordValid(r))
  {
    hide SeeAction, RecordListing, RecordValid;
  }

  lemma {:induction false} ActionsNote(seen: Seen, records: seq<ActionRecord>)
    ensures Notes(SeeActions(seen, records), RecordsValid(records), RecordsListing(records), seen)
    decreases |records|
  {
    if records == [] {
      EmptyNotes(seen);
    } else {
      var front, r := records[..|records| - 1], records[|records| - 1];
      ActionsNote(seen, front);
      RecordsSplit(seen, records);
      hide *;
      var first := SeeActions(seen, front);
      var second := if first.Some? then SeeAction(first.value, r) else None;
      if first.Some? { ActionNotes(first.value, r); }
      NotesJoin(first, RecordsValid(front), RecordsListing(front), second, RecordValid(r), RecordListing(r), seen);
    }
  }

  // ---- Cases ----------------------------------------------------------------------------------------

  function SeeName(seen: Seen, c: MemoryCase): Option<Seen> {
    if !c.fieldsValid || c.gameId in seen.cases then None
    else Some(seen.(cases := seen.cases + {c.gameId}, current := seen.current + if c.isCurrent then 1 else 0))
  }

  function NameListing(c: MemoryCase): Listing {
    Listing([c.gameId], [], [], [], if c.isCurrent then 1 else 0)
  }

  lemma NameNotes(seen: Seen, c: MemoryCase)
    ensures Notes(SeeName(seen, c), c.fieldsValid, NameListing(c), seen)
  {
    NoKeys();
    AddOne(seen.cases, c.gameId);
    AddNothing(seen.actions);
    AddNothing(seen.keys);
    AddNothing(seen.observations);
    hide Elems;
  }

  lemma CaseNotes(seen: Seen, c: MemoryCase)
    ensures Notes(SeeCase(seen, c), CaseValid(c), CaseListing(c), seen)
  {
    NameNotes(seen, c);
    var first := SeeName(seen, c);
    var second := if first.Some? then SeeActions(first.value, c.actions) else None;
    assert CaseListing(c) == Joined(NameListing(c), RecordsListing(c.actions));
    assert CaseValid(c) <==> c.fieldsValid && RecordsValid(c.actions);
    assert SeeCase(seen, c) == (if first.None? then None else second);
    hide *;
    if first.Some? { ActionsNote(first.value, c.actions); }
    NotesJoin(first, c.fieldsValid, NameListing(c), second, RecordsValid(c.actions), RecordsListing(c.actions), seen);
  }

  ghost predicate CasesValid(cases: seq<MemoryCase>) {
    forall i | 0 <= i < |cases| :: CaseValid(cases[i])
  }

  lemma CasesSplit(seen: Seen, cases: seq<MemoryCase>)
    requires cases != []
    ensures var front, c := cases[..|cases| - 1], cases[|cases| - 1];
            && SeeCases(seen, cases) == (if SeeCases(seen, front).None? then None else SeeCase(SeeCases(seen, front).value, c))
            && CasesListing(cases) == Joined(CasesListing(front), CaseListing(c))
            && (CasesValid(cases) <==> CasesValid(front) && CaseValid(c))
  {
    hide SeeCase, CaseListing, CaseValid;
  }

  lemma {:induction false} CasesNote(seen: Seen, cases: seq<MemoryCase>)
    ensures Notes(SeeCases(seen, cases), CasesValid(cases), CasesListing(cases), seen)
    decreases |cases|
  {
    if cases == [] {
      EmptyNotes(seen);
    } else {
      var front, c := cases[..|cases| - 1], cases[|cases| - 1];
      CasesNote(seen, front);
      CasesSplit(seen, cases);
      hide *;
      var first := SeeCases(seen, front);
      var second := if first.Some? then SeeCase(first.value, c) else None;
      if first.Some? { CaseNotes(first.value, c); }
      NotesJoin(first, CasesValid(front), CasesListing(front), second, CaseValid(c), CaseListing(c), seen);
    }
  }

  lemma {:induction false} RecordsIndices(records: seq<ActionRecord>)
    requires RecordsValid(records)
    ensures Indices(RecordsListing(records).bound)
    decreases |records|
  {
    if records != [] {
      var front, r := records[..|records| - 1], records[|records| - 1];
      RecordsIndices(front);
      assert RecordValid(r);
      assert Indices(RecordListing(r).bound);
      hide RecordListing, RecordValid;
      IndicesConcat(RecordsListing(front).bound, RecordListing(r).bound);
    }
  }

  lemma IndicesConcat(a: seq<(string, int)>, b: seq<(string, int)>)
    requires Indices(a) && Indices(b)
    ensures Indices(a + b)
  {
  }

  lemma {:induction false} CasesIndices(cases: seq<MemoryCase>)
    requires CasesValid(cases)
    ensures Indices(CasesListing(cases).bound)
    decreases |cases|
  {
    if cases != [] {
      var front, c := cases[..|cases| - 1], cases[|cases| - 1];
      CasesIndices(front);
      assert CaseValid(c);
      RecordsIndices(c.actions);
      IndicesConcat([], RecordsListing(c.actions).bound);
      hide RecordsListing, CaseValid;
      IndicesConcat(CasesListing(front).bound, CaseListing(c).bound);
    }
  }

  lemma FreshFromNothing<T>(s: seq<T>)
    ensures Fresh(s, {}) <==> Distinct(s)
  {
  }

  /** The one pass accepts exactly the cases that keep the promise. */
  lemma OnePassIsExact(cases: seq<MemoryCase>)
    ensures CasesOk(cases) <==> SeeCases(NOTHING, cases).Some? && SeeCases(NOTHING, cases).value.current <= 1
  {
    var l := CasesListing(cases);
    CasesNote(NOTHING, cases);
    FreshFromNothing(l.cases);
    FreshFromNothing(l.actions);
    FreshFromNothing(Map(KeyText(), l.bound));
    FreshFromNothing(l.observations);
    if CasesValid(cases) {
      CasesIndices(cases);
      KeysDistinct(l.bound);
    }
    assert CasesValid(cases) <==> forall i | 0 <= i < |cases| :: CaseValid(cases[i]);
    hide CasesListing, SeeCases, CaseValid, CasesValid, Distinct, Fresh;
  }

  /** parseWebMemoryEnvelope. */
  method ParseWebMemory(memory: Memory) returns (ok: bool)
    ensures ok <==> MemoryOk(memory)
  {
    var carried := CheckCarried(memory.carriedObservationIds);
    if !carried || |memory.cases| > MAX_CASES {
      return false;
    }
    var seen := CheckCases(memory.cases);
    OnePassIsExact(memory.cases);
    ok := seen.Some? && seen.value.current <= 1;
  }
}
