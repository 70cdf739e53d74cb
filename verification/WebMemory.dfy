/** The one-pass check of a Web memory (src/lib/webchess-api.ts:1565-1649). */
module WebMemory {
  import opened Wrappers
  import opened Sequences
  import opened Text

  const MAX_CARRIED := 8
  const MAX_CASES := 24
  const MAX_ACTION_INDEX := 2

  datatype Binding = Unbound | Current | Unknown

  /** The fields with a format of their own are valid or not; what relates records is explicit. */
  datatype Action = Action(fieldsValid: bool, id: string, lifecycleRunId: string, charlotteActionIndex: Option<int>, binding: Binding)

  datatype Observation = Observation(fieldsValid: bool, id: string, actionId: string)

  /** The observations are None when they are no array. */
  datatype ActionRecord = ActionRecord(action: Action, observations: Option<seq<Observation>>)

  datatype MemoryCase = MemoryCase(fieldsValid: bool, gameId: string, isCurrent: bool, actions: seq<ActionRecord>)

  /** A carried id is None when it is no UUID. */
  datatype Memory = Memory(cases: seq<MemoryCase>, carriedObservationIds: seq<Option<string>>)

  /** parseWilburAction. */
  predicate ActionValid(a: Action) {
    && a.fieldsValid
    && (a.charlotteActionIndex.Some? ==> 0 <= a.charlotteActionIndex.value <= MAX_ACTION_INDEX)
    && a.binding != Unknown && (a.binding == Current ==> a.charlotteActionIndex.Some?)
  }

  /** `${lifecycleRunId}:${charlotteActionIndex}` */
  function BindingKey(run: string, index: int): string {
    run + ":" + Decimal(index)
  }

  // ---- What has been seen --------------------------------------------------------------------

  datatype Seen = Seen(cases: set<string>, actions: set<string>, keys: set<string>, observations: set<string>, current: nat)

  const NOTHING := Seen({}, {}, {}, {}, 0)

  function SeeObservations(seen: Seen, actionId: string, observations: seq<Observation>): Option<Seen> {
    if observations == [] then Some(seen)
    else
      match SeeObservations(seen, actionId, observations[..|observations| - 1])
      case None => None
      case Some(before) =>
        var o := observations[|observations| - 1];
        if !o.fieldsValid || o.actionId != actionId || o.id in before.observations then None
        else Some(before.(observations := before.observations + {o.id}))
  }

  function SeeAction(seen: Seen, record: ActionRecord): Option<Seen> {
    var a := record.action;
    if !ActionValid(a) || a.id in seen.actions then None
    else
      var named := seen.(actions := seen.actions + {a.id});
      if a.binding == Current then
        var key := BindingKey(a.lifecycleRunId, a.charlotteActionIndex.value);
        if key in named.keys || record.observations.None? then None
        else SeeObservations(named.(keys := named.keys + {key}), a.id, record.observations.value)
      else if record.observations.None? then None
      else SeeObservations(named, a.id, record.observations.value)
  }

  function SeeActions(seen: Seen, records: seq<ActionRecord>): Option<Seen> {
    if records == [] then Some(seen)
    else
      match SeeActions(seen, records[..|records| - 1])
      case None => None
      case Some(before) => SeeAction(before, records[|records| - 1])
  }

  function SeeCase(seen: Seen, c: MemoryCase): Option<Seen> {
    if !c.fieldsValid || c.gameId in seen.cases then None
    else SeeActions(seen.(cases := seen.cases + {c.gameId}, current := seen.current + if c.isCurrent then 1 else 0), c.actions)
  }

  function SeeCases(seen: Seen, cases: seq<MemoryCase>): Option<Seen> {
    if cases == [] then Some(seen)
    else
      match SeeCases(seen, cases[..|cases| - 1])
      case None => None
      case Some(before) => SeeCase(before, cases[|cases| - 1])
  }

  // ---- The loops --------------------------------------------------------------------------------

  method CheckObservations(seen: Seen, actionId: string, observations: seq<Observation>) returns (r: Option<Seen>)
    ensures r == SeeObservations(seen, actionId, observations)
  {
    var observationIds := seen.observations;
    for i := 0 to |observations|
      invariant SeeObservations(seen, actionId, observations[..i]) == Some(seen.(observations := observationIds))
    {
      assert observations[..i + 1][..i] == observations[..i];
      var o := observations[i];
      if !o.fieldsValid || o.actionId != actionId || o.id in observationIds {
        ObservationsStop(seen, actionId, observations, i + 1);
        return None;
      }
      observationIds := observationIds + {o.id};
    }
    assert observations[..|observations|] == observations;
    return Some(seen.(observations := observationIds));
  }

  lemma {:induction false} ObservationsStop(seen: Seen, actionId: string, observations: seq<Observation>, i: nat)
    requires i <= |observations| && SeeObservations(seen, actionId, observations[..i]).None?
    ensures SeeObservations(seen, actionId, observations).None?
    decreases |observations|
  {
    if i < |observations| {
      assert observations[..|observations| - 1][..i] == observations[..i];
      ObservationsStop(seen, actionId, observations[..|observations| - 1], i);
    } else {
      assert observations[..i] == observations;
    }
  }

  method CheckActions(seen: Seen, records: seq<ActionRecord>) returns (r: Option<Seen>)
    ensures r == SeeActions(seen, records)
  {
    var current := seen;
    for i := 0 to |records|
      invariant SeeActions(seen, records[..i]) == Some(current)
    {
      assert records[..i + 1][..i] == records[..i];
      var record := records[i];
      var a := record.action;
      var next: Option<Seen> := None;
      if ActionValid(a) && a.id !in current.actions {
        var named := current.(actions := current.actions + {a.id});
        if a.binding == Current {
          var key := BindingKey(a.lifecycleRunId, a.charlotteActionIndex.value);
          if key !in named.keys && record.observations.Some? {
            next := CheckObservations(named.(keys := named.keys + {key}), a.id, record.observations.value);
          }
        } else if record.observations.Some? {
          next := CheckObservations(named, a.id, record.observations.value);
        }
      }
      assert next == SeeAction(current, record) == SeeActions(seen, records[..i + 1]);
      if next.None? {
        ActionsStop(seen, records, i + 1);
        return None;
      }
      current := next.value;
    }
    assert records[..|records|] == records;
    return Some(current);
  }

  lemma {:induction false} ActionsStop(seen: Seen, records: seq<ActionRecord>, i: nat)
    requires i <= |records| && SeeActions(seen, records[..i]).None?
    ensures SeeActions(seen, records).None?
    decreases |records|
  {
    hide SeeAction;
    if i < |records| {
      assert records[..|records| - 1][..i] == records[..i];
      ActionsStop(seen, records[..|records| - 1], i);
    } else {
      assert records[..i] == records;
    }
  }

  method CheckCases(cases: seq<MemoryCase>) returns (r: Option<Seen>)
    ensures r == SeeCases(NOTHING, cases)
  {
    var current := NOTHING;
    for i := 0 to |cases|
      invariant SeeCases(NOTHING, cases[..i]) == Some(current)
    {
      assert cases[..i + 1][..i] == cases[..i];
      var c := cases[i];
      var next: Option<Seen> := None;
      if c.fieldsValid && c.gameId !in current.cases {
        next := CheckActions(
          current.(cases := current.cases + {c.gameId}, current := current.current + if c.isCurrent then 1 else 0), c.actions);
      }
      assert next == SeeCases(NOTHING, cases[..i + 1]);
      if next.None? {
        CasesStop(NOTHING, cases, i + 1);
        return None;
      }
      current := next.value;
    }
    assert cases[..|cases|] == cases;
    return Some(current);
  }

  lemma {:induction false} CasesStop(seen: Seen, cases: seq<MemoryCase>, i: nat)
    requires i <= |cases| && SeeCases(seen, cases[..i]).None?
    ensures SeeCases(seen, cases).None?
    decreases |cases|
  {
    hide SeeCase;
    if i < |cases| {
      assert cases[..|cases| - 1][..i] == cases[..i];
      CasesStop(seen, cases[..|cases| - 1], i);
    } else {
      assert cases[..i] == cases;
    }
  }

  // ---- The relational specification ---------------------------------------------------------------

  /** What a memory lists, in order: case, action and observation ids, bound pairs, and its current cases. */
  datatype Listing = Listing(cases: seq<string>, actions: seq<string>, bound: seq<(string, int)>, observations: seq<string>, current: nat)

  const EMPTY := Listing([], [], [], [], 0)

  function Joined(a: Listing, b: Listing): Listing {
    Listing(a.cases + b.cases, a.actions + b.actions, a.bound + b.bound, a.observations + b.observations, a.current + b.current)
  }

  function ObservationId(): Observation -> string {
    (o: Observation) => o.id
  }

  function RecordListing(r: ActionRecord): Listing {
    var a := r.action;
    Listing([], [a.id],
            if a.binding == Current && a.charlotteActionIndex.Some? then [(a.lifecycleRunId, a.charlotteActionIndex.value)] else [],
            if r.observations.Some? then Map(ObservationId(), r.observations.value) else [], 0)
  }

  function RecordsListing(records: seq<ActionRecord>): Listing {
    if records == [] then EMPTY else Joined(RecordsListing(records[..|records| - 1]), RecordListing(records[|records| - 1]))
  }

  function CaseListing(c: MemoryCase): Listing {
    Joined(Listing([c.gameId], [], [], [], if c.isCurrent then 1 else 0), RecordsListing(c.actions))
  }

  function CasesListing(cases: seq<MemoryCase>): Listing {
    if cases == [] then EMPTY else Joined(CasesListing(cases[..|cases| - 1]), CaseListing(cases[|cases| - 1]))
  }

  /** Valid fields, one of three indices if any, and a current binding only with an index. */
  ghost predicate ActionSound(a: Action) {
    && a.fieldsValid
    && (a.charlotteActionIndex == None || exists i :: i in [0, 1, 2] && a.charlotteActionIndex == Some(i))
    && (a.binding == Unbound || (a.binding == Current && a.charlotteActionIndex.Some?))
  }

  lemma ActionExact(a: Action)
    ensures ActionValid(a) <==> ActionSound(a)
  {
    if a.charlotteActionIndex.Some? && 0 <= a.charlotteActionIndex.value < 3 {
      assert a.charlotteActionIndex.value in [0, 1, 2];
    }
  }

  /** Every record is valid by itself and every observation names the action it stands under. */
  ghost predicate RecordValid(r: ActionRecord) {
    && ActionSound(r.action) && r.observations.Some?
    && forall i | 0 <= i < |r.observations.value| ::
         r.observations.value[i].fieldsValid && r.observations.value[i].actionId == r.action.id
  }

  ghost predicate CaseValid(c: MemoryCase) {
    c.fieldsValid && forall i | 0 <= i < |c.actions| :: RecordValid(c.actions[i])
  }

  /** The promise about the cases: valid records, no id and no bound pair twice, at most one current case. */
  ghost predicate CasesOk(cases: seq<MemoryCase>) {
    var l := CasesListing(cases);
    && (forall i | 0 <= i < |cases| :: CaseValid(cases[i]))
    && Distinct(l.cases) && Distinct(l.actions) && Distinct(l.bound) && Distinct(l.observations) && l.current <= 1
  }

  ghost predicate CarriedOk(ids: seq<Option<string>>) {
    |ids| <= 8 && (forall i | 0 <= i < |ids| :: ids[i].Some?) && Distinct(ids)
  }

  ghost predicate MemoryOk(m: Memory) {
    CarriedOk(m.carriedObservationIds) && |m.cases| <= 24 && CasesOk(m.cases)
  }

  method CheckCarried(ids: seq<Option<string>>) returns (ok: bool)
    ensures ok <==> CarriedOk(ids)
  {
    if |ids| > MAX_CARRIED {
      return false;
    }
    var seen: set<Option<string>> := {};
    for i := 0 to |ids|
      invariant forall k | 0 <= k < i :: ids[k].Some?
      invariant seen == set x | x in ids[..i]
      invariant Distinct(ids[..i])
    {
      if ids[i].None? {
        return false;
      }
      if ids[i] in seen {
        assert ids[i] in ids[..i];
        return false;
      }
      assert ids[..i + 1] == ids[..i] + [ids[i]];
      seen := seen + {ids[i]};
    }
    assert ids[..|ids|] == ids;
    return true;
  }
}
