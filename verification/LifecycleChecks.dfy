/** The one-pass checks of a lifecycle and of its research (src/lib/webchess-api.ts:904-1008, 1471-1530). */
module LifecycleChecks {
  import opened Wrappers
  import opened Sequences
  import opened WebMemory

  const MAX_EVIDENCE := 8
  const MAX_FETCHES := 3
  const MAX_REDIRECTS := 4

  lemma Repeats<T>(s: seq<T>, i: nat)
    requires i < |s| && s[i] in s[..i]
    ensures !Distinct(s)
  {
    var j :| 0 <= j < i && s[..i][j] == s[i];
    assert s[j] == s[i];
  }

  lemma DistinctGrows<T>(s: seq<T>, i: nat)
    requires i < |s| && Distinct(s[..i]) && s[i] !in s[..i]
    ensures Distinct(s[..i + 1])
  {
    var front, grown := s[..i], s[..i + 1];
    forall j, k | 0 <= j < k < i + 1
      ensures grown[j] != grown[k]
    {
      assert front[j] in front;
      if k < i { assert front[j] != front[k]; }
    }
  }

  lemma ElemsGrow<T>(s: seq<T>, i: nat)
    requires i < |s|
    ensures Elems(s[..i + 1]) == Elems(s[..i]) + {s[i]}
  {
    assert s[..i + 1] == s[..i] + [s[i]];
  }

  lemma NothingSeen<T>(s: seq<T>)
    ensures Elems(s[..0]) == {} && Distinct(s[..0])
  {
  }

  /** The next element of a list, against the set of those before it. */
  lemma SeenBefore<T>(s: seq<T>, i: nat, seen: set<T>)
    requires i < |s| && seen == Elems(s[..i]) && Distinct(s[..i])
    ensures s[i] in seen ==> !Distinct(s)
    ensures s[i] !in seen ==> Distinct(s[..i + 1])
    ensures Elems(s[..i + 1]) == seen + {s[i]}
  {
    ElemsGrow(s, i);
    if s[i] in seen { Repeats(s, i); } else { DistinctGrows(s, i); }
  }

  /** The has-then-add loop over a Set: whether a list repeats nothing. */
  method AllDistinct<T(==)>(s: seq<T>) returns (ok: bool)
    ensures ok <==> Distinct(s)
  {
    var seen: set<T> := {};
    for i := 0 to |s|
      invariant seen == Elems(s[..i]) && Distinct(s[..i])
    {
      SeenBefore(s, i, seen);
      if s[i] in seen {
        return false;
      }
      seen := seen + {s[i]};
    }
    assert s[..|s|] == s;
    return true;
  }

  // ---- Actions of a lifecycle ------------------------------------------------------------------

  function ActionId(): Action -> string {
    (a: Action) => a.id
  }

  /** The Charlotte indices of the currently bound actions, in order. */
  function BoundIndices(actions: seq<Action>): seq<int> {
    if actions == [] then []
    else
      var a := actions[|actions| - 1];
      BoundIndices(actions[..|actions| - 1])
      + if a.binding == Current && a.charlotteActionIndex.Some? then [a.charlotteActionIndex.value] else []
  }

  ghost predicate ActionsOk(actions: seq<Action>, lifecycleId: string) {
    && (forall i | 0 <= i < |actions| :: ActionSound(actions[i]) && actions[i].lifecycleRunId == lifecycleId)
    && Distinct(Map(ActionId(), actions)) && Distinct(BoundIndices(actions))
  }

  lemma {:induction false} BoundPrefix(actions: seq<Action>, i: nat)
    requires i <= |actions|
    ensures BoundIndices(actions[..i]) <= BoundIndices(actions)
    decreases |actions|
  {
    if i < |actions| {
      assert actions[..|actions| - 1][..i] == actions[..i];
      BoundPrefix(actions[..|actions| - 1], i);
    } else {
      assert actions[..i] == actions;
    }
  }

  lemma PrefixDistinct<T>(s: seq<T>, t: seq<T>)
    requires s <= t && Distinct(t)
    ensures Distinct(s)
  {
  }

  lemma AppendDistinct<T>(s: seq<T>, x: T)
    requires Distinct(s)
    ensures Distinct(s + [x]) <==> x !in Elems(s)
    ensures Elems(s + [x]) == Elems(s) + {x}
  {
    var t := s + [x];
    assert t[..|s|] == s && t[..|s| + 1] == t;
    if x in s { Repeats(t, |s|); } else { DistinctGrows(t, |s|); }
  }

  lemma BoundStep(actions: seq<Action>, i: nat)
    requires i < |actions| && ActionValid(actions[i])
    ensures actions[i].binding == Current ==>
              actions[i].charlotteActionIndex.Some?
              && BoundIndices(actions[..i + 1]) == BoundIndices(actions[..i]) + [actions[i].charlotteActionIndex.value]
    ensures actions[i].binding != Current ==> BoundIndices(actions[..i + 1]) == BoundIndices(actions[..i])
  {
    assert actions[..i + 1][..i] == actions[..i];
  }

  lemma RepeatedIndex(actions: seq<Action>, i: nat)
    requires i < |actions| && !Distinct(BoundIndices(actions[..i + 1]))
    ensures !Distinct(BoundIndices(actions))
  {
    BoundPrefix(actions, i + 1);
    if Distinct(BoundIndices(actions)) { PrefixDistinct(BoundIndices(actions[..i + 1]), BoundIndices(actions)); }
  }

  method CheckLifecycleActions(actions: seq<Action>, lifecycleId: string) returns (ok: bool, actionIds: set<string>)
    ensures ok <==> ActionsOk(actions, lifecycleId)
    ensures ok ==> actionIds == Elems(Map(ActionId(), actions))
  {
    actionIds := {};
    var boundIndices: set<int> := {};
    ghost var ids := Map(ActionId(), actions);
    NothingSeen(ids);
    assert BoundIndices(actions[..0]) == [] && Distinct(BoundIndices(actions[..0])) && Elems(BoundIndices(actions[..0])) == {};
    hide Distinct, ActionValid, ActionSound, Elems, BoundIndices;
    for i := 0 to |actions|
      invariant forall k | 0 <= k < i :: ActionSound(actions[k]) && actions[k].lifecycleRunId == lifecycleId
      invariant actionIds == Elems(ids[..i]) && Distinct(ids[..i])
      invariant boundIndices == Elems(BoundIndices(actions[..i])) && Distinct(BoundIndices(actions[..i]))
    {
      var a := actions[i];
      ActionExact(a);
      if !ActionValid(a) || a.lifecycleRunId != lifecycleId {
        return false, {};
      }
      SeenBefore(ids, i, actionIds);
      if a.id in actionIds {
        return false, {};
      }
      actionIds := actionIds + {a.id};
      BoundStep(actions, i);
      if a.binding == Current {
        var index := a.charlotteActionIndex.value;
        AppendDistinct(BoundIndices(actions[..i]), index);
        if index in boundIndices {
          RepeatedIndex(actions, i);
          return false, {};
        }
        boundIndices := boundIndices + {index};
      }
    }
    assert ids[..|actions|] == ids && actions[..|actions|] == actions;
    ok := true;
  }

  // ---- Observations and memory evidence -----------------------------------------------------------

  ghost predicate ObservationsOk(observations: seq<Observation>, actionIds: set<string>) {
    && (forall i | 0 <= i < |observations| :: observations[i].fieldsValid && observations[i].actionId in actionIds)
    && Distinct(Map(ObservationId(), observations))
  }

  method CheckLifecycleObservations(observations: seq<Observation>, actionIds: set<string>) returns (ok: bool)
    ensures ok <==> ObservationsOk(observations, actionIds)
  {
    var observationIds: set<string> := {};
    ghost var ids := Map(ObservationId(), observations);
    NothingSeen(ids);
    hide Distinct, Elems;
    for i := 0 to |observations|
      invariant forall k | 0 <= k < i :: observations[k].fieldsValid && observations[k].actionId in actionIds
      invariant observationIds == Elems(ids[..i]) && Distinct(ids[..i])
    {
      var o := observations[i];
      if !o.fieldsValid || o.actionId !in actionIds {
        return false;
      }
      SeenBefore(ids, i, observationIds);
      if o.id in observationIds {
        return false;
      }
      observationIds := observationIds + {o.id};
    }
    assert ids[..|observations|] == ids;
    return true;
  }

  /** A carried observation; it is attached when it has a time of attachment. */
  datatype Evidence = Evidence(fieldsValid: bool, sourceGameId: string, observationId: string, attached: bool)

  function EvidenceId(): Evidence -> string {
    (e: Evidence) => e.observationId
  }

  ghost predicate EvidenceOk(evidence: seq<Evidence>, gameId: string) {
    && |evidence| <= 8
    && (forall i | 0 <= i < |evidence| :: evidence[i].fieldsValid && evidence[i].sourceGameId != gameId && evidence[i].attached)
    && Distinct(Map(EvidenceId(), evidence))
  }

  method CheckEvidence(evidence: seq<Evidence>, gameId: string) returns (ok: bool)
    ensures ok <==> EvidenceOk(evidence, gameId)
  {
    if |evidence| > MAX_EVIDENCE {
      return false;
    }
    for i := 0 to |evidence|
      invariant forall k | 0 <= k < i :: evidence[k].fieldsValid && evidence[k].sourceGameId != gameId && evidence[k].attached
    {
      if !evidence[i].fieldsValid || evidence[i].sourceGameId == gameId || !evidence[i].attached {
        return false;
      }
    }
    ok := AllDistinct(Map(EvidenceId(), evidence));
  }

  /** Every observation belongs to an action of the lifecycle, and nothing is listed twice. */
  method CheckLifecycle(lifecycleId: string, gameId: string, actions: seq<Action>, observations: seq<Observation>, evidence: seq<Evidence>)
    returns (ok: bool)
    ensures ok <==> ActionsOk(actions, lifecycleId) && ObservationsOk(observations, Elems(Map(ActionId(), actions)))
                    && EvidenceOk(evidence, gameId)
  {
    var actionIds;
    ok, actionIds := CheckLifecycleActions(actions, lifecycleId);
    if ok {
      ok := CheckLifecycleObservations(observations, actionIds);
    }
    if ok {
      ok := CheckEvidence(evidence, gameId);
    }
  }

  // ---- Research ---------------------------------------------------------------------------------------

  /** A source whose own fields and URL are valid or not; the URL is normalised. */
  datatype Source = Source(fieldsValid: bool, id: string, citationId: string, url: string)

  /** The route of a fact or failure, with normalised URLs; the chain is None when it is no array of URLs. */
  datatype Route = Route(fieldsValid: bool, citationId: string, requestedUrl: string, finalUrl: Option<string>, redirectChain: Option<seq<string>>)

  function SourceId(): Source -> string {
    (s: Source) => s.id
  }

  function SourceCitation(): Source -> string {
    (s: Source) => s.citationId
  }

  function RouteCitation(): Route -> string {
    (r: Route) => r.citationId
  }

  ghost predicate SourcesOk(sources: seq<Source>) {
    && (forall i | 0 <= i < |sources| :: sources[i].fieldsValid)
    && Distinct(Map(SourceId(), sources)) && Distinct(Map(SourceCitation(), sources))
  }

  /** The redirects lead from the requested to the final URL without leaving the host. */
  predicate ChainOk(route: Route, host: string -> string) {
    && route.redirectChain.Some? && 1 <= |route.redirectChain.value| <= 4
    && route.redirectChain.value[0] == route.requestedUrl
    && route.redirectChain.value[|route.redirectChain.value| - 1]
       == (if route.finalUrl.Some? then route.finalUrl.value else route.requestedUrl)
    && forall i | 0 <= i < |route.redirectChain.value| :: host(route.redirectChain.value[i]) == host(route.requestedUrl)
  }

  /** The route starts at the URL of a source with its citation. */
  ghost predicate Cited(sources: seq<Source>, route: Route) {
    exists i :: 0 <= i < |sources| && sources[i].citationId == route.citationId && sources[i].url == route.requestedUrl
  }

  ghost predicate RoutesOk(sources: seq<Source>, routes: seq<Route>, host: string -> string) {
    && (forall i | 0 <= i < |routes| :: routes[i].fieldsValid && ChainOk(routes[i], host) && Cited(sources, routes[i]))
    && Distinct(Map(RouteCitation(), routes))
  }

  /** The map of citations to URLs holds exactly the sources so far. */
  ghost predicate Indexes(urls: map<string, string>, sources: seq<Source>) {
    && (forall i | 0 <= i < |sources| :: sources[i].citationId in urls && urls[sources[i].citationId] == sources[i].url)
    && (forall c | c in urls :: exists i :: 0 <= i < |sources| && sources[i].citationId == c)
  }

  method CheckSources(sources: seq<Source>) returns (ok: bool, urls: map<string, string>)
    ensures ok <==> SourcesOk(sources)
    ensures ok ==> Indexes(urls, sources)
  {
    urls := map[];
    var sourceIds: set<string> := {};
    ghost var ids, citations := Map(SourceId(), sources), Map(SourceCitation(), sources);
    NothingSeen(ids);
    NothingSeen(citations);
    hide Distinct, Elems;
    for i := 0 to |sources|
      invariant forall k | 0 <= k < i :: sources[k].fieldsValid
      invariant sourceIds == Elems(ids[..i]) && Distinct(ids[..i])
      invariant urls.Keys == Elems(citations[..i]) && Distinct(citations[..i])
      invariant forall k | 0 <= k < i :: sources[k].citationId in urls && urls[sources[k].citationId] == sources[k].url
    {
      var s := sources[i];
      if !s.fieldsValid {
        return false, map[];
      }
      SeenBefore(ids, i, sourceIds);
      if s.id in sourceIds {
        return false, map[];
      }
      SeenBefore(citations, i, urls.Keys);
      if s.citationId in urls {
        return false, map[];
      }
      sourceIds := sourceIds + {s.id};
      urls := urls[s.citationId := s.url];
    }
    assert ids[..|sources|] == ids && citations[..|sources|] == citations;
    KeysAreCitations(urls, sources);
    ok := true;
  }

  lemma KeysAreCitations(urls: map<string, string>, sources: seq<Source>)
    requires urls.Keys == Elems(Map(SourceCitation(), sources))
    ensures forall c | c in urls :: exists i :: 0 <= i < |sources| && sources[i].citationId == c
  {
    var citations := Map(SourceCitation(), sources);
    forall c | c in urls
      ensures exists i :: 0 <= i < |sources| && sources[i].citationId == c
    {
      assert c in Elems(citations);
      var i :| 0 <= i < |citations| && citations[i] == c;
      assert sources[i].citationId == c;
    }
  }

  lemma CitedIffMapped(urls: map<string, string>, sources: seq<Source>, route: Route)
    requires SourcesOk(sources) && Indexes(urls, sources)
    ensures Cited(sources, route) <==> route.citationId in urls && urls[route.citationId] == route.requestedUrl
  {
  }

  method CheckChain(route: Route, host: string -> string) returns (ok: bool)
    ensures ok <==> ChainOk(route, host)
  {
    if route.redirectChain.None? || |route.redirectChain.value| < 1 || |route.redirectChain.value| > MAX_REDIRECTS {
      return false;
    }
    var chain := route.redirectChain.value;
    if chain[0] != route.requestedUrl
       || chain[|chain| - 1] != (if route.finalUrl.Some? then route.finalUrl.value else route.requestedUrl) {
      return false;
    }
    for i := 0 to |chain|
      invariant forall k | 0 <= k < i :: host(chain[k]) == host(route.requestedUrl)
    {
      if host(chain[i]) != host(route.requestedUrl) {
        return false;
      }
    }
    return true;
  }

  /** validateFetchRoute over the facts, then over the failures: one set of fetched citations for both. */
  method CheckRoutes(sources: seq<Source>, urls: map<string, string>, routes: seq<Route>, host: string -> string) returns (ok: bool)
    requires SourcesOk(sources) && Indexes(urls, sources)
    ensures ok <==> RoutesOk(sources, routes, host)
  {
    hide SourcesOk, Indexes, ChainOk, Cited;
    var fetched: set<string> := {};
    ghost var citations := Map(RouteCitation(), routes);
    NothingSeen(citations);
    hide Distinct, Elems;
    for i := 0 to |routes|
      invariant forall k | 0 <= k < i :: routes[k].fieldsValid && ChainOk(routes[k], host) && Cited(sources, routes[k])
      invariant fetched == Elems(citations[..i]) && Distinct(citations[..i])
    {
      var r := routes[i];
      var chained := CheckChain(r, host);
      CitedIffMapped(urls, sources, r);
      if !r.fieldsValid || !chained || r.citationId !in urls || urls[r.citationId] != r.requestedUrl {
        return false;
      }
      SeenBefore(citations, i, fetched);
      if r.citationId in fetched {
        return false;
      }
      fetched := fetched + {r.citationId};
    }
    assert citations[..|routes|] == citations;
    return true;
  }

  /** A citation is claimed once across facts and failures, and only by the source it names. */
  method CheckResearch(sources: seq<Source>, facts: seq<Route>, failures: seq<Route>, directPageTextFetched: bool, host: string -> string)
    returns (ok: bool)
    ensures ok <==>
              && |facts| + |failures| <= 3 && directPageTextFetched == (|facts| > 0)
              && SourcesOk(sources) && RoutesOk(sources, facts + failures, host)
              && forall i | 0 <= i < |facts| :: facts[i].finalUrl.Some?
  {
    if |facts| + |failures| > MAX_FETCHES || directPageTextFetched != (|facts| > 0) {
      return false;
    }
    var urls;
    ok, urls := CheckSources(sources);
    if !ok {
      return;
    }
    ok := CheckRoutes(sources, urls, facts + failures, host);
    for i := 0 to |facts|
      invariant ok <==> RoutesOk(sources, facts + failures, host) && forall k | 0 <= k < i :: facts[k].finalUrl.Some?
    {
      ok := ok && facts[i].finalUrl.Some?;
    }
  }
}
