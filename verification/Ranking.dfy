/** The ranking of captures for a reading (src/lib/reading.ts:94-135). */
module Ranking {
  import opened Wrappers
  import opened Sequences
  import opened Sorting

  /** The fields of a capture that the ranking reads; a resonance that is no finite number is None. */
  datatype Capture = Capture(id: string, turn: int, partId: int, resonance: Option<real>)

  datatype Entry = Entry(capture: Capture, originalIndex: nat)

  /** A score of None is negative infinity. */
  datatype RankedSignal = RankedSignal(capture: Capture, occurrences: nat, score: Option<real>, originalIndex: nat)

  datatype Group = Group(partId: int, entries: seq<Entry>)

  /** Negative infinity is below every number. */
  predicate Below(a: Option<real>, b: Option<real>) {
    b.Some? && (a.None? || a.value < b.value)
  }

  /** The sign of `right - left`; the difference of two infinities is no number and counts as a tie. */
  function Descending(): (Option<real>, Option<real>) -> int {
    (left: Option<real>, right: Option<real>) => if Below(left, right) then 1 else if Below(right, left) then -1 else 0
  }

  function Ascending(): (int, int) -> int {
    (left: int, right: int) => left - right
  }

  /** compareCaptures, with the host's string comparison. */
  function CaptureOrder(ids: (string, string) -> int): (Capture, Capture) -> int {
    Then(By((c: Capture) => c.resonance, Descending()),
         Then(By((c: Capture) => c.turn, Ascending()),
              By((c: Capture) => c.id, ids)))
  }

  function EntryOrder(ids: (string, string) -> int): (Entry, Entry) -> int {
    Then(By((e: Entry) => e.capture, CaptureOrder(ids)), By((e: Entry) => e.originalIndex, Ascending()))
  }

  function SignalOrder(ids: (string, string) -> int): (RankedSignal, RankedSignal) -> int {
    Then(By((s: RankedSignal) => s.score, Descending()),
         Then(By((s: RankedSignal) => s.capture, CaptureOrder(ids)),
              By((s: RankedSignal) => s.originalIndex, Ascending())))
  }

  function Min(a: int, b: int): int {
    if a < b then a else b
  }

  function Score(resonance: Option<real>, occurrences: nat): Option<real>
    requires occurrences > 0
  {
    if resonance.None? then None else Some(resonance.value * (1.0 + Min(3, occurrences - 1) as real * 0.08))
  }

  // ---- Grouping ------------------------------------------------------------------------------

  /** The group of an entry's part gets the entry, at its end; a new part gets a group at the end. */
  function AddEntry(groups: seq<Group>, entry: Entry): seq<Group> {
    if groups == [] then [Group(entry.capture.partId, [entry])]
    else if groups[0].partId == entry.capture.partId then [groups[0].(entries := groups[0].entries + [entry])] + groups[1..]
    else [groups[0]] + AddEntry(groups[1..], entry)
  }

  function Groups(captures: seq<Capture>): seq<Group> {
    if captures == [] then []
    else AddEntry(Groups(captures[..|captures| - 1]), Entry(captures[|captures| - 1], |captures| - 1))
  }

  /** Map.get of a part, as an index into the groups. */
  method FindGroup(groups: seq<Group>, partId: int) returns (i: nat)
    ensures i <= |groups| && (i < |groups| ==> groups[i].partId == partId)
    ensures forall j | 0 <= j < i :: groups[j].partId != partId
  {
    i := 0;
    while i < |groups| && groups[i].partId != partId
      invariant i <= |groups|
      invariant forall j | 0 <= j < i :: groups[j].partId != partId
    {
      i := i + 1;
    }
  }

  lemma {:induction false} AddEntryAt(groups: seq<Group>, entry: Entry, i: nat)
    requires i <= |groups| && (i < |groups| ==> groups[i].partId == entry.capture.partId)
    requires forall j | 0 <= j < i :: groups[j].partId != entry.capture.partId
    ensures AddEntry(groups, entry)
            == if i < |groups| then groups[i := groups[i].(entries := groups[i].entries + [entry])]
               else groups + [Group(entry.capture.partId, [entry])]
  {
    if i > 0 {
      AddEntryAt(groups[1..], entry, i - 1);
    }
  }

  /** The forEach that fills the Map of groups. */
  method GroupCaptures(captures: seq<Capture>) returns (groups: seq<Group>)
    ensures groups == Groups(captures)
  {
    groups := [];
    for originalIndex := 0 to |captures|
      invariant groups == Groups(captures[..originalIndex])
    {
      var entry := Entry(captures[originalIndex], originalIndex);
      assert captures[..originalIndex + 1][..originalIndex] == captures[..originalIndex];
      var i := FindGroup(groups, entry.capture.partId);
      AddEntryAt(groups, entry, i);
      if i < |groups| {
        groups := groups[i := groups[i].(entries := groups[i].entries + [entry])];
      } else {
        groups := groups + [Group(entry.capture.partId, [entry])];
      }
    }
    assert captures[..|captures|] == captures;
  }

  function SignalOf(ids: (string, string) -> int): Group -> RankedSignal {
    (group: Group) =>
      if group.entries == [] then RankedSignal(Capture("", 0, 0, None), 0, None, 0)
      else
        var representative := Sort(group.entries, EntryOrder(ids))[0];
        RankedSignal(representative.capture, |group.entries|, Score(representative.capture.resonance, |group.entries|),
                     representative.originalIndex)
  }

  function RankCaptureSignals(captures: seq<Capture>, ids: (string, string) -> int): seq<RankedSignal> {
    Sort(Map(SignalOf(ids), Groups(captures)), SignalOrder(ids))
  }

  method Rank(captures: seq<Capture>, ids: (string, string) -> int) returns (signals: seq<RankedSignal>)
    ensures signals == RankCaptureSignals(captures, ids)
  {
    var groups := GroupCaptures(captures);
    signals := Sort(Map(SignalOf(ids), groups), SignalOrder(ids));
  }
}
