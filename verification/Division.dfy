/** The cast of a division: facets, assignments and parts (src/lib/division.ts:63-187), with their tables. */
module Division {
  import opened Wrappers
  import opened Types
  import opened JsonText
  import opened Sequences
  import opened Sorting
  import opened SeededRandom
  import opened Shuffle

  const FACET_COUNT := 64
  const BOARD_SECTOR_COUNT := 8
  const CAST_APPLICATION_MIN := 20
  const CAST_APPLICATION_MAX := 480

  datatype Dimension = Dimension(name: string, focus: string)
  datatype Movement = Movement(name: string, lead: string)
  datatype Hexagram = Hexagram(number: int, name: string, theme: string)

  /** The three tables of src/lib/problem.ts, whose wording is not modelled. */
  datatype Lenses = Lenses(dimensions: seq<Dimension>, movements: seq<Movement>, hexagrams: seq<Hexagram>)

  /** Eight differently named dimensions and movements, and the hexagrams 1 to 64. */
  ghost predicate Canonical(lenses: Lenses) {
    && |lenses.dimensions| == 8 && |lenses.movements| == 8 && |lenses.hexagrams| == FACET_COUNT
    && (forall i, j | 0 <= i < j < 8 :: lenses.dimensions[i].name != lenses.dimensions[j].name)
    && (forall i, j | 0 <= i < j < 8 :: lenses.movements[i].name != lenses.movements[j].name)
    && forall i | 0 <= i < FACET_COUNT :: lenses.hexagrams[i].number == i + 1
  }

  datatype Permutation = Facets | Hexagrams | Board

  function PermutationName(permutation: Permutation): string {
    match permutation
    case Facets => "facets"
    case Hexagrams => "hexagrams"
    case Board => "board"
  }

  /** `webchess/division/${String(seed)}/${permutation}`. */
  function DivisionSeed(seed: Text, permutation: Permutation): Seed {
    Label(Units("webchess/division/") + seed + Units("/") + Units(PermutationName(permutation)))
  }

  // ---- Facets of the model ----------------------------------------------------------------------

  /** A field of the model's answer: absent, no string, or a string. */
  datatype Field = Absent | NotString | Str(s: string)

  /** A candidate facet; the id is None unless it is an integer. */
  datatype Candidate = NotObject | Record(id: Option<int>, title: Field, focus: Field, question: Field, keyword: Field, castApplication: Field)

  datatype Facet = Facet(id: int, title: string, focus: string, question: string, keyword: string, castApplication: Option<string>)

  datatype FieldName = Title | Focus | Question | Keyword

  datatype FacetError =
    | WrongCount(count: nat)
    | NotAnObject(position: nat)
    | InvalidId(position: nat)
    | InvalidCastApplication(id: int)
    | MissingField(id: int, field: FieldName)
    | DuplicateIds

  /** String.prototype.trim, and the collapsing of white space, of the host. */
  datatype TextTools = TextTools(trim: string -> string, collapse: string -> string)

  function CleanField(tools: TextTools, value: Field, field: FieldName, id: int): Result<string, FacetError> {
    if value.Str? && tools.trim(value.s) != "" then Ok(tools.trim(value.s)) else Err(MissingField(id, field))
  }

  function CleanCastApplication(tools: TextTools, value: Field, id: int): Result<Option<string>, FacetError> {
    match value
    case Absent => Ok(None)
    case NotString => Err(InvalidCastApplication(id))
    case Str(s) =>
      var normalized := tools.trim(tools.collapse(s));
      if CAST_APPLICATION_MIN <= |normalized| <= CAST_APPLICATION_MAX then Ok(Some(normalized))
      else Err(InvalidCastApplication(id))
  }

  function ParseFacet(tools: TextTools, candidate: Candidate, position: nat): Result<Facet, FacetError> {
    match candidate
    case NotObject => Err(NotAnObject(position))
    case Record(id, title, focus, question, keyword, castApplication) =>
      if id.None? || id.value < 1 || id.value > FACET_COUNT then Err(InvalidId(position))
      else
        var cast :- CleanCastApplication(tools, castApplication, id.value);
        var cleanTitle :- CleanField(tools, title, Title, id.value);
        var cleanFocus :- CleanField(tools, focus, Focus, id.value);
        var cleanQuestion :- CleanField(tools, question, Question, id.value);
        var cleanKeyword :- CleanField(tools, keyword, Keyword, id.value);
        Ok(Facet(id.value, cleanTitle, cleanFocus, cleanQuestion, cleanKeyword, cast))
  }

  /** The candidates mapped from a position on; the first that fails decides the error. */
  function ParseEach(tools: TextTools, candidates: seq<Candidate>, position: nat): (r: Result<seq<Facet>, FacetError>)
    ensures r.Ok? ==> |r.value| == |candidates|
    decreases |candidates|
  {
    if candidates == [] then Ok([])
    else
      var facet :- ParseFacet(tools, candidates[0], position);
      var rest :- ParseEach(tools, candidates[1..], position + 1);
      Ok([facet] + rest)
  }

  function IdOf(): Facet -> int {
    (f: Facet) => f.id
  }

  /** parseFacets; no candidates at all stands for a value that is no array. */
  function ParseFacets(tools: TextTools, value: Option<seq<Candidate>>): Result<seq<Facet>, FacetError> {
    if value.None? then Err(WrongCount(0))
    else if |value.value| != FACET_COUNT then Err(WrongCount(|value.value|))
    else
      var facets :- ParseEach(tools, value.value, 1);
      if |set f | f in facets :: f.id| != FACET_COUNT then Err(DuplicateIds) else Ok(facets)
  }

  // ---- The cast ------------------------------------------------------------------------------------

  datatype Assignment = Assignment(
    id: int, dimension: string, movement: string, hexagram: int, hexagramName: string, theme: string, directionalCue: string)

  function DirectionalCue(dimension: Dimension, movement: Movement, hexagram: Hexagram): string {
    "Through " + hexagram.name + " (" + hexagram.theme + "), direct the " + dimension.name + " × " + movement.name
    + " facet toward this inquiry: " + movement.lead + " " + dimension.focus + "?"
  }

  function Assign(lenses: Lenses, id: int, hexagram: Hexagram): Assignment
    requires Canonical(lenses) && 1 <= id <= FACET_COUNT
  {
    var dimension := lenses.dimensions[(id - 1) / BOARD_SECTOR_COUNT];
    var movement := lenses.movements[(id - 1) % BOARD_SECTOR_COUNT];
    Assignment(id, dimension.name, movement.name, hexagram.number, hexagram.name, hexagram.theme,
               DirectionalCue(dimension, movement, hexagram))
  }

  /** The ids 1 to 64. */
  function FacetIds(): (r: seq<int>)
    ensures |r| == FACET_COUNT && forall i | 0 <= i < FACET_COUNT :: r[i] == i + 1
  {
    seq(FACET_COUNT, i => i + 1)
  }

  function ShuffledIds(seed: Text): (r: seq<int>)
    ensures |r| == FACET_COUNT
  {
    Shuffled(FacetIds(), DivisionSeed(seed, Facets))
  }

  function ShuffledHexagrams(lenses: Lenses, seed: Text): (r: seq<Hexagram>)
    ensures |r| == |lenses.hexagrams|
  {
    Shuffled(lenses.hexagrams, DivisionSeed(seed, Hexagrams))
  }

  lemma IdShuffled(seed: Text, id: int)
    requires 1 <= id <= FACET_COUNT
    ensures id in ShuffledIds(seed)
  {
    hide DivisionSeed;
    ShufflePermutes(FacetIds(), DivisionSeed(seed, Facets));
    assert FacetIds()[id - 1] == id;
    PermutationMembers(FacetIds(), ShuffledIds(seed), id);
  }

  function Position<T(==)>(s: seq<T>, x: T): (i: nat)
    requires x in s
    ensures i < |s| && s[i] == x
  {
    if s[0] == x then 0 else 1 + Position(s[1..], x)
  }

  function PositionOfId(seed: Text, id: int): (i: nat)
    requires 1 <= id <= FACET_COUNT
    ensures i < FACET_COUNT && ShuffledIds(seed)[i] == id
  {
    IdShuffled(seed, id);
    Position(ShuffledIds(seed), id)
  }

  /** The cast in the order of the ids: an id gets the hexagram at its own shuffled position. */
  function CastAssignments(lenses: Lenses, seed: Text): (r: seq<Assignment>)
    requires Canonical(lenses)
    ensures |r| == FACET_COUNT
  {
    hide PositionOfId;
    seq(FACET_COUNT, i requires 0 <= i < FACET_COUNT => Assign(lenses, i + 1, ShuffledHexagrams(lenses, seed)[PositionOfId(seed, i + 1)]))
  }

  /** The Map of the source: each shuffled id with the hexagram at its own position. */
  method FillAssignments(lenses: Lenses, ids: array<int>, hexagrams: array<Hexagram>) returns (byId: map<int, Assignment>)
    requires Canonical(lenses) && ids.Length == hexagrams.Length == FACET_COUNT
    requires Distinct(ids[..]) && forall i | 0 <= i < FACET_COUNT :: 1 <= ids[i] <= FACET_COUNT
    ensures forall k | 0 <= k < FACET_COUNT :: ids[k] in byId && byId[ids[k]] == Assign(lenses, ids[k], hexagrams[k])
  {
    hide Assign;
    byId := map[];
    for index := 0 to FACET_COUNT
      invariant forall k | 0 <= k < index :: ids[k] in byId && byId[ids[k]] == Assign(lenses, ids[k], hexagrams[k])
    {
      var id := ids[index];
      assert forall k | 0 <= k < index :: ids[k] == ids[..][k] && ids[..][k] != ids[..][index];
      byId := byId[id := Assign(lenses, id, hexagrams[index])];
    }
  }

  method DeriveDivisionCastAssignments(lenses: Lenses, seed: Text) returns (assignments: seq<Assignment>)
    requires Canonical(lenses)
    ensures assignments == CastAssignments(lenses, seed)
  {
    hide Assign, Shuffled, DivisionSeed, PositionOfId;
    var ids := DeterministicShuffle(FacetIds(), DivisionSeed(seed, Facets));
    var hexagrams := DeterministicShuffle(lenses.hexagrams, DivisionSeed(seed, Hexagrams));
    IdsDistinct(seed);
    var byId := FillAssignments(lenses, ids, hexagrams);
    assignments := [];
    for index := 0 to FACET_COUNT
      invariant |assignments| == index
      invariant forall i | 0 <= i < index :: assignments[i] == CastAssignments(lenses, seed)[i]
    {
      ghost var k := PositionOfId(seed, index + 1);
      assert ids[..][k] == index + 1 && hexagrams[..][k] == ShuffledHexagrams(lenses, seed)[k];
      assignments := assignments + [byId[index + 1]];
    }
  }

  lemma IdsDistinct(seed: Text)
    ensures Distinct(ShuffledIds(seed)) && forall i | 0 <= i < FACET_COUNT :: 1 <= ShuffledIds(seed)[i] <= FACET_COUNT
  {
    hide DivisionSeed;
    ShufflePermutes(FacetIds(), DivisionSeed(seed, Facets));
    DistinctPermutes(FacetIds(), ShuffledIds(seed));
    forall i | 0 <= i < FACET_COUNT
      ensures 1 <= ShuffledIds(seed)[i] <= FACET_COUNT
    {
      PermutationMembers(FacetIds(), ShuffledIds(seed), ShuffledIds(seed)[i]);
    }
  }

  // ---- The parts of the problem --------------------------------------------------------------------

  /** The Map from ids to assignments: a later entry replaces an earlier one. */
  function FindAssignment(assignments: seq<Assignment>, id: int): Option<Assignment> {
    if assignments == [] then None
    else
      var last := assignments[|assignments| - 1];
      if last.id == id then Some(last) else FindAssignment(assignments[..|assignments| - 1], id)
  }

  function PartOf(facet: Facet, assignment: Assignment): ProblemPart {
    ProblemPart(facet.id, facet.title, facet.focus, assignment.hexagram, assignment.hexagramName, assignment.theme,
                assignment.dimension, assignment.movement, facet.question, facet.keyword, facet.castApplication)
  }

  /** None for the error of a facet without an assignment. */
  function PairFacets(facets: seq<Facet>, assignments: seq<Assignment>): Option<seq<ProblemPart>> {
    if facets == [] then Some([])
    else
      match FindAssignment(assignments, facets[0].id)
      case None => None
      case Some(assignment) =>
        match PairFacets(facets[1..], assignments)
        case None => None
        case Some(rest) => Some([PartOf(facets[0], assignment)] + rest)
  }

  datatype ComposeError = BadFacets(error: FacetError) | MissingAssignment

  function ById(): (int, int) -> int {
    (a: int, b: int) => a - b
  }

  /** The validated facets in the order of the shuffle. */
  function ShuffledFacets(facets: seq<Facet>, seed: Text): seq<Facet> {
    Shuffled(Sort(facets, By(IdOf(), ById())), DivisionSeed(seed, Facets))
  }

  function ComposeProblemParts(tools: TextTools, lenses: Lenses, value: Option<seq<Candidate>>, seed: Text): Result<seq<ProblemPart>, ComposeError>
    requires Canonical(lenses)
  {
    match ParseFacets(tools, value)
    case Err(error) => Err(BadFacets(error))
    case Ok(facets) =>
      match PairFacets(ShuffledFacets(facets, seed), CastAssignments(lenses, seed))
      case None => Err(MissingAssignment)
      case Some(paired) => Ok(Shuffled(paired, DivisionSeed(seed, Board)))
  }
}
