# WebChess verification

A Dafny model of the parts of WebChess that carry its promises, with proofs of those promises for
all inputs, all runs and all interleavings.

- **The game core.** The opening, legal moves, moves, captures, promotion and outcomes
  (`Game`, `Conservation`, `Setup`), the command path and the replay path over one event log
  (`Replay`), what every game keeps (`GameInvariants`), and the agreement of the two paths
  (`ReplayAgreement`), and when and why a game ends and who passes (`Endings`). All of it is parametric
  in the board rules; `Movegen` models the shipped move generator, `MovegenFacts` shows that its moves
  fit their buffer, and `WebChess` instantiates the theorems with it. `Reach` says in rings and sectors
  what each piece reaches, `Turns` and `TurnFacts` what one turn is and does, and `Played` proves that
  the replay accepts exactly the games of these rules; `Refusals` says which commands are refused and
  where a log fails.
- **SHA-256.** The in-place array code with its signed 32-bit intermediates (`JsNumber`, `Sha256`)
  against FIPS 180-4 (`Sha256Spec`), the padding (`Sha256Facts`), where the constants come from
  (`Sha256Constants`), and what the word operations do to every bit (`Bits`, `WordFacts`). `src/lib/webchess-api.ts:313-422`
  holds a second copy of the same code.
- **The bridge.** The turn registry as an object with its loops (`TurnRegistry`), the request protocol
  as a step system in which each stretch without an await is one step (`BridgeProtocol`), its invariant
  (`BridgeSafety`), what holds over every run (`BridgeTheorems`), and its limits (`BridgeLimits`).
- **Canonical comparison.** `JSON.stringify` on strings (`JsonText`) and finite numbers (`JsonNumber`,
  after Number::toString of ECMA-262, section 6.1.6.1.20), values (`JsonValue`), the canonical printer
  (`CanonicalJson`), its injectivity (`CanonicalFacts`), what it does to numbers that are not finite
  (`CanonicalFinite`), its dependence on the key order (`CanonicalOrder`), and the round trip through a
  reader of RFC 8259 (`JsonReader`, `JsonReadBack`, `CanonicalReadBack`).
- **The automatic player.** The engine manager as steps (`AutoPlay`), its theorems (`AutoPlayFacts`), the
  result that every request gets (`AutoPlayResults`) and the closure with its variables updated in place (`AutoPlayEngine`).
- **The cast.** Seeds, generator and period (`SeededRandom`, `SeededFacts`), the in-place shuffle
  (`Shuffle`), facets, assignments and parts (`Division`), the agreement of the two routes
  (`DivisionFacts`), and which facets are accepted (`DivisionMeaning`).
- **The ranking** of captures for a reading (`Ranking`, `RankingFacts`, and `RankingMeaning` in plain terms).
- **The launcher identity.** The file's text and its reader over the JSON parser (`IdentityFile`,
  `IdentityFacts`, `IdentityMeaning`) and the launchers that share it (`IdentityProtocol`).
- **Guards and validators.** The guarded OAuth store (`OAuthGuard`, `OAuthGuardFacts`, `OAuthMeaning`), the include
  search (`ConfigInclude`), Web memory (`WebMemory`, `WebMemoryFacts`), lifecycle and research
  (`LifecycleChecks`).

`Sequences`, `Sorting`, `Text`, `Types` and `Wrappers` are shared.

Four findings, each with its condition for all inputs or runs.

- The canonical printer sorts keys with `localeCompare`, which returns 0 on different strings that are
  canonically equivalent. The text of a value is independent of insertion order if and only if no two
  different printed keys of one object tie (`CanonicalOrder.OrderBlindIffKeysApart`); the keys U+00E9 and
  U+0065 U+0301 break it (`CanonicalOrder.EquivalentKeysShow`).
- A non-finite number prints as `null`. The text of a value is shared by no finite value of other content
  if and only if all its own numbers are finite (`CanonicalFinite.FaithfulIffFinite`).
- The ranking compares ids with `localeCompare` too. The order of the captures shows in the result if and
  only if two different captures that lead their parts tie in resonance, score, turn and id order
  (`RankingFacts.OrderBlindIffUnambiguous`).
- The bridge checks its concurrency limit when a request arrives, but a POST takes its slot only after an
  await. Whatever the limit, any number of POSTs can hold slots at once (`BridgeLimits.PostsExceed`). No
  state exceeds the limit if each arrival finds room among the requests that are registered or still
  reading their body (`BridgeLimits.SlotsCounted`), as status requests alone do
  (`BridgeLimits.StatusWithinLimit`).

Host facilities are parameters: the string comparison of the locale, of which only the consistency that
ECMA-262 demands is used, trimming of facet text, decoding of
access tokens, URL normalisation, random bytes, the clock. `dafny verify dfyconfig.toml` checks everything.

## Model

| member | source | states |
|---|---|---|
| Game.NormalizeSectorWraps | src/lib/game.ts:61-63 | the truncated remainder, corrected and reduced again, is the sector on the ring for negative sectors too, and the identity on the board |
| Game.GetPieceAt | src/lib/game.ts:84-87 | the piece found stands on the cell up to wrapping of the sector; nothing is found only if no piece stands there |
| Game.TargetsFromExactly | src/lib/game.ts:129-156 | filtering the generated moves by origin keeps exactly the destinations that start there |
| Game.GetLegalMoves | src/lib/game.ts:129-156 | the loop returns exactly the generator's destinations for the piece's own square, and none for a piece that is not on the board |
| Game.CreateBackRank | src/lib/game.ts:89-114 | the count map of the loop gives every back-rank piece the id of its kind and running number |
| Game.CreateSide | src/lib/game.ts:89-114 | a side is the eight back-rank pieces followed by the eight pawns of its rings |
| Conservation.PositionHolds | src/lib/engine/position.ts:289-300 | on a board without shared cells the encoded position holds every piece on its own square |
| Conservation.PositionEmpty | src/lib/engine/position.ts:289-300 | a square of the encoded position is empty exactly where no piece stands |
| Conservation.LegalDestination | src/lib/game.ts:129-156 | for every sound generator a reachable destination is on the board and holds no piece of the mover's side |
| Conservation.MoveUnfolds | src/lib/game.ts:214-279 | a move removes at most the enemy piece on the destination, puts the mover there and promotes a pawn on the far edge, keeping its id |
| Conservation.MoveConserves | src/lib/game.ts:214-279 | every successful move keeps cells and ids distinct, and living plus captured pieces keep their census by id and side; a king falls only as the captured piece |
| Setup.PieceIdInjective | src/lib/game.ts:89-114 | the text of a piece id determines side, kind and number |
| Setup.InitialApart | src/lib/game.ts:116-118 | no two of the 32 initial pieces share an id or a cell |
| Setup.InitialBoard | src/lib/game.ts:116-118 | the opening is a well-formed board with both kings |
| Replay.SettleForcedPasses | src/lib/game-replay.ts:229-262 | the loop ends after at most one pass, leaves the pieces alone, and the side to move can move unless the game is over; when it passes is `Endings.SettlingPasses` |
| Endings.OutcomeRule | src/lib/game.ts:160-211 | for any move test: the game goes on if and only if both kings stand, some side can move, quiet plies are below 100 and plies below 256; otherwise the reason is no-moves exactly when neither side can move, then no-progress at 100 quiet plies, then the move limit, and a winner has the only king |
| Endings.ReplayedEndings | src/lib/game-replay.ts:136-217 | every replayed log ends over exactly when the board or a limit says so, and for the reason it says |
| Endings.AcceptedEndings | src/lib/game-replay.ts:269-287 | so does every state that accepted commands reach |
| Endings.SettlingPasses | src/lib/game-replay.ts:229-262 | with both kings, before the limits, a side to move that stands still and one that does not, settling appends exactly one pass of that side and hands the turn over, unless the pass itself reaches a limit; in every other state it appends nothing |
| Replay.ReplayGameEvents | src/lib/game-replay.ts:444-471 | the loop returns what validating the events one after the other returns, with the index and cause of the first failure |
| GameInvariants.InitialInv | src/lib/game-replay.ts:87-100 | the replay start satisfies every game invariant and has no outcome |
| GameInvariants.PassKeepsInv | src/lib/game-replay.ts:371-399 | a forced pass keeps every game invariant |
| GameInvariants.MoveKeepsPieces | src/lib/game-replay.ts:173-215 | a move keeps: living and captured pieces together are the initial ones, and the captures are those the log names |
| GameInvariants.MoveKeepsKings | src/lib/game-replay.ts:71-77 | a move keeps: both kings live unless the outcome is king-captured, whose terminal capture is that king and whose winner made the last event |
| GameInvariants.MoveKeepsTrajectory | src/lib/game-replay.ts:191-214 | a move keeps: event i has ply i + 1 and the side of i's parity, no two passes are adjacent, quiet plies count since the last capture, at most 256 events and 100 quiet plies |
| GameInvariants.StepKeepsInv | src/lib/game-replay.ts:371-442 | every validated event keeps every game invariant |
| GameInvariants.CommandKeepsInv | src/lib/game-replay.ts:136-217 | every accepted command keeps every game invariant |
| GameInvariants.SettlingKeepsInv | src/lib/game-replay.ts:229-262 | settling forced passes keeps every game invariant |
| GameInvariants.ReplayedGamesAreSound | src/lib/game-replay.ts:444-471 | every log that replays, under any lawful rules, ends in a state with the piece, king and trajectory invariants |
| ReplayAgreement.ParseStored | src/lib/game-replay.ts:319-369 | a stored event parses back to itself |
| ReplayAgreement.SettledIdempotent | src/lib/game-replay.ts:229-262 | a settled state needs no pass, and settling again changes nothing |
| ReplayAgreement.ValidationExact | src/lib/game-replay.ts:136-172 | a command passes validation exactly when ply, piece, side, reach and destination are right |
| ReplayAgreement.StepIsCanonical | src/lib/game-replay.ts:371-442 | an accepted event is the very event the command path would have derived: nothing missing, extra or disguised |
| ReplayAgreement.CanonicalMoveReplays | src/lib/game-replay.ts:401-442 | an event derived from an accepted command is accepted by replay with the same state |
| ReplayAgreement.AcceptanceReplays | src/lib/game-replay.ts:269-287 | the events appended by one command replay to the state the command returned |
| ReplayAgreement.AcceptedGamesReplay | src/lib/game-replay.ts:269-287 | for every sequence of accepted commands, replaying the accumulated events succeeds and returns exactly the accepted state |
| ReplayAgreement.IncrementalReplay | src/lib/game-replay.ts:269-287 | appending a command's events to a valid log and replaying from scratch gives the incremental result |
| ReplayAgreement.ReplayIsAccepted | src/lib/game-replay.ts:401-471 | from any settled state, a log that replays is what feeding its moves as commands produces |
| ReplayAgreement.AcceptedLogsAreCanonical | src/lib/game-replay.ts:401-471 | every log that replays is the log its own move commands produce, with the identical final state, so no pass, capture or promotion can be forged |
| ReplayAgreement.ExactLanguage | src/lib/game-replay.ts:269-471 | a state is reached by replaying some log exactly when it is reached by some accepted commands |
| Movegen.EngineSound | src/lib/engine/movegen.ts:174-304 | generated moves start on a piece of the side, stay on the board and never land on the side's own piece |
| MovegenFacts.TargetsApart | src/lib/engine/movegen.ts:150-304 | the targets of a piece are different squares of the board, none of them its own: a knight or king meets itself nowhere around the ring, a ray that comes around stops, and a pawn never captures where it advances |
| MovegenFacts.MovesFit | src/lib/engine/movegen.ts:24-40 | in every position each move has its own pair of origin and target, no piece moves to its own square, and so there are at most 4032 moves and appending one never throws |
| Movegen.EngineStartMobile | src/lib/engine/movegen.ts:237-304 | White has a pawn advance in the opening |
| Reach.TargetsExact | src/lib/engine/movegen.ts:60-304 | a knight reaches the squares two and one apart in rings and sectors, a king the adjacent ones, rook, bishop and queen up to seven clear steps along straight or diagonal directions with the sectors wrapping, a pawn one or from its start two empty steps and a diagonal capture; never the own side; and the generated targets are exactly these |
| Reach.MovesExact | src/lib/engine/movegen.ts:237-304 | the generated moves of a side are exactly the moves these rules allow to its pieces |
| Turns.ShownOnce | src/lib/engine/position.ts:289-300 | the pieces determine the board, whatever their order |
| Turns.EngineReach | src/lib/game.ts:129-156 | on a well-formed board the rules let a piece go to a cell exactly when the rules of movement do |
| Turns.EngineMobile | src/lib/game.ts:157-162 | a side has a legal move exactly when one of its pieces can go somewhere |
| Turns.OpeningIs | src/lib/game.ts:43-118 | the opening cell by cell: Black on the two inner rings, White on the two outer ones, rook, knight, bishop, queen, king, bishop, knight, rook behind eight pawns, none moved |
| Turns.OpeningIds | src/lib/game.ts:89-114 | the ids of the opening, cell by cell: colour, kind and number, the pawns numbered by sector |
| Turns.WeightIsRounded | src/lib/game.ts:281-295 | the attention weight is 52 and 2.5 times the captured and once the moving piece and the meeting point, in real numbers, rounded to the nearest integer, halves upwards |
| TurnFacts.MoveMakes | src/lib/game.ts:214-279 | a move leaves every other piece but the one on the destination, lands the mover there, moved and as a queen if it is a pawn on the far ring, and records a capture with the part of its own cell, the turn, the attacker landed there, the captured piece and the weight |
| TurnFacts.StepExact | src/lib/game-replay.ts:371-442 | an event is accepted if and only if it is a legal turn, and it makes of the state what such a turn makes |
| Played.ParseExact | src/lib/game-replay.ts:289-369 | a stored value is parsed as an event exactly when it is a record of it, field by field |
| Played.ReplaysIffPlayed | src/lib/game-replay.ts:444-471 | stored events replay if and only if they are a game of the rules: from the opening, legal turns each with its effect on pieces, captures, turn, counters and outcome, and no pass left to make |
| Played.AcceptsExactlyGames | src/lib/game-replay.ts:289-471 | of all logs whatever, the replay accepts exactly the records of such a game |
| Refusals.CommandsDecided | src/lib/game-replay.ts:102-171 | in every state that waits for a move a command is refused for exactly the reason that applies: game over, wrong ply, no such piece, no cell, other side's piece, a move the rules of movement forbid; otherwise it is accepted and plays the move it asks for and at most one pass |
| Refusals.FailsWhereItStops | src/lib/game-replay.ts:444-471 | a refused log is refused at its first value that is no record of a legal turn, or at its end for a missing pass |
| WebChess.ChessIsLawful | src/lib/game.ts:120-279 | the board rules are lawful for every sound generator that lets White open |
| WebChess.ShippedIsLawful | src/lib/game.ts:120-279 | the rules with the shipped generator are lawful, so the theorems speak of the real game |
| WebChess.ShippedExactLanguage | src/lib/game-replay.ts:269-471 | the exact-language theorem for the shipped rules |
| WebChess.ShippedGamesAreSound | src/lib/game-replay.ts:444-471 | the game invariants for every log of the shipped rules |
| JsNumber.SignedSameWord | src/lib/browser-sha256.ts:88-103 | a signed 32-bit intermediate stands for the word it was made of |
| JsNumber.SumOfWords | src/lib/browser-sha256.ts:90-103 | signed intermediates may be summed before `>>> 0`: the sum is addition modulo 2^32 |
| Sha256.RotateRightIsRotr | src/lib/browser-sha256.ts:22-24 | the signed shift-or expression is the rotation of FIPS 180-4, section 3.2 |
| Sha256.RotationsWord | src/lib/browser-sha256.ts:67-72 | the xor of rotations is the word of the standard's sigma functions |
| Sha256.ChoiceAndMajority | src/lib/browser-sha256.ts:89-94 | the signed choice and majority expressions are Ch and Maj of section 4.1.2 |
| Sha256.PadMessage | src/lib/browser-sha256.ts:33-46 | the padded buffer is the padding of section 5.1.1, with the 64-bit length split into two words |
| Sha256.FillSchedule | src/lib/browser-sha256.ts:61-76 | the schedule filled in place is the message schedule recurrence of section 6.2.2 |
| Sha256.JsRoundIsRound | src/lib/browser-sha256.ts:88-103 | one rotation of the eight working variables is one round of section 6.2.2 |
| Sha256.RunRounds | src/lib/browser-sha256.ts:87-104 | the inner loop computes the 64 rounds |
| Sha256.CompressBlock | src/lib/browser-sha256.ts:61-113 | one pass of the outer loop adds the compression of the block to the hash array |
| Sha256.HexText | src/lib/browser-sha256.ts:116-116 | the joined words are eight hexadecimal digits each |
| Sha256.Sha256Hex | src/lib/browser-sha256.ts:32-117 | for every byte string the result is the hexadecimal text of SHA-256 as FIPS 180-4 defines it; its constants, functions and digits are pinned by `Sha256Constants`, `WordFacts` and `Sha256.FixedHexSpells` |
| Sha256.PaddedIsFixed | src/lib/browser-sha256.ts:116-116 | toString(16) padded to eight is the fixed-width hexadecimal of the word |
| Sha256.FixedHexInjective | src/lib/browser-sha256.ts:116-116 | different words have different fixed-width texts |
| Sha256.FixedHexSpells | src/lib/browser-sha256.ts:116-116 | the digits, each 0 to 9 or a to f, spell the word |
| Sha256Constants.RoundConstants | src/lib/browser-sha256.ts:1-18 | section 4.2.2: each round constant is the first 32 fractional bits of the cube root of its prime, the largest such fraction whose cube is at most the prime |
| Sha256Constants.InitialHash | src/lib/browser-sha256.ts:48-57 | section 5.3.3: likewise the initial hash value and the square roots of the first eight primes |
| WordFacts.BitwiseWords | src/lib/browser-sha256.ts:22-24 | the bitwise operations on words work bit by bit |
| WordFacts.RotrRotates | src/lib/browser-sha256.ts:22-24 | section 3.2: a rotation by n brings bit i + n, counted around the word, to bit i |
| WordFacts.ChooseAndMajority | src/lib/browser-sha256.ts:89-94 | section 4.1.2: Ch takes each bit from y or z as x says, Maj is the majority of three bits |
| WordFacts.BigSigmaBits | src/lib/browser-sha256.ts:88-93 | section 4.1.2: every bit of the large sigmas is the sum modulo 2 of three bits at their distances |
| WordFacts.SmallSigmaBits | src/lib/browser-sha256.ts:67-72 | the small sigmas too, where the third bit is shifted and vanishes at the end |
| Sha256Facts.PadAligned | src/lib/browser-sha256.ts:34-46 | the padding is a whole number of blocks, and the least that holds message, marker and length |
| Sha256Facts.PadInjective | src/lib/browser-sha256.ts:34-46 | different messages below 2^61 bytes have different paddings |
| TurnRegistry.ReserveKeeps | openclaw-plugin/src/bridge.ts:2597-2646 | a reservation keeps at most 256 records, evicts no live record, drops tombstones only when expired or out of a full registry, and on success adds one fresh active record |
| TurnRegistry.ReserveRefuses | openclaw-plugin/src/bridge.ts:2606-2638 | which refusal occurs, exactly: conflict, already settled, in progress or full |
| TurnRegistry.ModelTurnRegistry.DropExpired | openclaw-plugin/src/bridge.ts:2600-2605 | the sweep removes exactly the expired tombstones, in place and in order |
| TurnRegistry.ModelTurnRegistry.EvictForOne | openclaw-plugin/src/bridge.ts:2626-2638 | the eviction loop removes oldest tombstones until there is room, or fails when none is left |
| TurnRegistry.ModelTurnRegistry.ReserveModelTurn | openclaw-plugin/src/bridge.ts:2597-2646 | the object's reservation is the specified one, error for error |
| TurnRegistry.ModelTurnRegistry.CompleteModelTurn | openclaw-plugin/src/bridge.ts:2590-2596 | only a registered record that is not terminal becomes a tombstone, once |
| BridgeSafety.InitInv | openclaw-plugin/src/bridge.ts:2548-2557 | a new bridge satisfies the protocol invariant |
| BridgeSafety.StepTouches | openclaw-plugin/src/bridge.ts:3159-3268 | a step of one request changes only that request, its slots and its own record, which only advances |
| BridgeSafety.StepSubjectOk | openclaw-plugin/src/bridge.ts:3159-3268 | a step of one request keeps its phase, slot, deadline and record invariants |
| BridgeSafety.FinishRunningOk | openclaw-plugin/src/bridge.ts:3711-3731 | a request that ends while its provider work runs keeps its slot and marks its record draining |
| BridgeSafety.FinishIdleOk | openclaw-plugin/src/bridge.ts:3711-3731 | a request that ends otherwise frees its slot and leaves a tombstone |
| BridgeSafety.SettleOk | openclaw-plugin/src/bridge.ts:3215-3241 | the settlement handlers retire the draining entry and complete the record |
| BridgeSafety.BodyOk | openclaw-plugin/src/bridge.ts:2926-2987 | reading the body, with reservation or refusal, keeps the invariant |
| BridgeSafety.CloseStartOk | openclaw-plugin/src/bridge.ts:3756-3761 | closing aborts every active request and retains the provider work this orphans |
| BridgeSafety.CloseFinishOk | openclaw-plugin/src/bridge.ts:3762-3780 | the final shutdown retires the remaining entries |
| BridgeSafety.StepKeepsInv | openclaw-plugin/src/bridge.ts:2548-3784 | every step keeps the protocol invariant; the concurrency limit is in `BridgeLimits` |
| BridgeSafety.RunsAreSafe | openclaw-plugin/src/bridge.ts:2548-3784 | every state of every run keeps the protocol invariant |
| BridgeTheorems.DispatchExclusion | openclaw-plugin/src/bridge.ts:3181-3192 | over every interleaving a queued turn may be dispatched exactly when it is not aborted, its allowance and 30 s still fit in its 300 s, and no aborted provider execution is unsettled |
| BridgeTheorems.OrphansDrain | openclaw-plugin/src/bridge.ts:3162-3178 | aborted provider work is in the draining set, with its slot, from the step that aborts it |
| BridgeTheorems.DrainingHoldsSlot | openclaw-plugin/src/bridge.ts:2558-2588 | a draining execution stays draining and keeps its slot in every later state until it settles or the bridge is closed |
| BridgeTheorems.NoSlotRemains | openclaw-plugin/src/bridge.ts:3711-3731 | once all requests have ended and all executions have settled, no slot remains |
| BridgeTheorems.RegistryBounded | openclaw-plugin/src/bridge.ts:2626-2646 | the registry never exceeds 256 records and holds one per turn id |
| BridgeTheorems.TurnStep | openclaw-plugin/src/bridge.ts:2589-2646 | in one step a record stays or moves on from active over draining to terminal; it leaves only as a tombstone that has expired or stands in a full registry |
| BridgeTheorems.TombstonesAreQuiet | openclaw-plugin/src/bridge.ts:3215-3241 | a record is terminal only when its request is over or aborted and its provider work is not running and never will be |
| BridgeTheorems.OneExecutionPerTurn | openclaw-plugin/src/bridge.ts:3215-3241 | no turn id ever has two unsettled executions |
| BridgeTheorems.PastWaiting | openclaw-plugin/src/bridge.ts:2926-2930 | a request reads its body once |
| BridgeTheorems.GoneMeansLeft | openclaw-plugin/src/bridge.ts:2597-2646 | a record that is gone left as a tombstone at some step in between |
| BridgeTheorems.ReservationsApart | openclaw-plugin/src/bridge.ts:2597-2646 | two reservations of one turn id are separated by the first record becoming a tombstone and expiring or being evicted from a full registry |
| BridgeTheorems.DeadlinesHold | openclaw-plugin/src/bridge.ts:2978-3192 | a dispatched allowance and the 30 s reserve fit in the envelope, the provider deadline is before 270 s, every 200 reply leaves before 300 s, a search within its own allowance and a status report within 150 s |
| BridgeTheorems.AllowanceNotShortened | openclaw-plugin/src/bridge.ts:3186-3192 | running work is aborted before its allowance is over only by its client or by closing |
| BridgeLimits.ArrivalsFindRoom | openclaw-plugin/src/bridge.ts:2660-2668 | over every run an arrival finds fewer than maxRuns slots taken, and a status request, whose check and registration are one step, leaves at most maxRuns |
| BridgeLimits.SlotsCounted | openclaw-plugin/src/bridge.ts:2660-2668 | if every arrival finds room among the requests registered or still to register, no state of the run exceeds the limit |
| BridgeLimits.StatusWithinLimit | openclaw-plugin/src/bridge.ts:2660-2668 | status requests alone never exceed the limit |
| BridgeLimits.PostsExceed | openclaw-plugin/src/bridge.ts:2660-2926 | a POST registers only after its body was read, so for every limit and every n there is a run in which n requests hold a slot at once |
| BridgeLimits.AllowancesRead | openclaw-plugin/src/bridge.ts:1933-1968 | a body may ask for 1 s up to 150 s for a model turn, up to 300 s for a search, and for nothing else |
| BridgeLimits.TimersExact | openclaw-plugin/src/bridge.ts:2947-3192 | over every run the timer of a request may fire exactly when its own limit has passed in its present phase, and the provider timer exactly when the dispatched allowance is over |
| BridgeLimits.RepliesExact | openclaw-plugin/src/bridge.ts:2666-3710 | over every run a success may leave exactly while the request is not aborted, its time is not up and its work is done: provider answered and later stages for a model turn, no dependency running for a status report |
| BridgeLimits.CallsExact | openclaw-plugin/src/bridge.ts:3179-3268 | over every run a call ends well exactly when the provider has answered an unaborted request within its allowance, fails otherwise once it has answered, and goes into the bounded drain exactly when it is aborted |
| BridgeLimits.QueuedFails | openclaw-plugin/src/bridge.ts:3162-3192 | over every run a queued turn fails exactly when it is aborted, too late, or behind aborted provider work that has not settled |
| BridgeLimits.TombstoneStamped | openclaw-plugin/src/bridge.ts:2590-2596 | every tombstone was made of a live record of its request, to expire 600000 ms after that moment |
| BridgeLimits.ReuseWaits | openclaw-plugin/src/bridge.ts:2597-2646 | a turn id is reserved again only ten minutes after its first record became a tombstone, or once the registry holds 256 records |
| JsonText.UnitReadable | src/lib/portable-answer-prompt.ts:375-379 | whatever follows, the escape of a code unit tells the unit and where it ends |
| JsonText.EscapeReadable | src/lib/portable-answer-prompt.ts:375-379 | a quoted string, lone surrogates included, can be told apart from what follows it |
| CanonicalFacts.Printable | src/lib/portable-answer-prompt.ts:375-392 | the printer throws exactly on what is not JSON data, at any depth |
| CanonicalFacts.NumbersReadable | src/lib/portable-answer-prompt.ts:376-379 | a number text ends where the next delimiter begins |
| CanonicalFacts.FieldsOf | src/lib/portable-answer-prompt.ts:384-389 | the printed entries are the object's map without its undefined entries |
| JsonNumber.NumberInjective | src/lib/portable-answer-prompt.ts:376-379 | different finite numbers, given by their shortest decimal digits, sign and point, print different texts in the four layouts of Number::toString; the two zeros are one |
| CanonicalFacts.Readable | src/lib/portable-answer-prompt.ts:375-392 | before any delimiter a value's text tells its JSON content, numbers included, and where it ends |
| CanonicalFacts.PrintInjective | src/lib/portable-answer-prompt.ts:375-392 | equal texts mean equal JSON content, objects as maps, for every comparator |
| CanonicalFinite.NulledPrints | src/lib/portable-answer-prompt.ts:376-379 | putting null for every non-finite number, at any depth, moves no entry and changes no character of the text |
| CanonicalFinite.ExactTellsFinite | src/lib/portable-answer-prompt.ts:376-379 | the content of a value, non-finite numbers kept apart, tells whether it has any |
| CanonicalFinite.FaithfulIffFinite | src/lib/portable-answer-prompt.ts:375-392 | for every JSON value: no finite value of other content prints its text if and only if none of its own numbers is NaN or infinite |
| CanonicalOrder.SameKeyOrder | src/lib/portable-answer-prompt.ts:386-386 | equal maps sort their keys alike if no two printed keys of the one tie, whatever the comparator does elsewhere |
| CanonicalOrder.PrintsAlike | src/lib/portable-answer-prompt.ts:375-392 | a value none of whose printed keys tie prints the text of every value of equal content |
| CanonicalOrder.PrintDecidesEquality | src/lib/portable-answer-prompt.ts:375-392 | for such a value texts are equal exactly when contents are |
| CanonicalOrder.OrderShows | src/lib/portable-answer-prompt.ts:384-390 | a value with two tying printed keys, in itself or at any depth, has a twin of equal content with another text |
| CanonicalOrder.OrderBlindIffKeysApart | src/lib/portable-answer-prompt.ts:384-390 | for every JSON value: its text is the same for all values of equal content if and only if no two different printed keys of any one of its objects tie |
| CanonicalOrder.TiesShow | src/lib/portable-answer-prompt.ts:386-386 | two different keys that the comparator ties make one map print as two texts |
| CanonicalOrder.EquivalentKeysShow | src/lib/portable-answer-prompt.ts:386-386 | the keys U+00E9 and U+0065 U+0301, which localeCompare has to tie, are such an input |
| JsonReadBack.EscapesAre | src/lib/portable-answer-prompt.ts:375-379 | which units are escaped by which two characters, which in lower-case hexadecimal, and that all others stand for themselves |
| JsonReadBack.StringReadsBack | src/lib/portable-answer-prompt.ts:375-379 | a reader of RFC 8259 gets every string back, lone surrogates included |
| JsonReadBack.NumberReadsBack | src/lib/portable-answer-prompt.ts:376-379 | a reader of RFC 8259 gets every finite number back from each of the four layouts |
| CanonicalReadBack.ReadsBack | src/lib/portable-answer-prompt.ts:375-392 | whatever delimiter follows, the reader gets the stored value and stops at the end of its text |
| CanonicalReadBack.CanonicalReadsBack | src/lib/portable-answer-prompt.ts:375-392 | round trip: the text of JSON data parses, to a value of the same content, whose keys stand in the order of a consistent comparator at every depth |
| Sorting.SortSorts | src/lib/portable-answer-prompt.ts:386-386 | a stable sort with a consistent comparator is sorted |
| Sorting.SortedUnique | src/lib/portable-answer-prompt.ts:386-386 | where only equal elements tie, the sorted arrangement is unique |
| AutoPlayFacts.StepKeepsInv | src/lib/auto-play.ts:127-324 | every call, worker event and timer keeps the manager's invariant |
| AutoPlayFacts.TimerEnds | src/lib/auto-play.ts:230-257 | the armed timer belongs to the pending request, and firing it is ending that request |
| AutoPlayFacts.SettledOnce | src/lib/auto-play.ts:152-157 | each request is settled at most once, and only the latest can be unsettled |
| AutoPlayFacts.ResultsStay | src/lib/auto-play.ts:152-169 | a settled request keeps its one result |
| AutoPlayFacts.AlwaysEnds | src/lib/auto-play.ts:261-307 | an unsettled request has exactly one armed way to end, a live worker under a watchdog or a fallback timer, and that timer settles it |
| AutoPlayFacts.RetiredForGood | src/lib/auto-play.ts:171-213 | over every run a terminated worker stays terminated and never becomes current again, and any event it still sends changes nothing but which answers it owes |
| AutoPlayFacts.NoWorkerLeaks | src/lib/auto-play.ts:133-180 | every worker ever created is terminated, but for the current one |
| AutoPlayFacts.DisposedForGood | src/lib/auto-play.ts:318-323 | after dispose worker and pending request stay null and nothing is armed or settled any more |
| AutoPlayFacts.NoMismatch | src/lib/auto-play.ts:192-213 | with a worker that answers each request at most once with its own id, the mismatch failure is unreachable |
| AutoPlayResults.StepGives | src/lib/auto-play.ts:152-324 | what every event gives the pending request: Ok with the answered move and analysis when the current worker answers with its id and no error, Failed with the error otherwise; the search's move and analysis or its message; Superseded by a new request, reset or dispose; and the own message of a worker error, an unreadable or mismatched message and the watchdog |
| AutoPlayResults.RequestGets | src/lib/auto-play.ts:152-324 | over every run the pending request gets exactly that one result, keeps it for ever, and waits while no event gives it one |
| AutoPlayResults.ChosenWaits | src/lib/auto-play.ts:252-291 | a new request is the pending one, next in number, with no result yet |
| AutoPlayEngine.Engine.CompleteRequest | src/lib/auto-play.ts:152-157 | complete on the object is complete on the value: a no-op for any but the pending request |
| AutoPlayEngine.Engine.SupersedePending | src/lib/auto-play.ts:159-169 | supersede retires the pending request, its timers and its worker |
| AutoPlayEngine.Engine.FailCurrentWorker | src/lib/auto-play.ts:171-180 | failWorker touches nothing unless the worker is current |
| AutoPlayEngine.Engine.HandleMessage | src/lib/auto-play.ts:192-213 | the message handler, with its guards, is the specified step and keeps the invariant |
| AutoPlayEngine.Engine.HandleTimer | src/lib/auto-play.ts:230-288 | the timer callbacks are the specified steps |
| AutoPlayEngine.Engine.Post | src/lib/auto-play.ts:285-306 | posting arms the watchdog; a failing post retires the worker and falls back |
| AutoPlayEngine.Engine.ChooseNextMove | src/lib/auto-play.ts:261-307 | chooseMove is the specified step and keeps the invariant |
| AutoPlayEngine.Engine.ResetEngine | src/lib/auto-play.ts:310-316 | reset is the specified step |
| AutoPlayEngine.Engine.DisposeEngine | src/lib/auto-play.ts:318-323 | dispose is the specified step |
| SeededRandom.HashString | src/lib/problem.ts:185-194 | the loop computes the FNV-1a fold over the code units |
| SeededRandom.Random.Next | src/lib/problem.ts:197-207 | a call advances the state by the increment and returns the Mulberry32 output of the new state |
| SeededFacts.KnownHashes | src/lib/problem.ts:185-194 | the published FNV-1a values of the empty text and of "a" |
| SeededFacts.OneUnitShows | src/lib/problem.ts:185-194 | texts that differ in one unit have different hashes |
| SeededFacts.OutputIsMulberry32 | src/lib/problem.ts:197-207 | the signed intermediates compute Mulberry32 as defined on unsigned words, constants and shifts included |
| SeededRandom.StateIsLinear | src/lib/problem.ts:201-201 | after k calls the state is the seed plus k increments modulo 2^32 |
| SeededRandom.PeriodIsExact | src/lib/problem.ts:201-201 | the state returns exactly after multiples of 2^32 calls |
| SeededRandom.ReachesAll | src/lib/problem.ts:201-201 | every state is reached from every other within one period |
| Shuffle.SwapIndex | src/lib/problem.ts:214-214 | the swap index lies in 0..index |
| Shuffle.SwapIndexOnto | src/lib/problem.ts:214-214 | every index in 0..index can be drawn |
| Shuffle.ProductIsExact | src/lib/problem.ts:214-214 | for every draw and every index below 2^21 the product stays below 2^53, where doubles are exact, so that the floored double is the swap index |
| Shuffle.DeterministicShuffle | src/lib/problem.ts:209-222 | the in-place loop over the copied array yields the specified shuffle; every product it floors is below 2^53, for up to 2^21 elements |
| Shuffle.ShufflePermutes | src/lib/problem.ts:209-222 | a shuffle is a permutation of its input |
| Shuffle.ShuffleMaps | src/lib/problem.ts:209-222 | shuffling commutes with any map |
| Division.FillAssignments | src/lib/division.ts:121-140 | the forEach gives every shuffled id the hexagram at its own shuffled position |
| Division.DeriveDivisionCastAssignments | src/lib/division.ts:109-148 | the derived cast lists ids 1 to 64, each with the hexagram at the id's shuffled position |
| DivisionFacts.ParsedHaveAllIds | src/lib/division.ts:63-95 | accepted facets carry the ids 1 to 64, each once |
| DivisionFacts.SortedIds | src/lib/division.ts:154-154 | sorted by id the facets are numbered 1 to 64 |
| DivisionFacts.ShuffledFacetIds | src/lib/division.ts:155-155 | shuffling the facets and shuffling the ids give the same order of ids |
| DivisionFacts.AssignmentAt | src/lib/division.ts:109-148 | at position i of the shuffles, id and hexagram belong together |
| DivisionFacts.CastAgreement | src/lib/division.ts:150-187 | composing succeeds exactly on accepted facets and pairs the facet at shuffled position i with hexagram i, although it looks pairs up by id |
| DivisionFacts.OrderIrrelevant | src/lib/division.ts:150-187 | permuting the model's facets does not change the result |
| DivisionFacts.PartsAreFaithful | src/lib/division.ts:163-184 | every part carries the texts of the accepted facet with its id, the name and theme of its hexagram, and the dimension and movement of its id |
| DivisionFacts.EverythingOnce | src/lib/division.ts:150-187 | each facet id, each hexagram and each dimension-movement pair occurs exactly once |
| DivisionMeaning.LabelTells | src/lib/division.ts:37-42 | a label tells the seed and the permutation, whatever the seed contains |
| DivisionMeaning.FacetsExact | src/lib/division.ts:44-95 | facets are accepted exactly when there are 64 records with different ids from 1 to 64, four texts that are not blank and a cast application, if any, of 20 to 480 units; each facet keeps its record's trimmed texts |
| Ranking.GroupCaptures | src/lib/reading.ts:110-115 | the forEach over a Map groups the captures by part, in order of appearance |
| Ranking.Rank | src/lib/reading.ts:109-135 | the pipeline over the grouped captures is the specified ranking, which `RankingMeaning.TheRanking` says in plain terms |
| RankingFacts.CaptureOrdering | src/lib/reading.ts:101-107 | compareCaptures is a consistent comparator, infinities included |
| RankingFacts.GroupsAreOk | src/lib/reading.ts:110-115 | each part has one group, which holds its captures and no others, none twice |
| RankingFacts.BestOfGroup | src/lib/reading.ts:117-129 | the representative of a group comes first in the order of compareCaptures, and is the first of those that tie |
| RankingFacts.ScoreSteps | src/lib/reading.ts:122-127 | one capture scores its resonance, each repetition adds 8 % of it, up to the fourth capture; no finite resonance is negative infinity |
| RankingFacts.RankingConserves | src/lib/reading.ts:109-135 | each part is ranked once by its best and then earliest capture, occurrences sum to the number of captures, the list is sorted; what sorted means is `RankingMeaning.SignalsInOrder` |
| RankingFacts.FirstWins | src/lib/reading.ts:117-135 | of captures that tie in resonance, turn, id order and score, each leading its part, the first of the list ranks first |
| RankingFacts.OrderBlindIffUnambiguous | src/lib/reading.ts:109-135 | for every list of captures: the ranked captures, occurrences and scores are the same for every order of the list if and only if no two different captures that lead their parts tie |
| RankingFacts.RankingPermutes | src/lib/reading.ts:109-135 | in particular when the ids of different captures of the list do not tie |
| RankingMeaning.RepresentativeIsBest | src/lib/reading.ts:101-121 | no capture of a signal's part has a greater resonance, one that is no finite number being below all; of equal resonance none has an earlier turn, then none an id the host puts first, then none a smaller index |
| RankingMeaning.SignalsInOrder | src/lib/reading.ts:130-135 | a later signal has no greater score; at equal score no greater resonance; at equal resonance no earlier turn; then id order, then index |
| RankingMeaning.TheRanking | src/lib/reading.ts:109-135 | the result is the only list with one signal per part, each with its best capture, the number of its captures and the score, in this order |
| IdentityFacts.StoredReadsBack | openclaw-plugin/src/launcher.ts:460-493 | the stored text, with or without its line end, reads back as the identity written |
| IdentityFacts.TornReads | openclaw-plugin/src/launcher.ts:460-493 | a prefix of the stored text is accepted exactly when at most the line end is missing, and then as that identity |
| IdentityFacts.FileSize | openclaw-plugin/src/launcher.ts:535-535 | what a launcher writes is within the size a launcher reads |
| IdentityFacts.MembersOpen | openclaw-plugin/src/launcher.ts:462-466 | an object without its closing brace is no JSON |
| IdentityMeaning.FileIs | openclaw-plugin/src/launcher.ts:453-460 | the file a launcher writes, key by key |
| IdentityMeaning.ReadsExactly | openclaw-plugin/src/launcher.ts:460-493 | a text is read as an identity exactly when it is an object with the four keys, the format, two secrets of at least 32 bytes and an owner of the prefix and 8 to 80 small letters, digits, underscores or hyphens, all three without the white space around them |
| IdentityMeaning.Utf8LengthIs | openclaw-plugin/src/launcher.ts:380-386 | the byte length of a secret is that of its UTF-8 encoding after RFC 3629, a lone surrogate counting as U+FFFD |
| IdentityProtocol.SizeDecides | openclaw-plugin/src/launcher.ts:533-539 | a file is refused for its size exactly when it is empty or larger than 4096 bytes |
| IdentityProtocol.StepKeepsInv | openclaw-plugin/src/launcher.ts:522-604 | every step of every launcher keeps file and identities with the creator's |
| IdentityProtocol.CreatedOnce | openclaw-plugin/src/launcher.ts:561-578 | at most one launcher of a run creates the file |
| IdentityProtocol.AllAgree | openclaw-plugin/src/launcher.ts:580-604 | all launchers that return, whenever, return the same identity |
| IdentityProtocol.ReadsAreExact | openclaw-plugin/src/launcher.ts:522-559 | a read returns that identity exactly when it gets the whole object of a non-empty file, and fails otherwise |
| OAuthGuard.GuardedStore.SetProfile | openclaw-plugin/src/codex-attestation.ts:1348-1366 | the set trap accepts or rejects as specified; a rejection only raises the flag |
| OAuthGuard.GuardedStore.RefuseChange | openclaw-plugin/src/codex-attestation.ts:1341-1347 | define, delete and prototype changes are rejected and remembered |
| OAuthGuardFacts.CreateBinds | openclaw-plugin/src/codex-attestation.ts:1312-1337 | a store is guarded only with the expected identity and without refresh material |
| OAuthGuardFacts.AlwaysBound | openclaw-plugin/src/codex-attestation.ts:1312-1384 | after any attempts the store holds one credential of the expected identity without refresh material |
| OAuthGuardFacts.StepBinds | openclaw-plugin/src/codex-attestation.ts:1341-1368 | a rejected attempt changes no profile |
| OAuthGuardFacts.RejectionsRemembered | openclaw-plugin/src/codex-attestation.ts:1341-1344 | the flag is up exactly when some attempt was rejected |
| OAuthGuardFacts.IntactExactly | openclaw-plugin/src/codex-attestation.ts:1374-1379 | isIntact holds exactly when no attempt was rejected and the order still names the profile alone |
| OAuthGuardFacts.IntactUnderProfileOps | openclaw-plugin/src/codex-attestation.ts:1312-1384 | for a guarded store under profile operations alone, isIntact holds exactly when no attempt was rejected |
| OAuthGuardFacts.RotationKeepsAccount | openclaw-plugin/src/codex-attestation.ts:1256-1292 | credentials of one identity agree on account, subject and every field but the token fields and a stored subject digest |
| OAuthMeaning.IdentityExact | openclaw-plugin/src/codex-attestation.ts:1256-1292 | a credential has an identity exactly when it is an OAuth credential of OpenAI whose access token belongs to the account it names, in plain data |
| OAuthMeaning.SameIdentity | openclaw-plugin/src/codex-attestation.ts:1256-1292 | two credentials share an identity if and only if their tokens do and they agree on every field but the seven token fields and a stored subject digest |
| OAuthMeaning.CreateExactly | openclaw-plugin/src/codex-attestation.ts:1312-1337 | a store is guarded exactly when it holds the profile alone, ordered alone, in plain data, with the expected identity and without a non-empty `refresh` or `refreshToken` |
| OAuthMeaning.RotationExactly | openclaw-plugin/src/codex-attestation.ts:1348-1366 | the guarded store takes over exactly a record under the guarded name, without refresh token, in plain data, of the same account and subject, that agrees elsewhere |
| OAuthMeaning.AccountStays | openclaw-plugin/src/codex-attestation.ts:1312-1384 | after any attempts account and subject are the first ones, every field that does not rotate is as it was, and there is no refresh token |
| ConfigInclude.ContainsOwnConfigInclude | openclaw-plugin/src/codex-attestation.ts:256-269 | the worklist search ends and finds an include exactly when some record at some depth has one |
| WebMemoryFacts.BindingKeyInjective | src/lib/webchess-api.ts:1617-1617 | the `run:index` key determines run and index |
| WebMemory.CheckCarried | src/lib/webchess-api.ts:1570-1579 | carried ids are accepted exactly when they are at most eight, valid and distinct |
| WebMemory.ActionExact | src/lib/webchess-api.ts:594-640 | an action is valid exactly with valid fields, an index 0, 1 or 2 if any, and a current binding only with an index |
| WebMemory.CheckCases | src/lib/webchess-api.ts:1583-1645 | the nested loops with their sets are the one-pass fold |
| WebMemoryFacts.ObservationsNote | src/lib/webchess-api.ts:1628-1643 | the observation loop accepts exactly valid observations of the action with fresh ids |
| WebMemoryFacts.ActionsNote | src/lib/webchess-api.ts:1606-1644 | the action loop accepts exactly valid records with fresh ids, bindings and observations |
| WebMemoryFacts.OnePassIsExact | src/lib/webchess-api.ts:1583-1648 | one pass accepts exactly the cases with globally distinct case, action and observation ids, matching references, distinct bound pairs and at most one current case |
| WebMemoryFacts.ParseWebMemory | src/lib/webchess-api.ts:1565-1649 | a memory is accepted exactly when it keeps all its promises |
| LifecycleChecks.CheckLifecycleActions | src/lib/webchess-api.ts:1471-1495 | actions are accepted exactly when valid, of the run, with distinct ids and distinct bound indices |
| LifecycleChecks.CheckLifecycleObservations | src/lib/webchess-api.ts:1497-1509 | observations are accepted exactly when valid, distinct and of a listed action |
| LifecycleChecks.CheckEvidence | src/lib/webchess-api.ts:1510-1530 | memory evidence is accepted exactly when at most eight, attached, foreign and distinct |
| LifecycleChecks.CheckSources | src/lib/webchess-api.ts:904-976 | sources are accepted exactly when valid with distinct ids and citations, and the map holds their URLs |
| LifecycleChecks.CheckChain | src/lib/webchess-api.ts:992-1001 | a redirect chain is accepted exactly when it leads from the requested to the final URL on one host |
| LifecycleChecks.CheckRoutes | src/lib/webchess-api.ts:977-1008 | routes are accepted exactly when each starts at the URL of its citation's source and no citation is claimed twice |
| LifecycleChecks.CheckResearch | src/lib/webchess-api.ts:904-1012 | a citation is claimed once across facts and failures |

## Left out

- Narration and prompt text of captures and readings: wording.
- Search, evaluation, attack detection and the capture-only mode of the engine: only the generation of all moves is modelled, as a function of board and side.
- Move encodings, the reused move buffer and the stamps of the generator: the moves are a sequence.
- HTTP, authorisation, response bodies, the wording of failures and the choice between time-out and abort codes: a request replies, fails or is aborted.
- The digest of a model turn's input is a given text; `modelTurnRequestDigest` is not part of this model.
- The stages of preflight and postflight are one phase each: they may fail at any time, and may only succeed in time.
- TextEncoder: SHA-256 is stated on the encoded bytes. Messages of 2^61 bytes or more, and buffers beyond what the host can allocate, are not excluded by the model.
- Doubles: which shortest decimal digits belong to a double is not modelled. Numbers read from JSON are not rounded to doubles.
- CanonicalFacts.Readable: a finite number is given by its shortest decimal digits, and a non-finite one has the content null; `CanonicalFinite.FaithfulIffFinite` says when that hides something.
- CanonicalFacts.PrintInjective: as for `CanonicalFacts.Readable`.
- Shuffle.DeterministicShuffle: stated up to 2^21 elements; beyond, a product may pass 2^53 and be rounded, which is not modelled.
- RankingFacts.ScoreSteps: scores are exact real numbers, where the source multiplies doubles.
- `CaptureRecord.resonance` is an integer in the game core and an optional real in the ranking, where storage may hold what is not finite.
- Ranking.Rank: scores are exact real numbers; the host's string comparison is a parameter, and the theorems about it ask that it is an ordering; that `localeCompare` is one is not proved.
- The wording of the directional cue is in `Division` but in no theorem. The wording of dimensions, movements and hexagrams: the tables are parameters with eight differently named dimensions and movements and the hexagrams 1 to 64, so the branches for a missing table entry are not modelled.
- Lengths of facet texts count characters, where the source counts UTF-16 code units.
- JsonReader: duplicate members keep their last value when a property is read; the sorted and joined key list of the identity reader is modelled as the set of keys, which decides the same records.
- File modes, owners, symbolic links, the state directory and the environment of the launcher: a file is absent or has a content, is never deleted, and a read returns a prefix of what is there.
- OAuthGuard: values are plain data, so a getter that changes between check and clone, and changes inside a nested object of a stored credential, are not modelled; the decoding of access tokens is a parameter.
- WebMemoryFacts.ParseWebMemory: the formats of single fields are one flag per record: a record is valid by itself or not.
- LifecycleChecks.CheckSources: the format of a source and the safety of its URL are one flag.
- Formats of single fields in Web memory, lifecycle and research (time stamps, UUIDs, bounded texts, digests, safe URLs): each record is valid by itself or not.
- The other fields of `parseLifecycle` and `parseResearchRecord`, and the error each refusal carries.
- The lifecycle gate, retry and trajectory direction code, React components, geometry, figures and documents.
