/** When and why a game ends, and who passes. */
module Endings {
  import opened Wrappers
  import opened Types
  import opened Game
  import opened Replay
  import opened Conservation
  import opened GameInvariants
  import opened ReplayAgreement

  // ---- The rule ----------------------------------------------------------------------------------

  predicate BothKings(pieces: seq<Piece>) {
    && (exists p | p in pieces :: p.kind == King && p.side == White)
    && (exists p | p in pieces :: p.kind == King && p.side == Black)
  }

  predicate SomeoneMoves(hasMove: (seq<Piece>, Side) -> bool, pieces: seq<Piece>) {
    hasMove(pieces, White) || hasMove(pieces, Black)
  }

  /** Why a game with these pieces, quiet plies and plies is over, if it is. */
  predicate EndsBy(hasMove: (seq<Piece>, Side) -> bool, pieces: seq<Piece>, quiet: int, ply: int, reason: EndReason) {
    match reason
    case KingCaptured => !BothKings(pieces)
    case NoMoves => BothKings(pieces) && !hasMove(pieces, White) && !hasMove(pieces, Black)
    case NoProgress => BothKings(pieces) && SomeoneMoves(hasMove, pieces) && quiet >= 100
    case MoveLimit => BothKings(pieces) && SomeoneMoves(hasMove, pieces) && quiet < 100 && ply >= 256
  }

  /** The game goes on. */
  predicate Open(hasMove: (seq<Piece>, Side) -> bool, pieces: seq<Piece>, quiet: int, ply: int) {
    BothKings(pieces) && SomeoneMoves(hasMove, pieces) && quiet < 100 && ply < 256
  }

  /** A standstill of one side alone ends nothing; the reasons exclude each other, in the order of the checks. */
  lemma OutcomeRule(hasMove: (seq<Piece>, Side) -> bool, pieces: seq<Piece>, quiet: int, ply: int)
    ensures var o := GetGameOutcome(hasMove, pieces, quiet, ply);
            && (o.None? <==> Open(hasMove, pieces, quiet, ply))
            && (forall reason :: o.Some? && o.value.reason == reason <==> EndsBy(hasMove, pieces, quiet, ply, reason))
            && (o.Some? ==> o.value.completedTurn == ply && o.value.terminalCapture.None?)
            && (o.Some? && BothKings(pieces) ==> o.value.winner.None?)
            && (o.Some? ==> forall side :: o.value.winner == Some(side) ==> HasKing(pieces, side) && !HasKing(pieces, side.Other()))
  {
    KingsCounted(pieces);
  }

  lemma KingsCounted(pieces: seq<Piece>)
    ensures BothKings(pieces) <==> HasKing(pieces, White) && HasKing(pieces, Black)
  {
  }

  // ---- Replayed games --------------------------------------------------------------------------------

  /** The recorded outcome is the one the state itself calls for. */
  ghost predicate EndsRight(rules: Rules, s: ReplayState) {
    && (s.outcome.None? <==> Open(rules.hasMove, s.pieces, s.quietPlies, s.completedPlies))
    && (s.outcome.Some? ==> EndsBy(rules.hasMove, s.pieces, s.quietPlies, s.completedPlies, s.outcome.value.reason))
  }

  lemma RecordedRight(rules: Rules, s: ReplayState, capture: Option<CaptureRecord>)
    requires s.outcome == WithTerminalCapture(GetGameOutcome(rules.hasMove, s.pieces, s.quietPlies, s.completedPlies), capture)
    ensures EndsRight(rules, s)
  {
    OutcomeRule(rules.hasMove, s.pieces, s.quietPlies, s.completedPlies);
    hide GetGameOutcome;
  }

  lemma StartEndsRight(rules: Rules)
    ensures EndsRight(rules, CreateReplayState(rules))
  {
    hide GetGameOutcome, EndsRight;
    RecordedRight(rules, CreateReplayState(rules), None);
  }

  lemma StepEndsRight(rules: Rules, s: ReplayState, e: GameEvent, parts: seq<ProblemPart>)
    requires ReplayStep(rules, s, e, parts).Ok?
    ensures EndsRight(rules, ReplayStep(rules, s, e, parts).value)
  {
    var t := ReplayStep(rules, s, e, parts).value;
    if e.ForcedPass? {
      PassStep(rules, s, e, parts);
      hide GetGameOutcome, EndsRight, ReplayStep;
      RecordedRight(rules, t, None);
    } else {
      MoveStep(rules, s, e, parts);
      var mover, to, result := ReplayAgreement.MoveUnfolds(rules, s, CommandOf(e), parts);
      hide GetGameOutcome, EndsRight, ReplayStep, ApplyCanonicalMove;
      RecordedRight(rules, t, result.capture);
    }
  }

  lemma {:induction false} ReplayEndsRight(rules: Rules, s: ReplayState, log: seq<Value>, parts: seq<ProblemPart>, index: nat)
    requires EndsRight(rules, s) && ReplayFrom(rules, s, log, parts, index).Ok?
    ensures EndsRight(rules, ReplayFrom(rules, s, log, parts, index).value)
    decreases |log|
  {
    if log != [] {
      FirstEvent(rules, s, log, parts, index);
      var e := ParseEvent(log[0]).value;
      hide *;
      StepEndsRight(rules, s, e, parts);
      ReplayEndsRight(rules, ReplayStep(rules, s, e, parts).value, log[1..], parts, index + 1);
    }
  }

  /** Every replayed game is over exactly when the board or a limit says so, and for the reason it says. */
  lemma ReplayedEndings(rules: Rules, log: seq<Value>, parts: seq<ProblemPart>)
    requires Replayed(rules, log, parts).Ok?
    ensures EndsRight(rules, Replayed(rules, log, parts).value)
  {
    StartEndsRight(rules);
    hide EndsRight, ReplayFrom, CreateReplayState;
    ReplayEndsRight(rules, CreateReplayState(rules), log, parts, 0);
  }

  /** So is every game that accepted commands have produced. */
  lemma AcceptedEndings(rules: Rules, cmds: seq<MoveCommand>, parts: seq<ProblemPart>)
    requires Lawful(rules) && |parts| == 64 && RunCommands(rules, CreateReplayState(rules), cmds, parts).Ok?
    ensures EndsRight(rules, RunCommands(rules, CreateReplayState(rules), cmds, parts).value)
  {
    hide *;
    AcceptedGamesReplay(rules, cmds, parts);
    var t := RunCommands(rules, CreateReplayState(rules), cmds, parts).value;
    ReplayedEndings(rules, LogValues(t.events), parts);
  }

  // ---- Forced passes ---------------------------------------------------------------------------------

  /** The side to move stands still, the other one does not, and nothing has ended the game. */
  predicate MustPass(rules: Rules, s: ReplayState) {
    && s.outcome.None? && BothKings(s.pieces) && s.quietPlies < 100 && s.completedPlies < 256
    && !rules.hasMove(s.pieces, s.turn) && rules.hasMove(s.pieces, s.turn.Other())
  }

  lemma PassNeeded(rules: Rules, s: ReplayState)
    ensures NeedsPass(rules, s) <==> MustPass(rules, s)
  {
    OutcomeRule(rules.hasMove, s.pieces, s.quietPlies, s.completedPlies);
    hide GetGameOutcome, BothKings;
  }

  /**
   * Settling appends exactly one pass, of the side that stands still, and hands the turn over, unless
   * the pass itself reaches a limit; otherwise it appends nothing and moves no turn.
   */
  lemma SettlingPasses(rules: Rules, s: ReplayState)
    ensures MustPass(rules, s) ==>
              && SettledEvents(rules, s) == [ForcedPass(s.completedPlies + 1, s.turn)]
              && Settled(rules, s).completedPlies == s.completedPlies + 1 && Settled(rules, s).quietPlies == s.quietPlies + 1
    ensures MustPass(rules, s) && s.quietPlies + 1 < 100 && s.completedPlies + 1 < 256 ==>
              Settled(rules, s).turn == s.turn.Other() && Settled(rules, s).outcome.None?
    ensures MustPass(rules, s) && (s.quietPlies + 1 >= 100 || s.completedPlies + 1 >= 256) ==>
              && Settled(rules, s).turn == s.turn && Settled(rules, s).outcome.Some?
              && Settled(rules, s).outcome.value.reason == if s.quietPlies + 1 >= 100 then NoProgress else MoveLimit
    ensures !MustPass(rules, s) ==> SettledEvents(rules, s) == [] && Settled(rules, s) == s.(outcome := Settled(rules, s).outcome)
  {
    PassNeeded(rules, s);
    OutcomeRule(rules.hasMove, s.pieces, s.quietPlies + 1, s.completedPlies + 1);
    hide GetGameOutcome, BothKings;
    if MustPass(rules, s) && (s.quietPlies + 1 >= 100 || s.completedPlies + 1 >= 256) {
      var reason := if s.quietPlies + 1 >= 100 then NoProgress else MoveLimit;
      assert EndsBy(rules.hasMove, s.pieces, s.quietPlies + 1, s.completedPlies + 1, reason);
    }
  }
}
