/** The replay theorems for the board rules and the engine that WebChess ships. */
module WebChess {
  import opened Types
  import opened Wrappers
  import opened Game
  import opened Replay
  import opened Conservation
  import opened GameInvariants
  import opened ReplayAgreement
  import Movegen
  import Setup

  /** The board rules are lawful for every sound generator that lets White open. */
  lemma ChessIsLawful(g: Generator)
    requires Sound(g) && HasLegalMove(g, InitialPieces(), White)
    ensures Lawful(ChessRules(g))
  {
    hide InitialPieces, Conserves, ApplyMove, BoardOk, OnceOnly, PositionOf;
    var rules := ChessRules(g);
    Setup.InitialBoard();
    forall piece, pieces, to | rules.reaches(piece, pieces, to)
      ensures ValidCoord(piece.at)
    {
      assert CanReach(g, piece, pieces, to);
    }
    forall pieces, mover: Piece, to, parts, turn |
      BoardOk(pieces) && OnceOnly(pieces) && mover in pieces && ValidCoord(to) && rules.move(pieces, mover.id, to, parts, turn).Ok?
      ensures Conserves(pieces, mover, to, rules.move(pieces, mover.id, to, parts, turn).value)
    {
      MoveConserves(g, pieces, mover, to, parts, turn);
    }
  }

  function Shipped(): Rules {
    ChessRules(Movegen.GenerateMoves)
  }

  lemma ShippedIsLawful()
    ensures Lawful(Shipped())
  {
    hide InitialPieces, Lawful, Movegen.GenerateMoves, HasLegalMove;
    Movegen.EngineSound();
    Movegen.EngineStartMobile();
    ChessIsLawful(Movegen.GenerateMoves);
  }

  /** Exactly the logs of accepted commands replay, to the same state, under the shipped engine. */
  lemma ShippedExactLanguage(parts: seq<ProblemPart>, t: ReplayState)
    requires |parts| == 64
    ensures (exists log :: Replayed(Shipped(), log, parts) == Ok(t))
       <==> (exists cmds :: RunCommands(Shipped(), CreateReplayState(Shipped()), cmds, parts) == Ok(t))
  {
    hide Shipped, RunCommands, Replayed, CreateReplayState;
    ShippedIsLawful();
    ExactLanguage(Shipped(), parts, t);
  }

  /** Every game of the shipped engine conserves its pieces, kings and trajectory. */
  lemma ShippedGamesAreSound(log: seq<Value>, parts: seq<ProblemPart>)
    requires Replayed(Shipped(), log, parts).Ok?
    ensures GameInv(Shipped(), Replayed(Shipped(), log, parts).value)
  {
    hide Shipped, Replayed, GameInv;
    ShippedIsLawful();
    ReplayedGamesAreSound(Shipped(), log, parts);
  }
}
