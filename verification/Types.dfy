/** The records that several components share (src/types.ts). */
module Types {
  import opened Wrappers

  datatype Side = White | Black {
    function Other(): Side {
      if White? then Black else White
    }
  }

  datatype Kind = King | Queen | Rook | Bishop | Knight | Pawn

  datatype Coord = Coord(ring: int, sector: int)

  datatype Piece = Piece(id: string, side: Side, kind: Kind, at: Coord, moved: bool)

  datatype ProblemPart = ProblemPart(
    id: int, title: string, focus: string, hexagram: int, hexagramName: string, theme: string,
    dimension: string, movement: string, prompt: string, keyword: string,
    castApplication: Option<string>)

  /** The three parts of a capture's id; the source joins them with dashes. */
  datatype CaptureId = CaptureId(turn: int, attackerId: string, capturedId: string)

  /** The narration text of a capture is not modelled. */
  datatype CaptureRecord = CaptureRecord(
    id: CaptureId, turn: int, attacker: Piece, captured: Piece, cell: Coord, part: ProblemPart,
    resonance: int)
}
