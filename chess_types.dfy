/** Values shared by every part of the chess board viewer: optional and
    fallible results, squares numbered as the chess library numbers them,
    and moves. */
module ChessTypes {

  datatype Option<T> = None | Some(value: T)

  datatype Result<T, E> = Ok(value: T) | Err(error: E)

  /** A square index: a1 = 0, b1 = 1, ..., h1 = 7, a2 = 8, ..., h8 = 63. */
  type Square = s: int | 0 <= s < 64

  /** The square on the given file (0 = a) and rank (0 = the first rank). */
  function SquareAt(file: int, rank: int): (sq: Square)
    requires 0 <= file < 8 && 0 <= rank < 8
    ensures FileOf(sq) == file && RankOf(sq) == rank
  {
    rank * 8 + file
  }

  function FileOf(sq: Square): (f: int)
    ensures 0 <= f < 8
  {
    sq % 8
  }

  function RankOf(sq: Square): (r: int)
    ensures 0 <= r < 8
  {
    sq / 8
  }

  /** A square is determined by its file and rank. */
  lemma SquareFromFileRank(sq: Square)
    ensures SquareAt(FileOf(sq), RankOf(sq)) == sq
  {
  }

  const A1: Square := SquareAt(0, 0)
  const A8: Square := SquareAt(0, 7)

  datatype PieceType = Knight | Bishop | Rook | Queen

  /** A move from one square to another, with the piece a pawn promotes to. */
  datatype Move = Move(fromSquare: Square, toSquare: Square, promotion: Option<PieceType>)
}
