/**
 * The chess rules library, seen from the controller. The controller never
 * implements a rule: it asks a position for its side to move, its pieces,
 * its legal moves (in the library's generation order), whether a move is a
 * capture, an en passant capture or a castling, whether the game is over and
 * who won, and it pushes moves and parses FEN text. All of that is gathered
 * in a `Rules<P>` value over an opaque position type `P`; every property in
 * this project holds for every such value.
 */
module ChessRules {
  import opened Wrappers

  /** A board square, 0 (a1) to 63 (h8). */
  type Square = s: int | 0 <= s < 64

  /** A row or column index of the 8x8 button grid. */
  type Coord = i: int | 0 <= i < 8

  function Rank(s: Square): Coord { s / 8 }

  function File(s: Square): Coord { s % 8 }

  /** The square on `file` and `rank`; it has exactly that rank and file. */
  function SquareAt(file: Coord, rank: Coord): (s: Square)
    ensures Rank(s) == rank && File(s) == file
  {
    rank * 8 + file
  }

  /** The checkerboard parity the controller calls dark: rank + file even. */
  predicate IsDark(s: Square) {
    (Rank(s) + File(s)) % 2 == 0
  }

  datatype Side = White | Black

  datatype PieceType = Pawn | Knight | Bishop | Rook | Queen | King

  datatype Piece = Piece(kind: PieceType, color: Side)

  /** A move: origin, destination and an optional promotion piece. */
  datatype Move = Move(from: Square, to: Square, promotion: Option<PieceType>)

  /** The library's null move, a1 to a1, used to pass the turn. */
  const NullMove: Move := Move(0, 0, None)

  /** A move object is false in a Boolean context exactly when it is the null move. */
  predicate Truthy(m: Move) {
    m.from != 0 || m.to != 0 || m.promotion.Some?
  }

  datatype Rules<!P> = Rules(
    turn: P -> Side,
    pieceAt: (P, Square) -> Option<Piece>,
    legalMoves: P -> seq<Move>,
    isCapture: (P, Move) -> bool,
    isEnPassant: (P, Move) -> bool,
    isCastling: (P, Move) -> bool,
    push: (P, Move) -> P,
    isGameOver: P -> bool,
    winner: P -> Option<Side>,
    startingPosition: P,
    parseFen: string -> Option<P>)

  predicate IsLegal<P>(rules: Rules<P>, p: P, m: Move) {
    m in rules.legalMoves(p)
  }

  predicate IsPawnAt<P>(rules: Rules<P>, p: P, s: Square) {
    match rules.pieceAt(p, s)
    case Some(piece) => piece.kind == Pawn
    case None => false
  }
}
