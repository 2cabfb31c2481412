// Value types of the rules engine: piece kinds, players, pieces, board
// coordinates, move outcomes, and the failure value that stands for a panic.

module Pieces {

  /** The seven Xiangqi piece kinds, plus `None` for a cell without a piece. */
  datatype PieceType = None | Shuai | Shi | Xiang | Ma | Ju | Pao | Bing

  /** What `verify` and `move_piece` report. */
  datatype MoveResult = Valid | Invalid | RedWin | GreenWin

  /** The two sides, plus two "nobody" tags that an empty cell may carry. */
  datatype Player = NoneRed | NoneGreen | Red | Green {
    /** One of the two real sides. */
    predicate IsSide() { this == Red || this == Green }
    /** One of the two "nobody" tags. */
    predicate IsNone() { this == NoneRed || this == NoneGreen }
  }

  /** The occupant of one cell; an empty cell still carries a player tag. */
  datatype Piece = Piece(piecetype: PieceType, player: Player)

  /** The value `move_piece` leaves behind in the cell a piece moved from. */
  const Vacated: Piece := Piece(None, NoneGreen)

  /** A grid coordinate. A negative value stands for a wrapped-around `usize`. */
  datatype Pos = Pos(row: int, col: int)

  /** Rows 0..9 and columns 0..8: the cells the 10 x 9 grid can index. */
  predicate InBounds(row: int, col: int) {
    0 <= row <= 9 && 0 <= col <= 8
  }

  predicate OnBoard(pos: Pos) {
    InBounds(pos.row, pos.col)
  }

  /** The pair `(Red, Red) | (Green, Green)`: a cell holding the mover's own side. */
  predicate Friends(cell: Player, mover: Player) {
    (cell == Red && mover == Red) || (cell == Green && mover == Green)
  }

  /** The pair `(Red, Green) | (Green, Red)`: a cell holding the opponent. */
  predicate Rivals(cell: Player, mover: Player) {
    (cell == Red && mover == Green) || (cell == Green && mover == Red)
  }

  /** A computation that either finishes with a value or panics (an array
      index out of range). Usable with `:-`. */
  datatype Checked<+T> = Ok(value: T) | Panic {
    predicate IsFailure() { Panic? }

    function PropagateFailure<U>(): Checked<U>
      requires Panic?
    {
      Panic
    }

    function Extract(): T
      requires Ok?
    {
      value
    }
  }
}
