// The board: its fixed starting layout, `verify` (is a requested move
// legal, or has a side lost?) and `move_piece` (verify, then relocate).

module Game {
  import opened Pieces
  import opened MoveGen
  import opened MoveProperties

  /** The piece kinds of the two back ranks, by column. */
  const BackRank: seq<PieceType> := [Ju, Ma, Xiang, Shi, Shuai, Shi, Xiang, Ma, Ju]

  /** The piece kind `Board::new` puts on a cell: back ranks on rows 0 and 9,
      Pao on columns 1 and 7 of rows 2 and 7, Bing on the even columns of
      rows 3 and 6, and `None` everywhere else. */
  function StartType(row: int, col: int): PieceType
    requires InBounds(row, col)
  {
    if row == 0 || row == 9 then BackRank[col]
    else if (row == 2 || row == 7) && (col == 1 || col == 7) then Pao
    else if (row == 3 || row == 6) && col % 2 == 0 then Bing
    else None
  }

  /** The player tag `Board::new` puts on a cell: `Green` on rows 0..4 and
      `Red` on rows 5..9 -- empty cells included. */
  function StartSide(row: int): Player {
    if row <= 4 then Green else Red
  }

  function StartPiece(row: int, col: int): Piece
    requires InBounds(row, col)
  {
    Piece(StartType(row, col), StartSide(row))
  }

  ghost predicate IsStart(g: array2<Piece>)
    reads g
    requires IsGrid(g)
  {
    forall row, col :: InBounds(row, col) ==> g[row, col] == StartPiece(row, col)
  }

  /** Every cell holding a piece carries one of the two real sides. */
  ghost predicate Consistent(g: array2<Piece>)
    reads g
    requires IsGrid(g)
  {
    forall row, col :: InBounds(row, col) && g[row, col].piecetype != None ==> g[row, col].player.IsSide()
  }

  class Board {
    /** The 10 x 9 grid, indexed [row, col]. */
    var cells: array2<Piece>

    ghost predicate Inv()
      reads this
    {
      IsGrid(cells)
    }

    /** `Board::new`: the fixed starting layout. */
    constructor New()
      ensures Inv() && fresh(cells)
      ensures IsStart(cells)
    {
      cells := new Piece[10, 9]((row, col) requires 0 <= row < 10 && 0 <= col < 9 => StartPiece(row, col));
    }

    /** `verify`: indexing the origin panics when it is off the board; an
        empty origin, or a piece of the opponent of `turn`, is Invalid; a
        Shuai with no move at all loses the game; otherwise the move is Valid
        exactly when `possible` lists the destination. */
    function Verify(turn: Player, from: Pos, to: Pos): (r: Checked<MoveResult>)
      reads this, cells
      requires Inv()
      ensures r.Panic? <==> !OnBoard(from)
                            || (At(cells, from).piecetype != None && !Rivals(At(cells, from).player, turn)
                                && Moves(At(cells, from), cells, from.row, from.col).Panic?)
      ensures r == Ok(Valid) <==>
                OnBoard(from) && At(cells, from).piecetype != None && !Rivals(At(cells, from).player, turn)
                && Moves(At(cells, from), cells, from.row, from.col).Ok?
                && to in Moves(At(cells, from), cells, from.row, from.col).value
      ensures r == Ok(Valid) ==> OnBoard(to) && Allowed(At(cells, from), cells, to.row, to.col)
      ensures r == Ok(GreenWin) <==>
                OnBoard(from) && At(cells, from) == Piece(Shuai, Red) && turn != Green
                && Moves(At(cells, from), cells, from.row, from.col) == Ok([])
      ensures r == Ok(RedWin) <==>
                OnBoard(from) && At(cells, from) == Piece(Shuai, Green) && turn != Red
                && Moves(At(cells, from), cells, from.row, from.col) == Ok([])
    {
      if !OnBoard(from) then Panic
      else
        var piece := At(cells, from);
        if piece.piecetype == None then Ok(Invalid)
        else if Rivals(piece.player, turn) then Ok(Invalid)
        else
          var m :- Moves(piece, cells, from.row, from.col);
          if piece.piecetype == Shuai && piece.player == Red && |m| == 0 then Ok(GreenWin)
          else if piece.piecetype == Shuai && piece.player == Green && |m| == 0 then Ok(RedWin)
          else if to !in m then Ok(Invalid)
          else
            MovesOnBoard(piece, cells, from.row, from.col, to);
            Ok(Valid)
    }

    /** `move_piece`: the result of `verify`; on Valid the piece at `from` is
        copied to `to` and `from` is left as (None, NoneGreen); on any other
        result the board is unchanged. */
    method MovePiece(turn: Player, from: Pos, to: Pos) returns (r: Checked<MoveResult>)
      requires Inv()
      modifies cells
      ensures Inv()
      ensures r == old(Verify(turn, from, to))
      ensures r == Ok(Valid) ==>
                forall row, col :: InBounds(row, col) ==>
                  cells[row, col] == (if Pos(row, col) == from then Vacated
                                      else if Pos(row, col) == to then old(cells[from.row, from.col])
                                      else old(cells[row, col]))
      ensures r != Ok(Valid) ==> unchanged(cells)
      ensures old(Consistent(cells)) ==> Consistent(cells)
    {
      r := Verify(turn, from, to);
      if r == Ok(Valid) {
        cells[to.row, to.col] := cells[from.row, from.col];
        cells[from.row, from.col] := Vacated;
      }
    }
  }
}
