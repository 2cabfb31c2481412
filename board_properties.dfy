// Properties of `verify` and `move_piece`, and what the fixed starting
// layout of `Board::new` implies for them as the code is written.

module GameProperties {
  import opened Pieces
  import opened MoveGen
  import opened MoveProperties
  import opened Game

  // ---------------------------------------------------------------------
  // Any board

  /** The order in which `verify` decides: an empty origin is Invalid; then
      a piece of the opponent of `turn` is Invalid; then a Shuai with no
      move loses whatever `to` is; then a destination `possible` does not
      list is Invalid; everything else is Valid. */
  lemma VerifyOrder(b: Board, turn: Player, from: Pos, to: Pos)
    requires b.Inv() && OnBoard(from)
    ensures At(b.cells, from).piecetype == None ==> b.Verify(turn, from, to) == Ok(Invalid)
    ensures At(b.cells, from).piecetype != None && Rivals(At(b.cells, from).player, turn)
            ==> b.Verify(turn, from, to) == Ok(Invalid)
    ensures At(b.cells, from).piecetype == Shuai && !Rivals(At(b.cells, from).player, turn)
            && Moves(At(b.cells, from), b.cells, from.row, from.col) == Ok([])
            ==> b.Verify(turn, from, to)
                == (if At(b.cells, from).player == Red then Ok(GreenWin)
                    else if At(b.cells, from).player == Green then Ok(RedWin)
                    else Ok(Invalid))
    ensures At(b.cells, from).piecetype != None && !Rivals(At(b.cells, from).player, turn)
            && Moves(At(b.cells, from), b.cells, from.row, from.col).Ok?
            && !(At(b.cells, from).piecetype == Shuai && At(b.cells, from).player.IsSide()
                 && Moves(At(b.cells, from), b.cells, from.row, from.col) == Ok([]))
            ==> b.Verify(turn, from, to)
                == (if to in Moves(At(b.cells, from), b.cells, from.row, from.col).value then Ok(Valid)
                    else Ok(Invalid))
  {
  }

  /** On a board where every piece carries a real side, a Valid move takes
      a piece of a real side -- the side of `turn`, when that is a real side --
      to a cell other than its own that does not carry that side: the origin
      always carries its own side, which `allowed` refuses. */
  lemma ValidMoveOwnPiece(b: Board, turn: Player, from: Pos, to: Pos)
    requires b.Inv() && Consistent(b.cells)
    requires b.Verify(turn, from, to) == Ok(Valid)
    ensures At(b.cells, from).player.IsSide() && to != from
    ensures turn.IsSide() ==> At(b.cells, from).player == turn && At(b.cells, to).player != turn
  {
    assert b.cells[from.row, from.col].piecetype != None;
  }

  // ---------------------------------------------------------------------
  // The starting layout

  /** At the start every cell, empty ones included, carries a real side:
      Green on rows 0..4, Red on rows 5..9; so the layout is consistent and
      no cell carries NoneRed or NoneGreen. */
  lemma StartSides(g: array2<Piece>, row: int, col: int)
    requires IsGrid(g) && IsStart(g) && InBounds(row, col)
    ensures g[row, col].player == (if row <= 4 then Green else Red)
    ensures !g[row, col].player.IsNone()
  {
  }

  lemma StartConsistent(g: array2<Piece>)
    requires IsGrid(g) && IsStart(g)
    ensures Consistent(g)
  {
  }

  /** Exactly two cells hold a Shuai at the start: Green's at (0,4) and
      Red's at (9,4). */
  lemma StartShuaiCells(g: array2<Piece>, row: int, col: int)
    requires IsGrid(g) && IsStart(g) && InBounds(row, col)
    ensures g[row, col].piecetype == Shuai <==> (row == 0 || row == 9) && col == 4
    ensures g[row, col] == Piece(Shuai, Green) <==> row == 0 && col == 4
    ensures g[row, col] == Piece(Shuai, Red) <==> row == 9 && col == 4
  {
    assert g[row, col] == StartPiece(row, col);
    if row == 0 || row == 9 {
      assert BackRank[col] == Shuai <==> col == 4;
    }
  }

  /** Each Shuai is boxed in at the start: every orthogonal neighbour is
      off the board or carries its own side. */
  lemma StartShuaiNoMoves(g: array2<Piece>, row: int)
    requires IsGrid(g) && IsStart(g) && (row == 0 || row == 9)
    ensures Moves(g[row, 4], g, row, 4) == Ok([])
  {
    var p := g[row, 4];
    assert p == StartPiece(row, 4);
    var m := Moves(p, g, row, 4).value;
    if m != [] {
      var d := m[0];
      ShuaiMovesIff(p, g, row, 4, d);
    }
  }

  /** So selecting the Red Shuai at the start reports GreenWin (unless it is
      Green's turn), and selecting the Green Shuai reports RedWin (unless it
      is Red's turn), whatever the destination. */
  lemma StartShuaiLoses(b: Board, turn: Player, to: Pos)
    requires b.Inv() && IsStart(b.cells)
    ensures turn != Green ==> b.Verify(turn, Pos(9, 4), to) == Ok(GreenWin)
    ensures turn != Red ==> b.Verify(turn, Pos(0, 4), to) == Ok(RedWin)
  {
    StartShuaiNoMoves(b.cells, 9);
    StartShuaiNoMoves(b.cells, 0);
    StartShuaiCells(b.cells, 9, 4);
    StartShuaiCells(b.cells, 0, 4);
  }

  /** No piece of the starting layout has a destination: every call of
      `possible` there either panics or returns the empty list. */
  lemma StartStuck(g: array2<Piece>, row: int, col: int)
    requires IsGrid(g) && IsStart(g) && InBounds(row, col)
    ensures Moves(g[row, col], g, row, col).Ok? ==> Moves(g[row, col], g, row, col).value == []
  {
    var p := g[row, col];
    assert p == StartPiece(row, col);
    match p.piecetype {
      case None =>
      case Ju => StartJuStuck(g, row, col);
      case Pao => StartPaoStuck(g, row, col);
      case Ma => MaPanicsOnBorder(p, g, row, col);
      case Xiang => XiangPanicsOnBorder(p, g, row, col);
      case Shi => StartShiStuck(g, row, col);
      case Shuai =>
        StartShuaiCells(g, row, col);
        StartShuaiNoMoves(g, row);
      case Bing => StartBingStuck(g, row, col);
    }
  }

  /** From the starting layout no request is Valid, for either side: each
      one is Invalid, a Shuai "win", or a panic. */
  lemma StartNoValidMove(b: Board, turn: Player, from: Pos, to: Pos)
    requires b.Inv() && IsStart(b.cells)
    ensures b.Verify(turn, from, to) != Ok(Valid)
  {
    if OnBoard(from) {
      StartStuck(b.cells, from.row, from.col);
    }
  }

  // ---------------------------------------------------------------------
  // Helpers for StartStuck, one per piece kind

  /** A scan over a line whose first cell carries a real side. */
  lemma RunFromSided(p: Piece, g: array2<Piece>, line: seq<Pos>)
    requires IsGrid(g) && AllOnBoard(line) && line != [] && !At(g, line[0]).player.IsNone()
    ensures JuRun(p, g, line) == (if Rivals(At(g, line[0]).player, p.player) then [line[0]] else [])
    ensures PaoRun(p, g, line)
            == (if 1 < |line| && Rivals(At(g, line[1]).player, p.player) then [line[1]] else [])
  {
    JuRunShape(p, g, line, 0);
    PaoRunShape(p, g, line, 0);
  }

  lemma StartJuStuck(g: array2<Piece>, row: int, col: int)
    requires IsGrid(g) && IsStart(g) && InBounds(row, col) && g[row, col].piecetype == Ju
    ensures Moves(g[row, col], g, row, col) == Ok([])
  {
    var p := g[row, col];
    assert p == StartPiece(row, col);
    JuOnOwnCell(p, g, row, col);
    var left, up := LeftRay(row, col), UpRay(row, col);
    if left != [] {
      RunFromSided(p, g, left);
      assert g[row, col - 1] == StartPiece(row, col - 1);
    }
    if up != [] {
      RunFromSided(p, g, up);
      assert g[row - 1, col] == StartPiece(row - 1, col);
    }
  }

  lemma StartPaoStuck(g: array2<Piece>, row: int, col: int)
    requires IsGrid(g) && IsStart(g) && InBounds(row, col) && g[row, col].piecetype == Pao
    ensures Moves(g[row, col], g, row, col) == Ok([])
  {
    var p := g[row, col];
    assert p == StartPiece(row, col);
    assert (row == 2 || row == 7) && (col == 1 || col == 7);
    PaoOnOwnCell(p, g, row, col);
    StartSameHalf(g, row, col, row, col + 1);
    StartSameHalf(g, row, col, row + 1, col);
    StartPaoLeftUp(g, row, col);
    var right: seq<Pos> := if col + 1 <= 8 && Rivals(g[row, col + 1].player, p.player) then [Pos(row, col + 1)] else [];
    var down: seq<Pos> := if row + 1 <= 7 && Rivals(g[row + 1, col].player, p.player) then [Pos(row + 1, col)] else [];
    assert right == [] && down == [];
    assert right + PaoRun(p, g, LeftRay(row, col)) + down + PaoRun(p, g, UpRay(row, col)) == [];
  }

  /** Helper for StartPaoStuck: the leftward and upward scans of a starting
      Pao find their screen next to it and a cell of its own side after it. */
  lemma StartPaoLeftUp(g: array2<Piece>, row: int, col: int)
    requires IsGrid(g) && IsStart(g) && (row == 2 || row == 7) && (col == 1 || col == 7)
    ensures PaoRun(g[row, col], g, LeftRay(row, col)) == []
    ensures PaoRun(g[row, col], g, UpRay(row, col)) == []
  {
    var p := g[row, col];
    RunFromSided(p, g, LeftRay(row, col));
    if col == 7 {
      StartSameHalf(g, row, col, row, col - 2);
    }
    RunFromSided(p, g, UpRay(row, col));
    StartSameHalf(g, row, col, row - 2, col);
  }

  /** Two starting cells in the same half of the board are never rivals. */
  lemma StartSameHalf(g: array2<Piece>, r1: int, c1: int, r2: int, c2: int)
    requires IsGrid(g) && IsStart(g) && InBounds(r1, c1) && InBounds(r2, c2)
    requires (r1 <= 4) == (r2 <= 4)
    ensures !Rivals(g[r2, c2].player, g[r1, c1].player)
  {
    assert g[r1, c1] == StartPiece(r1, c1) && g[r2, c2] == StartPiece(r2, c2);
  }

  lemma StartShiStuck(g: array2<Piece>, row: int, col: int)
    requires IsGrid(g) && IsStart(g) && InBounds(row, col) && g[row, col].piecetype == Shi
    ensures Moves(g[row, col], g, row, col) == Ok([])
  {
    var p := g[row, col];
    assert p == StartPiece(row, col);
    var m := Moves(p, g, row, col).value;
    if m != [] {
      var d := m[0];
      ShiMovesIff(p, g, row, col, d);
    }
  }

  lemma StartBingStuck(g: array2<Piece>, row: int, col: int)
    requires IsGrid(g) && IsStart(g) && InBounds(row, col) && g[row, col].piecetype == Bing
    ensures Moves(g[row, col], g, row, col) == Ok([])
  {
    var p := g[row, col];
    assert p == StartPiece(row, col);
    BingPanics(p, g, row, col);
    var m := Moves(p, g, row, col).value;
    if m != [] {
      var d := m[0];
      BingMovesIff(p, g, row, col, d);
    }
  }
}
