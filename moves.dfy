// The per-cell predicates `vacant` and `allowed` and the per-piece move
// generator `possible` of src/board.rs, over the 10 x 9 grid of pieces.
//
// Each part of `possible` is given twice: as a specification function
// (`JuMoves`, `MaMoves`, ..., `Moves`) and as a method that builds the list by
// pushing onto a local sequence inside loops with `break`, as the source does
// (`PossibleJu`, ..., `Possible`). Every method is proved to return exactly its
// specification function; the properties of the functions are proved in
// module MoveProperties.
//
// The methods for Ma and Xiang (`MaLegPush`, `PossibleMa`, `XiangStepPush`,
// `PossibleXiang`) and the dispatch `Possible` have no loop: they follow the
// source's straight-line pushes one by one and so repeat their functions
// statement for statement. They are kept so that every arm of `possible` has
// an imperative counterpart; the lemmas are stated about the functions.
//
// An out-of-range index panics in the source. Every probe of a computed cell
// goes through `VacantAt` or `AllowedAt`, which give `Panic` for a cell off the
// board; a panic ends the whole computation.

module MoveGen {
  import opened Pieces

  /** The grid has the shape of `[[Piece; 9]; 10]`. */
  predicate IsGrid(g: array2<Piece>) {
    g.Length0 == 10 && g.Length1 == 9
  }

  function At(g: array2<Piece>, pos: Pos): Piece
    reads g
    requires IsGrid(g) && OnBoard(pos)
  {
    g[pos.row, pos.col]
  }

  /** `Piece::vacant`: the cell has piecetype None, whatever its player tag. */
  predicate Vacant(g: array2<Piece>, row: int, col: int): (r: bool)
    reads g
    requires IsGrid(g) && InBounds(row, col)
    ensures r <==> g[row, col] in {Piece(None, NoneRed), Piece(None, NoneGreen), Piece(None, Red), Piece(None, Green)}
  {
    var c := g[row, col];
    assert c.player.NoneRed? || c.player.NoneGreen? || c.player.Red? || c.player.Green?;
    c.piecetype == None
  }

  /** `Piece::allowed`: the cell does not carry the mover's own side. An empty
      cell tagged with the mover's side is not allowed either. */
  predicate Allowed(p: Piece, g: array2<Piece>, row: int, col: int): (r: bool)
    reads g
    requires IsGrid(g) && InBounds(row, col)
    ensures !r <==> p.player.IsSide() && g[row, col].player == p.player
  {
    !Friends(g[row, col].player, p.player)
  }

  /** A call of `vacant` on a computed cell: it indexes the grid first. */
  function VacantAt(g: array2<Piece>, pos: Pos): Checked<bool>
    reads g
    requires IsGrid(g)
  {
    if OnBoard(pos) then Ok(Vacant(g, pos.row, pos.col)) else Panic
  }

  /** A call of `allowed` on a computed cell: it indexes the grid first. */
  function AllowedAt(p: Piece, g: array2<Piece>, pos: Pos): Checked<bool>
    reads g
    requires IsGrid(g)
  {
    if OnBoard(pos) then Ok(Allowed(p, g, pos.row, pos.col)) else Panic
  }

  predicate AllOnBoard(line: seq<Pos>) {
    forall i :: 0 <= i < |line| ==> OnBoard(line[i])
  }

  // ---------------------------------------------------------------------
  // Lines of cells scanned by Ju and Pao

  datatype Dir = Up | Down | Left | Right

  function Shift(s: Pos, d: Dir, k: int): Pos {
    match d
    case Up => Pos(s.row - k, s.col)
    case Down => Pos(s.row + k, s.col)
    case Left => Pos(s.row, s.col - k)
    case Right => Pos(s.row, s.col + k)
  }

  /** The `n` cells starting at `s` and going in direction `d`. */
  function Ray(s: Pos, d: Dir, n: nat): (r: seq<Pos>)
    ensures |r| == n
    ensures forall i :: 0 <= i < n ==> r[i] == Shift(s, d, i)
  {
    seq(n, i => Shift(s, d, i))
  }

  /** `for col in pcol..9`: the cells from (prow, pcol) rightwards, the
      piece's own cell first. */
  function RightRay(prow: int, pcol: int): (r: seq<Pos>)
    requires 0 <= prow <= 9 && 0 <= pcol <= 9
    ensures AllOnBoard(r)
  {
    Ray(Pos(prow, pcol), Right, 9 - pcol)
  }

  /** `for col in (0..pcol).rev()`: the cells left of (prow, pcol), nearest first. */
  function LeftRay(prow: int, pcol: int): (r: seq<Pos>)
    requires 0 <= prow <= 9 && 0 <= pcol <= 9
    ensures AllOnBoard(r)
  {
    Ray(Pos(prow, pcol - 1), Left, pcol)
  }

  /** `for row in prow..8`: the cells from (prow, pcol) downwards, the piece's
      own cell first, stopping before row 8; empty from row 8 on. */
  function DownRay(prow: int, pcol: int): (r: seq<Pos>)
    requires 0 <= prow <= 9 && 0 <= pcol <= 8
    ensures AllOnBoard(r)
  {
    Ray(Pos(prow, pcol), Down, if prow < 8 then 8 - prow else 0)
  }

  /** `for row in (0..prow).rev()`: the cells above (prow, pcol), nearest first. */
  function UpRay(prow: int, pcol: int): (r: seq<Pos>)
    requires 0 <= prow <= 10 && 0 <= pcol <= 8
    ensures AllOnBoard(r)
  {
    Ray(Pos(prow - 1, pcol), Up, prow)
  }

  /** One Ju scan: every cell tagged NoneRed/NoneGreen is a destination; the
      first other cell ends the scan and is a destination only when it holds
      the opponent. */
  function JuRun(p: Piece, g: array2<Piece>, line: seq<Pos>): seq<Pos>
    reads g
    requires IsGrid(g) && AllOnBoard(line)
  {
    if line == [] then []
    else
      var cell := At(g, line[0]).player;
      if cell.IsNone() then [line[0]] + JuRun(p, g, line[1..])
      else if Rivals(cell, p.player) then [line[0]]
      else []
  }

  /** One Pao scan: the cells tagged NoneRed/NoneGreen before the first other
      cell (the screen), then at most the one cell right after the screen. */
  function PaoRun(p: Piece, g: array2<Piece>, line: seq<Pos>): seq<Pos>
    reads g
    requires IsGrid(g) && AllOnBoard(line)
  {
    if line == [] then []
    else if At(g, line[0]).player.IsNone() then [line[0]] + PaoRun(p, g, line[1..])
    else PaoJump(p, g, line[1..])
  }

  /** The cell right after a Pao's screen, when it holds the opponent. */
  function PaoJump(p: Piece, g: array2<Piece>, line: seq<Pos>): seq<Pos>
    reads g
    requires IsGrid(g) && AllOnBoard(line)
  {
    if line != [] && Rivals(At(g, line[0]).player, p.player) then [line[0]] else []
  }

  // ---------------------------------------------------------------------
  // Specification of `possible`, piece by piece

  function JuMoves(p: Piece, g: array2<Piece>, prow: int, pcol: int): seq<Pos>
    reads g
    requires IsGrid(g) && InBounds(prow, pcol)
  {
    JuRun(p, g, RightRay(prow, pcol)) + JuRun(p, g, LeftRay(prow, pcol))
    + JuRun(p, g, DownRay(prow, pcol)) + JuRun(p, g, UpRay(prow, pcol))
  }

  function PaoMoves(p: Piece, g: array2<Piece>, prow: int, pcol: int): seq<Pos>
    reads g
    requires IsGrid(g) && InBounds(prow, pcol)
  {
    PaoRun(p, g, RightRay(prow, pcol)) + PaoRun(p, g, LeftRay(prow, pcol))
    + PaoRun(p, g, DownRay(prow, pcol)) + PaoRun(p, g, UpRay(prow, pcol))
  }

  /** One Ma leg: when the orthogonal `leg` cell is vacant, the two cells past
      it are probed with `allowed`, in this order. */
  function MaLeg(p: Piece, g: array2<Piece>, leg: Pos, first: Pos, second: Pos): Checked<seq<Pos>>
    reads g
    requires IsGrid(g)
  {
    var clear :- VacantAt(g, leg);
    if !clear then Ok([])
    else
      var a :- AllowedAt(p, g, first);
      var b :- AllowedAt(p, g, second);
      Ok((if a then [first] else []) + (if b then [second] else []))
  }

  function MaMoves(p: Piece, g: array2<Piece>, prow: int, pcol: int): Checked<seq<Pos>>
    reads g
    requires IsGrid(g)
  {
    var down :- MaLeg(p, g, Pos(prow + 1, pcol), Pos(prow + 2, pcol + 1), Pos(prow + 2, pcol - 1));
    var up :- MaLeg(p, g, Pos(prow - 1, pcol), Pos(prow - 2, pcol + 1), Pos(prow - 2, pcol - 1));
    var right :- MaLeg(p, g, Pos(prow, pcol + 1), Pos(prow - 1, pcol + 2), Pos(prow + 1, pcol + 2));
    var left :- MaLeg(p, g, Pos(prow, pcol - 1), Pos(prow - 1, pcol - 2), Pos(prow + 1, pcol - 2));
    Ok(down + up + right + left)
  }

  /** One Xiang direction: `vacant(eye) && allowed(target)`, short-circuit. */
  function XiangStep(p: Piece, g: array2<Piece>, eye: Pos, target: Pos): Checked<seq<Pos>>
    reads g
    requires IsGrid(g)
  {
    var clear :- VacantAt(g, eye);
    if !clear then Ok([])
    else
      var a :- AllowedAt(p, g, target);
      Ok(if a then [target] else [])
  }

  function XiangMoves(p: Piece, g: array2<Piece>, prow: int, pcol: int): Checked<seq<Pos>>
    reads g
    requires IsGrid(g)
  {
    if !p.player.IsSide() then Ok([])
    else
      var s1 :- XiangStep(p, g, Pos(prow - 1, pcol - 1), Pos(prow - 2, pcol - 2));
      var s2 :- XiangStep(p, g, Pos(prow + 1, pcol + 1), Pos(prow + 2, pcol + 2));
      var s3 :- XiangStep(p, g, Pos(prow - 1, pcol + 1), Pos(prow - 2, pcol + 2));
      var s4 :- XiangStep(p, g, Pos(prow + 1, pcol - 1), Pos(prow + 2, pcol - 2));
      Ok(s1 + s2 + s3 + s4)
  }

  /** The candidates that pass `allowed`, in order; all are on the board. */
  function AllowedOf(p: Piece, g: array2<Piece>, cands: seq<Pos>): seq<Pos>
    reads g
    requires IsGrid(g) && AllOnBoard(cands)
  {
    if cands == [] then []
    else (if Allowed(p, g, cands[0].row, cands[0].col) then [cands[0]] else [])
         + AllowedOf(p, g, cands[1..])
  }

  /** The candidates that pass `allowed`, probing each in turn; panics at the
      first candidate off the board. */
  function ProbeAll(p: Piece, g: array2<Piece>, cands: seq<Pos>): Checked<seq<Pos>>
    reads g
    requires IsGrid(g)
  {
    if cands == [] then Ok([])
    else
      var a :- AllowedAt(p, g, cands[0]);
      var rest :- ProbeAll(p, g, cands[1..]);
      Ok((if a then [cands[0]] else []) + rest)
  }

  /** The Shi rule around palace centre `centre`: the centre from one of its
      four diagonal neighbours, the listed corners from the centre itself. */
  function ShiFrom(p: Piece, g: array2<Piece>, prow: int, pcol: int, centre: Pos, corners: seq<Pos>): seq<Pos>
    reads g
    requires IsGrid(g) && OnBoard(centre) && AllOnBoard(corners)
  {
    (if ((prow + 1 == centre.row && pcol + 1 == centre.col)
         || (prow + 1 == centre.row && pcol - 1 == centre.col)
         || (prow - 1 == centre.row && pcol + 1 == centre.col)
         || (prow - 1 == centre.row && pcol - 1 == centre.col))
        && Allowed(p, g, centre.row, centre.col)
     then [centre] else [])
    + (if prow == centre.row && pcol == centre.col then AllowedOf(p, g, corners) else [])
  }

  const RedShiCentre := Pos(8, 4)
  const RedShiCorners := [Pos(9, 5), Pos(9, 3), Pos(7, 5), Pos(7, 3)]
  const GreenShiCentre := Pos(1, 4)
  const GreenShiCorners := [Pos(2, 5), Pos(2, 3), Pos(0, 5), Pos(0, 3)]

  function ShiMoves(p: Piece, g: array2<Piece>, prow: int, pcol: int): seq<Pos>
    reads g
    requires IsGrid(g)
  {
    match p.player
    case Red => ShiFrom(p, g, prow, pcol, RedShiCentre, RedShiCorners)
    case Green => ShiFrom(p, g, prow, pcol, GreenShiCentre, GreenShiCorners)
    case _ => []
  }

  function BingMoves(p: Piece, g: array2<Piece>, prow: int, pcol: int): Checked<seq<Pos>>
    reads g
    requires IsGrid(g) && InBounds(prow, pcol)
  {
    match p.player
    case Red =>
      if prow <= 4 then ProbeAll(p, g, [Pos(prow - 1, pcol), Pos(prow, pcol - 1), Pos(prow, pcol + 1)])
      else Ok(if Allowed(p, g, prow - 1, pcol) then [Pos(prow - 1, pcol)] else [])
    case Green =>
      if prow >= 5 then ProbeAll(p, g, [Pos(prow + 1, pcol), Pos(prow, pcol - 1), Pos(prow, pcol + 1)])
      else Ok(if Allowed(p, g, prow + 1, pcol) then [Pos(prow + 1, pcol)] else [])
    case _ => Ok([])
  }

  /** The hard-coded Shuai region: rows 7..9 for Red, rows 0..2 for Green,
      columns 3..5. For Green the source tests only `row <= 2`; a wrapped
      `usize` fails that test, which `0 <= row` says here. */
  predicate InPalace(side: Player, pos: Pos) {
    if side == Red then 7 <= pos.row <= 9 && 3 <= pos.col <= 5
    else 0 <= pos.row <= 2 && 3 <= pos.col <= 5
  }

  /** The candidates inside `side`'s palace that pass `allowed`, in order. */
  function PalaceSteps(p: Piece, g: array2<Piece>, side: Player, cands: seq<Pos>): seq<Pos>
    reads g
    requires IsGrid(g)
  {
    if cands == [] then []
    else (if InPalace(side, cands[0]) && Allowed(p, g, cands[0].row, cands[0].col) then [cands[0]] else [])
         + PalaceSteps(p, g, side, cands[1..])
  }

  /** The four orthogonal neighbours, in the order the source lists them. */
  function Neighbours(prow: int, pcol: int): seq<Pos> {
    [Pos(prow + 1, pcol), Pos(prow - 1, pcol), Pos(prow, pcol + 1), Pos(prow, pcol - 1)]
  }

  function ShuaiMoves(p: Piece, g: array2<Piece>, prow: int, pcol: int): seq<Pos>
    reads g
    requires IsGrid(g)
  {
    match p.player
    case Red => PalaceSteps(p, g, Red, Neighbours(prow, pcol))
    case Green => PalaceSteps(p, g, Green, Neighbours(prow, pcol))
    case _ => []
  }

  /** `Piece::possible` for piece `p` standing at (prow, pcol). */
  function Moves(p: Piece, g: array2<Piece>, prow: int, pcol: int): Checked<seq<Pos>>
    reads g
    requires IsGrid(g) && InBounds(prow, pcol)
  {
    match p.piecetype
    case Ju => Ok(JuMoves(p, g, prow, pcol))
    case Ma => MaMoves(p, g, prow, pcol)
    case Shi => Ok(ShiMoves(p, g, prow, pcol))
    case Xiang => XiangMoves(p, g, prow, pcol)
    case Bing => BingMoves(p, g, prow, pcol)
    case Shuai => Ok(ShuaiMoves(p, g, prow, pcol))
    case Pao => Ok(PaoMoves(p, g, prow, pcol))
    case None => Ok([])
  }

  // ---------------------------------------------------------------------
  // `possible` as the source computes it: a local list `v` that each rule
  // pushes onto, inside loops that `break`

  method Possible(p: Piece, g: array2<Piece>, prow: int, pcol: int) returns (r: Checked<seq<Pos>>)
    requires IsGrid(g) && InBounds(prow, pcol)
    ensures r == Moves(p, g, prow, pcol)
  {
    match p.piecetype {
      case Ju =>
        var v := PossibleJu(p, g, prow, pcol);
        r := Ok(v);
      case Ma =>
        r := PossibleMa(p, g, prow, pcol);
      case Shi =>
        var v := PossibleShi(p, g, prow, pcol);
        r := Ok(v);
      case Xiang =>
        r := PossibleXiang(p, g, prow, pcol);
      case Bing =>
        r := PossibleBing(p, g, prow, pcol);
      case Shuai =>
        var v := PossibleShuai(p, g, prow, pcol);
        r := Ok(v);
      case Pao =>
        var v := PossiblePao(p, g, prow, pcol);
        r := Ok(v);
      case None =>
        r := Ok([]);
    }
  }

  /** One Ju `for` loop over the cells of `line`, pushing onto `v0`. */
  method JuScan(p: Piece, g: array2<Piece>, v0: seq<Pos>, line: seq<Pos>) returns (v: seq<Pos>)
    requires IsGrid(g) && AllOnBoard(line)
    ensures v == v0 + JuRun(p, g, line)
  {
    v := v0;
    for k := 0 to |line|
      invariant v + JuRun(p, g, line[k..]) == v0 + JuRun(p, g, line)
    {
      var pos := line[k];
      assert line[k..] == [pos] + line[k + 1..];
      var cell := g[pos.row, pos.col].player;
      if cell.IsNone() {
        // a free cell (src/board.rs:72): push and go on
        v := v + [pos];
      } else if Rivals(cell, p.player) {
        // the opponent (src/board.rs:73-76): push and stop
        v := v + [pos];
        break;
      } else {
        // anything else (src/board.rs:77): stop
        break;
      }
    }
  }

  method PossibleJu(p: Piece, g: array2<Piece>, prow: int, pcol: int) returns (v: seq<Pos>)
    requires IsGrid(g) && InBounds(prow, pcol)
    ensures v == JuMoves(p, g, prow, pcol)
  {
    var right, left, down, up := RightRay(prow, pcol), LeftRay(prow, pcol), DownRay(prow, pcol), UpRay(prow, pcol);
    v := JuScan(p, g, [], right);  // rightward from its own cell (src/board.rs:70)
    assert v == JuRun(p, g, right);
    v := JuScan(p, g, v, left);    // leftward (src/board.rs:80)
    v := JuScan(p, g, v, down);    // downward from its own cell, above row 8 (src/board.rs:90)
    v := JuScan(p, g, v, up);      // upward (src/board.rs:100)
  }

  /** One Pao `for` loop over the cells of `line`, with `flag` set once the
      screen is passed, pushing onto `v0`. */
  method PaoScan(p: Piece, g: array2<Piece>, v0: seq<Pos>, line: seq<Pos>) returns (v: seq<Pos>)
    requires IsGrid(g) && AllOnBoard(line)
    ensures v == v0 + PaoRun(p, g, line)
  {
    v := v0;
    var flag := false;
    for k := 0 to |line|
      invariant v + (if flag then PaoJump(p, g, line[k..]) else PaoRun(p, g, line[k..]))
                == v0 + PaoRun(p, g, line)
    {
      var pos := line[k];
      assert line[k..] == [pos] + line[k + 1..];
      var cell := g[pos.row, pos.col].player;
      if !flag {
        if cell.IsNone() {
          // a free cell before the screen (src/board.rs:297): push
          v := v + [pos];
        } else {
          flag := true;
        }
      } else {
        if Rivals(cell, p.player) {
          // the opponent right after the screen (src/board.rs:304-307): capture
          v := v + [pos];
          break;
        } else {
          break;
        }
      }
    }
  }

  method PossiblePao(p: Piece, g: array2<Piece>, prow: int, pcol: int) returns (v: seq<Pos>)
    requires IsGrid(g) && InBounds(prow, pcol)
    ensures v == PaoMoves(p, g, prow, pcol)
  {
    var right, left, down, up := RightRay(prow, pcol), LeftRay(prow, pcol), DownRay(prow, pcol), UpRay(prow, pcol);
    v := PaoScan(p, g, [], right);  // rightward from its own cell (src/board.rs:294)
    assert v == PaoRun(p, g, right);
    v := PaoScan(p, g, v, left);    // leftward, flag cleared (src/board.rs:312-313)
    v := PaoScan(p, g, v, down);    // downward from its own cell, above row 8, flag cleared (src/board.rs:331-332)
    v := PaoScan(p, g, v, up);      // upward, flag cleared (src/board.rs:350-351)
  }

  /** One Ma leg (src/board.rs:114-121 and the three blocks after it): when
      the leg cell is vacant, `first` and then `second` are probed and each
      allowed one is pushed; the cells pushed, or a panic. */
  method MaLegPush(p: Piece, g: array2<Piece>, leg: Pos, first: Pos, second: Pos)
    returns (r: Checked<seq<Pos>>)
    requires IsGrid(g)
    ensures r == MaLeg(p, g, leg, first, second)
  {
    var found: seq<Pos> := [];
    var clear :- VacantAt(g, leg);
    if clear {
      var a :- AllowedAt(p, g, first);
      if a { found := found + [first]; }
      var b :- AllowedAt(p, g, second);
      if b { found := found + [second]; }
    }
    assert MaLeg(p, g, leg, first, second).value == found;
    r := Ok(found);
  }

  method PossibleMa(p: Piece, g: array2<Piece>, prow: int, pcol: int) returns (r: Checked<seq<Pos>>)
    requires IsGrid(g)
    ensures r == MaMoves(p, g, prow, pcol)
  {
    var down :- MaLegPush(p, g, Pos(prow + 1, pcol), Pos(prow + 2, pcol + 1), Pos(prow + 2, pcol - 1));
    var up :- MaLegPush(p, g, Pos(prow - 1, pcol), Pos(prow - 2, pcol + 1), Pos(prow - 2, pcol - 1));
    var right :- MaLegPush(p, g, Pos(prow, pcol + 1), Pos(prow - 1, pcol + 2), Pos(prow + 1, pcol + 2));
    var left :- MaLegPush(p, g, Pos(prow, pcol - 1), Pos(prow - 1, pcol - 2), Pos(prow + 1, pcol - 2));
    r := Ok(down + up + right + left);
  }

  /** One Xiang jump (src/board.rs:193-197 and the three blocks after it):
      `target` is probed only when the eye is vacant, and pushed when it is
      allowed; the cell pushed, if any, or a panic. */
  method XiangStepPush(p: Piece, g: array2<Piece>, eye: Pos, target: Pos)
    returns (r: Checked<seq<Pos>>)
    requires IsGrid(g)
    ensures r == XiangStep(p, g, eye, target)
  {
    var found: seq<Pos> := [];
    var clear :- VacantAt(g, eye);
    if clear {
      var a :- AllowedAt(p, g, target);
      if a { found := found + [target]; }
    }
    assert XiangStep(p, g, eye, target).value == found;
    r := Ok(found);
  }

  method PossibleXiang(p: Piece, g: array2<Piece>, prow: int, pcol: int) returns (r: Checked<seq<Pos>>)
    requires IsGrid(g)
    ensures r == XiangMoves(p, g, prow, pcol)
  {
    if !p.player.IsSide() {
      // a piece of neither side has no Xiang move (src/board.rs:214)
      return Ok([]);
    }
    // a piece of either side probes the same four jumps (src/board.rs:191-212)
    var s1 :- XiangStepPush(p, g, Pos(prow - 1, pcol - 1), Pos(prow - 2, pcol - 2));
    var s2 :- XiangStepPush(p, g, Pos(prow + 1, pcol + 1), Pos(prow + 2, pcol + 2));
    var s3 :- XiangStepPush(p, g, Pos(prow - 1, pcol + 1), Pos(prow - 2, pcol + 2));
    var s4 :- XiangStepPush(p, g, Pos(prow + 1, pcol - 1), Pos(prow + 2, pcol - 2));
    r := Ok(s1 + s2 + s3 + s4);
  }

  /** The loop over a fixed list of cells, all on the board, that pushes each
      allowed one (src/board.rs:161-165). */
  method PushAllowed(p: Piece, g: array2<Piece>, v0: seq<Pos>, cands: seq<Pos>) returns (v: seq<Pos>)
    requires IsGrid(g) && AllOnBoard(cands)
    ensures v == v0 + AllowedOf(p, g, cands)
  {
    v := v0;
    for i := 0 to |cands|
      invariant v + AllowedOf(p, g, cands[i..]) == v0 + AllowedOf(p, g, cands)
    {
      var c, rest := cands[i], AllowedOf(p, g, cands[i + 1..]);
      assert cands[i..] == [c] + cands[i + 1..];
      if Allowed(p, g, c.row, c.col) {
        assert AllowedOf(p, g, cands[i..]) == [c] + rest;
        assert (v + [c]) + rest == v + ([c] + rest);
        v := v + [c];
      } else {
        assert AllowedOf(p, g, cands[i..]) == rest;
      }
    }
  }

  /** The same loop where a candidate may be off the board, which panics. */
  method ProbeEach(p: Piece, g: array2<Piece>, cands: seq<Pos>) returns (r: Checked<seq<Pos>>)
    requires IsGrid(g)
    ensures r == ProbeAll(p, g, cands)
  {
    var v: seq<Pos> := [];
    assert cands[0..] == cands;
    for i := 0 to |cands|
      invariant ProbeAll(p, g, cands[i..]).Panic? ==> ProbeAll(p, g, cands).Panic?
      invariant ProbeAll(p, g, cands[i..]).Ok? ==>
                  ProbeAll(p, g, cands).Ok? && ProbeAll(p, g, cands).value == v + ProbeAll(p, g, cands[i..]).value
    {
      assert cands[i..] == [cands[i]] + cands[i + 1..];
      var a :- AllowedAt(p, g, cands[i]);
      if a {
        v := v + [cands[i]];
      }
    }
    assert cands[|cands|..] == [] && v + [] == v;
    r := Ok(v);
  }

  /** The loop over the four neighbours that pushes each one inside the
      palace that is allowed (src/board.rs:255-266). */
  method PushInPalace(p: Piece, g: array2<Piece>, side: Player, cands: seq<Pos>) returns (v: seq<Pos>)
    requires IsGrid(g)
    ensures v == PalaceSteps(p, g, side, cands)
  {
    v := [];
    for i := 0 to |cands|
      invariant v + PalaceSteps(p, g, side, cands[i..]) == PalaceSteps(p, g, side, cands)
    {
      PalaceStepsAt(p, g, side, cands, i, v);
      var c := cands[i];
      if InPalace(side, c) && Allowed(p, g, c.row, c.col) {
        v := v + [c];
      }
    }
    assert v + [] == v;
  }

  /** One iteration of PushInPalace: pushing candidate `i` when it is in the
      palace and allowed leaves the rest of the list to do. */
  lemma PalaceStepsAt(p: Piece, g: array2<Piece>, side: Player, cands: seq<Pos>, i: int, v: seq<Pos>)
    requires IsGrid(g) && 0 <= i < |cands|
    ensures (if InPalace(side, cands[i]) && Allowed(p, g, cands[i].row, cands[i].col) then v + [cands[i]] else v)
            + PalaceSteps(p, g, side, cands[i + 1..])
            == v + PalaceSteps(p, g, side, cands[i..])
  {
    var c, rest := cands[i], PalaceSteps(p, g, side, cands[i + 1..]);
    assert cands[i..][1..] == cands[i + 1..];
    if InPalace(side, c) && Allowed(p, g, c.row, c.col) {
      assert PalaceSteps(p, g, side, cands[i..]) == [c] + rest;
      assert (v + [c]) + rest == v + ([c] + rest);
    } else {
      assert PalaceSteps(p, g, side, cands[i..]) == [] + rest == rest;
    }
  }

  method PossibleShi(p: Piece, g: array2<Piece>, prow: int, pcol: int) returns (v: seq<Pos>)
    requires IsGrid(g)
    ensures v == ShiMoves(p, g, prow, pcol)
  {
    v := [];
    match p.player {
      case Red =>
        if ((prow + 1 == 8 && pcol + 1 == 4)
            || (prow + 1 == 8 && pcol - 1 == 4)
            || (prow - 1 == 8 && pcol + 1 == 4)
            || (prow - 1 == 8 && pcol - 1 == 4))
           && Allowed(p, g, 8, 4)
        {
          v := v + [Pos(8, 4)];
        }
        if prow == 8 && pcol == 4 {
          v := PushAllowed(p, g, v, RedShiCorners);
        }
      case Green =>
        if ((prow + 1 == 1 && pcol + 1 == 4)
            || (prow + 1 == 1 && pcol - 1 == 4)
            || (prow - 1 == 1 && pcol + 1 == 4)
            || (prow - 1 == 1 && pcol - 1 == 4))
           && Allowed(p, g, 1, 4)
        {
          v := v + [Pos(1, 4)];
        }
        if prow == 1 && pcol == 4 {
          v := PushAllowed(p, g, v, GreenShiCorners);
        }
      case _ =>
    }
  }

  method PossibleBing(p: Piece, g: array2<Piece>, prow: int, pcol: int) returns (r: Checked<seq<Pos>>)
    requires IsGrid(g) && InBounds(prow, pcol)
    ensures r == BingMoves(p, g, prow, pcol)
  {
    var v: seq<Pos> := [];
    match p.player {
      case Red =>
        if prow <= 4 {
          r := ProbeEach(p, g, [Pos(prow - 1, pcol), Pos(prow, pcol - 1), Pos(prow, pcol + 1)]);
          return;
        } else if Allowed(p, g, prow - 1, pcol) {
          v := v + [Pos(prow - 1, pcol)];
        }
      case Green =>
        if prow >= 5 {
          r := ProbeEach(p, g, [Pos(prow + 1, pcol), Pos(prow, pcol - 1), Pos(prow, pcol + 1)]);
          return;
        } else if Allowed(p, g, prow + 1, pcol) {
          v := v + [Pos(prow + 1, pcol)];
        }
      case _ =>
    }
    assert BingMoves(p, g, prow, pcol).value == v;
    r := Ok(v);
  }

  method PossibleShuai(p: Piece, g: array2<Piece>, prow: int, pcol: int) returns (v: seq<Pos>)
    requires IsGrid(g)
    ensures v == ShuaiMoves(p, g, prow, pcol)
  {
    match p.player {
      case Red =>
        v := PushInPalace(p, g, Red, Neighbours(prow, pcol));
      case Green =>
        v := PushInPalace(p, g, Green, Neighbours(prow, pcol));
      case _ =>
        v := [];
    }
  }
}
