// Properties of the move generator `possible` (module MoveGen), proved about
// its specification functions: where the destinations lie, what a Ju or Pao
// scan yields, how Shi and Shuai stay in their palace, when Ma, Xiang and
// Bing produce a cell, and when a probe leaves the board and panics.

module MoveProperties {
  import opened Pieces
  import opened MoveGen

  // ---------------------------------------------------------------------
  // Geometry of the rules

  /** `d` is one orthogonal step away from `o`. */
  predicate OrthogonalStep(o: Pos, d: Pos) {
    (d.row == o.row && (d.col == o.col + 1 || d.col == o.col - 1))
    || (d.col == o.col && (d.row == o.row + 1 || d.row == o.row - 1))
  }

  /** `d` is one diagonal step away from `o`. */
  predicate DiagonalStep(o: Pos, d: Pos) {
    (d.row == o.row + 1 || d.row == o.row - 1) && (d.col == o.col + 1 || d.col == o.col - 1)
  }

  /** `d` is a Ma move from `o`: two steps one way and one step the other. */
  predicate MaJump(o: Pos, d: Pos) {
    ((d.row == o.row + 2 || d.row == o.row - 2) && (d.col == o.col + 1 || d.col == o.col - 1))
    || ((d.col == o.col + 2 || d.col == o.col - 2) && (d.row == o.row + 1 || d.row == o.row - 1))
  }

  /** The orthogonal neighbour of `o` that a Ma jump to `d` passes. */
  function MaLegOf(o: Pos, d: Pos): Pos {
    if d.row == o.row + 2 then Pos(o.row + 1, o.col)
    else if d.row == o.row - 2 then Pos(o.row - 1, o.col)
    else if d.col == o.col + 2 then Pos(o.row, o.col + 1)
    else Pos(o.row, o.col - 1)
  }

  /** `d` is two diagonal steps away from `o`. */
  predicate XiangJump(o: Pos, d: Pos) {
    (d.row == o.row + 2 || d.row == o.row - 2) && (d.col == o.col + 2 || d.col == o.col - 2)
  }

  /** The diagonal cell between `o` and a Xiang target `d` (the "eye"). */
  function EyeOf(o: Pos, d: Pos): Pos {
    Pos(if d.row > o.row then o.row + 1 else o.row - 1, if d.col > o.col then o.col + 1 else o.col - 1)
  }

  function ShiCentre(side: Player): Pos {
    if side == Red then RedShiCentre else GreenShiCentre
  }

  /** A Bing step: forward only (row - 1 for Red, row + 1 for Green), and one
      column sideways once on the far side of the river as the source tests it. */
  predicate BingStep(side: Player, o: Pos, d: Pos) {
    (side == Red && (d == Pos(o.row - 1, o.col)
                     || (o.row <= 4 && d.row == o.row && (d.col == o.col - 1 || d.col == o.col + 1))))
    || (side == Green && (d == Pos(o.row + 1, o.col)
                          || (o.row >= 5 && d.row == o.row && (d.col == o.col - 1 || d.col == o.col + 1))))
  }

  // ---------------------------------------------------------------------
  // The cell predicates

  /** A probe of `vacant` or `allowed` panics exactly when the cell is off
      the board. `allowed` refuses exactly the cells carrying the mover's own
      real side, whatever their piecetype; a mover tagged NoneRed or
      NoneGreen is allowed everywhere. */
  lemma CellProbes(p: Piece, g: array2<Piece>, pos: Pos)
    requires IsGrid(g)
    ensures VacantAt(g, pos).Panic? <==> !OnBoard(pos)
    ensures AllowedAt(p, g, pos).Panic? <==> !OnBoard(pos)
    ensures VacantAt(g, pos) == Ok(true) <==> OnBoard(pos) && At(g, pos).piecetype == None
    ensures AllowedAt(p, g, pos) == Ok(true)
            <==> OnBoard(pos) && (!p.player.IsSide() || At(g, pos).player != p.player)
  {
  }

  // ---------------------------------------------------------------------
  // Scans and filters

  /** A Ju scan yields the NoneRed/NoneGreen run at the start of the line,
      then the first other cell only when it holds the opponent. */
  lemma {:induction false} JuRunShape(p: Piece, g: array2<Piece>, line: seq<Pos>, n: nat)
    requires IsGrid(g) && AllOnBoard(line) && n <= |line|
    requires forall i :: 0 <= i < n ==> At(g, line[i]).player.IsNone()
    requires n < |line| ==> !At(g, line[n]).player.IsNone()
    ensures JuRun(p, g, line)
            == line[..n] + (if n < |line| && Rivals(At(g, line[n]).player, p.player) then [line[n]] else [])
  {
    if n > 0 {
      JuRunShape(p, g, line[1..], n - 1);
      assert line[..n] == [line[0]] + line[1..][..n - 1];
    }
  }

  /** A Pao scan yields the NoneRed/NoneGreen run at the start of the line;
      the first other cell is the screen and is never yielded; after it, only
      the very next cell can be yielded, and only when it holds the opponent. */
  lemma {:induction false} PaoRunShape(p: Piece, g: array2<Piece>, line: seq<Pos>, n: nat)
    requires IsGrid(g) && AllOnBoard(line) && n <= |line|
    requires forall i :: 0 <= i < n ==> At(g, line[i]).player.IsNone()
    requires n < |line| ==> !At(g, line[n]).player.IsNone()
    ensures PaoRun(p, g, line)
            == line[..n] + (if n + 1 < |line| && Rivals(At(g, line[n + 1]).player, p.player)
                            then [line[n + 1]] else [])
  {
    if n > 0 {
      PaoRunShape(p, g, line[1..], n - 1);
      assert line[..n] == [line[0]] + line[1..][..n - 1];
    }
  }

  /** Every cell a Ju scan yields lies on the line and passes `allowed`. */
  lemma {:induction false} JuRunWithin(p: Piece, g: array2<Piece>, line: seq<Pos>)
    requires IsGrid(g) && AllOnBoard(line)
    ensures forall x :: x in JuRun(p, g, line) ==> x in line && OnBoard(x) && Allowed(p, g, x.row, x.col)
  {
    if line != [] {
      JuRunWithin(p, g, line[1..]);
    }
  }

  /** Every cell a Pao scan yields lies on the line and passes `allowed`. */
  lemma {:induction false} PaoRunWithin(p: Piece, g: array2<Piece>, line: seq<Pos>)
    requires IsGrid(g) && AllOnBoard(line)
    ensures forall x :: x in PaoRun(p, g, line) ==> x in line && OnBoard(x) && Allowed(p, g, x.row, x.col)
  {
    if line != [] {
      PaoRunWithin(p, g, line[1..]);
    }
  }

  lemma {:induction false} AllowedOfIff(p: Piece, g: array2<Piece>, cands: seq<Pos>, x: Pos)
    requires IsGrid(g) && AllOnBoard(cands)
    ensures x in AllowedOf(p, g, cands) <==> x in cands && Allowed(p, g, x.row, x.col)
  {
    if cands != [] {
      AllowedOfIff(p, g, cands[1..], x);
    }
  }

  /** Probing a list of candidates panics exactly when one of them is off the
      board; otherwise it keeps exactly the candidates that pass `allowed`. */
  lemma {:induction false} ProbeAllIff(p: Piece, g: array2<Piece>, cands: seq<Pos>, x: Pos)
    requires IsGrid(g)
    ensures ProbeAll(p, g, cands).Panic? <==> !AllOnBoard(cands)
    ensures ProbeAll(p, g, cands).Ok? ==>
              (x in ProbeAll(p, g, cands).value <==> x in cands && Allowed(p, g, x.row, x.col))
  {
    if cands != [] {
      ProbeAllIff(p, g, cands[1..], x);
      if !OnBoard(cands[0]) {
        assert !AllOnBoard(cands);
      } else if !AllOnBoard(cands[1..]) {
        var i :| 0 <= i < |cands[1..]| && !OnBoard(cands[1..][i]);
        assert !OnBoard(cands[i + 1]);
      }
    }
  }

  lemma {:induction false} PalaceStepsIff(p: Piece, g: array2<Piece>, side: Player, cands: seq<Pos>, x: Pos)
    requires IsGrid(g)
    ensures x in PalaceSteps(p, g, side, cands)
            <==> x in cands && InPalace(side, x) && Allowed(p, g, x.row, x.col)
  {
    if cands != [] {
      PalaceStepsIff(p, g, side, cands[1..], x);
    }
  }

  // ---------------------------------------------------------------------
  // Every destination is on the board and passes `allowed`

  /** Whatever the piece, every coordinate `possible` returns is inside rows
      0..9 and columns 0..8, and its cell does not carry the mover's side. */
  lemma MovesOnBoard(p: Piece, g: array2<Piece>, prow: int, pcol: int, d: Pos)
    requires IsGrid(g) && InBounds(prow, pcol)
    requires Moves(p, g, prow, pcol).Ok? && d in Moves(p, g, prow, pcol).value
    ensures OnBoard(d) && Allowed(p, g, d.row, d.col)
  {
    match p.piecetype {
      case Ju =>
        JuRunWithin(p, g, RightRay(prow, pcol));
        JuRunWithin(p, g, LeftRay(prow, pcol));
        JuRunWithin(p, g, DownRay(prow, pcol));
        JuRunWithin(p, g, UpRay(prow, pcol));
      case Pao =>
        PaoRunWithin(p, g, RightRay(prow, pcol));
        PaoRunWithin(p, g, LeftRay(prow, pcol));
        PaoRunWithin(p, g, DownRay(prow, pcol));
        PaoRunWithin(p, g, UpRay(prow, pcol));
      case Ma =>
        MaMovesIff(p, g, prow, pcol, d);
      case Xiang =>
        XiangMovesIff(p, g, prow, pcol, d);
      case Shi =>
        ShiMovesIff(p, g, prow, pcol, d);
      case Bing =>
        BingMovesIff(p, g, prow, pcol, d);
      case Shuai =>
        ShuaiMovesIff(p, g, prow, pcol, d);
      case None =>
    }
  }

  // ---------------------------------------------------------------------
  // Ju and Pao standing on their own cell

  /** A Ju on its own cell (as `verify` calls it): the rightward and downward
      scans meet the Ju itself first and stop at once, so only the leftward
      and upward scans contribute, and every destination lies left of it in
      its row or above it in its column. */
  lemma JuOnOwnCell(p: Piece, g: array2<Piece>, prow: int, pcol: int)
    requires IsGrid(g) && InBounds(prow, pcol)
    requires g[prow, pcol] == p && p.piecetype == Ju && p.player.IsSide()
    ensures Moves(p, g, prow, pcol) == Ok(JuRun(p, g, LeftRay(prow, pcol)) + JuRun(p, g, UpRay(prow, pcol)))
    ensures forall d :: d in Moves(p, g, prow, pcol).value ==>
              (d.row == prow && 0 <= d.col < pcol) || (d.col == pcol && 0 <= d.row < prow)
  {
    JuStopsAtOnce(p, g, prow, pcol);
    var left, up := JuRun(p, g, LeftRay(prow, pcol)), JuRun(p, g, UpRay(prow, pcol));
    assert JuMoves(p, g, prow, pcol) == left + up;
    JuRunWithin(p, g, LeftRay(prow, pcol));
    JuRunWithin(p, g, UpRay(prow, pcol));
    forall d: Pos | d in left + up
      ensures (d.row == prow && 0 <= d.col < pcol) || (d.col == pcol && 0 <= d.row < prow)
    {
      if d in left {
        var i :| 0 <= i < |LeftRay(prow, pcol)| && LeftRay(prow, pcol)[i] == d;
      } else {
        var i :| 0 <= i < |UpRay(prow, pcol)| && UpRay(prow, pcol)[i] == d;
      }
    }
  }

  /** Helper for JuOnOwnCell: the rightward and downward scans of a Ju on its
      own cell are empty. */
  lemma JuStopsAtOnce(p: Piece, g: array2<Piece>, prow: int, pcol: int)
    requires IsGrid(g) && InBounds(prow, pcol)
    requires g[prow, pcol] == p && p.player.IsSide()
    ensures JuRun(p, g, RightRay(prow, pcol)) == [] && JuRun(p, g, DownRay(prow, pcol)) == []
  {
    assert RightRay(prow, pcol)[0] == Pos(prow, pcol);
    if prow < 8 {
      assert DownRay(prow, pcol)[0] == Pos(prow, pcol);
    }
  }

  /** A Pao on its own cell: its own cell is the first non-NoneRed/NoneGreen
      cell of the rightward and downward scans, so each of them can yield
      only the adjacent cell, and only as a capture (downwards only up to
      row 7, since that scan stops before row 8). */
  lemma PaoOnOwnCell(p: Piece, g: array2<Piece>, prow: int, pcol: int)
    requires IsGrid(g) && InBounds(prow, pcol)
    requires g[prow, pcol] == p && p.piecetype == Pao && p.player.IsSide()
    ensures Moves(p, g, prow, pcol) == Ok(
              (if pcol + 1 <= 8 && Rivals(g[prow, pcol + 1].player, p.player) then [Pos(prow, pcol + 1)] else [])
              + PaoRun(p, g, LeftRay(prow, pcol))
              + (if prow + 1 <= 7 && Rivals(g[prow + 1, pcol].player, p.player) then [Pos(prow + 1, pcol)] else [])
              + PaoRun(p, g, UpRay(prow, pcol)))
  {
    PaoScreenedAtOnce(p, g, prow, pcol);
    assert PaoMoves(p, g, prow, pcol)
           == PaoRun(p, g, RightRay(prow, pcol)) + PaoRun(p, g, LeftRay(prow, pcol))
              + PaoRun(p, g, DownRay(prow, pcol)) + PaoRun(p, g, UpRay(prow, pcol));
  }

  /** Helper for PaoOnOwnCell: the rightward and downward scans of a Pao on
      its own cell use that cell as their screen. */
  lemma PaoScreenedAtOnce(p: Piece, g: array2<Piece>, prow: int, pcol: int)
    requires IsGrid(g) && InBounds(prow, pcol)
    requires g[prow, pcol] == p && p.player.IsSide()
    ensures PaoRun(p, g, RightRay(prow, pcol))
            == (if pcol + 1 <= 8 && Rivals(g[prow, pcol + 1].player, p.player) then [Pos(prow, pcol + 1)] else [])
    ensures PaoRun(p, g, DownRay(prow, pcol))
            == (if prow + 1 <= 7 && Rivals(g[prow + 1, pcol].player, p.player) then [Pos(prow + 1, pcol)] else [])
  {
    var right := RightRay(prow, pcol);
    assert right[0] == Pos(prow, pcol);
    assert PaoRun(p, g, right) == PaoJump(p, g, right[1..]);
    if pcol + 1 <= 8 {
      assert right[1..][0] == Pos(prow, pcol + 1);
    } else {
      assert right[1..] == [];
    }
    if prow < 8 {
      var down := DownRay(prow, pcol);
      assert down[0] == Pos(prow, pcol);
      assert PaoRun(p, g, down) == PaoJump(p, g, down[1..]);
      if prow + 1 <= 7 {
        assert down[1..][0] == Pos(prow + 1, pcol);
      } else {
        assert down[1..] == [];
      }
    }
  }

  // ---------------------------------------------------------------------
  // Palace pieces

  /** Shuai moves exactly to the orthogonal neighbours inside its side's
      hard-coded palace that pass `allowed`; it never panics. */
  lemma ShuaiMovesIff(p: Piece, g: array2<Piece>, prow: int, pcol: int, d: Pos)
    requires IsGrid(g) && InBounds(prow, pcol) && p.piecetype == Shuai
    ensures Moves(p, g, prow, pcol).Ok?
    ensures d in Moves(p, g, prow, pcol).value
            <==> p.player.IsSide() && OrthogonalStep(Pos(prow, pcol), d) && InPalace(p.player, d)
                 && OnBoard(d) && Allowed(p, g, d.row, d.col)
  {
    if p.player.IsSide() {
      PalaceStepsIff(p, g, p.player, Neighbours(prow, pcol), d);
    }
  }

  /** The palace confinement of Shuai, in numbers: one orthogonal step, rows
      7..9 for Red and 0..2 for Green, columns 3..5. */
  lemma ShuaiConfined(p: Piece, g: array2<Piece>, prow: int, pcol: int, d: Pos)
    requires IsGrid(g) && InBounds(prow, pcol) && p.piecetype == Shuai
    requires d in Moves(p, g, prow, pcol).value
    ensures OrthogonalStep(Pos(prow, pcol), d) && 3 <= d.col <= 5
    ensures p.player == Red ==> 7 <= d.row <= 9
    ensures p.player == Green ==> 0 <= d.row <= 2
  {
    ShuaiMovesIff(p, g, prow, pcol, d);
  }

  /** Shi moves one diagonal step onto its palace centre, or from the centre
      onto a diagonal neighbour, when the target passes `allowed`. */
  lemma ShiMovesIff(p: Piece, g: array2<Piece>, prow: int, pcol: int, d: Pos)
    requires IsGrid(g) && InBounds(prow, pcol) && p.piecetype == Shi
    ensures Moves(p, g, prow, pcol).Ok?
    ensures d in Moves(p, g, prow, pcol).value
            <==> p.player.IsSide() && DiagonalStep(Pos(prow, pcol), d)
                 && (d == ShiCentre(p.player) || Pos(prow, pcol) == ShiCentre(p.player))
                 && OnBoard(d) && Allowed(p, g, d.row, d.col)
  {
    if p.player == Red {
      assert d in RedShiCorners <==> DiagonalStep(RedShiCentre, d);
      ShiFromIff(p, g, prow, pcol, RedShiCentre, RedShiCorners, d);
    } else if p.player == Green {
      assert d in GreenShiCorners <==> DiagonalStep(GreenShiCentre, d);
      ShiFromIff(p, g, prow, pcol, GreenShiCentre, GreenShiCorners, d);
    }
  }

  /** ShiMovesIff for one palace, given that its corner list holds exactly
      the diagonal neighbours of its centre (as far as `d` is concerned). */
  lemma ShiFromIff(p: Piece, g: array2<Piece>, prow: int, pcol: int, centre: Pos, corners: seq<Pos>, d: Pos)
    requires IsGrid(g) && OnBoard(centre) && AllOnBoard(corners)
    requires d in corners <==> DiagonalStep(centre, d)
    ensures d in ShiFrom(p, g, prow, pcol, centre, corners)
            <==> DiagonalStep(Pos(prow, pcol), d) && (d == centre || Pos(prow, pcol) == centre)
                 && OnBoard(d) && Allowed(p, g, d.row, d.col)
  {
    AllowedOfIff(p, g, corners, d);
  }

  /** Red Shi destinations lie among (8,4), (7,3), (7,5), (9,3), (9,5);
      Green Shi destinations among (1,4), (0,3), (0,5), (2,3), (2,5). */
  lemma ShiConfined(p: Piece, g: array2<Piece>, prow: int, pcol: int, d: Pos)
    requires IsGrid(g) && InBounds(prow, pcol) && p.piecetype == Shi
    requires d in Moves(p, g, prow, pcol).value
    ensures p.player == Red ==> d in {Pos(8, 4), Pos(7, 3), Pos(7, 5), Pos(9, 3), Pos(9, 5)}
    ensures p.player == Green ==> d in {Pos(1, 4), Pos(0, 3), Pos(0, 5), Pos(2, 3), Pos(2, 5)}
  {
    ShiMovesIff(p, g, prow, pcol, d);
  }

  // ---------------------------------------------------------------------
  // Ma, Xiang, Bing

  /** When Ma does not panic, it produces exactly the L-shaped jumps whose
      orthogonal leg cell has piecetype None and whose target passes
      `allowed`. */
  lemma MaMovesIff(p: Piece, g: array2<Piece>, prow: int, pcol: int, d: Pos)
    requires IsGrid(g) && InBounds(prow, pcol) && p.piecetype == Ma
    requires Moves(p, g, prow, pcol).Ok?
    ensures d in Moves(p, g, prow, pcol).value
            <==> MaJump(Pos(prow, pcol), d) && OnBoard(MaLegOf(Pos(prow, pcol), d))
                 && Vacant(g, MaLegOf(Pos(prow, pcol), d).row, MaLegOf(Pos(prow, pcol), d).col)
                 && OnBoard(d) && Allowed(p, g, d.row, d.col)
  {
    var o := Pos(prow, pcol);
    var l1 := MaLeg(p, g, Pos(prow + 1, pcol), Pos(prow + 2, pcol + 1), Pos(prow + 2, pcol - 1));
    var l2 := MaLeg(p, g, Pos(prow - 1, pcol), Pos(prow - 2, pcol + 1), Pos(prow - 2, pcol - 1));
    var l3 := MaLeg(p, g, Pos(prow, pcol + 1), Pos(prow - 1, pcol + 2), Pos(prow + 1, pcol + 2));
    var l4 := MaLeg(p, g, Pos(prow, pcol - 1), Pos(prow - 1, pcol - 2), Pos(prow + 1, pcol - 2));
    assert Moves(p, g, prow, pcol).value == l1.value + l2.value + l3.value + l4.value;
    MaLegIff(p, g, Pos(prow + 1, pcol), Pos(prow + 2, pcol + 1), Pos(prow + 2, pcol - 1), d);
    MaLegIff(p, g, Pos(prow - 1, pcol), Pos(prow - 2, pcol + 1), Pos(prow - 2, pcol - 1), d);
    MaLegIff(p, g, Pos(prow, pcol + 1), Pos(prow - 1, pcol + 2), Pos(prow + 1, pcol + 2), d);
    MaLegIff(p, g, Pos(prow, pcol - 1), Pos(prow - 1, pcol - 2), Pos(prow + 1, pcol - 2), d);
  }

  /** One Ma leg that does not panic yields `d` iff its leg cell is vacant
      and `d` is one of its two targets and passes `allowed`. */
  lemma MaLegIff(p: Piece, g: array2<Piece>, leg: Pos, first: Pos, second: Pos, d: Pos)
    requires IsGrid(g) && MaLeg(p, g, leg, first, second).Ok?
    ensures d in MaLeg(p, g, leg, first, second).value
            <==> OnBoard(leg) && Vacant(g, leg.row, leg.col) && (d == first || d == second)
                 && OnBoard(d) && Allowed(p, g, d.row, d.col)
  {
  }

  /** A Ma on any border cell always panics: its four leg probes run
      whatever they find, and one of them is row -1 or 10 or column -1 or 9
      (-1 standing for a wrapped `usize`). */
  lemma MaPanicsOnBorder(p: Piece, g: array2<Piece>, prow: int, pcol: int)
    requires IsGrid(g) && InBounds(prow, pcol) && p.piecetype == Ma
    requires prow == 0 || prow == 9 || pcol == 0 || pcol == 8
    ensures Moves(p, g, prow, pcol) == Panic
  {
  }

  /** When Xiang (of a real side) does not panic, it produces exactly the
      two-step diagonal jumps whose eye cell has piecetype None and whose
      target passes `allowed`; no river limit applies. */
  lemma XiangMovesIff(p: Piece, g: array2<Piece>, prow: int, pcol: int, d: Pos)
    requires IsGrid(g) && InBounds(prow, pcol) && p.piecetype == Xiang
    requires Moves(p, g, prow, pcol).Ok?
    ensures d in Moves(p, g, prow, pcol).value
            <==> p.player.IsSide() && XiangJump(Pos(prow, pcol), d) && OnBoard(EyeOf(Pos(prow, pcol), d))
                 && Vacant(g, EyeOf(Pos(prow, pcol), d).row, EyeOf(Pos(prow, pcol), d).col)
                 && OnBoard(d) && Allowed(p, g, d.row, d.col)
  {
    if p.player.IsSide() {
      var s1 := XiangStep(p, g, Pos(prow - 1, pcol - 1), Pos(prow - 2, pcol - 2));
      var s2 := XiangStep(p, g, Pos(prow + 1, pcol + 1), Pos(prow + 2, pcol + 2));
      var s3 := XiangStep(p, g, Pos(prow - 1, pcol + 1), Pos(prow - 2, pcol + 2));
      var s4 := XiangStep(p, g, Pos(prow + 1, pcol - 1), Pos(prow + 2, pcol - 2));
      assert Moves(p, g, prow, pcol).value == s1.value + s2.value + s3.value + s4.value;
      XiangStepIff(p, g, Pos(prow - 1, pcol - 1), Pos(prow - 2, pcol - 2), d);
      XiangStepIff(p, g, Pos(prow + 1, pcol + 1), Pos(prow + 2, pcol + 2), d);
      XiangStepIff(p, g, Pos(prow - 1, pcol + 1), Pos(prow - 2, pcol + 2), d);
      XiangStepIff(p, g, Pos(prow + 1, pcol - 1), Pos(prow + 2, pcol - 2), d);
    }
  }

  /** One Xiang jump that does not panic yields `d` iff its eye is vacant
      and `d` is its target and passes `allowed`. */
  lemma XiangStepIff(p: Piece, g: array2<Piece>, eye: Pos, target: Pos, d: Pos)
    requires IsGrid(g) && XiangStep(p, g, eye, target).Ok?
    ensures d in XiangStep(p, g, eye, target).value
            <==> OnBoard(eye) && Vacant(g, eye.row, eye.col) && d == target
                 && OnBoard(d) && Allowed(p, g, d.row, d.col)
  {
  }

  /** A Xiang of a real side on any border cell always panics: its four eye
      probes run whatever they find, and one of them is row -1 or 10 or
      column -1 or 9. */
  lemma XiangPanicsOnBorder(p: Piece, g: array2<Piece>, prow: int, pcol: int)
    requires IsGrid(g) && InBounds(prow, pcol) && p.piecetype == Xiang && p.player.IsSide()
    requires prow == 0 || prow == 9 || pcol == 0 || pcol == 8
    ensures Moves(p, g, prow, pcol) == Panic
  {
  }

  /** When Bing does not panic, it produces exactly its forward and (across
      the river) sideways steps that pass `allowed`; never a backward step. */
  lemma BingMovesIff(p: Piece, g: array2<Piece>, prow: int, pcol: int, d: Pos)
    requires IsGrid(g) && InBounds(prow, pcol) && p.piecetype == Bing
    requires Moves(p, g, prow, pcol).Ok?
    ensures d in Moves(p, g, prow, pcol).value
            <==> BingStep(p.player, Pos(prow, pcol), d) && OnBoard(d) && Allowed(p, g, d.row, d.col)
  {
    if p.player == Red && prow <= 4 {
      ProbeAllIff(p, g, [Pos(prow - 1, pcol), Pos(prow, pcol - 1), Pos(prow, pcol + 1)], d);
    } else if p.player == Green && prow >= 5 {
      ProbeAllIff(p, g, [Pos(prow + 1, pcol), Pos(prow, pcol - 1), Pos(prow, pcol + 1)], d);
    }
  }

  /** Bing panics exactly when, across the river, one of its three probes
      leaves the board: a Red Bing on row 0 or on an edge column at rows
      0..4, a Green Bing on row 9 or on an edge column at rows 5..9. */
  lemma BingPanics(p: Piece, g: array2<Piece>, prow: int, pcol: int)
    requires IsGrid(g) && InBounds(prow, pcol) && p.piecetype == Bing
    ensures Moves(p, g, prow, pcol).Panic?
            <==> (p.player == Red && prow <= 4 && (prow == 0 || pcol == 0 || pcol == 8))
                 || (p.player == Green && prow >= 5 && (prow == 9 || pcol == 0 || pcol == 8))
  {
    if p.player == Red && prow <= 4 {
      var cands := [Pos(prow - 1, pcol), Pos(prow, pcol - 1), Pos(prow, pcol + 1)];
      ProbeAllIff(p, g, cands, Pos(prow, pcol));
      assert AllOnBoard(cands) <==> OnBoard(cands[0]) && OnBoard(cands[1]) && OnBoard(cands[2]);
    } else if p.player == Green && prow >= 5 {
      var cands := [Pos(prow + 1, pcol), Pos(prow, pcol - 1), Pos(prow, pcol + 1)];
      ProbeAllIff(p, g, cands, Pos(prow, pcol));
      assert AllOnBoard(cands) <==> OnBoard(cands[0]) && OnBoard(cands[1]) && OnBoard(cands[2]);
    }
  }
}
