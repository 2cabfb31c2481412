# Xiangqi rules engine (`src/board.rs`) in Dafny

This project models the rules engine of a two-player Xiangqi (Chinese chess)
program and proves properties of it. The engine has four parts:

- a 10 x 9 grid of pieces;
- a per-piece move generator (`Piece::possible`);
- a move classifier (`Board::verify`), whose results are `Valid`, `Invalid`,
  `RedWin` and `GreenWin`;
- a move applier (`Board::move_piece`).

The model follows the code as written, not textbook Xiangqi.

Every cell carries a `Player` tag, empty cells included. `Board::new` tags
every cell of rows 0..4 `Green` and every cell of rows 5..9 `Red`. Only
`move_piece` ever writes the `(None, NoneGreen)` that the scans treat as
free. `allowed` refuses a cell tagged with the mover's own side, whatever
its piece kind.

Arithmetic follows a release build of the Rust code. A `usize` subtraction
below zero wraps, and only the array index that follows it panics. So
coordinates are `int`, and a negative value stands for a wrapped `usize`.
`possible` returns `Checked<seq<Pos>>`, where `Panic` marks a probe that
indexed outside the grid.

## Modules

| file | module | contents |
|---|---|---|
| `pieces.dfy` | `Pieces` | `PieceType`, `MoveResult`, `Player`, `Piece`, `Pos`, and the `Checked` failure type |
| `moves.dfy` | `MoveGen` | `vacant`, `allowed` and `possible`, as specification functions; imperative methods that build the list with the source's loops, each proved to return its specification function |
| `move_properties.dfy` | `MoveProperties` | lemmas about the move generator |
| `board.dfy` | `Game` | the starting layout and the class `Board`: `New`, `Verify` and `MovePiece` |
| `board_properties.dfy` | `GameProperties` | lemmas about `verify` and about the starting position |

The imperative methods keep the Rust code's shape:
- The Ju and Pao methods run one `for` loop per direction, with the source's
  `break`s and the Pao `flag`.
- Ma and Xiang probe their four legs in the source's order.
- Shi, Shuai and Bing loop over the source's fixed candidate lists.

## What the code does that the game rules do not

Each of these consequences is proved:

- **Ju and Pao start on their own cell.** The rightward and downward scans
  begin on that cell (`pcol..9`, `prow..8`).
  - A Ju's own cell stops those two scans at once, so a Ju only ever moves
    left or up (`JuOnOwnCell`).
  - A Pao's own cell acts as the screen of those two scans (`PaoOnOwnCell`).
  - The downward scans stop before row 8.
- **A Pao captures only the cell right after its screen.** It does not
  search further (`PaoRunShape`).
  - In standard Xiangqi a cannon captures the first piece past its screen,
    however far away; this code looks at one cell only.
- **Off-board probes panic instead of being rejected.**
  - A Ma on any border cell (row 0 or 9, column 0 or 8) panics, and so does
    a Xiang of a real side (`MaPanicsOnBorder`, `XiangPanicsOnBorder`).
  - A Bing that has crossed the river panics on an edge column or on the
    last row (`BingPanics`).
  - `vacant` and `allowed` compute the range test (src/board.rs:49, :58)
    but index the grid anyway on the next line (:50, :59), so an off-grid
    cell panics before the test's result is used (:54, :63).
- **The cell a piece leaves is tagged `NoneGreen`, whoever moved.**
- **The starting position is frozen.** `Board::new` tags every empty cell
  `Red` or `Green`, so no piece of the starting layout has a destination.
  - `StartNoValidMove`: no request at the start is `Valid`, for either side.
  - `StartShuaiLoses`: selecting one's own Shuai at the start ends the game
    (the Green half holds in a release build only; see "## Left out").

## Model

| member | source | states |
|---|---|---|
| `MoveGen.Possible` | src/board.rs:66-375 | `possible` returns exactly `Moves`, dispatched by piece kind; an empty cell yields no moves |
| `MoveGen.PossibleJu` | src/board.rs:68-111 | the Ju list is the rightward, leftward, downward and upward scans, in that order (`JuMoves`) |
| `MoveGen.JuScan` | src/board.rs:70-79 | one Ju `for` loop pushes `JuRun` of its line: NoneRed/NoneGreen cells continue, an opponent cell is pushed and ends the scan, anything else ends it |
| `MoveGen.PossiblePao` | src/board.rs:291-370 | the Pao list is the four scans, in that order (`PaoMoves`) |
| `MoveGen.PaoScan` | src/board.rs:293-311 | one Pao `for` loop with its `flag` pushes `PaoRun` of its line: before the screen, NoneRed/NoneGreen cells are pushed; after it, only the next cell is looked at |
| `MoveGen.PossibleMa` | src/board.rs:112-147 | the Ma list is the four legs in source order, or `Panic` as soon as a probe leaves the grid (`MaMoves`) |
| `MoveGen.MaLegPush` | src/board.rs:114-121 | one Ma block returns exactly `MaLeg`: nothing unless the leg cell is vacant, then each of its two targets that is allowed, in order; a probe off the grid panics |
| `MoveGen.PossibleXiang` | src/board.rs:189-217 | the Xiang list is the four diagonal jumps in source order for a Red or Green piece, nothing otherwise, or `Panic` (`XiangStep`, `XiangMoves`) |
| `MoveGen.XiangStepPush` | src/board.rs:192-196 | one Xiang block returns exactly `XiangStep`: the target when the eye is vacant and the target allowed (short-circuit), else nothing; a probe off the grid panics |
| `MoveGen.PossibleShi` | src/board.rs:148-187 | the Shi list is the palace centre when the origin is one of its four diagonal neighbours, then the four fixed corners when the origin is the centre (`ShiMoves`) |
| `MoveGen.PushAllowed` | src/board.rs:161-165 | a loop over a fixed list of cells appends exactly those that pass `allowed` |
| `MoveGen.PossibleBing` | src/board.rs:218-250 | the Bing list is forward, left and right (panicking off the grid) once across the river, otherwise the one forward step when allowed (`BingMoves`) |
| `MoveGen.ProbeEach` | src/board.rs:223-230 | a loop over candidates either panics at the first one off the grid or keeps exactly those that pass `allowed` |
| `MoveGen.PossibleShuai` | src/board.rs:251-290 | the Shuai list is the four orthogonal neighbours that lie in the side's hard-coded palace and pass `allowed` (`ShuaiMoves`) |
| `MoveGen.PushInPalace` | src/board.rs:255-269 | a loop over candidates keeps exactly those in the palace ranges that pass `allowed` |
| `MoveGen.PalaceStepsAt` | src/board.rs:261-268 | one iteration of the Shuai loop: pushing candidate `i` exactly when it is in the palace and allowed leaves the rest of the list to do |
| `MoveGen.Vacant` | src/board.rs:48-55 | `vacant` holds exactly for the four empty values, whatever the cell's player tag |
| `MoveGen.Allowed` | src/board.rs:57-64 | `allowed` is false exactly when the mover is Red or Green and the cell carries that same tag, empty or not |
| `MoveProperties.CellProbes` | src/board.rs:48-64 | `vacant`/`allowed` on a computed cell panic exactly when the cell is off the grid; `vacant` is piecetype None; `allowed` refuses exactly the mover's own real side |
| `MoveProperties.JuRunShape` | src/board.rs:80-89 | a Ju scan yields the leading NoneRed/NoneGreen run, plus the first other cell only if it holds the opponent |
| `MoveProperties.PaoRunShape` | src/board.rs:313-330 | a Pao scan yields the leading NoneRed/NoneGreen run; the screen is never yielded; only the single cell after it can be, and only if it holds the opponent |
| `MoveProperties.JuRunWithin` | src/board.rs:68-111 | every cell a Ju scan yields is on its line, on the grid and allowed |
| `MoveProperties.PaoRunWithin` | src/board.rs:291-370 | every cell a Pao scan yields is on its line, on the grid and allowed |
| `MoveProperties.AllowedOfIff` | src/board.rs:161-186 | a cell is kept from a fixed candidate list iff it is in the list and passes `allowed` |
| `MoveProperties.ProbeAllIff` | src/board.rs:223-247 | probing candidates panics iff one is off the grid; otherwise a cell is kept iff it is a candidate that passes `allowed` |
| `MoveProperties.PalaceStepsIff` | src/board.rs:255-289 | a cell is kept iff it is a candidate inside the side's palace ranges that passes `allowed` |
| `MoveProperties.MovesOnBoard` | src/board.rs:66-375 | for every piece, every coordinate `possible` returns is in rows 0..9 and columns 0..8, and its cell does not carry the mover's side |
| `MoveProperties.JuOnOwnCell` | src/board.rs:68-111 | on its own cell a Ju's rightward and downward scans stop at once; every destination is left of it in its row or above it in its column |
| `MoveProperties.JuStopsAtOnce` | src/board.rs:70-99 | the rightward and downward Ju scans from its own cell are empty |
| `MoveProperties.PaoScreenedAtOnce` | src/board.rs:294-311 | the rightward and downward Pao scans from its own cell yield only the adjacent cell, and only when it holds the opponent |
| `MoveProperties.PaoOnOwnCell` | src/board.rs:291-370 | on its own cell a Pao's rightward scan yields only (row, col+1), and its downward scan only (row+1, col) up to row 7, each only as a capture; the left and up scans are unchanged |
| `MoveProperties.ShuaiMovesIff` | src/board.rs:251-290 | Shuai never panics; it moves to `d` iff `d` is one orthogonal step away, inside its side's palace and allowed (release build; on row 0 or column 0 a debug build panics) |
| `MoveProperties.ShuaiConfined` | src/board.rs:251-290 | Shuai results are one orthogonal step away, in columns 3..5, rows 7..9 for Red and rows 0..2 for Green |
| `MoveProperties.ShiMovesIff` | src/board.rs:148-187 | Shi never panics; it moves to `d` iff `d` is a diagonal step onto its palace centre, or from the centre, and is allowed (release build; on row 0 or column 0 a debug build may panic) |
| `MoveProperties.ShiFromIff` | src/board.rs:152-168 | for one palace whose corner list is the diagonal neighbours of its centre, the Shi rule yields exactly the allowed diagonal steps onto or off the centre |
| `MoveProperties.ShiConfined` | src/board.rs:148-187 | Red Shi results lie in {(8,4),(7,3),(7,5),(9,3),(9,5)}; Green Shi results lie in {(1,4),(0,3),(0,5),(2,3),(2,5)} |
| `MoveProperties.MaMovesIff` | src/board.rs:112-147 | when Ma does not panic, `d` is produced iff it is an L-jump whose leg cell has piecetype None and whose target is allowed |
| `MoveProperties.MaLegIff` | src/board.rs:114-121 | one Ma leg that does not panic yields `d` iff the leg cell is vacant and `d` is one of its two targets and passes `allowed` |
| `MoveProperties.MaPanicsOnBorder` | src/board.rs:112-147 | a Ma on any border cell (row 0 or 9, column 0 or 8) always panics: its four leg probes always run |
| `MoveProperties.XiangMovesIff` | src/board.rs:189-217 | when Xiang does not panic, `d` is produced iff the piece is Red or Green and `d` is a two-step diagonal jump, with no river limit, whose eye has piecetype None and whose target is allowed |
| `MoveProperties.XiangStepIff` | src/board.rs:192-196 | one Xiang jump that does not panic yields `d` iff the eye is vacant and `d` is its target and passes `allowed` |
| `MoveProperties.XiangPanicsOnBorder` | src/board.rs:189-217 | a Red or Green Xiang on any border cell (row 0 or 9, column 0 or 8) always panics: its four eye probes always run |
| `MoveProperties.BingMovesIff` | src/board.rs:218-250 | when Bing does not panic, `d` is produced iff it is the forward step, or a sideways step once across the river (row <= 4 for Red, row >= 5 for Green), and is allowed; never backwards |
| `MoveProperties.BingPanics` | src/board.rs:218-250 | Bing panics iff it is across the river and on row 0 (Red) or row 9 (Green), or on an edge column |
| `Game.Board.New` | src/board.rs:411-527 | `Board::new` builds a fresh 10 x 9 grid holding exactly the fixed starting layout |
| `Game.Board.Verify` | src/board.rs:614-679 | `verify` panics iff the origin is off the grid or the generator panics; it is Valid iff the origin holds a piece not of the opponent of `turn` and `possible` lists `to`, which then is on the grid and allowed; GreenWin/RedWin iff the selected piece is the Red/Green Shuai with no move and it is not the other side's turn |
| `Game.Board.MovePiece` | src/board.rs:685-697 | returns `verify`'s result; on Valid `to` gets the old `from` piece, `from` becomes (None, NoneGreen), and every other cell is unchanged; otherwise the grid is unchanged; it preserves "a piece always carries Red or Green" |
| `GameProperties.VerifyOrder` | src/board.rs:614-679 | the order in which `verify` decides: empty origin Invalid, opponent's piece Invalid, a Shuai without moves loses whatever `to` is, a `to` not listed Invalid, otherwise Valid |
| `GameProperties.ValidMoveOwnPiece` | src/board.rs:614-679 | on a board where every piece carries a real side, a Valid request moves a piece of the side of `turn` to a different cell that does not carry that side |
| `GameProperties.StartSides` | src/board.rs:411-527 | at the start every cell of rows 0..4 is tagged Green and every cell of rows 5..9 Red, empty cells included |
| `GameProperties.StartConsistent` | src/board.rs:411-527 | the starting layout satisfies "a piece always carries Red or Green" |
| `GameProperties.StartShuaiCells` | src/board.rs:411-527 | at the start the only Shuai cells are (0,4), Green, and (9,4), Red |
| `GameProperties.StartShuaiNoMoves` | src/board.rs:251-290 | at the start each Shuai has no move |
| `GameProperties.StartShuaiLoses` | src/board.rs:649-668 | at the start, selecting the Red Shuai gives GreenWin unless it is Green's turn, and selecting the Green Shuai gives RedWin unless it is Red's turn, whatever `to` is (the Green half in a release build only: a debug build panics at `prow - 1`) |
| `GameProperties.StartStuck` | src/board.rs:66-375 | at the start, `possible` on any cell panics or returns the empty list |
| `GameProperties.StartNoValidMove` | src/board.rs:614-679 | no request on the starting board is Valid, for any turn, origin or destination |
| `GameProperties.RunFromSided` | src/board.rs:68-111 | a Ju or Pao scan whose first cell carries a real side yields at most one cell |
| `GameProperties.StartJuStuck` | src/board.rs:68-111 | at the start every Ju has no move |
| `GameProperties.StartPaoStuck` | src/board.rs:291-370 | at the start every Pao has no move |
| `GameProperties.StartPaoLeftUp` | src/board.rs:313-368 | at the start a Pao's leftward and upward scans yield nothing: the screen is next to it and the cell after it carries its own side |
| `GameProperties.StartSameHalf` | src/board.rs:411-527 | two starting cells in the same half of the board are never rivals |
| `GameProperties.StartShiStuck` | src/board.rs:148-187 | at the start every Shi has no move |
| `GameProperties.StartBingStuck` | src/board.rs:218-250 | at the start every Bing has no move |

## Left out

- `Board::run` (src/board.rs:529-583) is not modelled: it is the stdin loop, with tokenising, number parsing, the 1-based to 0-based conversion and the turn toggle after a Valid move. Its callers' turn is a parameter of `Verify` and `MovePiece` here.
- `Piece::show_piece` and `Board::show` are not modelled: they draw the board on the terminal.
- The messages `verify` prints are not modelled; `Verify` returns the `MoveResult` only.
- `src/color.rs` and `src/main.rs` are not part of this model: the first wraps a terminal-colour library, the second only wires the program together.
- `reverse_piece` is not modelled: it is a stub that always returns Valid.
- Debug-build overflow checks are not modelled: a debug build panics at a `usize` subtraction below zero, a release build wraps it. The model follows a release build. For Ma, Xiang and Bing every wrapped value is then used as an index, so both builds panic on the same inputs. For Shi and Shuai the wrapped values are only compared (src/board.rs:153-155, :170-172, :257, :259, :274, :276), so next to row 0 or column 0 a debug build panics where the model returns a list: a Red Shi at (7,0), or the Green Shuai at (0,4) of the starting board.
- `ShuaiMovesIff`: its "never panics" holds in a release build only; in a debug build a Shuai on row 0 or column 0 panics at `prow - 1` or `pcol - 1`.
- `ShiMovesIff`: its "never panics" holds in a release build only; in a debug build a Shi on row 0 or column 0 may panic in the centre test.
- `StartShuaiLoses`: its Green half (RedWin for the Green Shuai at (0,4)) holds in a release build only; a debug build panics instead.
- `MoveGen.Possible` requires an origin on the grid. Its only caller, `verify`, indexes the origin first and panics otherwise, and `Verify` models that panic.
- The `Vec` allocations of `possible` are not modelled; the lists are Dafny sequences. Only membership of `to` is used.
