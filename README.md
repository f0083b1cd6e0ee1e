# Gobang game-state engine in Dafny

A model of the game engine of a terminal five-in-a-row (Gobang) game for two players
sharing one keyboard. The engine is the `App` struct of `src/App.rs`. It holds these fields:

- a square board of side `size` (10), stored as `matrix`, a grid of `Status` labels (`X`, `O`, `Null`);
- a cursor (`row`, `column`);
- the player to move, `now_player`;
- the `winner`.

`Null` stands for three things: an empty cell, "no winner yet", and "nobody to move".

The model has four modules:

- `Board` (`board.dfy`): the `Status` label and the character it is drawn with, the board as
  `seq<seq<Status>>`, the bounds-checked read `visit_cell`, writing one cell, and stone counts.
- `Win` (`win.dfy`): the per-cell test `check_cell`, modelled branch for branch, and the
  row-major scan that `check` performs, as the function `Scan`. It also gives a definition of a
  five-in-a-row that does not depend on the program: `Run`, five consecutive cells in any of
  the eight compass directions. Lemmas tie `check_cell` and `Scan` to `Run`.
- `Game` (`game.dfy`): the class `App` with the source's fields. Its methods update them in
  place: `up`, `down`, `left`, `right`, `register`, `check` (nested loops with an early
  return) and the constructor `new`. `Valid()` is the object invariant, and it covers:
  - the cursor is on the board and the board is square;
  - the game has ended exactly when nobody is to move;
  - a recorded winner is the label the scan reports;
  - X has as many stones as O, or one more, depending on whose turn it is;
  - as a consequence, a game in which nobody is to move has a five-in-a-row on its board.
- `Scenarios` (`scenarios.dfy`): concrete 10 by 10 positions and the winner the scan reports,
  and one whole game played through the methods of `App`.

Main results:

- `Win.ScanIffFive`: the scan reports a winner exactly when the board holds five in a row in
  any direction.
- `Win.DetectsEveryRun`: check_cell tests only four of the eight directions, anchored at the
  last cell of a line (the fourth, down-left, is anchored on the opposite corner from the
  others). Even so, no line of five goes undetected.
- `Win.ScanFindsFirst`: the reported winner is the label of the first winning cell in
  row-major order.

When `check` finds no run, it leaves `winner` and `now_player` unchanged
(`Game.App.Check`). `check` sets `now_player` to `Null` when it records a winner, and
`register` ignores a `Null` player. So the board is frozen once a winner is recorded
(`Game.RegisterAfterEnd`).

## Model

| member | source | states |
|---|---|---|
| `Board.Glyph` | src/App.rs:17-25 | a label is drawn as X, O or a blank, and blank exactly for `Null` |
| `Board.GlyphInjective` | src/App.rs:17-25 | the drawing is injective: two labels look alike only if they are equal |
| `Board.Opponent` | src/App.rs:132-142 | the turn passes to a real player different from the one who moved |
| `Board.OpponentInvolutive` | src/App.rs:132-142 | passing the turn twice gives it back to the same player |
| `Board.VisitCell` | src/App.rs:77-82 | returns `Some(matrix[i][j])` exactly when `i < size && j < size`, else `None` |
| `Board.EmptyGrid` | src/App.rs:170 | the initial board is `size` by `size` with every cell `Null` |
| `Board.Place` | src/App.rs:134-138 | writing the stone changes exactly the cursor cell and keeps the board square |
| `Board.CountUpdate` | src/App.rs:134-138 | overwriting one cell moves one unit of count from the old label to the new one |
| `Board.PlaceCounts` | src/App.rs:130-144 | a placement on an empty cell adds one stone of the mover's label and none of the other |
| `Board.EmptyGridCounts` | src/App.rs:170 | a fresh board holds no X and no O stones |
| `Win.CheckCell` | src/App.rs:85-127 | the result is `Null` or the label of cell (i, j) |
| `Win.CheckCellMeaning` | src/App.rs:85-127 | check_cell is non-`Null` exactly when five equal non-`Null` cells, all on the board, end at (i, j) upward, leftward, up-left or down-left |
| `Win.ScanFrom` | src/App.rs:147-161 | the nested `for i`/`for j` loops with early return, from cell (i, j) on: the first non-`Null` check_cell label in row-major order, else `Null` (its meaning is proved by `Win.ScanFromMeaning`) |
| `Win.Scan` | src/App.rs:147-161 | the outcome of the whole scan that `check` performs, from (0, 0) |
| `Win.ScanFromMeaning` | src/App.rs:147-161 | the scan from a cell on is `Null` iff no later cell reports a run, otherwise the label at the first such cell |
| `Win.ScanNullMeaning` | src/App.rs:147-161 | the full scan finds nothing exactly when check_cell is `Null` at every cell |
| `Win.ScanFindsFirst` | src/App.rs:147-161 | a reported winner is check_cell at the first winning cell in row-major order |
| `Win.FirstWinUnique` | src/App.rs:147-161 | there is only one first winning cell, so the report is deterministic |
| `Win.RunReverse` | src/App.rs:85-127 | a line of five read from its other end, in the opposite direction, is still a line of five |
| `Win.DetectsEveryRun` | src/App.rs:85-127 | every line of five, in any of the eight directions, makes the scan report a winner |
| `Win.ScanIsSound` | src/App.rs:147-161 | a reported winner has a line of five stones of its label on the board |
| `Win.ScanIffFive` | src/App.rs:147-161 | the scan reports a winner if and only if the board holds a line of five |
| `Win.EmptyGridHasNoWinner` | src/App.rs:164-174 | a fresh board has no winner |
| `Game.Prev` | src/App.rs:44-50 | the step back stays below `n` and is the predecessor modulo `n` (0 goes to `n - 1`) |
| `Game.Next` | src/App.rs:52-58 | the step forward stays below `n` and is the successor modulo `n` (`n - 1` goes to 0) |
| `Game.StepsCancel` | src/App.rs:44-74 | a step back and a step forward undo each other, in either order |
| `Game.App.Valid` | src/App.rs:27-40 | the struct's invariants: cursor on the board, square board, ended exactly when nobody is to move, winner equals the scan, balanced stone counts; and a game with nobody to move has a five-in-a-row on its board |
| `Game.App.constructor` | src/App.rs:164-174 | a 10 by 10 all-`Null` board, cursor (0, 0), no winner, X to move, and the invariant holds |
| `Game.App.Up` | src/App.rs:44-50 | the row becomes its predecessor modulo `size`; nothing else changes; the invariant is kept |
| `Game.App.Down` | src/App.rs:52-58 | the row becomes its successor modulo `size`; nothing else changes; the invariant is kept |
| `Game.App.Left` | src/App.rs:60-66 | the column becomes its predecessor modulo `size`; nothing else changes; the invariant is kept |
| `Game.App.Right` | src/App.rs:68-74 | the column becomes its successor modulo `size`; nothing else changes; the invariant is kept |
| `Game.App.Register` | src/App.rs:130-144 | on an empty cursor cell with a player to move, writes that player's stone into exactly that cell and passes the turn; otherwise nothing changes; cursor and winner never change; stone counts stay balanced |
| `Game.App.Check` | src/App.rs:147-161 | if the scan finds a run, records its label as winner and sets the player to `Null`; otherwise all state is unchanged; board and cursor never change |
| `Game.UpThenDown` | src/App.rs:44-58 | moving up then down restores the whole state |
| `Game.LeftThenRight` | src/App.rs:60-74 | moving left then right restores the whole state |
| `Game.CheckTwice` | src/App.rs:147-161 | two checks in a row leave the same state as one |
| `Game.RegisterAfterEnd` | src/App.rs:130-144 | once a winner is recorded, a placement changes nothing |
| `Scenarios.FifthStoneWins` | src/App.rs:85-105 | four X stones at (5,0)..(5,3) are no win; adding X at (5,4) makes the scan report X |
| `Scenarios.AlternatingGameWinner` | src/App.rs:147-161 | after X at (0,0)..(0,4) alternating with O at (1,0)..(1,3), the scan reports X |
| `Scenarios.PlayRound` | src/App.rs:44-74 | from (0, c) with X to move, register, down, register, up, right places X at (0, c) and O at (1, c), passes the turn twice and leaves the cursor at (0, c+1) |
| `Scenarios.FinalRound` | src/App.rs:130-144 | after four rounds the cell (0,4) is empty, and X's stone there gives the final position of that game |
| `Scenarios.PlayAlternatingGame` | src/App.rs:130-174 | playing that game on a fresh `App` (check, nine placements with cursor moves, check) ends with that board, winner X and nobody to move |
| `Scenarios.DiagonalDetected` | src/App.rs:106-115 | O on (2,2)..(6,6) is a run on the up-left axis anchored at (6,6), check_cell there reports O, and the scan reports O |

## Left out

- `Win.CheckCell` requires both indices to be on the board. Its only caller, `check`, never
  passes anything else. For an index off the board, the source would panic on `unwrap` in
  some cases and not in others, and that panic is not modelled.
- Machine integers are not modelled: `i + 4` cannot overflow `usize` here. The `size - 1`
  underflow for `size == 0` is excluded by the invariant `size >= 1`.
- `Game.App.Valid` includes game invariants (the game has ended exactly when nobody is to
  move, the recorded winner equals the scan, the stone counts are balanced). These hold
  because only the modelled methods change an `App`. The source's fields are public, but
  nothing else writes them.
- The board is a `seq<seq<Status>>` value that `register` reassigns, not a `Vec<Vec<_>>`
  written in place. Nothing else holds a reference to the board, so no aliasing is lost.
- The `std::fmt::Formatter` plumbing of `Display` is left out; only the label-to-character
  mapping is modelled (`Board.Glyph`).
- `src/ui.rs` is not part of this model. It covers drawing the board and status line with
  `tui`, and the event loop that polls `crossterm` for keys. The loop calls `check` before
  handling each key (src/ui.rs:103). Restart replaces the `App` with `App::new()`
  (src/ui.rs:113), which is the constructor. The effects of that ordering are stated by
  `Game.CheckTwice` and `Game.RegisterAfterEnd`.
- `src/main.rs` (terminal raw mode, alternate screen and mouse capture) is not part of this
  model: it is terminal I/O with no game logic.
