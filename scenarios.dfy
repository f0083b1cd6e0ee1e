/** Concrete positions on the default 10 by 10 board and the outcome the scan reports. */
module Scenarios {
  import opened Board
  import opened Win
  import opened Game

  /** A 10 by 10 board with X stones on `xs`, O stones on `os` (X where both name a cell). */
  function Stones(xs: set<(int, int)>, os: set<(int, int)>): (g: Grid)
    ensures Square(10, g)
    ensures forall i, j :: 0 <= i < 10 && 0 <= j < 10 ==>
      g[i][j] == if (i, j) in xs then X else if (i, j) in os then O else Null
  {
    seq(10, i => seq(10, j => if (i, j) in xs then X else if (i, j) in os then O else Null))
  }

  /** A board on which every stone of label `s` lies in row `r` within columns `lo`..`lo`+3
      has no five-in-a-row of `s`: the two ends of a run are four steps apart. */
  lemma NoRunInShortRow(m: Grid, s: Status, r: int, lo: int)
    requires Square(10, m)
    requires forall i, j :: 0 <= i < 10 && 0 <= j < 10 && m[i][j] == s ==> i == r && lo <= j < lo + 4
    ensures forall p: (int, int), d: Compass :: !Run(10, m, p, d, s)
  {
    forall p: (int, int), d: Compass | Run(10, m, p, d, s)
      ensures false
    {
      RunCells(10, m, p, d, s);
    }
  }

  /** Four X stones at (5,0)..(5,3): no winner yet. */
  function FourInRow(): Grid
  {
    Stones({(5, 0), (5, 1), (5, 2), (5, 3)}, {})
  }

  /** With four X stones in row 5 there is no winner; X placing at (5,4) wins. */
  lemma FifthStoneWins()
    ensures Scan(10, FourInRow()) == Null
    ensures Scan(10, Place(10, FourInRow(), 5, 4, X)) == X
  {
    var before := FourInRow();
    NoRunInShortRow(before, X, 5, 0);
    NoRunInShortRow(before, O, 5, 0);
    ScanIffFive(10, before);
    var after := Place(10, before, 5, 4, X);
    CellsRun(10, after, (5, 0), E, X);
    DetectsEveryRun(10, after, (5, 0), E, X);
    ScanIsSound(10, after);
    var p: (int, int), d: Compass :| Run(10, after, p, d, Scan(10, after));
    RunCells(10, after, p, d, Scan(10, after));
  }

  /** The position after X at (0,0), O at (1,0), X at (0,1), O at (1,1), ..., X at (0,4). */
  function AlternatingGame(): Grid
  {
    Stones({(0, 0), (0, 1), (0, 2), (0, 3), (0, 4)}, {(1, 0), (1, 1), (1, 2), (1, 3)})
  }

  /** X's horizontal run in row 0 is reported, not O's four stones in row 1. */
  lemma AlternatingGameWinner()
    ensures Scan(10, AlternatingGame()) == X
  {
    var g := AlternatingGame();
    CellsRun(10, g, (0, 0), E, X);
    DetectsEveryRun(10, g, (0, 0), E, X);
    NoRunInShortRow(g, O, 1, 0);
    ScanIsSound(10, g);
  }

  /** The board of that game after `c` rounds: X on (0,0)..(0,c-1), O on (1,0)..(1,c-1). */
  ghost predicate PlayedColumns(m: Grid, c: int)
  {
    && Square(10, m)
    && forall i, j :: 0 <= i < 10 && 0 <= j < 10 ==>
         m[i][j] == if i == 0 && j < c then X else if i == 1 && j < c then O else Null
  }

  /** One round from the cursor at (0, `c`): X places, the cursor moves down, O places, and
      the cursor moves up and right to the next column. */
  method PlayRound(app: App, c: nat)
    requires app.Valid() && app.size == 10 && c < 9
    requires app.row == 0 && app.column == c && app.nowPlayer == X
    requires PlayedColumns(app.matrix, c)
    modifies app
    ensures app.Valid()
    ensures app.row == 0 && app.column == c + 1 && app.nowPlayer == X
    ensures PlayedColumns(app.matrix, c + 1)
  {
    app.Register();
    app.Down();
    app.Register();
    app.Up();
    app.Right();
  }

  /** After four rounds, X's stone at (0,4) completes the final position of that game. */
  lemma FinalRound(m: Grid)
    requires PlayedColumns(m, 4)
    ensures m[0][4] == Null
    ensures Place(10, m, 0, 4, X) == AlternatingGame()
  {
    var g, a := Place(10, m, 0, 4, X), AlternatingGame();
    forall i | 0 <= i < 10
      ensures g[i] == a[i]
    {
      forall j | 0 <= j < 10
        ensures g[i][j] == a[i][j]
      {
      }
    }
  }

  /** Plays that game on a fresh `App` as the event loop would: check, then place and move
      the cursor for each turn, then check again. The turn passes after every placement and
      the final check records X as the winner and ends the game. */
  method PlayAlternatingGame() returns (app: App)
    ensures app.Valid()
    ensures app.matrix == AlternatingGame()
    ensures app.winner == X && app.nowPlayer == Null
  {
    app := new App();
    EmptyGridHasNoWinner(10);
    app.Check();
    assert PlayedColumns(app.matrix, 0);
    PlayRound(app, 0);
    PlayRound(app, 1);
    PlayRound(app, 2);
    PlayRound(app, 3);
    FinalRound(app.matrix);
    app.Register();
    AlternatingGameWinner();
    app.Check();
  }

  /** O stones on the diagonal (2,2), (3,3), (4,4), (5,5), (6,6). */
  function DiagonalOfO(): Grid
  {
    Stones({}, {(2, 2), (3, 3), (4, 4), (5, 5), (6, 6)})
  }

  /** The up-left axis anchored at (6,6) finds the diagonal, and the scan reports O. */
  lemma DiagonalDetected()
    ensures Run(10, DiagonalOfO(), (6, 6), NW, O)
    ensures CheckCell(10, DiagonalOfO(), 6, 6) == O
    ensures Scan(10, DiagonalOfO()) == O
  {
    var g := DiagonalOfO();
    CellsRun(10, g, (6, 6), NW, O);
    CheckCellMeaning(10, g, 6, 6);
    DetectsEveryRun(10, g, (6, 6), NW, O);
    ScanIsSound(10, g);
    var p: (int, int), d: Compass :| Run(10, g, p, d, Scan(10, g));
    RunCells(10, g, p, d, Scan(10, g));
  }
}
