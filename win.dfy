/** Five-in-a-row detection: the per-cell test, the row-major scan over the board,
    and what both mean in terms of lines of five stones (src/App.rs). */
module Win {
  import opened Board

  /** The comparison chain of one axis: five equal labels, the last of them not empty. */
  predicate Line(a: Status, b: Status, c: Status, d: Status, e: Status)
  {
    a == b && b == c && c == d && d == e && e != Null
  }

  /** Does a run of five end at (`i`, `j`) on one of four axes? Returns its label, or `Null`.
      The axes are tried in the order: upward over rows i-4..i, leftward over columns j-4..j,
      up-left from (i-4, j-4), and down-left from (i+4, j-4). */
  function CheckCell(size: nat, m: Grid, i: nat, j: nat): (r: Status)
    requires Square(size, m) && i < size && j < size
    ensures r == Null || r == m[i][j]
  {
    if i > 3 && VisitCell(size, m, i - 4, j).Some?
       && Line(VisitCell(size, m, i - 4, j).value, VisitCell(size, m, i - 3, j).value,
               VisitCell(size, m, i - 2, j).value, VisitCell(size, m, i - 1, j).value,
               VisitCell(size, m, i, j).value)
    then VisitCell(size, m, i, j).value
    else if j > 3 && VisitCell(size, m, i, j - 4).Some?
       && Line(VisitCell(size, m, i, j - 4).value, VisitCell(size, m, i, j - 3).value,
               VisitCell(size, m, i, j - 2).value, VisitCell(size, m, i, j - 1).value,
               VisitCell(size, m, i, j).value)
    then VisitCell(size, m, i, j).value
    else if i > 3 && j > 3 && VisitCell(size, m, i - 4, j - 4).Some?
       && Line(VisitCell(size, m, i - 4, j - 4).value, VisitCell(size, m, i - 3, j - 3).value,
               VisitCell(size, m, i - 2, j - 2).value, VisitCell(size, m, i - 1, j - 1).value,
               VisitCell(size, m, i, j).value)
    then VisitCell(size, m, i, j).value
    else if j > 3 && VisitCell(size, m, i + 4, j - 4).Some?
       && Line(VisitCell(size, m, i + 4, j - 4).value, VisitCell(size, m, i + 3, j - 3).value,
               VisitCell(size, m, i + 2, j - 2).value, VisitCell(size, m, i + 1, j - 1).value,
               VisitCell(size, m, i, j).value)
    then VisitCell(size, m, i, j).value
    else Null
  }

  /** The first label `CheckCell` reports at or after (`i`, `j`) in row-major order, or `Null`. */
  function ScanFrom(size: nat, m: Grid, i: nat, j: nat): Status
    requires Square(size, m) && i <= size && j <= size
    decreases size - i, size - j
  {
    if i == size then Null
    else if j == size then ScanFrom(size, m, i + 1, 0)
    else if CheckCell(size, m, i, j) != Null then CheckCell(size, m, i, j)
    else ScanFrom(size, m, i, j + 1)
  }

  /** The outcome of a full scan of the board: the winner it reports, or `Null`. */
  function Scan(size: nat, m: Grid): Status
    requires Square(size, m)
  {
    ScanFrom(size, m, 0, 0)
  }

  /** (`i'`, `j'`) comes strictly before (`i`, `j`) in row-major order. */
  predicate Before(i': int, j': int, i: int, j: int)
  {
    i' < i || (i' == i && j' < j)
  }

  /** (`i`, `j`) is the first cell in row-major order where `CheckCell` reports a run. */
  ghost predicate FirstWin(size: nat, m: Grid, i: nat, j: nat)
    requires Square(size, m)
  {
    && i < size && j < size
    && CheckCell(size, m, i, j) != Null
    && forall i': nat, j': nat :: i' < size && j' < size && Before(i', j', i, j) ==> CheckCell(size, m, i', j') == Null
  }

  /** The meaning of `ScanFrom`: `Null` when no cell from (`i`, `j`) on reports a run, and
      otherwise the label of the first such cell. */
  lemma {:induction false} ScanFromMeaning(size: nat, m: Grid, i: nat, j: nat)
    requires Square(size, m) && i <= size && j <= size
    ensures ScanFrom(size, m, i, j) == Null <==>
      forall i': nat, j': nat :: i' < size && j' < size && !Before(i', j', i, j) ==> CheckCell(size, m, i', j') == Null
    ensures ScanFrom(size, m, i, j) != Null ==>
      exists i': nat, j': nat :: i' < size && j' < size && !Before(i', j', i, j)
        && CheckCell(size, m, i', j') == ScanFrom(size, m, i, j)
        && forall i'': nat, j'': nat :: i'' < size && j'' < size && !Before(i'', j'', i, j) && Before(i'', j'', i', j')
             ==> CheckCell(size, m, i'', j'') == Null
    decreases size - i, size - j
  {
    if i == size {
    } else if j == size {
      ScanFromMeaning(size, m, i + 1, 0);
    } else if CheckCell(size, m, i, j) != Null {
      assert !Before(i, j, i, j);
    } else {
      ScanFromMeaning(size, m, i, j + 1);
      forall i': nat, j': nat | i' < size && j' < size && !Before(i', j', i, j) && Before(i', j', i, j + 1)
        ensures i' == i && j' == j
      {
      }
    }
  }

  /** `Scan` is `Null` exactly when no cell of the board reports a run. */
  lemma ScanNullMeaning(size: nat, m: Grid)
    requires Square(size, m)
    ensures Scan(size, m) == Null <==>
      forall i: nat, j: nat :: i < size && j < size ==> CheckCell(size, m, i, j) == Null
  {
    ScanFromMeaning(size, m, 0, 0);
  }

  /** A non-`Null` `Scan` is the label reported at the first winning cell in row-major order. */
  lemma ScanFindsFirst(size: nat, m: Grid)
    requires Square(size, m)
    requires Scan(size, m) != Null
    ensures exists i: nat, j: nat :: FirstWin(size, m, i, j) && CheckCell(size, m, i, j) == Scan(size, m)
  {
    ScanFromMeaning(size, m, 0, 0);
    var i: nat, j: nat :| i < size && j < size && CheckCell(size, m, i, j) == Scan(size, m)
      && forall i'': nat, j'': nat :: i'' < size && j'' < size && !Before(i'', j'', 0, 0) && Before(i'', j'', i, j)
           ==> CheckCell(size, m, i'', j'') == Null;
    assert FirstWin(size, m, i, j);
  }

  /** The first winning cell is unique, so the reported winner is determined by the board. */
  lemma FirstWinUnique(size: nat, m: Grid, i: nat, j: nat, i': nat, j': nat)
    requires Square(size, m)
    requires FirstWin(size, m, i, j) && FirstWin(size, m, i', j')
    ensures i == i' && j == j'
  {
  }

  /** The eight compass directions a line of stones can be read in. */
  datatype Compass = N | S | E | W | NE | NW | SE | SW

  /** The cell `k` steps from `p` towards `d` (rows grow downward, columns rightward). */
  function Walk(p: (int, int), d: Compass, k: int): (int, int)
  {
    match d
    case N => (p.0 - k, p.1)
    case S => (p.0 + k, p.1)
    case E => (p.0, p.1 + k)
    case W => (p.0, p.1 - k)
    case NE => (p.0 - k, p.1 + k)
    case NW => (p.0 - k, p.1 - k)
    case SE => (p.0 + k, p.1 + k)
    case SW => (p.0 + k, p.1 - k)
  }

  function Reverse(d: Compass): (r: Compass)
    ensures forall p: (int, int), k: int :: Walk(p, r, k) == Walk(p, d, -k)
  {
    match d
    case N => S
    case S => N
    case E => W
    case W => E
    case NE => SW
    case SW => NE
    case NW => SE
    case SE => NW
  }

  /** Cell `p` is on the board and holds `s`. */
  ghost predicate Holds(size: nat, m: Grid, p: (int, int), s: Status)
    requires Square(size, m)
  {
    0 <= p.0 < size && 0 <= p.1 < size && m[p.0][p.1] == s
  }

  /** Five consecutive cells starting at `p` and going towards `d` are on the board and all
      hold the stone `s`: a five-in-a-row, independent of how the program looks for one. */
  ghost predicate Run(size: nat, m: Grid, p: (int, int), d: Compass, s: Status)
    requires Square(size, m)
  {
    s != Null && forall k :: 0 <= k < 5 ==> Holds(size, m, Walk(p, d, k), s)
  }

  /** The board holds a five-in-a-row somewhere, in any direction. */
  ghost predicate HasFive(size: nat, m: Grid)
    requires Square(size, m)
  {
    exists p: (int, int), d: Compass, s: Status :: Run(size, m, p, d, s)
  }

  lemma RunCells(size: nat, m: Grid, p: (int, int), d: Compass, s: Status)
    requires Square(size, m) && Run(size, m, p, d, s)
    ensures Holds(size, m, Walk(p, d, 0), s) && Holds(size, m, Walk(p, d, 1), s)
         && Holds(size, m, Walk(p, d, 2), s) && Holds(size, m, Walk(p, d, 3), s)
         && Holds(size, m, Walk(p, d, 4), s)
  {
  }

  lemma CellsRun(size: nat, m: Grid, p: (int, int), d: Compass, s: Status)
    requires Square(size, m) && s != Null
    requires Holds(size, m, Walk(p, d, 0), s) && Holds(size, m, Walk(p, d, 1), s)
          && Holds(size, m, Walk(p, d, 2), s) && Holds(size, m, Walk(p, d, 3), s)
          && Holds(size, m, Walk(p, d, 4), s)
    ensures Run(size, m, p, d, s)
  {
    forall k | 0 <= k < 5
      ensures Holds(size, m, Walk(p, d, k), s)
    {
      assert k == 0 || k == 1 || k == 2 || k == 3 || k == 4;
    }
  }

  /** A run read from its other end, in the opposite direction, is the same run. */
  lemma RunReverse(size: nat, m: Grid, p: (int, int), d: Compass, s: Status)
    requires Square(size, m) && Run(size, m, p, d, s)
    ensures Run(size, m, Walk(p, d, 4), Reverse(d), s)
  {
    var q := Walk(p, d, 4);
    forall k | 0 <= k < 5
      ensures Holds(size, m, Walk(q, Reverse(d), k), s)
    {
      assert Walk(q, Reverse(d), k) == Walk(p, d, 4 - k);
    }
  }

  /** The meaning of `CheckCell`: it reports a label exactly when a run of five ends at
      (`i`, `j`) on one of its four axes (upward, leftward, up-left, down-left), and the
      label is that of the cell. */
  lemma CheckCellMeaning(size: nat, m: Grid, i: nat, j: nat)
    requires Square(size, m) && i < size && j < size
    ensures CheckCell(size, m, i, j) != Null <==>
      Run(size, m, (i, j), N, m[i][j]) || Run(size, m, (i, j), W, m[i][j])
      || Run(size, m, (i, j), NW, m[i][j]) || Run(size, m, (i, j), SW, m[i][j])
  {
    var s := m[i][j];
    if CheckCell(size, m, i, j) != Null {
      if i > 3 && Line(m[i - 4][j], m[i - 3][j], m[i - 2][j], m[i - 1][j], s) {
        CellsRun(size, m, (i, j), N, s);
      } else if j > 3 && Line(m[i][j - 4], m[i][j - 3], m[i][j - 2], m[i][j - 1], s) {
        CellsRun(size, m, (i, j), W, s);
      } else if i > 3 && j > 3 && Line(m[i - 4][j - 4], m[i - 3][j - 3], m[i - 2][j - 2], m[i - 1][j - 1], s) {
        CellsRun(size, m, (i, j), NW, s);
      } else {
        CellsRun(size, m, (i, j), SW, s);
      }
    } else {
      if Run(size, m, (i, j), N, s) {
        RunCells(size, m, (i, j), N, s);
      } else if Run(size, m, (i, j), W, s) {
        RunCells(size, m, (i, j), W, s);
      } else if Run(size, m, (i, j), NW, s) {
        RunCells(size, m, (i, j), NW, s);
      } else if Run(size, m, (i, j), SW, s) {
        RunCells(size, m, (i, j), SW, s);
      }
    }
  }

  /** Every five-in-a-row on the board, in any of the eight directions, is found by the scan:
      each line has an end at which one of the four axes of `CheckCell` is anchored. */
  lemma DetectsEveryRun(size: nat, m: Grid, p: (int, int), d: Compass, s: Status)
    requires Square(size, m) && Run(size, m, p, d, s)
    ensures Scan(size, m) != Null
  {
    var q, e := p, d;
    if d !in {N, W, NW, SW} {
      RunReverse(size, m, p, d, s);
      q, e := Walk(p, d, 4), Reverse(d);
    }
    assert Run(size, m, q, e, s) && e in {N, W, NW, SW};
    RunCells(size, m, q, e, s);
    assert Walk(q, e, 0) == q;
    CheckCellMeaning(size, m, q.0, q.1);
    ScanNullMeaning(size, m);
    assert CheckCell(size, m, q.0, q.1) != Null;
  }

  /** A reported winner always has a five-in-a-row of its label on the board. */
  lemma ScanIsSound(size: nat, m: Grid)
    requires Square(size, m) && Scan(size, m) != Null
    ensures exists p: (int, int), d: Compass :: Run(size, m, p, d, Scan(size, m))
  {
    ScanFindsFirst(size, m);
    var i: nat, j: nat :| FirstWin(size, m, i, j) && CheckCell(size, m, i, j) == Scan(size, m);
    CheckCellMeaning(size, m, i, j);
    if Run(size, m, (i, j), N, m[i][j]) {
      assert Run(size, m, (i, j), N, Scan(size, m));
    } else if Run(size, m, (i, j), W, m[i][j]) {
      assert Run(size, m, (i, j), W, Scan(size, m));
    } else if Run(size, m, (i, j), NW, m[i][j]) {
      assert Run(size, m, (i, j), NW, Scan(size, m));
    } else {
      assert Run(size, m, (i, j), SW, Scan(size, m));
    }
  }

  /** The scan reports a winner exactly when the board holds a five-in-a-row in any direction. */
  lemma ScanIffFive(size: nat, m: Grid)
    requires Square(size, m)
    ensures Scan(size, m) != Null <==> HasFive(size, m)
  {
    if Scan(size, m) != Null {
      ScanIsSound(size, m);
      var p: (int, int), d: Compass :| Run(size, m, p, d, Scan(size, m));
      assert Run(size, m, p, d, Scan(size, m));
    }
    if HasFive(size, m) {
      var p: (int, int), d: Compass, s: Status :| Run(size, m, p, d, s);
      DetectsEveryRun(size, m, p, d, s);
    }
  }

  /** A fresh board has no winner. */
  lemma EmptyGridHasNoWinner(n: nat)
    ensures Scan(n, EmptyGrid(n)) == Null
  {
    var g := EmptyGrid(n);
    forall i: nat, j: nat | i < n && j < n
      ensures CheckCell(n, g, i, j) == Null
    {
    }
    ScanNullMeaning(n, g);
  }
}
