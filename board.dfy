/** Cell labels, the square board and the pure queries on it (src/App.rs). */
module Board {

  /** One label for three things: a cell's content, whose turn it is, and who won.
      `Null` is an empty cell, "no one to move" and "no winner yet". */
  datatype Status = X | O | Null

  datatype Option<T> = None | Some(value: T)

  /** The board, row-major: `m[i][j]` is the cell in row `i`, column `j`. */
  type Grid = seq<seq<Status>>

  /** The character a label is drawn with. Empty cells are drawn blank. */
  function Glyph(s: Status): (c: char)
    ensures c == ' ' <==> s == Null
    ensures c in {'X', 'O', ' '}
  {
    match s
    case X => 'X'
    case O => 'O'
    case Null => ' '
  }

  /** Two labels are drawn alike only if they are the same label. */
  lemma GlyphInjective(a: Status, b: Status)
    ensures Glyph(a) == Glyph(b) <==> a == b
  {
  }

  /** The player who moves after `p`. */
  function Opponent(p: Status): (q: Status)
    requires p != Null
    ensures q != Null && q != p
  {
    if p == X then O else X
  }

  lemma OpponentInvolutive(p: Status)
    requires p != Null
    ensures Opponent(Opponent(p)) == p
  {
  }

  /** `m` has `size` rows of `size` cells each. */
  predicate Square(size: nat, m: Grid)
  {
    |m| == size && forall r :: 0 <= r < |m| ==> |m[r]| == size
  }

  /** Bounds-checked read of one cell: `Some` exactly when both indices are in range. */
  function VisitCell(size: nat, m: Grid, i: nat, j: nat): (r: Option<Status>)
    requires Square(size, m)
    ensures r.Some? <==> i < size && j < size
    ensures r.Some? ==> r.value == m[i][j]
  {
    if i < size && j < size then Some(m[i][j]) else None
  }

  /** A fresh board: `n` by `n`, every cell empty. */
  function EmptyGrid(n: nat): (g: Grid)
    ensures Square(n, g)
    ensures forall i, j :: 0 <= i < n && 0 <= j < n ==> g[i][j] == Null
  {
    seq(n, _ => seq(n, _ => Null))
  }

  /** The board after `s` is written into cell (`r`, `c`). Exactly that cell changes. */
  function Place(size: nat, m: Grid, r: nat, c: nat, s: Status): (m': Grid)
    requires Square(size, m) && r < size && c < size
    ensures Square(size, m')
    ensures m'[r][c] == s
    ensures forall i, j :: 0 <= i < size && 0 <= j < size && (i != r || j != c) ==> m'[i][j] == m[i][j]
  {
    m[r := m[r][c := s]]
  }

  /** Number of cells of `row` labelled `s`. */
  function CountRow(row: seq<Status>, s: Status): nat
  {
    if row == [] then 0 else (if row[0] == s then 1 else 0) + CountRow(row[1..], s)
  }

  /** Number of cells of the board labelled `s`. */
  function Count(m: Grid, s: Status): nat
  {
    if m == [] then 0 else CountRow(m[0], s) + Count(m[1..], s)
  }

  /** Overwriting one cell of a row moves one unit of count from the old label to the new one. */
  lemma {:induction false} CountRowUpdate(row: seq<Status>, c: nat, v: Status, s: Status)
    requires c < |row|
    ensures CountRow(row[c := v], s) + (if row[c] == s then 1 else 0)
         == CountRow(row, s) + (if v == s then 1 else 0)
  {
    if c > 0 {
      assert row[c := v][1..] == row[1..][c - 1 := v];
      CountRowUpdate(row[1..], c - 1, v, s);
    } else {
      assert row[c := v][1..] == row[1..];
    }
  }

  /** The same on the whole board. */
  lemma {:induction false} CountUpdate(m: Grid, r: nat, c: nat, v: Status, s: Status)
    requires r < |m| && c < |m[r]|
    ensures Count(m[r := m[r][c := v]], s) + (if m[r][c] == s then 1 else 0)
         == Count(m, s) + (if v == s then 1 else 0)
  {
    if r > 0 {
      assert m[r := m[r][c := v]][1..] == m[1..][r - 1 := m[1..][r - 1][c := v]];
      CountUpdate(m[1..], r - 1, c, v, s);
    } else {
      assert m[r := m[r][c := v]][1..] == m[1..];
      CountRowUpdate(m[0], c, v, s);
    }
  }

  /** Placing a stone on an empty cell adds one stone of its label and none of any other. */
  lemma PlaceCounts(size: nat, m: Grid, r: nat, c: nat, p: Status)
    requires Square(size, m) && r < size && c < size
    requires m[r][c] == Null && p != Null
    ensures Count(Place(size, m, r, c, p), p) == Count(m, p) + 1
    ensures Count(Place(size, m, r, c, p), Opponent(p)) == Count(m, Opponent(p))
  {
    CountUpdate(m, r, c, p, p);
    CountUpdate(m, r, c, p, Opponent(p));
  }

  /** A row with no cell labelled `s` counts none. */
  lemma {:induction false} CountRowAbsent(row: seq<Status>, s: Status)
    requires forall k :: 0 <= k < |row| ==> row[k] != s
    ensures CountRow(row, s) == 0
  {
    if row != [] {
      CountRowAbsent(row[1..], s);
    }
  }

  /** A board with no cell labelled `s` counts none. */
  lemma {:induction false} CountAbsent(m: Grid, s: Status)
    requires forall i, j :: 0 <= i < |m| && 0 <= j < |m[i]| ==> m[i][j] != s
    ensures Count(m, s) == 0
  {
    if m != [] {
      CountRowAbsent(m[0], s);
      assert forall i, j :: 0 <= i < |m[1..]| && 0 <= j < |m[1..][i]| ==> m[1..][i][j] == m[i + 1][j];
      CountAbsent(m[1..], s);
    }
  }

  /** A fresh board holds no stones. */
  lemma EmptyGridCounts(n: nat, s: Status)
    requires s != Null
    ensures Count(EmptyGrid(n), s) == 0
  {
    CountAbsent(EmptyGrid(n), s);
  }
}
