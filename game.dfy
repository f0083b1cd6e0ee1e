/** The game state and its in-place operations: cursor movement, placement,
    end-of-game check and construction (src/App.rs). */
module Game {
  import opened Board
  import opened Win

  /** One step back with wraparound: 0 goes to `n - 1`. The result is the predecessor of
      `x` modulo `n`. */
  function Prev(x: nat, n: nat): (r: nat)
    requires x < n
    ensures r < n && (r + 1) % n == x
  {
    if x == 0 then
      assert (n - 1 + 1) % n == n % n == 0;
      n - 1
    else
      assert x % n == x;
      x - 1
  }

  /** One step forward with wraparound: `n - 1` goes to 0. The result is the successor of
      `x` modulo `n`. */
  function Next(x: nat, n: nat): (r: nat)
    requires x < n
    ensures r < n && r == (x + 1) % n
  {
    if x == n - 1 then
      assert (x + 1) % n == n % n == 0;
      0
    else
      assert (x + 1) % n == x + 1;
      x + 1
  }

  /** A step back then a step forward returns to the start, and the other way round. */
  lemma StepsCancel(x: nat, n: nat)
    requires x < n
    ensures Next(Prev(x, n), n) == x
    ensures Prev(Next(x, n), n) == x
  {
  }

  class App {
    /** Side length of the board; fixed for the life of a game. */
    const size: nat
    /** Cursor position. */
    var row: nat
    var column: nat
    var matrix: Grid
    /** `Null` while the game is in progress, else the label of the winner. */
    var winner: Status
    /** The player to move, or `Null` once the game has ended. */
    var nowPlayer: Status

    /** The object invariant. Besides the shape of the board and the cursor bounds it states
        the game's state machine: the game has ended exactly when nobody is to move, a
        recorded winner is the one a scan of the board reports, and X moves first and the
        players alternate, so X has as many stones as O or one more. Hence a game in which
        nobody is to move has a five-in-a-row on its board. */
    ghost predicate Valid()
      reads this
      ensures Valid() && nowPlayer == Null ==> winner != Null && Square(size, matrix) && HasFive(size, matrix)
    {
      var holds :=
        && size >= 1
        && row < size && column < size
        && Square(size, matrix)
        && (winner == Null <==> nowPlayer != Null)
        && (winner != Null ==> winner == Scan(size, matrix))
        && Count(matrix, O) <= Count(matrix, X) <= Count(matrix, O) + 1
        && (nowPlayer == X ==> Count(matrix, X) == Count(matrix, O))
        && (nowPlayer == O ==> Count(matrix, X) == Count(matrix, O) + 1);
      if holds then ScanIffFive(size, matrix); holds else holds
    }

    /** A fresh 10 by 10 game: empty board, cursor in the top-left corner, X to move. */
    constructor ()
      ensures Valid()
      ensures size == 10 && row == 0 && column == 0
      ensures matrix == EmptyGrid(10)
      ensures winner == Null && nowPlayer == X
    {
      size := 10;
      row, column := 0, 0;
      matrix := EmptyGrid(10);
      winner := Null;
      nowPlayer := X;
      EmptyGridCounts(10, X);
      EmptyGridCounts(10, O);
    }

    method Up()
      requires Valid()
      modifies this
      ensures Valid()
      ensures row == Prev(old(row), size) && column == old(column)
      ensures matrix == old(matrix) && winner == old(winner) && nowPlayer == old(nowPlayer)
    {
      if row == 0 {
        row := size - 1;
      } else {
        row := row - 1;
      }
    }

    method Down()
      requires Valid()
      modifies this
      ensures Valid()
      ensures row == Next(old(row), size) && column == old(column)
      ensures matrix == old(matrix) && winner == old(winner) && nowPlayer == old(nowPlayer)
    {
      if row == size - 1 {
        row := 0;
      } else {
        row := row + 1;
      }
    }

    method Left()
      requires Valid()
      modifies this
      ensures Valid()
      ensures column == Prev(old(column), size) && row == old(row)
      ensures matrix == old(matrix) && winner == old(winner) && nowPlayer == old(nowPlayer)
    {
      if column == 0 {
        column := size - 1;
      } else {
        column := column - 1;
      }
    }

    method Right()
      requires Valid()
      modifies this
      ensures Valid()
      ensures column == Next(old(column), size) && row == old(row)
      ensures matrix == old(matrix) && winner == old(winner) && nowPlayer == old(nowPlayer)
    {
      if column == size - 1 {
        column := 0;
      } else {
        column := column + 1;
      }
    }

    /** Puts the mover's stone on the cursor cell and passes the turn. Nothing happens when
        the cell is occupied or when nobody is to move (the game has ended). */
    method Register()
      requires Valid()
      modifies this
      ensures Valid()
      ensures row == old(row) && column == old(column) && winner == old(winner)
      ensures if old(matrix[row][column]) == Null && old(nowPlayer) != Null
              then matrix == Place(size, old(matrix), row, column, old(nowPlayer))
                && nowPlayer == Opponent(old(nowPlayer))
              else matrix == old(matrix) && nowPlayer == old(nowPlayer)
    {
      if matrix[row][column] == Null {
        match nowPlayer
        case O =>
          PlaceCounts(size, matrix, row, column, O);
          matrix := Place(size, matrix, row, column, O);
          nowPlayer := X;
        case X =>
          PlaceCounts(size, matrix, row, column, X);
          matrix := Place(size, matrix, row, column, X);
          nowPlayer := O;
        case Null =>
      }
    }

    /** Scans the board in row-major order; at the first cell where a run of five ends, records
        its label as the winner and ends the game. When there is none, nothing changes. */
    method Check()
      requires Valid()
      modifies this
      ensures Valid()
      ensures row == old(row) && column == old(column) && matrix == old(matrix)
      ensures Scan(size, old(matrix)) != Null ==> winner == Scan(size, old(matrix)) && nowPlayer == Null
      ensures Scan(size, old(matrix)) == Null ==> winner == old(winner) && nowPlayer == old(nowPlayer)
    {
      var i := 0;
      while i < size
        invariant i <= size
        invariant row == old(row) && column == old(column) && matrix == old(matrix)
        invariant winner == old(winner) && nowPlayer == old(nowPlayer)
        invariant ScanFrom(size, matrix, i, 0) == Scan(size, matrix)
      {
        var j := 0;
        while j < size
          invariant j <= size
          invariant row == old(row) && column == old(column) && matrix == old(matrix)
          invariant winner == old(winner) && nowPlayer == old(nowPlayer)
          invariant ScanFrom(size, matrix, i, j) == Scan(size, matrix)
        {
          var found := CheckCell(size, matrix, i, j);
          if found != Null {
            winner := found;
            nowPlayer := Null;
            return;
          }
          j := j + 1;
        }
        i := i + 1;
      }
    }
  }

  /** Moving up then down leaves the whole state as it was. */
  method UpThenDown(app: App)
    requires app.Valid()
    modifies app
    ensures app.Valid()
    ensures app.row == old(app.row) && app.column == old(app.column)
    ensures app.matrix == old(app.matrix) && app.winner == old(app.winner) && app.nowPlayer == old(app.nowPlayer)
  {
    app.Up();
    app.Down();
    StepsCancel(old(app.row), app.size);
  }

  /** Moving left then right leaves the whole state as it was. */
  method LeftThenRight(app: App)
    requires app.Valid()
    modifies app
    ensures app.Valid()
    ensures app.row == old(app.row) && app.column == old(app.column)
    ensures app.matrix == old(app.matrix) && app.winner == old(app.winner) && app.nowPlayer == old(app.nowPlayer)
  {
    app.Left();
    app.Right();
    StepsCancel(old(app.column), app.size);
  }

  /** A second check right after a first changes nothing. */
  method CheckTwice(app: App)
    requires app.Valid()
    modifies app
    ensures app.Valid()
    ensures app.row == old(app.row) && app.column == old(app.column) && app.matrix == old(app.matrix)
    ensures Scan(app.size, old(app.matrix)) != Null ==> app.winner == Scan(app.size, old(app.matrix)) && app.nowPlayer == Null
    ensures Scan(app.size, old(app.matrix)) == Null ==> app.winner == old(app.winner) && app.nowPlayer == old(app.nowPlayer)
  {
    app.Check();
    ghost var winnerOnce, playerOnce := app.winner, app.nowPlayer;
    app.Check();
    assert app.winner == winnerOnce && app.nowPlayer == playerOnce;
  }

  /** Once the game has ended, placing a stone changes nothing: the board is frozen. */
  method RegisterAfterEnd(app: App)
    requires app.Valid() && app.winner != Null
    modifies app
    ensures app.Valid()
    ensures app.row == old(app.row) && app.column == old(app.column) && app.matrix == old(app.matrix)
    ensures app.winner == old(app.winner) && app.nowPlayer == Null
  {
    app.Register();
  }
}
