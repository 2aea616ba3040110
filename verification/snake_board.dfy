/** The board of the Snake-and-Ladder game: the table that sends a square to
    the square a player finally rests on (ladders climb, snakes slide), and
    the boustrophedon layout of the hundred squares on the screen. */
module SnakeBoard {

  const BoardSize := 10
  const SquareSize := 57
  const BorderX := 31
  const BorderY := 31
  const SquareCount := 100

  /** The foot of each ladder and the square it climbs to. */
  const Ladders: map<int, int> := map[4 := 56, 12 := 50, 14 := 55, 22 := 58, 41 := 79, 54 := 88]

  /** The head of each snake and the square it slides down to. */
  const Snakes: map<int, int> := map[28 := 10, 37 := 3, 48 := 16, 75 := 32, 94 := 71, 96 := 42]

  predicate OnBoard(square: int) {
    1 <= square <= SquareCount
  }

  /** A square a player can come to rest on: neither a ladder's foot nor a snake's head. */
  predicate Resting(square: int) {
    OnBoard(square) && square !in Ladders && square !in Snakes
  }

  /** The 0-based position table the board builds once: the identity,
      then the twelve redirects written over it. */
  function PositionMap(): (m: seq<int>)
    ensures |m| == SquareCount
    ensures forall i :: 0 <= i < SquareCount && i + 1 in Ladders ==> m[i] == Ladders[i + 1] - 1
    ensures forall i :: 0 <= i < SquareCount && i + 1 in Snakes ==> m[i] == Snakes[i + 1] - 1
    ensures forall i :: 0 <= i < SquareCount && Resting(i + 1) ==> m[i] == i
  {
    seq(SquareCount, i => i)
      [3 := 55][11 := 49][13 := 54][21 := 57][27 := 9][36 := 2]
      [40 := 78][47 := 15][53 := 87][74 := 31][93 := 70][95 := 41]
  }

  /** The square a player rests on after arriving at `pos`. */
  function GetDestination(pos: int): (dest: int)
    requires OnBoard(pos)
    ensures Resting(dest)
    ensures pos in Ladders ==> dest == Ladders[pos] && dest > pos
    ensures pos in Snakes ==> dest == Snakes[pos] && dest < pos
    ensures Resting(pos) ==> dest == pos
  {
    PositionMap()[pos - 1] + 1
  }

  /** Exactly the ladder feet and snake heads redirect; every other square is kept. */
  lemma RedirectedSquares()
    ensures (set p | 1 <= p <= SquareCount && GetDestination(p) != p) == Ladders.Keys + Snakes.Keys
  {
    var moved := set p | 1 <= p <= SquareCount && GetDestination(p) != p;
    forall p | p in Ladders.Keys + Snakes.Keys
      ensures p in moved
    {
      assert OnBoard(p);
    }
  }

  /** A redirect never leads to the last square, and the last square stays put:
      the player reaches square 100 only by landing on it exactly. */
  lemma HomeOnlyFromHome(pos: int)
    requires OnBoard(pos)
    ensures GetDestination(pos) == SquareCount <==> pos == SquareCount
  {
  }

  /** Resting squares are fixed points: following the table twice is following it once. */
  lemma DestinationIdempotent(pos: int)
    requires OnBoard(pos)
    ensures GetDestination(GetDestination(pos)) == GetDestination(pos)
  {
  }

  datatype Square = Square(x: int, y: int, number: int, destination: int)

  /** Row of square `n`, counted from the bottom of the board. */
  function Row(n: int): int
    requires OnBoard(n)
  {
    (n - 1) / BoardSize
  }

  /** Column of square `n`, counted from the left: rows counted from the
      bottom run left to right when even and right to left when odd. */
  function Column(n: int): int
    requires OnBoard(n)
  {
    if Row(n) % 2 == 0 then (n - 1) % BoardSize else BoardSize - 1 - (n - 1) % BoardSize
  }

  /** The screen square of board square `n` (the destination field is never set). */
  function Cell(n: int): Square
    requires OnBoard(n)
  {
    Square(BorderX + Column(n) * SquareSize, BorderY + (BoardSize - 1 - Row(n)) * SquareSize, n, -1)
  }

  /** The board's squares in the order they are stored: square n at index n - 1. */
  function Layout(): seq<Square> {
    seq(SquareCount, k requires 0 <= k < SquareCount => Cell(k + 1))
  }

  lemma DivModDigits(r: int, t: int)
    requires 0 <= r && 0 <= t < BoardSize
    ensures (r * BoardSize + t) / BoardSize == r
    ensures (r * BoardSize + t) % BoardSize == t
  {
  }

  /** The layout loop: screen rows from the bottom up, alternating direction,
      numbering squares 1, 2, 3, ... as they are appended. */
  method EmbedLayout() returns (squares: seq<Square>)
    ensures squares == Layout()
  {
    squares := [];
    var reverse := false;
    var squareNumber := 1;
    var i := BoardSize - 1;
    while i >= 0
      invariant -1 <= i < BoardSize
      invariant reverse == ((BoardSize - 1 - i) % 2 == 1)
      invariant |squares| == (BoardSize - 1 - i) * BoardSize
      invariant squareNumber == |squares| + 1
      invariant forall k :: 0 <= k < |squares| ==> squares[k] == Cell(k + 1)
    {
      var row := BoardSize - 1 - i;
      if reverse {
        var j := BoardSize - 1;
        while j >= 0
          invariant -1 <= j < BoardSize
          invariant |squares| == row * BoardSize + (BoardSize - 1 - j)
          invariant squareNumber == |squares| + 1
          invariant forall k :: 0 <= k < |squares| ==> squares[k] == Cell(k + 1)
        {
          DivModDigits(row, BoardSize - 1 - j);
          squares := squares + [Square(j * SquareSize + BorderX, i * SquareSize + BorderY, squareNumber, -1)];
          squareNumber := squareNumber + 1;
          j := j - 1;
        }
      } else {
        var j := 0;
        while j < BoardSize
          invariant 0 <= j <= BoardSize
          invariant |squares| == row * BoardSize + j
          invariant squareNumber == |squares| + 1
          invariant forall k :: 0 <= k < |squares| ==> squares[k] == Cell(k + 1)
        {
          DivModDigits(row, j);
          squares := squares + [Square(j * SquareSize + BorderX, i * SquareSize + BorderY, squareNumber, -1)];
          squareNumber := squareNumber + 1;
          j := j + 1;
        }
      }
      reverse := !reverse;
      i := i - 1;
    }
  }

  /** Every square lies on the 10 x 10 grid, at a border offset plus a whole
      number of squares in each direction, and carries its own number. */
  lemma CellOnGrid(n: int)
    requires OnBoard(n)
    ensures Cell(n).number == n
    ensures exists c, r :: 0 <= c < BoardSize && 0 <= r < BoardSize
                           && Cell(n).x == BorderX + c * SquareSize && Cell(n).y == BorderY + r * SquareSize
  {
    assert 0 <= Column(n) < BoardSize && 0 <= BoardSize - 1 - Row(n) < BoardSize;
  }

  /** Boustrophedon: consecutive squares are neighbours on the grid. Inside
      a row the next square is one step right (rows 0, 2, ...) or left (rows
      1, 3, ...); after the last square of a row the next one is directly above. */
  lemma ConsecutiveSquaresAdjacent(n: int)
    requires 1 <= n < SquareCount
    ensures n % BoardSize != 0 && Row(n) % 2 == 0 ==>
              Cell(n + 1).y == Cell(n).y && Cell(n + 1).x == Cell(n).x + SquareSize
    ensures n % BoardSize != 0 && Row(n) % 2 == 1 ==>
              Cell(n + 1).y == Cell(n).y && Cell(n + 1).x == Cell(n).x - SquareSize
    ensures n % BoardSize == 0 ==>
              Cell(n + 1).x == Cell(n).x && Cell(n + 1).y == Cell(n).y - SquareSize
  {
    var r, t := (n - 1) / BoardSize, (n - 1) % BoardSize;
    if t < BoardSize - 1 {
      DivModDigits(r, t + 1);
    } else {
      DivModDigits(r + 1, 0);
    }
  }

  /** The board square drawn at grid column `col` and screen row `rowFromTop`. */
  function SquareAt(col: int, rowFromTop: int): (n: int)
    requires 0 <= col < BoardSize && 0 <= rowFromTop < BoardSize
    ensures OnBoard(n)
  {
    var r := BoardSize - 1 - rowFromTop;
    r * BoardSize + (if r % 2 == 0 then col else BoardSize - 1 - col) + 1
  }

  /** The layout covers the grid: the square SquareAt names is drawn exactly there. */
  lemma SquareAtRoundTrip(col: int, rowFromTop: int)
    requires 0 <= col < BoardSize && 0 <= rowFromTop < BoardSize
    ensures Cell(SquareAt(col, rowFromTop)).x == BorderX + col * SquareSize
    ensures Cell(SquareAt(col, rowFromTop)).y == BorderY + rowFromTop * SquareSize
  {
    var r := BoardSize - 1 - rowFromTop;
    DivModDigits(r, if r % 2 == 0 then col else BoardSize - 1 - col);
  }

  /** And the layout is one-to-one: every square is named back by its own grid place. */
  lemma CellRoundTrip(n: int)
    requires OnBoard(n)
    ensures SquareAt(Column(n), BoardSize - 1 - Row(n)) == n
  {
  }

  /** No two board squares share a screen position. */
  lemma CellInjective(a: int, b: int)
    requires OnBoard(a) && OnBoard(b)
    requires Cell(a).x == Cell(b).x && Cell(a).y == Cell(b).y
    ensures a == b
  {
    CellRoundTrip(a);
    CellRoundTrip(b);
  }

  datatype Box = Box(x: int, y: int, w: int, h: int)

  /** Where a player piece at `pos` is drawn: a box inset 5 pixels into the
      square found through the position table. */
  function PixelCoordinates(pos: int): (box: Box)
    requires OnBoard(pos)
    ensures var home := Cell(GetDestination(pos));
            home.x < box.x && box.x + box.w < home.x + SquareSize
            && home.y < box.y && box.y + box.h < home.y + SquareSize
  {
    var p := PositionMap()[pos - 1];
    var square := Layout()[p];
    Box(square.x + 5, square.y + 5, SquareSize - 20, SquareSize - 20)
  }

  /** The piece box depends on the position only through the destination square. */
  lemma PixelBoxOfDestination(pos: int)
    requires OnBoard(pos)
    ensures var home := Cell(GetDestination(pos));
            PixelCoordinates(pos) == Box(home.x + 5, home.y + 5, SquareSize - 20, SquareSize - 20)
  {
  }

  /** Two pieces are drawn at the same place exactly when they rest on the same square. */
  lemma SamePixelsIffSameDestination(a: int, b: int)
    requires OnBoard(a) && OnBoard(b)
    ensures (PixelCoordinates(a).x == PixelCoordinates(b).x && PixelCoordinates(a).y == PixelCoordinates(b).y)
            <==> GetDestination(a) == GetDestination(b)
  {
    var da, db := GetDestination(a), GetDestination(b);
    PixelBoxOfDestination(a);
    PixelBoxOfDestination(b);
    if PixelCoordinates(a).x == PixelCoordinates(b).x && PixelCoordinates(a).y == PixelCoordinates(b).y {
      CellInjective(da, db);
    }
  }
}
