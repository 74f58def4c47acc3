/** Board coordinates and directions (ships/coord.cpp). */
module Coords {
  const SIDE := 8
  const CELLS := 64

  /** The four directions of ships/coord.hpp; rows grow downwards. */
  datatype Direction = Left | Right | Up | Down {
    function Negate(): Direction {
      match this
      case Left => Right
      case Right => Left
      case Up => Down
      case Down => Up
    }
  }

  /** C++ integer division and remainder, which truncate towards zero. */
  function TruncDiv(a: int, b: nat): int
    requires b > 0
  {
    if a >= 0 then a / b else -((-a) / b)
  }

  function TruncMod(a: int, b: nat): int
    requires b > 0
  {
    a - b * TruncDiv(a, b)
  }

  datatype Coord = Coord(row: int, column: int) {
    predicate IsOnBoard() {
      0 <= row < SIDE && 0 <= column < SIDE
    }

    /** The cell's number; the source CHECKs that the coordinate is on the board. */
    function GetIndex(): (i: nat)
      requires IsOnBoard()
      ensures i < CELLS
    {
      row * SIDE + column
    }

    function Plus(d: Direction): Coord {
      match d
      case Left => Coord(row, column - 1)
      case Right => Coord(row, column + 1)
      case Up => Coord(row - 1, column)
      case Down => Coord(row + 1, column)
    }

    function Minus(d: Direction): Coord {
      Plus(d.Negate())
    }
  }

  function FromIndex(ind: int): Coord {
    Coord(TruncDiv(ind, SIDE), TruncMod(ind, SIDE))
  }

  /** An index denotes a cell exactly when it lies in 0..63, whatever its sign. */
  lemma IndexIsOnBoard(ind: int)
    ensures FromIndex(ind).IsOnBoard() <==> 0 <= ind < CELLS
    ensures FromIndex(ind).IsOnBoard() ==> FromIndex(ind).GetIndex() == ind
  {
  }

  lemma IndexRoundTrip(c: Coord)
    requires c.IsOnBoard()
    ensures FromIndex(c.GetIndex()) == c
  {
  }
}
