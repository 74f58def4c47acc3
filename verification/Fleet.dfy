/**
 * What a legal ship placement is, stated without reference to any scan of the board,
 * and the facts about such placements that the rest of the game relies on.
 */
module Fleets {
  import opened Coords
  import opened Counting

  /** A straight ship: its top/left-most cell, the way it extends, and its length. */
  datatype Ship = Ship(head: Coord, dir: Direction, size: nat) {
    predicate Covers(c: Coord) {
      if dir == Right then c.row == head.row && head.column <= c.column < head.column + size
      else c.column == head.column && head.row <= c.row < head.row + size
    }

    /** The cells at distance at most one (also diagonally) from the ship. */
    predicate InHalo(c: Coord) {
      if dir == Right then
        head.row - 1 <= c.row <= head.row + 1 && head.column - 1 <= c.column <= head.column + size
      else
        head.column - 1 <= c.column <= head.column + 1 && head.row - 1 <= c.row <= head.row + size
    }
  }

  predicate Near(a: Coord, b: Coord) {
    -1 <= a.row - b.row <= 1 && -1 <= a.column - b.column <= 1
  }

  predicate OnBoard(S: set<Coord>) {
    forall c :: c in S ==> c.IsOnBoard()
  }

  ghost predicate Touch(s: Ship, t: Ship) {
    exists x, y :: s.Covers(x) && t.Covers(y) && Near(x, y)
  }

  /** The ships are straight, cover exactly the set cells, and keep apart from each other. */
  ghost predicate Partition(S: set<Coord>, fleet: set<Ship>) {
    && (forall s :: s in fleet ==> s.size >= 2 && (s.dir == Right || s.dir == Down))
    && (forall x :: x in S <==> exists s :: s in fleet && s.Covers(x))
    && (forall s, t :: s in fleet && t in fleet && s != t ==> !Touch(s, t))
  }

  function OfSize(fleet: set<Ship>, k: nat): set<Ship> {
    set s | s in fleet && s.size == k
  }

  /** Four ships of two cells, two of three and one of four, and nothing else. */
  predicate Complement(fleet: set<Ship>) {
    && (forall s :: s in fleet ==> 2 <= s.size <= 4)
    && |OfSize(fleet, 2)| == 4 && |OfSize(fleet, 3)| == 2 && |OfSize(fleet, 4)| == 1
  }

  ghost predicate LegalPlacement(S: set<Coord>) {
    exists fleet :: Partition(S, fleet) && Complement(fleet)
  }

  lemma NearHalo(s: Ship, x: Coord)
    requires s.size >= 1 && (s.dir == Right || s.dir == Down)
    ensures s.InHalo(x) <==> exists y :: s.Covers(y) && Near(x, y)
  {
    if s.InHalo(x) {
      if s.dir == Right {
        var col := if x.column < s.head.column then s.head.column
                   else if x.column >= s.head.column + s.size then s.head.column + s.size - 1 else x.column;
        assert s.Covers(Coord(s.head.row, col)) && Near(x, Coord(s.head.row, col));
      } else {
        var row := if x.row < s.head.row then s.head.row
                   else if x.row >= s.head.row + s.size then s.head.row + s.size - 1 else x.row;
        assert s.Covers(Coord(row, s.head.column)) && Near(x, Coord(row, s.head.column));
      }
    }
  }

  /** The cells of the rectangle with the given corner and sides. */
  function Rect(r: int, c: int, h: nat, w: nat): (cells: set<Coord>)
    ensures forall x :: x in cells <==> r <= x.row < r + h && c <= x.column < c + w
  {
    set i, j | r <= i < r + h && c <= j < c + w :: Coord(i, j)
  }

  lemma {:induction false} RowCount(r: int, c: int, w: nat)
    ensures |Rect(r, c, 1, w)| == w
  {
    if w == 0 {
      assert Rect(r, c, 1, 0) == {};
    } else {
      RowCount(r, c, w - 1);
      assert Rect(r, c, 1, w) == Rect(r, c, 1, w - 1) + {Coord(r, c + w - 1)};
    }
  }

  lemma {:induction false} RectCount(r: int, c: int, h: nat, w: nat)
    ensures |Rect(r, c, h, w)| == h * w
  {
    hide Rect;
    if h == 0 {
      assert Rect(r, c, 0, w) == {};
    } else {
      var upper, last := Rect(r, c, h - 1, w), Rect(r + h - 1, c, 1, w);
      RectCount(r, c, h - 1, w);
      RowCount(r + h - 1, c, w);
      assert Rect(r, c, h, w) == upper + last;
      assert |upper + last| == |upper| + |last| by { assert upper !! last; }
      MulStep(h - 1, w);
    }
  }

  /** The cells of a ship. */
  function Body(s: Ship): set<Coord> {
    if s.dir == Right then Rect(s.head.row, s.head.column, 1, s.size)
    else Rect(s.head.row, s.head.column, s.size, 1)
  }

  /** The ship grown by one row below and one column to the right. */
  function Grown(s: Ship): set<Coord> {
    if s.dir == Right then Rect(s.head.row, s.head.column, 2, s.size + 1)
    else Rect(s.head.row, s.head.column, s.size + 1, 2)
  }

  lemma BodyCells(s: Ship)
    ensures forall x :: x in Body(s) <==> s.Covers(x)
    ensures |Body(s)| == s.size
  {
    if s.dir == Right {
      RectCount(s.head.row, s.head.column, 1, s.size);
    } else {
      RectCount(s.head.row, s.head.column, s.size, 1);
    }
  }

  lemma GrownCount(s: Ship)
    ensures |Grown(s)| == 2 * s.size + 2
  {
    if s.dir == Right {
      RectCount(s.head.row, s.head.column, 2, s.size + 1);
    } else {
      RectCount(s.head.row, s.head.column, s.size + 1, 2);
    }
  }

  /** A grown cell lies within one row and one column after some cell of the ship. */
  lemma GrownOrigin(s: Ship, g: Coord) returns (x: Coord)
    requires s.size >= 1 && g in Grown(s)
    ensures s.Covers(x) && 0 <= g.row - x.row <= 1 && 0 <= g.column - x.column <= 1
  {
    if s.dir == Right {
      x := Coord(s.head.row, if g.column == s.head.column + s.size then g.column - 1 else g.column);
    } else {
      x := Coord(if g.row == s.head.row + s.size then g.row - 1 else g.row, s.head.column);
    }
  }

  /** All cells that an extent function assigns to the ships of a fleet. */
  function Union(fleet: set<Ship>, ext: Ship -> set<Coord>): set<Coord> {
    set s, x | s in fleet && x in ext(s) :: x
  }

  lemma SizeStep(fleet: set<Ship>, s: Ship, k: nat)
    requires s in fleet
    ensures |OfSize(fleet, k)| == |OfSize(fleet - {s}, k)| + (if s.size == k then 1 else 0)
  {
    assert OfSize(fleet, k) == OfSize(fleet - {s}, k) + (if s.size == k then {s} else {});
  }

  lemma UnionStep(fleet: set<Ship>, ext: Ship -> set<Coord>, s: Ship)
    requires s in fleet
    requires forall t :: t in fleet && t != s ==> ext(s) !! ext(t)
    ensures |Union(fleet, ext)| == |Union(fleet - {s}, ext)| + |ext(s)|
  {
    var rest := Union(fleet - {s}, ext);
    assert Union(fleet, ext) == rest + ext(s);
    assert rest !! ext(s);
  }

  /** A weighted count: ships of every size times the weight of that size. */
  lemma {:induction false} UnionCount(fleet: set<Ship>, ext: Ship -> set<Coord>, w: nat -> nat)
    requires forall s :: s in fleet ==> 2 <= s.size <= 4 && |ext(s)| == w(s.size)
    requires forall s, t :: s in fleet && t in fleet && s != t ==> ext(s) !! ext(t)
    ensures |Union(fleet, ext)|
         == |OfSize(fleet, 2)| * w(2) + |OfSize(fleet, 3)| * w(3) + |OfSize(fleet, 4)| * w(4)
    decreases |fleet|
  {
    if fleet == {} {
      assert Union(fleet, ext) == {};
      assert OfSize(fleet, 2) == {} && OfSize(fleet, 3) == {} && OfSize(fleet, 4) == {};
    } else {
      var s :| s in fleet;
      var rest := fleet - {s};
      UnionCount(rest, ext, w);
      UnionStep(fleet, ext, s);
      SizeStep(fleet, s, 2);
      SizeStep(fleet, s, 3);
      SizeStep(fleet, s, 4);
      MulStep(|OfSize(rest, s.size)|, w(s.size));
      assert s.size == 2 || s.size == 3 || s.size == 4;
    }
  }

  const TOTAL_SHIP_CELLS: nat := 18

  /** Every legal placement covers exactly the total number of ship cells. */
  lemma LegalPlacementCount(S: set<Coord>)
    requires LegalPlacement(S)
    ensures |S| == TOTAL_SHIP_CELLS
  {
    var fleet :| Partition(S, fleet) && Complement(fleet);
    forall s | s in fleet ensures |Body(s)| == s.size {
      BodyCells(s);
    }
    forall s, t | s in fleet && t in fleet && s != t ensures Body(s) !! Body(t) {
      BodyCells(s);
      BodyCells(t);
      forall x | x in Body(s) && x in Body(t) ensures false {
        assert Near(x, x);
        assert Touch(s, t);
      }
    }
    UnionCount(fleet, Body, k => k);
    forall x ensures x in S <==> x in Union(fleet, Body) {
      if x in S {
        var s: Ship :| s in fleet && s.Covers(x);
        BodyCells(s);
      } else if x in Union(fleet, Body) {
        var s :| s in fleet && x in Body(s);
        BodyCells(s);
      }
    }
    assert S == Union(fleet, Body);
  }

  /** There are seven ships in all, and six of them are shorter than four cells. */
  lemma LegalFleetSize(S: set<Coord>, fleet: set<Ship>)
    requires Partition(S, fleet) && Complement(fleet)
    ensures |fleet| == 7 && |set s | s in fleet && s.size < 4| == 6
  {
    var small := set s | s in fleet && s.size < 4;
    assert small == OfSize(fleet, 2) + OfSize(fleet, 3);
    assert fleet == small + OfSize(fleet, 4);
  }

  /** Four lines of ships with one line between them, on the left of the board. */
  const EXAMPLE: set<Ship> := {
    Ship(Coord(0, 0), Right, 4), Ship(Coord(0, 5), Right, 3), Ship(Coord(2, 0), Right, 3), Ship(Coord(2, 4), Right, 2),
    Ship(Coord(4, 0), Right, 2), Ship(Coord(4, 3), Right, 2), Ship(Coord(6, 0), Right, 2)}

  /** Ships along rows with a line or a column between them. */
  predicate AreApart(s: Ship, t: Ship) {
    || s.head.row + 1 < t.head.row || t.head.row + 1 < s.head.row
    || s.head.column + s.size < t.head.column || t.head.column + t.size < s.head.column
  }

  lemma ApartDontTouch(s: Ship, t: Ship)
    requires s.dir == Right && t.dir == Right && AreApart(s, t)
    ensures !Touch(s, t)
  {
  }

  /** A fleet of such ships is a partition of its cells. */
  lemma RowsArePartition(fleet: set<Ship>)
    requires forall s :: s in fleet ==> s.dir == Right && s.size >= 2
    requires forall s, t :: s in fleet && t in fleet && s != t ==> AreApart(s, t)
    ensures Partition(Union(fleet, Body), fleet)
  {
    hide AreApart, Touch;
    forall s | s in fleet ensures forall x :: x in Body(s) <==> s.Covers(x) {
      BodyCells(s);
    }
    forall x ensures x in Union(fleet, Body) <==> exists s :: s in fleet && s.Covers(x) {
      if x in Union(fleet, Body) {
        var s :| s in fleet && x in Body(s);
        assert s.Covers(x);
      }
    }
    forall s, t | s in fleet && t in fleet && s != t ensures !Touch(s, t) {
      ApartDontTouch(s, t);
    }
  }

  lemma ExampleComplement()
    ensures Complement(EXAMPLE)
  {
    assert OfSize(EXAMPLE, 2) == {Ship(Coord(2, 4), Right, 2), Ship(Coord(4, 0), Right, 2),
                                  Ship(Coord(4, 3), Right, 2), Ship(Coord(6, 0), Right, 2)};
    assert OfSize(EXAMPLE, 3) == {Ship(Coord(0, 5), Right, 3), Ship(Coord(2, 0), Right, 3)};
    assert OfSize(EXAMPLE, 4) == {Ship(Coord(0, 0), Right, 4)};
  }

  lemma ExampleIsApart()
    ensures forall s, t :: s in EXAMPLE && t in EXAMPLE && s != t ==> AreApart(s, t)
    ensures forall s :: s in EXAMPLE ==> s.dir == Right && 2 <= s.size && s.head.row >= 0 && s.head.row < 8
    ensures forall s :: s in EXAMPLE ==> s.head.column >= 0 && s.head.column + s.size <= 8
  {
  }

  /** The example fleet is a legal placement of its cells. */
  lemma ExampleIsLegal()
    ensures LegalPlacement(Union(EXAMPLE, Body)) && OnBoard(Union(EXAMPLE, Body))
  {
    hide AreApart, Partition, Complement, Union;
    ExampleIsApart();
    ExampleComplement();
    RowsArePartition(EXAMPLE);
    ExampleOnBoard(EXAMPLE);
  }

  lemma ExampleOnBoard(fleet: set<Ship>)
    requires forall s :: s in fleet ==> s.dir == Right && s.head.row >= 0 && s.head.row < 8
    requires forall s :: s in fleet ==> s.head.column >= 0 && s.head.column + s.size <= 8
    ensures OnBoard(Union(fleet, Body))
  {
    forall x | x in Union(fleet, Body) ensures x.IsOnBoard() {
      var s :| s in fleet && x in Body(s);
      BodyCells(s);
    }
  }

  /** Grown ships of one fleet still do not overlap. */
  lemma GrownDisjoint(s: Ship, t: Ship)
    requires s.size >= 1 && t.size >= 1 && !Touch(s, t)
    ensures Grown(s) !! Grown(t)
  {
    forall g | g in Grown(s) && g in Grown(t) ensures false {
      var x := GrownOrigin(s, g);
      var y := GrownOrigin(t, g);
      assert Near(x, y);
    }
  }

  /**
   * No legal placement fits into the lower half of the board: the seven ships, each grown by
   * one row and one column, would need 50 cells where only 45 are there.
   */
  lemma LegalPlacementReachesTop(S: set<Coord>)
    requires OnBoard(S) && LegalPlacement(S)
    ensures exists c :: c in S && c.row < 4
  {
    hide Rect, Grown;
    var fleet :| Partition(S, fleet) && Complement(fleet);
    if forall c :: c in S ==> c.row >= 4 {
      forall s | s in fleet ensures |Grown(s)| == 2 * s.size + 2 {
        GrownCount(s);
      }
      forall s, t | s in fleet && t in fleet && s != t ensures Grown(s) !! Grown(t) {
        GrownDisjoint(s, t);
      }
      UnionCount(fleet, Grown, k => 2 * k + 2);
      var half := Rect(4, 0, 5, 9);
      forall g | g in Union(fleet, Grown) ensures g in half {
        var s :| s in fleet && g in Grown(s);
        var x := GrownOrigin(s, g);
        assert x in S;
      }
      RectCount(4, 0, 5, 9);
      SubsetCount(Union(fleet, Grown), half);
    }
  }
}
