/**
 * The board scan that accepts a ship placement (ships/grid.cpp), and the proof that it
 * accepts exactly the legal placements.
 */
module Placement {
  import opened Bits
  import opened Coords
  import opened Counting
  import opened Fleets
  import opened Grids

  predicate HasShip(g: Word, c: Coord) {
    c.IsOnBoard() && Bit(g, c.GetIndex())
  }

  predicate IsWalkDirection(dir: Direction) {
    dir == Right || dir == Down
  }

  /** The number of consecutive set cells from c onwards. */
  function RunLength(S: set<Coord>, c: Coord, dir: Direction): nat
    requires OnBoard(S) && IsWalkDirection(dir)
    decreases 16 - c.row - c.column
  {
    if c !in S then 0 else 1 + RunLength(S, c.Plus(dir), dir)
  }

  /** A cell where the scan starts a ship: nothing above it and nothing to its left. */
  predicate IsStart(S: set<Coord>, c: Coord) {
    c in S && c.Plus(Up) !in S && c.Plus(Left) !in S
  }

  function Starts(S: set<Coord>): set<Coord> {
    set c | c in S && IsStart(S, c)
  }

  function WalkDirection(S: set<Coord>, c: Coord): Direction {
    if c.Plus(Down) in S then Down else Right
  }

  function ShipAt(S: set<Coord>, c: Coord): Ship
    requires OnBoard(S)
  {
    Ship(c, WalkDirection(S, c), RunLength(S, c, WalkDirection(S, c)))
  }

  function ShipsOf(S: set<Coord>): set<Ship>
    requires OnBoard(S)
  {
    set c | c in Starts(S) :: ShipAt(S, c)
  }

  /** No set cell next to the ship other than its own. */
  predicate Isolated(S: set<Coord>, s: Ship) {
    forall x :: x in S && s.InHalo(x) ==> s.Covers(x)
  }

  // ---- The walk along one ship ----

  function Along(c: Coord, dir: Direction, k: int): Coord {
    if dir == Right then Coord(c.row, c.column + k) else Coord(c.row + k, c.column)
  }

  /** The run covers exactly the cells up to its length and stops at an unset cell. */
  lemma {:induction false} RunCells(S: set<Coord>, c: Coord, dir: Direction)
    requires OnBoard(S) && IsWalkDirection(dir)
    ensures forall k: nat :: k < RunLength(S, c, dir) ==> Along(c, dir, k) in S
    ensures Along(c, dir, RunLength(S, c, dir)) !in S
    decreases 16 - c.row - c.column
  {
    if c in S {
      RunCells(S, c.Plus(dir), dir);
      forall k: nat | k < RunLength(S, c, dir) ensures Along(c, dir, k) in S {
        if k > 0 {
          assert Along(c.Plus(dir), dir, k - 1) == Along(c, dir, k);
        }
      }
      assert Along(c.Plus(dir), dir, RunLength(S, c, dir) - 1) == Along(c, dir, RunLength(S, c, dir));
    }
    assert Along(c, dir, 0) == c;
  }

  /** A run is as long as the cells that are known to continue it. */
  lemma {:induction false} RunIs(S: set<Coord>, c: Coord, dir: Direction, n: nat)
    requires OnBoard(S) && IsWalkDirection(dir)
    requires forall k: nat :: k < n ==> Along(c, dir, k) in S
    requires Along(c, dir, n) !in S
    ensures RunLength(S, c, dir) == n
    decreases n
  {
    assert Along(c, dir, 0) == c;
    if n > 0 {
      forall k: nat | k < n - 1 ensures Along(c.Plus(dir), dir, k) in S {
        assert Along(c.Plus(dir), dir, k) == Along(c, dir, k + 1);
      }
      assert Along(c.Plus(dir), dir, n - 1) == Along(c, dir, n);
      RunIs(S, c.Plus(dir), dir, n - 1);
    }
  }

  /** The halo of a ship: beside its cells, before its head and behind its tail. */
  lemma HaloCases(s: Ship, otherDir: Direction, x: Coord) returns (k: int)
    requires (s.dir == Right && otherDir == Down) || (s.dir == Down && otherDir == Right)
    requires s.InHalo(x)
    ensures -1 <= k <= s.size
    ensures x in Across(Along(s.head, s.dir, k), otherDir)
    ensures x == Along(s.head, s.dir, k) && 0 <= k < s.size ==> s.Covers(x)
  {
    k := if s.dir == Right then x.column - s.head.column else x.row - s.head.row;
  }

  function Across(c: Coord, otherDir: Direction): set<Coord> {
    {c, c.Minus(otherDir), c.Plus(otherDir)}
  }

  /** An isolated ship has nothing beside any of its cells, before its head or after its tail. */
  lemma IsolatedAcross(S: set<Coord>, s: Ship, otherDir: Direction, k: int)
    requires (s.dir == Right && otherDir == Down) || (s.dir == Down && otherDir == Right)
    requires -1 <= k <= s.size && Isolated(S, s)
    ensures Along(s.head, s.dir, k).Minus(otherDir) !in S && Along(s.head, s.dir, k).Plus(otherDir) !in S
    ensures k == -1 || k == s.size ==> Along(s.head, s.dir, k) !in S
  {
    var c := Along(s.head, s.dir, k);
    assert s.InHalo(c) && s.InHalo(c.Minus(otherDir)) && s.InHalo(c.Plus(otherDir));
  }

  /** The checks that the walk makes on all sides are together the isolation of the ship. */
  lemma WalkIsolates(S: set<Coord>, s: Ship, otherDir: Direction)
    requires (s.dir == Right && otherDir == Down) || (s.dir == Down && otherDir == Right)
    requires forall k :: -1 <= k <= s.size ==>
      Along(s.head, s.dir, k).Minus(otherDir) !in S && Along(s.head, s.dir, k).Plus(otherDir) !in S
    requires Along(s.head, s.dir, -1) !in S && Along(s.head, s.dir, s.size) !in S
    ensures Isolated(S, s)
  {
    forall x | x in S && s.InHalo(x) ensures s.Covers(x) {
      var k := HaloCases(s, otherDir, x);
    }
  }

  /** Walks along a ship from its start and reports whether anything else is next to it. */
  method CheckShip(g: Word, start: Coord, dir: Direction, otherDir: Direction) returns (ok: bool, size: nat)
    requires HasShip(g, start)
    requires (dir == Right && otherDir == Down) || (dir == Down && otherDir == Right)
    ensures ok <==> Isolated(Occupied(g), Ship(start, dir, RunLength(Occupied(g), start, dir)))
    ensures ok ==> size == RunLength(Occupied(g), start, dir)
  {
    hide Isolated, Bit, Occupied;
    ghost var S := Occupied(g);
    ghost var ship := Ship(start, dir, RunLength(S, start, dir));
    size := 0;
    assert Along(start, dir, -1) == start.Minus(dir);
    if Isolated(S, ship) { IsolatedAcross(S, ship, otherDir, -1); }
    if HasShip(g, start.Minus(dir))
      || HasShip(g, start.Minus(dir).Minus(otherDir))
      || HasShip(g, start.Minus(dir).Plus(otherDir))
    {
      return false, size;
    }
    var c := start;
    while HasShip(g, c)
      invariant size <= ship.size && c == Along(start, dir, size)
      invariant RunLength(S, c, dir) == ship.size - size
      invariant forall k :: -1 <= k < size ==>
        Along(start, dir, k).Minus(otherDir) !in S && Along(start, dir, k).Plus(otherDir) !in S
      decreases ship.size - size
    {
      if Isolated(S, ship) { IsolatedAcross(S, ship, otherDir, size); }
      size := size + 1;
      if HasShip(g, c.Minus(otherDir)) || HasShip(g, c.Plus(otherDir)) {
        return false, size;
      }
      c := c.Plus(dir);
    }
    if Isolated(S, ship) { IsolatedAcross(S, ship, otherDir, size); }
    if HasShip(g, c.Minus(otherDir)) || HasShip(g, c.Plus(otherDir)) {
      return false, size;
    }
    WalkIsolates(S, ship, otherDir);
    ok := true;
  }

  // ---- The scan over the board ----

  /** The starts with a smaller cell number than i whose ship has size k. */
  function StartsOfSize(S: set<Coord>, i: nat, k: nat): set<Coord>
    requires OnBoard(S)
  {
    set c | c in Starts(S) && c.GetIndex() < i && ShipAt(S, c).size == k
  }

  /** The verdict of the scan in terms of the walked ships. */
  ghost predicate ScanAccepts(S: set<Coord>)
    requires OnBoard(S)
  {
    && (forall c :: c in Starts(S) ==> Isolated(S, ShipAt(S, c)))
    && (forall c :: c in Starts(S) ==> 2 <= ShipAt(S, c).size <= 4)
    && |StartsOfSize(S, CELLS, 2)| == 4
    && |StartsOfSize(S, CELLS, 3)| == 2
    && |StartsOfSize(S, CELLS, 4)| == 1
  }

  datatype ShipType = ShipType(size: nat, number: nat)
  const AVAILABLE_SHIPS: seq<ShipType> := [ShipType(2, 4), ShipType(3, 2), ShipType(4, 1)]

  ghost predicate Counted(S: set<Coord>, i: nat, found: map<nat, nat>)
    requires OnBoard(S)
  {
    && (forall k :: k in found ==> found[k] == |StartsOfSize(S, i, k)|)
    && (forall k: nat :: k in found <==> StartsOfSize(S, i, k) != {})
  }

  /** Passing cell i adds it to the starts of its own size, if it is a start at all. */
  lemma StartsStep(S: set<Coord>, i: nat, k: nat)
    requires OnBoard(S) && i < CELLS
    ensures var c := FromIndex(i);
      && c !in StartsOfSize(S, i, k)
      && StartsOfSize(S, i + 1, k)
         == StartsOfSize(S, i, k) + (if c in Starts(S) && ShipAt(S, c).size == k then {c} else {})
  {
    var c := FromIndex(i);
    IndexIsOnBoard(i);
    forall d | d in Starts(S) && d.GetIndex() == i ensures d == c {
      IndexRoundTrip(d);
    }
  }

  lemma CountSkip(S: set<Coord>, i: nat, found: map<nat, nat>)
    requires OnBoard(S) && i < CELLS && Counted(S, i, found) && FromIndex(i) !in Starts(S)
    ensures Counted(S, i + 1, found)
  {
    forall k: nat ensures StartsOfSize(S, i + 1, k) == StartsOfSize(S, i, k) {
      StartsStep(S, i, k);
    }
  }

  function Increment(found: map<nat, nat>, size: nat): map<nat, nat> {
    found[size := (if size in found then found[size] else 0) + 1]
  }

  lemma CountStep(S: set<Coord>, i: nat, found: map<nat, nat>)
    requires OnBoard(S) && i < CELLS && Counted(S, i, found) && FromIndex(i) in Starts(S)
    ensures Counted(S, i + 1, Increment(found, ShipAt(S, FromIndex(i)).size))
  {
    hide RunLength, IsStart, FromIndex;
    var size := ShipAt(S, FromIndex(i)).size;
    forall k: nat
      ensures k != size ==> StartsOfSize(S, i + 1, k) == StartsOfSize(S, i, k)
    {
      StartsStep(S, i, k);
    }
    StartsStep(S, i, size);
  }

  /** The walks of all starts before cell i have succeeded. */
  ghost predicate WalkedUpTo(S: set<Coord>, i: nat)
    requires OnBoard(S)
  {
    forall c :: c in Starts(S) && c.GetIndex() < i ==> Isolated(S, ShipAt(S, c))
  }

  lemma WalkedStep(S: set<Coord>, i: nat)
    requires OnBoard(S) && i < CELLS && WalkedUpTo(S, i)
    requires FromIndex(i) in Starts(S) ==> Isolated(S, ShipAt(S, FromIndex(i)))
    ensures WalkedUpTo(S, i + 1)
  {
    forall c | c in Starts(S) && c.GetIndex() == i ensures Isolated(S, ShipAt(S, c)) {
      IndexRoundTrip(c);
    }
  }

  /** What the scan looks at around a cell decides whether, and which way, a ship starts there. */
  lemma ScanCell(g: Word, c: Coord)
    requires c.IsOnBoard()
    ensures c in Starts(Occupied(g))
        <==> HasShip(g, c) && !HasShip(g, c.Plus(Up)) && !HasShip(g, c.Plus(Left))
    ensures WalkDirection(Occupied(g), c) == if HasShip(g, c.Plus(Down)) then Down else Right
  {
  }

  ghost predicate Scanned(g: Word, i: nat, found: map<nat, nat>) {
    WalkedUpTo(Occupied(g), i) && Counted(Occupied(g), i, found)
  }

  lemma ScannedSkip(g: Word, i: nat, found: map<nat, nat>)
    requires i < CELLS && Scanned(g, i, found) && FromIndex(i) !in Starts(Occupied(g))
    ensures Scanned(g, i + 1, found)
  {
    WalkedStep(Occupied(g), i);
    CountSkip(Occupied(g), i, found);
  }

  lemma ScannedStep(g: Word, i: nat, found: map<nat, nat>, ship: Ship)
    requires i < CELLS && Scanned(g, i, found) && FromIndex(i) in Starts(Occupied(g))
    requires ship == ShipAt(Occupied(g), FromIndex(i)) && Isolated(Occupied(g), ship)
    ensures Scanned(g, i + 1, Increment(found, ship.size))
  {
    WalkedStep(Occupied(g), i);
    CountStep(Occupied(g), i, found);
  }

  lemma NotIsolatedRejects(S: set<Coord>, c: Coord)
    requires OnBoard(S) && c in Starts(S) && !Isolated(S, ShipAt(S, c))
    ensures !LegalPlacement(S)
  {
    ScanIsPlacement(S);
  }

  method VerifyPositionOfShips(position: Word) returns (ok: bool)
    ensures ok <==> LegalPlacement(Occupied(position))
  {
    var foundShips: map<nat, nat> := map[];
    for i := 0 to CELLS
      invariant Scanned(position, i, foundShips)
    {
      var c := FromIndex(i);
      IndexIsOnBoard(i);
      ScanCell(position, c);
      if !HasShip(position, c) || HasShip(position, c.Plus(Up)) || HasShip(position, c.Plus(Left)) {
        ScannedSkip(position, i, foundShips);
        continue;
      }
      var dir, otherDir := Right, Down;
      if HasShip(position, c.Plus(Down)) {
        dir, otherDir := Down, Right;
      }
      var single, size := CheckShip(position, c, dir, otherDir);
      ghost var ship := ShipAt(Occupied(position), c);
      if !single {
        NotIsolatedRejects(Occupied(position), c);
        return false;
      }
      ScannedStep(position, i, foundShips, ship);
      foundShips := Increment(foundShips, size);
    }
    ok := CheckCounts(foundShips);
    CountsDecide(Occupied(position), foundShips);
    ScanIsPlacement(Occupied(position));
  }

  /** The number of ships of each type is the expected one. */
  predicate RightCounts(found: map<nat, nat>) {
    && found.Keys == {2, 3, 4}
    && found[2] == 4 && found[3] == 2 && found[4] == 1
  }

  method CheckCounts(foundShips: map<nat, nat>) returns (ok: bool)
    ensures ok <==> RightCounts(foundShips)
  {
    var availableTypes := 0;
    while availableTypes < |AVAILABLE_SHIPS|
      invariant 0 <= availableTypes <= 3
      invariant forall t :: 0 <= t < availableTypes ==>
        && AVAILABLE_SHIPS[t].size in foundShips
        && foundShips[AVAILABLE_SHIPS[t].size] == AVAILABLE_SHIPS[t].number
    {
      var t := AVAILABLE_SHIPS[availableTypes];
      availableTypes := availableTypes + 1;
      if t.size !in foundShips || foundShips[t.size] != t.number {
        return false;
      }
    }
    assert AVAILABLE_SHIPS[0].size == 2 && AVAILABLE_SHIPS[1].size == 3 && AVAILABLE_SHIPS[2].size == 4;
    SubsetCount({2, 3, 4}, foundShips.Keys);
    ok := availableTypes == |foundShips|;
  }

  lemma CountedSize(S: set<Coord>, found: map<nat, nat>, c: Coord, k: nat)
    requires OnBoard(S) && Counted(S, CELLS, found) && c in Starts(S) && ShipAt(S, c).size == k
    ensures k in found.Keys
  {
    assert c in StartsOfSize(S, CELLS, k);
  }

  lemma ExpectedSize(keys: set<nat>, k: nat)
    requires keys == {2, 3, 4} && k in keys
    ensures 2 <= k <= 4
  {
  }

  lemma RightCountsAccept(S: set<Coord>, found: map<nat, nat>)
    requires OnBoard(S) && WalkedUpTo(S, CELLS) && Counted(S, CELLS, found) && RightCounts(found)
    ensures ScanAccepts(S)
  {
    forall c | c in Starts(S) ensures 2 <= ShipAt(S, c).size <= 4 {
      var k := ShipAt(S, c).size;
      CountedSize(S, found, c, k);
      ExpectedSize(found.Keys, k);
    }
    assert found[2] == 4 && found[3] == 2 && found[4] == 1;
  }

  lemma AcceptedHasRightCounts(S: set<Coord>, found: map<nat, nat>)
    requires OnBoard(S) && Counted(S, CELLS, found) && ScanAccepts(S)
    ensures RightCounts(found)
  {
    hide RunLength, Isolated, IsStart;
    forall k | k in found ensures k in {2, 3, 4} {
      var c :| c in StartsOfSize(S, CELLS, k);
      assert 2 <= ShipAt(S, c).size <= 4;
    }
    forall k: nat | k in {2, 3, 4} ensures k in found {
      assert StartsOfSize(S, CELLS, k) != {};
    }
  }

  /** After the whole scan, the right counts are the remaining part of the verdict. */
  lemma CountsDecide(S: set<Coord>, found: map<nat, nat>)
    requires OnBoard(S) && WalkedUpTo(S, CELLS) && Counted(S, CELLS, found)
    ensures RightCounts(found) <==> ScanAccepts(S)
  {
    if RightCounts(found) {
      RightCountsAccept(S, found);
    }
    if ScanAccepts(S) {
      AcceptedHasRightCounts(S, found);
    }
  }

  // ---- Why the scan decides legality ----

  /** The walked ship of a start covers the start, the run, and nothing that is not set. */
  lemma ShipAtCells(S: set<Coord>, c: Coord)
    requires OnBoard(S) && c in S
    ensures ShipAt(S, c).size >= 1 && ShipAt(S, c).Covers(c)
    ensures forall x :: ShipAt(S, c).Covers(x) ==> x in S
  {
    var s := ShipAt(S, c);
    RunCells(S, c, s.dir);
    forall x | s.Covers(x) ensures x in S {
      assert x == Along(c, s.dir, if s.dir == Right then x.column - c.column else x.row - c.row);
    }
  }

  lemma HeadOrPrevious(s: Ship, x: Coord)
    requires s.Covers(x) && IsWalkDirection(s.dir)
    ensures x == s.head || s.Covers(x.Plus(Left)) || s.Covers(x.Plus(Up))
  {
  }

  /** Going up and left from any set cell leads to a start whose ship covers the cell. */
  lemma {:induction false} CoveredByStart(S: set<Coord>, x: Coord) returns (c: Coord)
    requires OnBoard(S) && x in S
    requires forall c :: c in Starts(S) ==> Isolated(S, ShipAt(S, c))
    ensures c in Starts(S) && ShipAt(S, c).Covers(x)
    decreases x.row + x.column
  {
    if IsStart(S, x) {
      c := x;
      ShipAtCells(S, x);
    } else {
      var p := if x.Plus(Up) in S then x.Plus(Up) else x.Plus(Left);
      c := CoveredByStart(S, p);
      assert ShipAt(S, c).InHalo(x);
    }
  }

  /** Ships that are isolated and come near each other are the same ship. */
  lemma SameStart(S: set<Coord>, c: Coord, d: Coord, x: Coord, y: Coord)
    requires OnBoard(S) && c in Starts(S) && d in Starts(S)
    requires Isolated(S, ShipAt(S, c)) && Isolated(S, ShipAt(S, d))
    requires ShipAt(S, c).Covers(x) && ShipAt(S, d).Covers(y) && Near(x, y)
    ensures c == d
  {
    ShipAtCells(S, c);
    ShipAtCells(S, d);
    assert ShipAt(S, d).InHalo(x);
    BackToStart(S, c, d, x);
  }

  /** Following one ship back to its start never leaves the other ship. */
  lemma {:induction false} BackToStart(S: set<Coord>, c: Coord, d: Coord, x: Coord)
    requires OnBoard(S) && c in Starts(S) && d in Starts(S)
    requires Isolated(S, ShipAt(S, d))
    requires ShipAt(S, c).Covers(x) && ShipAt(S, d).Covers(x)
    ensures c == d
    decreases x.row + x.column
  {
    ShipAtCells(S, c);
    ShipAtCells(S, d);
    if x != c {
      var p := if ShipAt(S, c).dir == Right then x.Plus(Left) else x.Plus(Up);
      assert ShipAt(S, c).Covers(p);
      assert ShipAt(S, d).InHalo(p);
      BackToStart(S, c, d, p);
    } else {
      HeadOrPrevious(ShipAt(S, d), x);
    }
  }

  /** If all walks succeed, the walked ships partition the board. */
  lemma WalksPartition(S: set<Coord>)
    requires OnBoard(S)
    requires forall c :: c in Starts(S) ==> Isolated(S, ShipAt(S, c)) && ShipAt(S, c).size >= 2
    ensures Partition(S, ShipsOf(S))
  {
    forall x ensures x in S <==> exists s :: s in ShipsOf(S) && s.Covers(x) {
      if x in S {
        var c := CoveredByStart(S, x);
        assert ShipAt(S, c) in ShipsOf(S);
      } else if s: Ship :| s in ShipsOf(S) && s.Covers(x) {
        ShipAtCells(S, s.head);
      }
    }
    forall s, t | s in ShipsOf(S) && t in ShipsOf(S) && s != t ensures !Touch(s, t) {
      if x, y :| s.Covers(x) && t.Covers(y) && Near(x, y) {
        SameStart(S, s.head, t.head, x, y);
      }
    }
  }

  /** In a partition, every set cell near a ship belongs to that ship. */
  lemma PartitionIsolated(S: set<Coord>, fleet: set<Ship>, s: Ship)
    requires Partition(S, fleet) && s in fleet
    ensures Isolated(S, s)
  {
    forall x | x in S && s.InHalo(x) ensures s.Covers(x) {
      NearHalo(s, x);
      var y :| s.Covers(y) && Near(x, y);
      var t: Ship :| t in fleet && t.Covers(x);
      assert Near(y, x);
      assert s != t ==> Touch(s, t);
    }
  }

  /** Every ship of a partition is the one that the scan walks from its head. */
  lemma PartitionShipWalked(S: set<Coord>, fleet: set<Ship>, s: Ship)
    requires OnBoard(S) && Partition(S, fleet) && s in fleet
    ensures s.head in Starts(S) && ShipAt(S, s.head) == s
  {
    PartitionIsolated(S, fleet, s);
    assert s.Covers(s.head);
    assert s.InHalo(s.head.Plus(Up)) && s.InHalo(s.head.Plus(Left));
    assert s.InHalo(s.head.Plus(Down)) && s.InHalo(s.head.Plus(Right));
    assert s.dir == Down ==> s.Covers(s.head.Plus(Down));
    assert WalkDirection(S, s.head) == s.dir;
    forall k: nat | k < s.size ensures Along(s.head, s.dir, k) in S {
      assert s.Covers(Along(s.head, s.dir, k));
    }
    assert s.InHalo(Along(s.head, s.dir, s.size));
    RunIs(S, s.head, s.dir, s.size);
  }

  /** Conversely, every ship that the scan walks belongs to the partition. */
  lemma WalkedShipInPartition(S: set<Coord>, fleet: set<Ship>, c: Coord)
    requires OnBoard(S) && Partition(S, fleet) && c in Starts(S)
    ensures ShipAt(S, c) in fleet
  {
    var t: Ship :| t in fleet && t.Covers(c);
    HeadOrPrevious(t, c);
    assert t.Covers(c.Plus(Left)) ==> c.Plus(Left) in S;
    assert t.Covers(c.Plus(Up)) ==> c.Plus(Up) in S;
    PartitionShipWalked(S, fleet, t);
  }

  /** The ships of a board are determined by its cells: any partition is the scan's one. */
  lemma PartitionUnique(S: set<Coord>, fleet: set<Ship>)
    requires OnBoard(S) && Partition(S, fleet)
    ensures fleet == ShipsOf(S)
  {
    forall s | s in fleet ensures s in ShipsOf(S) {
      PartitionShipWalked(S, fleet, s);
    }
    forall s | s in ShipsOf(S) ensures s in fleet {
      WalkedShipInPartition(S, fleet, s.head);
    }
  }

  lemma SizesMatch(S: set<Coord>, k: nat)
    requires OnBoard(S)
    ensures |OfSize(ShipsOf(S), k)| == |StartsOfSize(S, CELLS, k)|
  {
    var starts, ships := StartsOfSize(S, CELLS, k), OfSize(ShipsOf(S), k);
    forall c | c in starts ensures ShipAt(S, c) in ships {
    }
    forall s | s in ships ensures exists c :: c in starts && (if c in S then ShipAt(S, c) else s) == s {
      assert s.head in starts && ShipAt(S, s.head) == s;
    }
    ImageCount(ships, (s: Ship) => s.head, starts);
  }

  lemma AcceptedIsLegal(S: set<Coord>)
    requires OnBoard(S) && ScanAccepts(S)
    ensures LegalPlacement(S)
  {
    hide RunLength, IsStart, Isolated, Partition, OnBoard, WalkDirection;
    SizesMatch(S, 2);
    SizesMatch(S, 3);
    SizesMatch(S, 4);
    WalksPartition(S);
    assert Complement(ShipsOf(S));
  }

  lemma LegalIsAccepted(S: set<Coord>)
    requires OnBoard(S) && LegalPlacement(S)
    ensures ScanAccepts(S)
  {
    hide RunLength, IsStart, Isolated, Partition, OnBoard, WalkDirection;
    var fleet :| Partition(S, fleet) && Complement(fleet);
    PartitionUnique(S, fleet);
    SizesMatch(S, 2);
    SizesMatch(S, 3);
    SizesMatch(S, 4);
    forall c | c in Starts(S) ensures Isolated(S, ShipAt(S, c)) && 2 <= ShipAt(S, c).size <= 4 {
      WalkedShipInPartition(S, fleet, c);
      PartitionIsolated(S, fleet, ShipAt(S, c));
    }
  }

  /** The scan accepts exactly the legal placements. */
  lemma ScanIsPlacement(S: set<Coord>)
    requires OnBoard(S)
    ensures ScanAccepts(S) <==> LegalPlacement(S)
  {
    if ScanAccepts(S) {
      AcceptedIsLegal(S);
    }
    if LegalPlacement(S) {
      LegalIsAccepted(S);
    }
  }

  /** A revealed legal position always counts as revealed after the 32-bit narrowing. */
  lemma LegalPositionHasLowHalf(position: Word)
    requires LegalPlacement(Occupied(position))
    ensures position % 0x1_0000_0000 != 0
  {
    LegalPlacementReachesTop(Occupied(position));
    LowHalf(position);
  }
}
