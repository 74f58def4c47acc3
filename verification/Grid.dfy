/** Bit boards (ships/grid.cpp), each read as the set of the cells it marks. */
module Grids {
  import opened Bits
  import opened Coords
  import opened Counting

  /** The marked cells of a 64-bit board. */
  function Occupied(b: Word): (cells: set<Coord>)
    ensures forall c :: c in cells <==> c.IsOnBoard() && Bit(b, c.GetIndex())
  {
    var cells := set i | 0 <= i < CELLS && Bit(b, i) :: FromIndex(i);
    assert forall c: Coord :: c.IsOnBoard() ==> FromIndex(c.GetIndex()) == c;
    cells
  }

  lemma SameCells(a: Word, b: Word)
    requires Occupied(a) == Occupied(b)
    ensures a == b
  {
    Pow2OfWidth();
    forall k: nat ensures Bit(a, k) <==> Bit(b, k) {
      if k < CELLS {
        var c := FromIndex(k);
        assert c in Occupied(a) <==> c in Occupied(b);
      } else {
        HighBitsClear(a, WIDTH, k);
        HighBitsClear(b, WIDTH, k);
      }
    }
    SameBits(a, b);
  }

  lemma OccupiedOfZero()
    ensures Occupied(0) == {}
  {
    forall k: nat ensures !Bit(0, k) { BitOfZero(k); }
  }

  /** a | 2^i stays a 64-bit word for every cell number i. */
  lemma OrFits(a: Word, i: nat)
    requires i < CELLS
    ensures Or(a, Pow2(i)) < LIMIT
  {
    Pow2OfWidth();
    forall k: nat | WIDTH <= k ensures !Bit(Or(a, Pow2(i)), k) {
      BitOfOr(a, Pow2(i), k);
      BitOfPow2(i, k);
      HighBitsClear(a, WIDTH, k);
    }
    BoundFromBits(Or(a, Pow2(i)), WIDTH);
  }

  function WithCell(b: Word, c: Coord): (r: Word)
    requires c.IsOnBoard()
    ensures Occupied(r) == Occupied(b) + {c}
  {
    OrFits(b, c.GetIndex());
    var r := Or(b, Pow2(c.GetIndex()));
    assert Occupied(r) == Occupied(b) + {c} by {
      forall d: Coord | d.IsOnBoard()
        ensures Bit(r, d.GetIndex()) <==> Bit(b, d.GetIndex()) || d == c
      {
        BitOfOr(b, Pow2(c.GetIndex()), d.GetIndex());
        BitOfPow2(c.GetIndex(), d.GetIndex());
      }
    }
    r
  }

  lemma AndNotCells(a: Word, b: Word)
    ensures AndNot(a, b) != 0 <==> !(Occupied(a) <= Occupied(b))
  {
    if AndNot(a, b) == 0 {
      forall c | c in Occupied(a) ensures c in Occupied(b) {
        BitOfAndNot(a, b, c.GetIndex());
        BitOfZero(c.GetIndex());
      }
    } else if Occupied(a) <= Occupied(b) {
      Pow2OfWidth();
      forall k: nat ensures Bit(AndNot(a, b), k) <==> Bit(0, k) {
        BitOfAndNot(a, b, k);
        BitOfZero(k);
        if k < CELLS {
          assert FromIndex(k) in Occupied(a) ==> FromIndex(k) in Occupied(b);
        } else {
          HighBitsClear(a, WIDTH, k);
        }
      }
      SameBits(AndNot(a, b), 0);
    }
  }

  /** Narrowing a board to its low 32 bits keeps it nonzero exactly when rows 0..3 are marked. */
  lemma LowHalf(b: Word)
    ensures b % 0x1_0000_0000 != 0 <==> exists c :: c in Occupied(b) && c.row < 4
  {
    Pow2OfWidth();
    LowBits(b, 32);
    if b % Pow2(32) != 0 {
      var k :| 0 <= k < 32 && Bit(b, k);
      assert FromIndex(k) in Occupied(b) && FromIndex(k).row < 4;
    }
    if c :| c in Occupied(b) && c.row < 4 {
      var k: nat := c.GetIndex();
      assert k < 32 && Bit(b, k);
    }
  }

  lemma {:induction false} LowBits(n: nat, m: nat)
    ensures n % Pow2(m) != 0 <==> exists k: nat :: k < m && Bit(n, k)
  {
    if m > 0 {
      LowBits(n / 2, m - 1);
      ModStep(n, Pow2(m - 1));
      if Bit(n, 0) {
        assert n % Pow2(m) != 0;
      } else if n / 2 % Pow2(m - 1) != 0 {
        var k: nat :| k < m - 1 && Bit(n / 2, k);
        assert Bit(n, k + 1);
      } else {
        forall k: nat | k < m ensures !Bit(n, k) {
          assert k > 0 ==> Bit(n, k) == Bit(n / 2, k - 1);
        }
      }
    }
  }

  lemma ModStep(n: nat, p: nat)
    requires p > 0
    ensures n % (2 * p) == 2 * (n / 2 % p) + n % 2
  {
    var q := n / 2 / p;
    assert n == (2 * p) * q + (2 * (n / 2 % p) + n % 2);
    ModUnique(n, 2 * p, q, 2 * (n / 2 % p) + n % 2);
  }

  lemma MulBounds(d: int, k: int)
    requires d > 0
    ensures k >= 1 ==> d * k >= d
    ensures k <= -1 ==> d * k <= -d
  {
  }

  lemma ModUnique(n: int, d: int, q: int, r: int)
    requires d > 0 && 0 <= r < d && n == d * q + r
    ensures n % d == r
  {
    MulBounds(d, n / d - q);
    assert n % d == r - d * (n / d - q);
  }

  // ---- Counting marked cells ----

  function Indices(n: nat, m: nat): set<nat> {
    set k | 0 <= k < m && Bit(n, k)
  }

  lemma {:induction false} ShrStep(n: nat, k: nat)
    ensures Shr(n, k + 1) == Shr(n, k) / 2
  {
    if k > 0 {
      ShrStep(n / 2, k - 1);
    }
  }

  lemma IndicesStep(n: nat, m: nat)
    ensures |Indices(n, m + 1)| == |Indices(n, m)| + Shr(n, m) % 2
  {
    assert Indices(n, m + 1) == Indices(n, m) + (if Bit(n, m) then {m} else {});
  }

  /** Once everything is shifted out, no further bit is set. */
  lemma {:induction false} ShiftedOut(n: nat, m: nat, k: nat)
    requires Shr(n, m) == 0 && m <= k
    ensures !Bit(n, k)
  {
    if m == 0 {
      BitOfZero(k);
    } else {
      ShiftedOut(n / 2, m - 1, k - 1);
    }
  }

  lemma OccupiedCount(b: Word)
    ensures |Occupied(b)| == |Indices(b, WIDTH)|
  {
    forall c | c in Occupied(b) ensures exists k :: k in Indices(b, WIDTH) && FromIndex(k) == c {
      assert c.GetIndex() in Indices(b, WIDTH);
    }
    ImageCount(Indices(b, WIDTH), k => FromIndex(k), Occupied(b));
  }

  // ---- Byte representation ----

  /** The number a little-endian byte string stands for. */
  function FromBlob(s: string): nat {
    if s == [] then 0 else s[0] as int + 256 * FromBlob(s[1..])
  }

  function BlobOf(n: nat, len: nat): (s: string)
    ensures |s| == len
  {
    if len == 0 then [] else [(n % 256) as char] + BlobOf(n / 256, len - 1)
  }

  function Pow256(k: nat): (p: nat)
    ensures p > 0
  {
    if k == 0 then 1 else 256 * Pow256(k - 1)
  }

  /** Encoding and decoding a board is the identity, so different boards have different blobs. */
  lemma {:induction false} BlobRoundTrip(n: nat, len: nat)
    requires n < Pow256(len)
    ensures FromBlob(BlobOf(n, len)) == n
  {
    if len > 0 {
      BlobRoundTrip(n / 256, len - 1);
      assert BlobOf(n, len)[1..] == BlobOf(n / 256, len - 1);
    }
  }

  lemma BlobInjective(a: Word, b: Word)
    requires BlobOf(a, 8) == BlobOf(b, 8)
    ensures a == b
  {
    assert Pow256(4) == 0x1_0000_0000 && Pow256(8) == LIMIT by {
      assert Pow256(2) == 0x1_0000;
      assert Pow256(6) == 0x1_0000_0000_0000;
    }
    BlobRoundTrip(a, 8);
    BlobRoundTrip(b, 8);
  }

  lemma {:induction false} BlobAppend(n: nat, len: nat, k: nat)
    requires k < len
    ensures BlobOf(n, len)[k] as int == n / Pow256(k) % 256
  {
    if k > 0 {
      BlobAppend(n / 256, len - 1, k - 1);
      DivDiv(n, 256, Pow256(k - 1));
    }
  }

  lemma DivDiv(n: nat, a: nat, b: nat)
    requires a > 0 && b > 0
    ensures a * b > 0 && n / a / b == n / (a * b)
  {
    var m, r := n / a, n % a;
    var q, t := m / b, m % b;
    assert n == a * m + r && m == b * q + t;
    Regroup(a, b, q, t);
    DigitsBelow(a, b, t, r);
    DivUnique(n, a * b, q, a * t + r);
  }

  lemma DigitsBelow(a: nat, b: nat, t: nat, r: nat)
    requires t < b && r < a
    ensures 0 <= a * t + r < a * b
  {
    MulBounds(a, b - t);
    assert a * (b - t) == a * b - a * t;
  }

  lemma Regroup(a: int, b: int, q: int, t: int)
    ensures a * (b * q + t) == (a * b) * q + a * t
  {
  }

  lemma DivUnique(n: int, d: int, q: int, r: int)
    requires d > 0 && 0 <= r < d && n == d * q + r
    ensures n / d == q
  {
    ModUnique(n, d, q, r);
    MulBounds(d, n / d - q);
    assert d * (n / d - q) == 0;
  }

  // ---- Text representation ----

  predicate IsBlank(c: char) {
    c == ' ' || c == '\n'
  }

  /** A grid text without the blanks and newlines that FromString skips. */
  function Stripped(str: string): string {
    if str == [] then []
    else (if IsBlank(str[0]) then [] else [str[0]]) + Stripped(str[1..])
  }

  lemma SeqAssoc(a: string, b: string, c: string)
    ensures (a + b) + c == a + (b + c)
  {
  }

  lemma {:induction false} StrippedAppend(s: string, t: string)
    ensures Stripped(s + t) == Stripped(s) + Stripped(t)
  {
    if s == [] {
      assert s + t == t;
    } else {
      hide IsBlank;
      StrippedAppend(s[1..], t);
      assert (s + t)[0] == s[0] && (s + t)[1..] == s[1..] + t;
      SeqAssoc(if IsBlank(s[0]) then [] else [s[0]], Stripped(s[1..]), Stripped(t));
    }
  }

  /** Text that denotes a board: one mark per cell. */
  predicate Readable(str: string) {
    && |Stripped(str)| == CELLS
    && forall i :: 0 <= i < CELLS ==> Stripped(str)[i] == '.' || Stripped(str)[i] == 'x'
  }

  predicate Denotes(str: string, b: Word)
    requires Readable(str)
  {
    forall i :: 0 <= i < CELLS ==> (Bit(b, i) <==> Stripped(str)[i] == 'x')
  }

  function CellChar(b: Word, i: nat): char {
    if Bit(b, i) then 'x' else '.'
  }

  /** The first n cells as text, a newline after every eighth. */
  function TextOf(b: Word, n: nat): string {
    if n == 0 then []
    else TextOf(b, n - 1) + [CellChar(b, n - 1)] + (if n % SIDE == 0 then "\n" else "")
  }

  lemma {:induction false} TextMarks(b: Word, n: nat)
    ensures |Stripped(TextOf(b, n))| == n
    ensures forall i :: 0 <= i < n ==> Stripped(TextOf(b, n))[i] == CellChar(b, i)
  {
    if n > 0 {
      TextMarks(b, n - 1);
      var last := [CellChar(b, n - 1)];
      var end := if n % SIDE == 0 then "\n" else "";
      StrippedAppend(TextOf(b, n - 1) + last, end);
      StrippedAppend(TextOf(b, n - 1), last);
      assert Stripped(last) == last;
      assert Stripped(end) == [];
    }
  }

  /** Printed boards are readable and denote exactly the board that was printed. */
  lemma TextRoundTrip(b: Word, c: Word)
    ensures Readable(TextOf(b, CELLS))
    ensures Denotes(TextOf(b, CELLS), c) <==> b == c
  {
    TextMarks(b, CELLS);
    if Denotes(TextOf(b, CELLS), c) {
      forall d ensures d in Occupied(b) <==> d in Occupied(c) {
        if d.IsOnBoard() {
          assert Stripped(TextOf(b, CELLS))[d.GetIndex()] == CellChar(b, d.GetIndex());
        }
      }
      SameCells(b, c);
    }
  }

  /** The board as the source keeps it: a word that its methods update. */
  class Grid {
    var bits: Word

    constructor (b: Word)
      ensures bits == b
    {
      bits := b;
    }

    function Get(c: Coord): bool
      requires c.IsOnBoard()
      reads this
    {
      Shr(bits, c.GetIndex()) % 2 > 0
    }

    method Set(c: Coord)
      requires c.IsOnBoard() && !Get(c)
      modifies this
      ensures Occupied(bits) == Occupied(old(bits)) + {c}
    {
      bits := WithCell(bits, c);
    }

    method CountOnes() returns (res: nat)
      ensures res == |Occupied(bits)|
    {
      var remaining: nat := bits;
      res := 0;
      ghost var j: nat := 0;
      OccupiedCount(bits);
      while remaining > 0
        invariant remaining == Shr(bits, j) && res == |Indices(bits, j)|
        decreases remaining
      {
        IndicesStep(bits, j);
        ShrStep(bits, j);
        res := res + remaining % 2;
        remaining := remaining / 2;
        j := j + 1;
      }
      Pow2OfWidth();
      forall k: nat ensures j <= k || WIDTH <= k ==> !Bit(bits, k) {
        if j <= k {
          ShiftedOut(bits, j, k);
        } else if WIDTH <= k {
          HighBitsClear(bits, WIDTH, k);
        }
      }
      assert Indices(bits, j) == Indices(bits, WIDTH);
    }

    method Blob() returns (res: string)
      ensures |res| == 8 && FromBlob(res) == bits
      ensures res == BlobOf(bits, 8)
    {
      var remaining: nat := bits;
      res := seq(8, i => 0 as char);
      var i := 0;
      assert Pow256(4) == 0x1_0000_0000 && Pow256(8) == LIMIT by {
        assert Pow256(2) == 0x1_0000;
        assert Pow256(6) == 0x1_0000_0000_0000;
      }
      while i < |res|
        invariant 0 <= i <= |res| == 8
        invariant remaining == bits / Pow256(i)
        invariant res[..i] == BlobOf(bits, 8)[..i]
      {
        BlobAppend(bits, 8, i);
        DivDiv(bits, Pow256(i), 256);
        assert Pow256(i) * 256 == Pow256(i + 1);
        res := res[i := (remaining % 256) as char];
        remaining := remaining / 256;
        i := i + 1;
      }
      assert remaining == 0;
      assert res == res[..8] == BlobOf(bits, 8);
      BlobRoundTrip(bits, 8);
    }

    /** Accepts exactly the texts with one mark per cell, and reads the board they denote. */
    method FromString(str: string) returns (ok: bool)
      modifies this
      ensures ok <==> Readable(str)
      ensures ok ==> Denotes(str, bits)
    {
      hide Shr, WithCell, IsBlank;
      bits := 0;
      OccupiedOfZero();
      var next := 0;
      var i := 0;
      while i < |str|
        invariant 0 <= i <= |str|
        invariant 0 <= next <= CELLS && |Stripped(str[..i])| == next
        invariant forall k :: 0 <= k < next ==>
          && (Stripped(str[..i])[k] == '.' || Stripped(str[..i])[k] == 'x')
          && (FromIndex(k) in Occupied(bits) <==> Stripped(str[..i])[k] == 'x')
        invariant forall c :: c in Occupied(bits) ==> c.GetIndex() < next
      {
        var c := str[i];
        assert str[..i + 1] == str[..i] + [c];
        StrippedAppend(str[..i], [c]);
        assert str == str[..i + 1] + str[i + 1..];
        StrippedAppend(str[..i + 1], str[i + 1..]);
        i := i + 1;
        if IsBlank(c) {
          continue;
        }
        if next >= CELLS {
          return false;
        }
        if c == 'x' {
          Set(FromIndex(next));
        } else if c != '.' {
          assert Stripped(str)[next] == c;
          return false;
        }
        next := next + 1;
      }
      assert str[..i] == str;
      if next < CELLS {
        return false;
      }
      forall k | 0 <= k < CELLS ensures Bit(bits, k) <==> FromIndex(k) in Occupied(bits) {
        IndexIsOnBoard(k);
      }
      return true;
    }
  }

  /** The answers given for a position are right: the hits are the targeted ship cells. */
  predicate VerifyPositionForAnswers(position: Word, targeted: Word, hits: Word)
    requires And(hits, targeted) == hits
  {
    And(position, targeted) == hits
  }

  lemma AnswersMeaning(position: Word, targeted: Word, hits: Word)
    ensures And(hits, targeted) == hits <==> Occupied(hits) <= Occupied(targeted)
    ensures And(position, targeted) == hits
        <==> Occupied(hits) == Occupied(position) * Occupied(targeted)
  {
    AndCells(hits, targeted, hits);
    AndCells(position, targeted, hits);
    assert Occupied(hits) <= Occupied(targeted)
      <==> Occupied(hits) == Occupied(hits) * Occupied(targeted);
  }

  lemma AndCells(a: Word, b: Word, r: Word)
    ensures And(a, b) == r <==> Occupied(r) == Occupied(a) * Occupied(b)
  {
    Pow2OfWidth();
    forall k: nat | WIDTH <= k ensures !Bit(And(a, b), k) {
      BitOfAnd(a, b, k);
      HighBitsClear(a, WIDTH, k);
    }
    BoundFromBits(And(a, b), WIDTH);
    var w: Word := And(a, b);
    forall c: Coord | c.IsOnBoard()
      ensures Bit(w, c.GetIndex()) <==> Bit(a, c.GetIndex()) && Bit(b, c.GetIndex())
    {
      BitOfAnd(a, b, c.GetIndex());
    }
    assert Occupied(w) == Occupied(a) * Occupied(b);
    if Occupied(r) == Occupied(w) {
      SameCells(r, w);
    }
  }
}
