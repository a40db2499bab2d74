/** The 128-bit board encoding (wasm/src/game/mod.rs).

    Rank y (0 = rank 1) occupies the 16-bit lane starting at bit 16*y; only the
    high byte of each lane is on the board, so file x of rank y is bit
    16*y + 8 + x.  The low byte of every lane is a guard: a shift that leaves
    the board, vertically or across a file edge, lands in a guard byte or
    falls off the end of the word, and `MASK` detects it.

    A `u128` board is represented by the set of the positions (0..127) of its
    one bits.  The Rust bit operators become set operators: `a | b` is
    `a + b`, `a & b` is `a * b`, `a ^ b` is `Xor(a, b)`, `!a` is `Not(a)`,
    `x == 0` is `x == {}`, and the shifts are `Shl` and `Shr`, which drop
    the bits pushed past either end of the word. */
module Board {

  /** The positions of the one bits of a `u128`. */
  type Bits = set<int>

  /** The bit positions lo..hi-1. */
  function Span(lo: int, hi: int): (s: Bits)
    ensures forall m :: m in s <==> lo <= m < hi
    decreases hi - lo
  {
    if hi <= lo then {} else {lo} + Span(lo + 1, hi)
  }

  /** Every bit of the word (`u128::MAX`). */
  const ALL: Bits := Span(0, 128)

  /** A board that only uses bit positions of a `u128`. */
  predicate Word(b: Bits)
  {
    forall m | m in b :: 0 <= m < 128
  }

  /** `MASK` = 0xff00_ff00_..._ff00: the high byte of each of the eight lanes. */
  const MASK: Bits := set m | 0 <= m < 128 && m % 16 >= 8

  /** The bit index of file x, rank y: `(y << 4) + 8 + x`. */
  function Index(x: int, y: int): (n: int)
    requires 0 <= x < 8 && 0 <= y < 8
    ensures 8 <= n < 128 && n % 16 == 8 + x && n / 16 == y
  {
    16 * y + 8 + x
  }

  /** The single-square board of file x, rank y: `1 << (y << 4) + 8 + x`. */
  function Square(x: int, y: int): Bits
    requires 0 <= x < 8 && 0 <= y < 8
  {
    {Index(x, y)}
  }

  /** `a ^ b`. */
  function Xor(a: Bits, b: Bits): (c: Bits)
    ensures forall m :: m in c <==> (m in a) != (m in b)
  {
    (a - b) + (b - a)
  }

  /** `!a` on a `u128`. */
  function Not(a: Bits): (c: Bits)
    ensures forall m :: m in c <==> 0 <= m < 128 && m !in a
  {
    ALL - a
  }

  /** `b << k` on a `u128`: bit m of the result is bit m-k of b. */
  function Shl(b: Bits, k: int): (c: Bits)
    requires 0 <= k < 128
    ensures forall m :: m in c <==> 0 <= m < 128 && m - k in b
  {
    set n | n in b && 0 <= n + k < 128 :: n + k
  }

  /** `b >> k` on a `u128`: bit m of the result is bit m+k of b. */
  function Shr(b: Bits, k: int): (c: Bits)
    requires 0 <= k < 128
    ensures forall m :: m in c <==> 0 <= m < 128 && m + k in b
  {
    set n | n in b && 0 <= n - k < 128 :: n - k
  }

  /** `b & MASK != 0`: the board touches at least one on-board square. */
  predicate OnBoard(b: Bits)
  {
    b * MASK != {}
  }

  /** `a & b == 0`. */
  predicate Disjoint(a: Bits, b: Bits)
  {
    a * b == {}
  }

  /** Exactly one bit set. */
  ghost predicate Single(b: Bits)
  {
    exists n :: b == {n}
  }

  /** A square is one on-board bit, and squares of distinct coordinates are
      distinct bits. */
  lemma SquareOnBoard(x: int, y: int)
    requires 0 <= x < 8 && 0 <= y < 8
    ensures Single(Square(x, y)) && Square(x, y) <= MASK && OnBoard(Square(x, y))
    ensures forall x2, y2 | 0 <= x2 < 8 && 0 <= y2 < 8 ::
      Disjoint(Square(x, y), Square(x2, y2)) <==> (x != x2 || y != y2)
  {
    assert Index(x, y) in MASK;
    assert Index(x, y) in Square(x, y) * MASK;
    forall x2, y2 | 0 <= x2 < 8 && 0 <= y2 < 8
      ensures Disjoint(Square(x, y), Square(x2, y2)) <==> (x != x2 || y != y2)
    {
      var n, n2 := Index(x, y), Index(x2, y2);
      assert n == n2 <==> (x == x2 && y == y2);
      assert Square(x, y) * Square(x2, y2) == if n == n2 then {n} else {};
    }
  }

  /** A non-zero shift moves a single bit off itself. */
  lemma ShiftAvoids(b: Bits, k: int)
    requires Single(b) && 0 < k < 128
    ensures Disjoint(Shl(b, k), b) && Disjoint(Shr(b, k), b)
  {
    var n :| b == {n};
  }

  /** A move of dx files and dy ranks as a shift by 16*dy + dx: `<<` when
      the amount is positive, `>>` otherwise. */
  function Offset(b: Bits, dx: int, dy: int): Bits
    requires -128 < 16 * dy + dx < 128
  {
    var k := 16 * dy + dx;
    if k >= 0 then Shl(b, k) else Shr(b, -k)
  }

  /** The guard bytes at work: moving square (x, y) by up to seven files and
      any number of ranks lands on the board exactly when the destination
      square exists, and then it is that square; otherwise the single bit lands
      in a guard byte or leaves the word. */
  lemma StepSquare(x: int, y: int, dx: int, dy: int)
    requires 0 <= x < 8 && 0 <= y < 8 && -7 <= dx <= 7 && -128 < 16 * dy + dx < 128
    ensures var t := Offset(Square(x, y), dx, dy);
      && (OnBoard(t) <==> 0 <= x + dx < 8 && 0 <= y + dy < 8)
      && (0 <= x + dx < 8 && 0 <= y + dy < 8 ==> t == Square(x + dx, y + dy))
  {
    var n := Index(x, y);
    var m := n + 16 * dy + dx;
    var t := Offset(Square(x, y), dx, dy);
    OffsetSingle(n, dx, dy);
    if 0 <= x + dx < 8 {
      LaneBit(y + dy, 8 + x + dx);
      if 0 <= y + dy < 8 {
        assert m == Index(x + dx, y + dy);
        assert m in t * MASK;
      }
    } else if x + dx >= 8 {
      LaneBit(y + dy + 1, x + dx - 8);
    } else {
      LaneBit(y + dy, 8 + x + dx);
    }
  }

  /** Shifting a single bit moves it by the amount, or drops it off the
      word. */
  lemma OffsetSingle(n: int, dx: int, dy: int)
    requires 0 <= n < 128 && -128 < 16 * dy + dx < 128
    ensures var m := n + 16 * dy + dx;
      Offset({n}, dx, dy) == if 0 <= m < 128 then {m} else {}
  {
  }

  /** Bit r of lane q is on the board iff the lane exists and r is in its
      high byte. */
  lemma LaneBit(q: int, r: int)
    requires 0 <= r < 16
    ensures 16 * q + r in MASK <==> 0 <= q < 8 && 8 <= r
  {
    var m := 16 * q + r;
    assert m % 16 == r && m / 16 == q;
  }

  /** The on-board bits of lane i: `0xff00 << (i << 4)`. */
  function Lane(i: int): (s: Bits)
    requires 0 <= i < 8
    ensures s <= MASK
    ensures forall m :: m in s <==> 16 * i + 8 <= m < 16 * i + 16
  {
    Span(16 * i + 8, 16 * i + 16)
  }
}
