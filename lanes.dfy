/** `BitBoard::convert_to_64bit` of the first-generation board code
    (src/pieces/mod.rs): the on-board byte of each of the eight 16-bit lanes
    of a `u128` board is packed into one byte of a `u64`, rank 1 in the
    lowest byte.  A `u64` is the set of its one-bit positions, 0..63. */
module Lanes {
  import opened Board

  /** The 64-bit board: bit 8i + j is square (file j, rank i + 1). */
  function Compact(bits: Bits): (r: Bits)
    ensures forall m | m in r :: 0 <= m < 64
  {
    set m | 0 <= m < 64 && 16 * (m / 8) + 8 + m % 8 in bits
  }

  /** The inverse direction: each bit 8i + j of a 64-bit board back at its
      lane position 16i + 8 + j. */
  function Expand(b: Bits): (r: Bits)
    ensures r <= MASK
  {
    set m | m in MASK && 8 * (m / 16) + m % 16 - 8 in b
  }

  /** One pass of the loop: `((bits >> (i << 4) + 8) & 0x00ff) << (i << 3)`,
      cast to `u64`. */
  function LaneByte(bits: Bits, i: int): Bits
    requires 0 <= i < 8
  {
    Shl(Shr(bits, 16 * i + 8) * Span(0, 8), 8 * i) * Span(0, 64)
  }

  /** `convert_to_64bit(bits)`. */
  method ConvertTo64(bits: Bits) returns (result: Bits)
    ensures result == Compact(bits)
  {
    result := {};
    for i := 0 to 8
      invariant result == set m | 0 <= m < 8 * i && 16 * (m / 8) + 8 + m % 8 in bits
    {
      LaneByteIs(bits, i);
      result := result + LaneByte(bits, i);
    }
  }

  /** Lane i contributes exactly its on-board byte, at bits 8i..8i+7. */
  lemma LaneByteIs(bits: Bits, i: int)
    requires 0 <= i < 8
    ensures LaneByte(bits, i) == set m | 8 * i <= m < 8 * i + 8 && 16 * (m / 8) + 8 + m % 8 in bits
  {
    var l := LaneByte(bits, i);
    var s := set m | 8 * i <= m < 8 * i + 8 && 16 * (m / 8) + 8 + m % 8 in bits;
    forall m ensures m in l <==> m in s {
      if 8 * i <= m < 8 * i + 8 {
        assert m / 8 == i && m % 8 == m - 8 * i;
      }
    }
  }

  /** Result bit 8i + j is input bit 16i + 8 + j. */
  lemma CompactBit(bits: Bits, i: int, j: int)
    requires 0 <= i < 8 && 0 <= j < 8
    ensures 8 * i + j in Compact(bits) <==> Index(j, i) in bits
  {
    assert (8 * i + j) / 8 == i && (8 * i + j) % 8 == j;
  }

  /** Only on-board bits matter: the guard byte of each lane is dropped. */
  lemma CompactIgnoresGuard(bits: Bits)
    ensures Compact(bits) == Compact(bits * MASK)
  {
    forall m | 0 <= m < 64
      ensures 16 * (m / 8) + 8 + m % 8 in MASK
    {
      var n := 16 * (m / 8) + 8 + m % 8;
      assert n % 16 == 8 + m % 8;
    }
  }

  /** Packing after unpacking gives a 64-bit board back unchanged. */
  lemma CompactExpand(b: Bits)
    requires forall m | m in b :: 0 <= m < 64
    ensures Compact(Expand(b)) == b
  {
    var e := Expand(b);
    forall m | 0 <= m < 64
      ensures m in Compact(e) <==> m in b
    {
      var i, j := m / 8, m % 8;
      PackDigits(i, j);
      var n := 16 * i + 8 + j;
      assert n in e <==> m in b;
    }
  }

  /** Unpacking after packing gives a lane board's on-board bits. */
  lemma ExpandCompact(bits: Bits)
    ensures Expand(Compact(bits)) == bits * MASK
  {
    var c := Compact(bits);
    forall n | n in MASK
      ensures n in Expand(c) <==> n in bits
    {
      var i, j := n / 16, n % 16 - 8;
      UnpackDigits(i, j);
      var m := 8 * i + j;
      assert n == 16 * i + 8 + j;
      assert m in c <==> n in bits;
    }
  }

  /** Square (j, i) as a 64-bit index and as a lane index. */
  lemma PackDigits(i: int, j: int)
    requires 0 <= i < 8 && 0 <= j < 8
    ensures var m := 8 * i + j; m / 8 == i && m % 8 == j
    ensures var n := 16 * i + 8 + j; n / 16 == i && n % 16 == 8 + j && n in MASK
  {
  }

  lemma UnpackDigits(i: int, j: int)
    requires 0 <= i < 8 && 0 <= j < 8
    ensures var m := 8 * i + j; 0 <= m < 64 && m / 8 == i && m % 8 == j
  {
  }

  /** A single square becomes the single bit 8y + x, so distinct squares
      stay distinct. */
  lemma CompactSquare(x: int, y: int)
    requires 0 <= x < 8 && 0 <= y < 8
    ensures Compact(Square(x, y)) == {8 * y + x}
  {
    var c := Compact(Square(x, y));
    forall m | 0 <= m < 64
      ensures m in c <==> m == 8 * y + x
    {
      if 16 * (m / 8) + 8 + m % 8 == Index(x, y) {
        assert m / 8 == y && m % 8 == x;
      }
    }
  }
}
