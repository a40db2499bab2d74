/** Square names (wasm/src/game/notation/algebraic.rs): a square is written
    as its file letter a-h and its rank digit 1-8, as in section 8.2.3.1 of
    the PGN Standard.

    The arithmetic of `algebraic_to_bits` is taken with overflow checks off
    (a release build for a 32-bit `usize`): rank digit 0 gives `usize::MAX`,
    and a shift of 128 or more is reduced modulo 128. */
module Notation {
  import opened Board
  import opened Wrappers
  import opened Text

  const FILES: string := "abcdefgh"

  /** The lowest bit at `from` or above that is on the board.  Bit order is
      rank first, then file, so this is the lowest rank, then the lowest
      file. */
  function Lowest(bits: Bits, from: int): (r: Option<int>)
    requires 0 <= from <= 128
    ensures r.Some? ==> from <= r.value < 128 && r.value in bits && r.value in MASK
    ensures forall m | from <= m < (if r.Some? then r.value else 128) :: !(m in bits && m in MASK)
    decreases 128 - from
  {
    if from == 128 then None
    else if from in bits && from in MASK then Some(from)
    else Lowest(bits, from + 1)
  }

  /** The name of an on-board bit. */
  function Name(n: int): (s: string)
    requires n in MASK
    ensures |s| == 2 && s[0] in FILES && '1' <= s[1] <= '8'
  {
    [FILES[n % 16 - 8], DigitChar(n / 16 + 1)]
  }

  /** What `bits_to_algebraic` returns. */
  function AlgebraicOf(bits: Bits): Result<string>
  {
    match Lowest(bits, 0)
    case None => Err("Notation Error: unknown notation")
    case Some(n) => Ok(Name(n))
  }

  /** `bits_to_algebraic(bits)`: the lanes are searched from rank 1 up, each
      on-board lane file by file. */
  method BitsToAlgebraic(bits: Bits) returns (r: Result<string>)
    ensures r == AlgebraicOf(bits)
  {
    for lane := 0 to 8
      invariant forall m | 0 <= m < 16 * lane :: !(m in bits && m in MASK)
    {
      LaneBits(bits, lane);
      // `bits >> i & 0xff00 != 0` with i = 16 * lane
      if bits * Lane(lane) != {} {
        for j := 0 to 8
          invariant forall m | 16 * lane <= m < 16 * lane + 8 + j :: !(m in bits && m in MASK)
        {
          if Index(j, lane) in bits {
            LowestIs(bits, 0, Index(j, lane));
            NameOf(j, lane);
            return Ok([FILES[j], DigitChar(lane + 1)]);
          }
        }
      }
    }
    LowestNone(bits);
    return Err("Notation Error: unknown notation");
  }

  /** The on-board bits of a lane are those of `Lane`, and the others of the
      lane are off the board. */
  lemma LaneBits(bits: Bits, lane: int)
    requires 0 <= lane < 8
    ensures forall m | 16 * lane <= m < 16 * lane + 8 :: m !in MASK
    ensures bits * Lane(lane) == {} ==> forall m | 16 * lane <= m < 16 * lane + 16 :: !(m in bits && m in MASK)
  {
    forall m | 16 * lane <= m < 16 * lane + 16
      ensures m % 16 == m - 16 * lane
    {
      assert m == 16 * lane + (m - 16 * lane);
    }
    if bits * Lane(lane) == {} {
      forall m | 16 * lane + 8 <= m < 16 * lane + 16
        ensures m !in bits
      {
        assert m in Lane(lane) && m !in bits * Lane(lane);
      }
    }
  }

  lemma {:induction false} LowestIs(bits: Bits, from: int, n: int)
    requires 0 <= from <= n < 128 && n in bits && n in MASK
    requires forall m | from <= m < n :: !(m in bits && m in MASK)
    ensures Lowest(bits, from) == Some(n)
    decreases n - from
  {
    if from < n {
      LowestIs(bits, from + 1, n);
    }
  }

  lemma LowestNone(bits: Bits)
    requires forall m | 0 <= m < 128 :: !(m in bits && m in MASK)
    ensures Lowest(bits, 0) == None
  {
  }

  /** The search fails exactly when no bit is on the board; otherwise it
      names an on-board bit of `bits` below which there is none. */
  lemma AlgebraicOfShape(bits: Bits)
    ensures AlgebraicOf(bits).Ok? <==> OnBoard(bits)
    ensures AlgebraicOf(bits).Ok? ==> exists x, y | 0 <= x < 8 && 0 <= y < 8 ::
      && Index(x, y) in bits
      && AlgebraicOf(bits).value == [FILES[x], DigitChar(y + 1)]
      && forall m | m in bits * MASK :: Index(x, y) <= m
    ensures !AlgebraicOf(bits).Ok? ==> AlgebraicOf(bits) == Err("Notation Error: unknown notation")
  {
    var r := Lowest(bits, 0);
    if r.Some? {
      var n := r.value;
      assert n in bits * MASK;
      var x, y := n % 16 - 8, n / 16;
      assert Index(x, y) == n;
    } else {
      assert forall m | m in MASK :: 0 <= m < 128;
      assert bits * MASK == {};
    }
  }

  /** What `algebraic_to_bits` returns: the first character must be a file
      letter and the second a digit; slicing past the end of the string or
      inside a multi-byte character panics. */
  function AlgebraicToBits(s: string): (r: Result<Bits>)
  {
    if |s| == 0 || !Ascii(s[0]) then Panic("byte index 1 is out of bounds or not a char boundary")
    else if s[0] !in FILES then Err("Invalid Notation")
    else if |s| < 2 || !Ascii(s[1]) then Panic("byte index 2 is out of bounds or not a char boundary")
    else if !IsDigit(s[1]) then Err("Invalid Notation")
    else Ok({(16 * (DigitValue(s[1]) - 1) + 8 + FileOf(s[0])) % 128})
  }

  /** The position of a file letter in "abcdefgh". */
  function FileOf(c: char): (x: int)
    requires c in FILES
    ensures 0 <= x < 8 && FILES[x] == c
  {
    if c == 'a' then 0 else if c == 'b' then 1 else if c == 'c' then 2 else if c == 'd' then 3
    else if c == 'e' then 4 else if c == 'f' then 5 else if c == 'g' then 6 else 7
  }

  /** A file letter and a rank digit 1-8 name one square; the rank digits 0
      and 9 wrap round to rank 8 and rank 1. */
  lemma AlgebraicToBitsSquare(s: string)
    requires |s| >= 2 && s[0] in FILES && IsDigit(s[1])
    ensures '1' <= s[1] <= '8' ==> AlgebraicToBits(s) == Ok(Square(FileOf(s[0]), DigitValue(s[1]) - 1))
    ensures s[1] == '0' ==> AlgebraicToBits(s) == Ok(Square(FileOf(s[0]), 7))
    ensures s[1] == '9' ==> AlgebraicToBits(s) == Ok(Square(FileOf(s[0]), 0))
  {
  }

  /** The name of a square is its file letter and rank digit. */
  lemma NameOf(x: int, y: int)
    requires 0 <= x < 8 && 0 <= y < 8
    ensures Name(Index(x, y)) == [FILES[x], DigitChar(y + 1)]
    ensures FileOf(FILES[x]) == x
    ensures (16 * (DigitValue(DigitChar(y + 1)) - 1) + 8 + x) % 128 == Index(x, y)
  {
  }

  /** Naming the square a name gives returns the name, for every file
      letter and rank digit 1-8 (with anything after them dropped). */
  lemma NameRoundTrip(s: string)
    requires |s| >= 2 && s[0] in FILES && '1' <= s[1] <= '8'
    ensures AlgebraicToBits(s).Ok? && AlgebraicOf(AlgebraicToBits(s).value) == Ok(s[..2])
  {
    var x, y := FileOf(s[0]), DigitValue(s[1]) - 1;
    NameOf(x, y);
    assert DigitChar(y + 1) == s[1];
    var n := Index(x, y);
    assert AlgebraicToBits(s).value == {n};
    LowestIs({n}, 0, n);
    assert s[..2] == [s[0], s[1]];
  }

  /** Reading back the name of a single on-board square gives the square. */
  lemma SquareRoundTrip(x: int, y: int)
    requires 0 <= x < 8 && 0 <= y < 8
    ensures AlgebraicOf(Square(x, y)).Ok?
    ensures AlgebraicToBits(AlgebraicOf(Square(x, y)).value) == Ok(Square(x, y))
  {
    var n := Index(x, y);
    LowestIs({n}, 0, n);
    NameOf(x, y);
  }
}
