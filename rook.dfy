/** The rook (wasm/src/game/pieces/rook.rs): four orthogonal rays, shifting
    by i << 4 and by i to either side, in three variants that share the ray
    code and differ only in what `validate` records. */
module Rooks {
  import opened Board
  import opened Pieces
  import opened Rays

  /** The rays in the order every variant walks them. */
  const DIRS: seq<Dir> := [North, South, West, East]

  /** Every destination of the four rays, ray after ray. */
  function Destinations(b: Bits, opp: Bits, team: Bits): seq<Bits>
  {
    Sweep(b, DIRS, opp, team)
  }

  /** `Rook::moves`: append origin | destination in the rook's colour for each
      destination; what was in `moves` stays in front. */
  method Moves(bits: Bits, color: Color, opp: Bits, team: Bits, moves: seq<Piece>) returns (res: seq<Piece>)
    ensures res == moves + AsMoves(Rook, bits, color, Destinations(bits, opp, team))
  {
    res := PushRays(Rook, bits, color, DIRS, opp, team, moves);
  }

  /** `Rook::moves_as_bits`: OR each destination together with the origin
      into the accumulator. */
  method MovesAsBits(bits: Bits, opp: Bits, team: Bits, acc: Bits) returns (res: Bits)
    ensures res == acc + Reach(bits, Destinations(bits, opp, team), true)
  {
    res := OrRays(bits, DIRS, opp, team, acc, true);
  }

  /** `Rook::moves_as_bits_exclusive`: OR each destination alone into the
      accumulator. */
  method MovesAsBitsExclusive(bits: Bits, opp: Bits, team: Bits, acc: Bits) returns (res: Bits)
    ensures res == acc + Union(Destinations(bits, opp, team))
  {
    res := OrRays(bits, DIRS, opp, team, acc, false);
  }

  /** (x2, y2) shares exactly one of file and rank with (x, y). */
  predicate Orthogonal(x: int, y: int, x2: int, y2: int)
  {
    (x2 == x) != (y2 == y)
  }

  /** From a square, a rook reaches only squares on its file or rank (FIDE
      Laws, article 3.3), at most seven in each of the four directions. */
  lemma Geometry(x: int, y: int, opp: Bits, team: Bits)
    requires 0 <= x < 8 && 0 <= y < 8
    ensures |Destinations(Square(x, y), opp, team)| <= 28
    ensures forall t | t in Destinations(Square(x, y), opp, team) ::
      exists x2, y2 | 0 <= x2 < 8 && 0 <= y2 < 8 :: t == Square(x2, y2) && Orthogonal(x, y, x2, y2)
  {
    SweepLength(Square(x, y), DIRS, opp, team);
    forall t | t in Destinations(Square(x, y), opp, team)
      ensures exists x2, y2 | 0 <= x2 < 8 && 0 <= y2 < 8 :: t == Square(x2, y2) && Orthogonal(x, y, x2, y2)
    {
      SweepGeometry(x, y, DIRS, opp, team, t);
      var j, i :| 0 <= j < |DIRS| && 1 <= i <= 7 && OnLine(t, x, y, DIRS[j], i);
      OrthogonalLine(t, x, y, DIRS[j], i);
    }
  }

  /** A square on the line of an orthogonal direction is on the same file or
      rank. */
  lemma OrthogonalLine(t: Bits, x: int, y: int, d: Dir, i: int)
    requires d in DIRS && 1 <= i <= 7 && OnLine(t, x, y, d, i)
    ensures exists x2, y2 | 0 <= x2 < 8 && 0 <= y2 < 8 :: t == Square(x2, y2) && Orthogonal(x, y, x2, y2)
  {
    var dx, dy := Delta(d).0, Delta(d).1;
    if dx == 0 {
      assert dy == 1 || dy == -1;
      assert i * dx == 0 && i * dy != 0;
    } else {
      assert dy == 0 && (dx == 1 || dx == -1);
      assert i * dy == 0 && i * dx != 0;
    }
    assert Orthogonal(x, y, x + i * dx, y + i * dy);
  }

  /** The three variants visit the same destinations: the bits of the moves
      `moves` appends OR to what `moves_as_bits` adds, which is what
      `moves_as_bits_exclusive` adds plus the origin whenever a destination
      exists. */
  lemma VariantsAgree(bits: Bits, color: Color, opp: Bits, team: Bits)
    ensures var ds := Destinations(bits, opp, team);
      && Union(BitsOf(AsMoves(Rook, bits, color, ds))) == Reach(bits, ds, true)
      && Reach(bits, ds, true) == Union(ds) + (if ds == [] then {} else bits)
  {
    AsMovesBits(Rook, bits, color, Destinations(bits, opp, team));
  }

  /** The exclusive map of a rook on one square never holds that square. */
  lemma ExclusiveAvoidsOrigin(b: Bits, opp: Bits, team: Bits)
    requires Single(b)
    ensures Disjoint(Union(Destinations(b, opp, team)), b)
  {
    SweepAvoidsOrigin(b, DIRS, opp, team);
  }
}
