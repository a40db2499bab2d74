/** The bishop (wasm/src/game/pieces/bishop.rs): four diagonal rays, shifting
    by (i << 4) + i and (i << 4) - i to either side. */
module Bishops {
  import opened Board
  import opened Pieces
  import opened Rays

  /** The rays in the order `moves` walks them. */
  const DIRS: seq<Dir> := [NorthWest, SouthEast, NorthEast, SouthWest]

  /** Every destination of the four rays, ray after ray. */
  function Destinations(b: Bits, opp: Bits, team: Bits): seq<Bits>
  {
    Sweep(b, DIRS, opp, team)
  }

  /** `Bishop::moves`: origin | destination in the bishop's colour for each
      destination of the four rays, which stop before the board edge or a
      teammate and after a capture. */
  method Moves(bits: Bits, color: Color, opp: Bits, team: Bits) returns (res: seq<Piece>)
    ensures res == AsMoves(Bishop, bits, color, Destinations(bits, opp, team))
  {
    res := PushRays(Bishop, bits, color, DIRS, opp, team, []);
  }

  /** `moves_as_bits_exclusive` (the `Piece` trait member used by `gen_moves`
      for opponent bishops): OR every destination, without the origin, into
      the accumulator. */
  method MovesAsBitsExclusive(bits: Bits, opp: Bits, team: Bits, acc: Bits) returns (res: Bits)
    ensures res == acc + Union(Destinations(bits, opp, team))
  {
    res := OrRays(bits, DIRS, opp, team, acc, false);
  }

  /** (x2, y2) lies on a diagonal through (x, y) and is not (x, y). */
  predicate Diagonal(x: int, y: int, x2: int, y2: int)
  {
    x2 != x && (x2 - x == y2 - y || x2 - x == y - y2)
  }

  /** From a square, a bishop reaches only squares on its diagonals (FIDE
      Laws, article 3.2), at most seven along each of the four. */
  lemma Geometry(x: int, y: int, opp: Bits, team: Bits)
    requires 0 <= x < 8 && 0 <= y < 8
    ensures |Destinations(Square(x, y), opp, team)| <= 28
    ensures forall t | t in Destinations(Square(x, y), opp, team) ::
      exists x2, y2 | 0 <= x2 < 8 && 0 <= y2 < 8 :: t == Square(x2, y2) && Diagonal(x, y, x2, y2)
  {
    SweepLength(Square(x, y), DIRS, opp, team);
    forall t | t in Destinations(Square(x, y), opp, team)
      ensures exists x2, y2 | 0 <= x2 < 8 && 0 <= y2 < 8 :: t == Square(x2, y2) && Diagonal(x, y, x2, y2)
    {
      SweepGeometry(x, y, DIRS, opp, team, t);
      var j, i :| 0 <= j < |DIRS| && 1 <= i <= 7 && OnLine(t, x, y, DIRS[j], i);
      DiagonalLine(t, x, y, DIRS[j], i);
    }
  }

  /** A square on the line of a diagonal direction is on a diagonal. */
  lemma DiagonalLine(t: Bits, x: int, y: int, d: Dir, i: int)
    requires d in DIRS && 1 <= i <= 7 && OnLine(t, x, y, d, i)
    ensures exists x2, y2 | 0 <= x2 < 8 && 0 <= y2 < 8 :: t == Square(x2, y2) && Diagonal(x, y, x2, y2)
  {
    var dx, dy := Delta(d).0, Delta(d).1;
    if dx == dy {
      assert i * dx == i * dy;
    } else {
      assert dx == -dy && (dx == 1 || dx == -1);
      assert i * dx == -(i * dy);
    }
    assert Diagonal(x, y, x + i * dx, y + i * dy);
  }

  /** The exclusive map of a bishop on one square never holds that square. */
  lemma ExclusiveAvoidsOrigin(b: Bits, opp: Bits, team: Bits)
    requires Single(b)
    ensures Disjoint(Union(Destinations(b, opp, team)), b)
  {
    SweepAvoidsOrigin(b, DIRS, opp, team);
  }
}
