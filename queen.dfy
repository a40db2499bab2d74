/** The queen (wasm/src/game/pieces/queen.rs): the rook's four orthogonal
    rays followed by the bishop's four diagonal rays, in three variants that
    share the ray code. */
module Queens {
  import opened Board
  import opened Pieces
  import opened Rays
  import Rooks
  import Bishops

  /** The rays in the order every variant walks them. */
  const DIRS: seq<Dir> := [North, South, West, East, NorthWest, SouthEast, NorthEast, SouthWest]

  /** Every destination of the eight rays, ray after ray. */
  function Destinations(b: Bits, opp: Bits, team: Bits): seq<Bits>
  {
    Sweep(b, DIRS, opp, team)
  }

  /** `Queen::moves`: append origin | destination in the queen's colour for
      each destination. */
  method Moves(bits: Bits, color: Color, opp: Bits, team: Bits, moves: seq<Piece>) returns (res: seq<Piece>)
    ensures res == moves + AsMoves(Queen, bits, color, Destinations(bits, opp, team))
  {
    res := PushRays(Queen, bits, color, DIRS, opp, team, moves);
  }

  /** `Queen::moves_as_bits`: OR each destination together with the origin
      into the accumulator. */
  method MovesAsBits(bits: Bits, opp: Bits, team: Bits, acc: Bits) returns (res: Bits)
    ensures res == acc + Reach(bits, Destinations(bits, opp, team), true)
  {
    res := OrRays(bits, DIRS, opp, team, acc, true);
  }

  /** `Queen::moves_as_bits_exclusive`: OR each destination alone into the
      accumulator. */
  method MovesAsBitsExclusive(bits: Bits, opp: Bits, team: Bits, acc: Bits) returns (res: Bits)
    ensures res == acc + Union(Destinations(bits, opp, team))
  {
    res := OrRays(bits, DIRS, opp, team, acc, false);
  }

  /** A queen moves as a rook and then as a bishop from the same square with
      the same blockers (FIDE Laws, article 3.4): its destinations are the
      rook's followed by the bishop's. */
  lemma RookThenBishop(b: Bits, opp: Bits, team: Bits)
    ensures Destinations(b, opp, team) == Rooks.Destinations(b, opp, team) + Bishops.Destinations(b, opp, team)
    ensures forall t :: t in Destinations(b, opp, team) <==>
      t in Rooks.Destinations(b, opp, team) || t in Bishops.Destinations(b, opp, team)
    ensures Union(Destinations(b, opp, team)) == Union(Rooks.Destinations(b, opp, team)) + Union(Bishops.Destinations(b, opp, team))
  {
    assert DIRS == Rooks.DIRS + Bishops.DIRS;
    SweepAppend(b, Rooks.DIRS, Bishops.DIRS, opp, team);
    UnionAppend(Rooks.Destinations(b, opp, team), Bishops.Destinations(b, opp, team));
  }

  /** From a square, a queen reaches only squares on its file, rank or
      diagonals, at most 56 of them. */
  lemma Geometry(x: int, y: int, opp: Bits, team: Bits)
    requires 0 <= x < 8 && 0 <= y < 8
    ensures |Destinations(Square(x, y), opp, team)| <= 56
    ensures forall t | t in Destinations(Square(x, y), opp, team) ::
      exists x2, y2 | 0 <= x2 < 8 && 0 <= y2 < 8 ::
        t == Square(x2, y2) && (Rooks.Orthogonal(x, y, x2, y2) || Bishops.Diagonal(x, y, x2, y2))
  {
    RookThenBishop(Square(x, y), opp, team);
    Rooks.Geometry(x, y, opp, team);
    Bishops.Geometry(x, y, opp, team);
  }

  /** The exclusive map of a queen on one square never holds that square. */
  lemma ExclusiveAvoidsOrigin(b: Bits, opp: Bits, team: Bits)
    requires Single(b)
    ensures Disjoint(Union(Destinations(b, opp, team)), b)
  {
    SweepAvoidsOrigin(b, DIRS, opp, team);
  }
}
