/** The knight (wasm/src/game/pieces/knight.rs): eight fixed jumps, each
    tried as a left and a right shift by one of the "magic numbers" 0x21,
    0x1f, 0x12 and 0x0e. */
module Knights {
  import opened Board
  import opened Pieces
  import opened Steps

  /** `test_move(x)`: the knight shifted left, then right, by x. */
  function Jump(b: Bits, x: int): seq<Bits>
    requires 0 <= x < 128
  {
    [Shl(b, x), Shr(b, x)]
  }

  /** The eight candidates in the order they are tried. */
  function Targets(b: Bits): seq<Bits>
  {
    Jump(b, 0x21) + Jump(b, 0x1f) + Jump(b, 0x12) + Jump(b, 0x0e)
  }

  /** The candidates `validate` keeps: on the board and off every team square. */
  function Destinations(b: Bits, team: Bits): seq<Bits>
  {
    Free(Targets(b), team)
  }

  /** The file and rank change of each candidate, in the same order:
      0x21 = two ranks and one file, 0x1f = two ranks less one file,
      0x12 = one rank and two files, 0x0e = one rank less two files. */
  const JUMPS: seq<(int, int)> := [(1, 2), (-1, -2), (-1, 2), (1, -2), (2, 1), (-2, -1), (-2, 1), (2, -1)]

  /** `test_move`: validate both shifts by x, in order. */
  method TestMove(bits: Bits, color: Color, x: int, team: Bits, moves: seq<Piece>) returns (res: seq<Piece>)
    requires 0 <= x < 128
    ensures res == moves + AsMoves(Knight, bits, color, Free(Jump(bits, x), team))
  {
    res := PushIfOpen(Knight, bits, color, Shl(bits, x), team, moves);
    res := PushIfOpen(Knight, bits, color, Shr(bits, x), team, res);
    PushChain(Knight, bits, color, moves, [Shl(bits, x)], [Shr(bits, x)], team);
  }

  /** `Knight::moves`: one move, origin | destination in the knight's colour,
      for every candidate on the board and off the team (`Destinations`); the
      `opp` argument plays no part, so captures and quiet moves are emitted
      alike. */
  method Moves(bits: Bits, color: Color, opp: Bits, team: Bits) returns (res: seq<Piece>)
    ensures res == AsMoves(Knight, bits, color, Destinations(bits, team))
  {
    res := TestMove(bits, color, 0x21, team, []);
    res := TestMove(bits, color, 0x1f, team, res);
    res := TestMove(bits, color, 0x12, team, res);
    res := TestMove(bits, color, 0x0e, team, res);
    Chain(bits, color, team);
  }

  /** The four `test_move` calls together emit `Destinations`. */
  lemma Chain(bits: Bits, color: Color, team: Bits)
    ensures [] + AsMoves(Knight, bits, color, Free(Jump(bits, 0x21), team))
               + AsMoves(Knight, bits, color, Free(Jump(bits, 0x1f), team))
               + AsMoves(Knight, bits, color, Free(Jump(bits, 0x12), team))
               + AsMoves(Knight, bits, color, Free(Jump(bits, 0x0e), team))
            == AsMoves(Knight, bits, color, Destinations(bits, team))
  {
    var j1, j2, j3, j4 := Jump(bits, 0x21), Jump(bits, 0x1f), Jump(bits, 0x12), Jump(bits, 0x0e);
    PushChain(Knight, bits, color, [], j1, j2, team);
    PushChain(Knight, bits, color, [], j1 + j2, j3, team);
    PushChain(Knight, bits, color, [], j1 + j2 + j3, j4, team);
  }

  /** `test_move` with a bits `validate`: OR each kept shift by x into the
      accumulator. */
  method TestBits(bits: Bits, x: int, team: Bits, acc: Bits) returns (res: Bits)
    requires 0 <= x < 128
    ensures res == acc + Reach(bits, Free(Jump(bits, x), team), false)
  {
    res := OrIfOpen(bits, Shl(bits, x), team, acc, false);
    res := OrIfOpen(bits, Shr(bits, x), team, res, false);
    OrChain(bits, acc, [Shl(bits, x)], [Shr(bits, x)], team, false);
  }

  /** `moves_as_bits_exclusive` (the `Piece` trait member used by `gen_moves`
      for opponent knights): OR every destination, without the origin, into
      the accumulator. */
  method MovesAsBitsExclusive(bits: Bits, opp: Bits, team: Bits, acc: Bits) returns (res: Bits)
    ensures res == acc + Union(Destinations(bits, team))
  {
    res := TestBits(bits, 0x21, team, acc);
    res := TestBits(bits, 0x1f, team, res);
    res := TestBits(bits, 0x12, team, res);
    res := TestBits(bits, 0x0e, team, res);
    BitsChain(bits, team, acc);
  }

  /** The four bits `test_move` calls together OR in `Destinations`. */
  lemma BitsChain(bits: Bits, team: Bits, acc: Bits)
    ensures acc + Reach(bits, Free(Jump(bits, 0x21), team), false)
                + Reach(bits, Free(Jump(bits, 0x1f), team), false)
                + Reach(bits, Free(Jump(bits, 0x12), team), false)
                + Reach(bits, Free(Jump(bits, 0x0e), team), false)
            == acc + Union(Destinations(bits, team))
  {
    var j1, j2, j3, j4 := Jump(bits, 0x21), Jump(bits, 0x1f), Jump(bits, 0x12), Jump(bits, 0x0e);
    OrChain(bits, acc, j1, j2, team, false);
    OrChain(bits, acc, j1 + j2, j3, team, false);
    OrChain(bits, acc, j1 + j2 + j3, j4, team, false);
  }

  /** The exclusive map of a knight on one square never holds that square. */
  lemma ExclusiveAvoidsOrigin(b: Bits, team: Bits)
    requires Single(b)
    ensures Disjoint(Union(Destinations(b, team)), b)
  {
    ShiftAvoids(b, 0x21);
    ShiftAvoids(b, 0x1f);
    ShiftAvoids(b, 0x12);
    ShiftAvoids(b, 0x0e);
    FreeAvoids(Targets(b), team, b);
  }

  /** Every destination is one of the candidates, on the board and off the
      team, and there are at most eight of them. */
  lemma DestinationsKept(b: Bits, team: Bits)
    ensures |Destinations(b, team)| <= 8
    ensures forall k | 0 <= k < |Destinations(b, team)| ::
      var t := Destinations(b, team)[k]; t in Targets(b) && OnBoard(t) && Disjoint(t, team)
  {
    var ds := Destinations(b, team);
    forall k | 0 <= k < |ds| ensures ds[k] in Targets(b) && OnBoard(ds[k]) && Disjoint(ds[k], team) {
      assert ds[k] in ds;
    }
  }

  /** Seen from a square, the candidates are the eight L-shaped jumps of
      the FIDE Laws (article 3.6): each is on the board exactly when its
      destination square exists, and it is then that square. */
  lemma Geometry(x: int, y: int)
    requires 0 <= x < 8 && 0 <= y < 8
    ensures |Targets(Square(x, y))| == |JUMPS|
    ensures forall k | 0 <= k < |JUMPS| ::
      var t, dx, dy := Targets(Square(x, y))[k], JUMPS[k].0, JUMPS[k].1;
      && (OnBoard(t) <==> 0 <= x + dx < 8 && 0 <= y + dy < 8)
      && (OnBoard(t) ==> t == Square(x + dx, y + dy))
  {
    var b := Square(x, y);
    forall k | 0 <= k < |JUMPS|
      ensures var t, dx, dy := Targets(b)[k], JUMPS[k].0, JUMPS[k].1;
        && (OnBoard(t) <==> 0 <= x + dx < 8 && 0 <= y + dy < 8)
        && (OnBoard(t) ==> t == Square(x + dx, y + dy))
    {
      StepSquare(x, y, JUMPS[k].0, JUMPS[k].1);
      assert Targets(b)[k] == Offset(b, JUMPS[k].0, JUMPS[k].1);
    }
  }
}
