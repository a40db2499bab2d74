/** The king (wasm/src/game/pieces/king.rs): eight single steps, each
    rejected when it leaves the board or lands on `team | opp`.  Callers pass
    the opponent's attack map together with the king's teammates as `opp`, so
    the king never steps onto an attacked square. */
module Kings {
  import opened Board
  import opened Pieces
  import opened Steps

  /** The eight steps in the order tried: north, south, west, east,
      north-west, south-east, north-east, south-west. */
  function Targets(b: Bits): seq<Bits>
  {
    [Shl(b, 0x10), Shr(b, 0x10), Shl(b, 0x01), Shr(b, 0x01),
     Shl(b, 0x11), Shr(b, 0x11), Shl(b, 0x0f), Shr(b, 0x0f)]
  }

  /** The steps `validate` keeps: on the board and off `team | opp`. */
  function Destinations(b: Bits, opp: Bits, team: Bits): seq<Bits>
  {
    Free(Targets(b), team + opp)
  }

  /** The file and rank change of each step, in the same order. */
  const STEPS: seq<(int, int)> := [(0, 1), (0, -1), (1, 0), (-1, 0), (1, 1), (-1, -1), (-1, 1), (1, -1)]

  /** `King::moves`: append origin | destination in the king's colour for
      each kept step. */
  method Moves(bits: Bits, color: Color, opp: Bits, team: Bits, moves: seq<Piece>) returns (res: seq<Piece>)
    ensures res == moves + AsMoves(King, bits, color, Destinations(bits, opp, team))
  {
    res := PushEach(King, bits, color, Targets(bits), team + opp, moves);
  }

  /** `King::moves_as_bits`: OR each kept step together with the origin into
      the accumulator. */
  method MovesAsBits(bits: Bits, opp: Bits, team: Bits, acc: Bits) returns (res: Bits)
    ensures res == acc + Reach(bits, Destinations(bits, opp, team), true)
  {
    res := OrEach(bits, Targets(bits), team + opp, acc, true);
  }

  /** `King::moves_as_bits_exclusive`: OR each kept step alone into the
      accumulator. */
  method MovesAsBitsExclusive(bits: Bits, opp: Bits, team: Bits, acc: Bits) returns (res: Bits)
    ensures res == acc + Union(Destinations(bits, opp, team))
  {
    res := OrEach(bits, Targets(bits), team + opp, acc, false);
  }

  /** At most eight destinations, none of them on `team` or on `opp`: a king
      given the attacked squares as `opp` never steps into check (FIDE Laws,
      article 3.8). */
  lemma Safe(b: Bits, opp: Bits, team: Bits)
    ensures |Destinations(b, opp, team)| <= 8
    ensures forall t | t in Destinations(b, opp, team) :: OnBoard(t) && Disjoint(t, opp) && Disjoint(t, team)
  {
  }

  /** Seen from a square, the steps are the eight neighbouring squares: each
      is on the board exactly when the neighbour exists, and is then that
      square. */
  lemma Geometry(x: int, y: int)
    requires 0 <= x < 8 && 0 <= y < 8
    ensures |Targets(Square(x, y))| == |STEPS|
    ensures forall k | 0 <= k < |STEPS| ::
      var t, dx, dy := Targets(Square(x, y))[k], STEPS[k].0, STEPS[k].1;
      && (OnBoard(t) <==> 0 <= x + dx < 8 && 0 <= y + dy < 8)
      && (OnBoard(t) ==> t == Square(x + dx, y + dy))
  {
    var b := Square(x, y);
    forall k | 0 <= k < |STEPS|
      ensures var t, dx, dy := Targets(b)[k], STEPS[k].0, STEPS[k].1;
        && (OnBoard(t) <==> 0 <= x + dx < 8 && 0 <= y + dy < 8)
        && (OnBoard(t) ==> t == Square(x + dx, y + dy))
    {
      StepSquare(x, y, STEPS[k].0, STEPS[k].1);
      assert Targets(b)[k] == Offset(b, STEPS[k].0, STEPS[k].1);
    }
  }

  /** With nothing blocking, the exclusive map of a king on (x, y) is exactly
      the set of its on-board neighbours; in particular it never holds the
      king's own square. */
  lemma Neighbourhood(x: int, y: int)
    requires 0 <= x < 8 && 0 <= y < 8
    ensures forall m :: m in Union(Destinations(Square(x, y), {}, {})) <==>
      exists k | 0 <= k < |STEPS| :: 0 <= x + STEPS[k].0 < 8 && 0 <= y + STEPS[k].1 < 8 && m == Index(x + STEPS[k].0, y + STEPS[k].1)
    ensures Index(x, y) !in Union(Destinations(Square(x, y), {}, {}))
  {
    forall m
      ensures m in Union(Destinations(Square(x, y), {}, {})) <==>
        exists k | 0 <= k < |STEPS| :: 0 <= x + STEPS[k].0 < 8 && 0 <= y + STEPS[k].1 < 8 && m == Index(x + STEPS[k].0, y + STEPS[k].1)
    {
      NeighbourMember(x, y, m);
    }
  }

  lemma NeighbourMember(x: int, y: int, m: int)
    requires 0 <= x < 8 && 0 <= y < 8
    ensures m in Union(Destinations(Square(x, y), {}, {})) <==>
      exists k | 0 <= k < |STEPS| :: 0 <= x + STEPS[k].0 < 8 && 0 <= y + STEPS[k].1 < 8 && m == Index(x + STEPS[k].0, y + STEPS[k].1)
  {
    var ts := Targets(Square(x, y));
    Geometry(x, y);
    FreeUnionMember(ts, {} + {}, m);
    if exists k | 0 <= k < |ts| :: m in ts[k] && Open(ts[k], {} + {}) {
      var k :| 0 <= k < |ts| && m in ts[k] && Open(ts[k], {} + {});
      assert ts[k] == Square(x + STEPS[k].0, y + STEPS[k].1);
    }
    if exists k | 0 <= k < |STEPS| :: 0 <= x + STEPS[k].0 < 8 && 0 <= y + STEPS[k].1 < 8 && m == Index(x + STEPS[k].0, y + STEPS[k].1) {
      var k :| 0 <= k < |STEPS| && 0 <= x + STEPS[k].0 < 8 && 0 <= y + STEPS[k].1 < 8 && m == Index(x + STEPS[k].0, y + STEPS[k].1);
      assert m in ts[k] && Open(ts[k], {} + {});
    }
  }

  /** The exclusive map of a king on one square never holds that square. */
  lemma ExclusiveAvoidsOrigin(b: Bits, opp: Bits, team: Bits)
    requires Single(b)
    ensures Disjoint(Union(Destinations(b, opp, team)), b)
  {
    ShiftAvoids(b, 0x10);
    ShiftAvoids(b, 0x01);
    ShiftAvoids(b, 0x11);
    ShiftAvoids(b, 0x0f);
    FreeAvoids(Targets(b), team + opp, b);
  }
}
