/** Fixed single-step candidates, as tried by the knight and the king (and,
    with their own rules, by the pawn).

    Each candidate board is passed to a `validate` closure that keeps it when it
    touches the board and misses a blocking set (`team` for the knight,
    `team | opp` for the king). */
module Steps {
  import opened Board
  import opened Pieces

  /** The `validate` test: on the board and free of the blocking set. */
  predicate Open(t: Bits, block: Bits)
  {
    OnBoard(t) && Disjoint(t, block)
  }

  /** The candidates that pass `validate`, in the order they are tried. */
  function Free(ts: seq<Bits>, block: Bits): (fs: seq<Bits>)
    ensures |fs| <= |ts|
    ensures forall t :: t in fs <==> t in ts && Open(t, block)
  {
    if ts == [] then []
    else (if Open(ts[0], block) then [ts[0]] else []) + Free(ts[1..], block)
  }

  lemma {:induction false} FreeAppend(a: seq<Bits>, b: seq<Bits>, block: Bits)
    ensures Free(a + b, block) == Free(a, block) + Free(b, block)
    decreases |a|
  {
    if a != [] {
      assert (a + b)[1..] == a[1..] + b;
      FreeAppend(a[1..], b, block);
    } else {
      assert a + b == b;
    }
  }

  /** The `validate` closure of `moves`: push origin | target when it passes. */
  method PushIfOpen(kind: Kind, origin: Bits, color: Color, t: Bits, block: Bits, moves: seq<Piece>)
    returns (res: seq<Piece>)
    ensures res == moves + AsMoves(kind, origin, color, Free([t], block))
  {
    res := moves;
    if !OnBoard(t) { return; }
    if !Disjoint(t, block) { return; }
    res := res + [Piece(kind, t + origin, color)];
  }

  /** The `validate` closure of `moves_as_bits` (inclusive) or
      `moves_as_bits_exclusive`: OR the target, with the origin when
      inclusive, into the accumulator when it passes. */
  method OrIfOpen(origin: Bits, t: Bits, block: Bits, acc: Bits, inclusive: bool)
    returns (res: Bits)
    ensures res == acc + Reach(origin, Free([t], block), inclusive)
  {
    res := acc;
    if !OnBoard(t) { return; }
    if !Disjoint(t, block) { return; }
    UnionSingle(t);
    res := res + (if inclusive then t + origin else t);
  }

  /** Bookkeeping for a chain of PushIfOpen calls. */
  lemma PushChain(kind: Kind, origin: Bits, color: Color, moves: seq<Piece>, a: seq<Bits>, b: seq<Bits>, block: Bits)
    ensures moves + AsMoves(kind, origin, color, Free(a, block)) + AsMoves(kind, origin, color, Free(b, block))
         == moves + AsMoves(kind, origin, color, Free(a + b, block))
  {
    FreeAppend(a, b, block);
    AsMovesAppend(kind, origin, color, Free(a, block), Free(b, block));
  }

  /** Bookkeeping for a chain of OrIfOpen calls. */
  lemma OrChain(origin: Bits, acc: Bits, a: seq<Bits>, b: seq<Bits>, block: Bits, inclusive: bool)
    ensures acc + Reach(origin, Free(a, block), inclusive) + Reach(origin, Free(b, block), inclusive)
         == acc + Reach(origin, Free(a + b, block), inclusive)
  {
    FreeAppend(a, b, block);
    ReachAppend(origin, Free(a, block), Free(b, block), inclusive);
  }

  /** When no candidate meets the origin, neither does the union of the kept
      ones. */
  lemma FreeAvoids(ts: seq<Bits>, block: Bits, origin: Bits)
    requires forall k | 0 <= k < |ts| :: Disjoint(ts[k], origin)
    ensures Disjoint(Union(Free(ts, block)), origin)
  {
    var fs := Free(ts, block);
    forall k | 0 <= k < |fs| ensures fs[k] * origin == {} {
      assert fs[k] in fs;
      var j :| 0 <= j < |ts| && ts[j] == fs[k];
      assert Disjoint(ts[j], origin);
    }
    UnionAvoids(fs, origin);
  }

  /** A bit is in the union of the kept candidates iff it is in a candidate
      that passes `validate`. */
  lemma FreeUnionMember(ts: seq<Bits>, block: Bits, m: int)
    ensures m in Union(Free(ts, block)) <==> exists k | 0 <= k < |ts| :: m in ts[k] && Open(ts[k], block)
  {
    var fs := Free(ts, block);
    UnionMember(fs, m);
    if m in Union(fs) {
      var j :| 0 <= j < |fs| && m in fs[j];
      assert fs[j] in fs;
      var k :| 0 <= k < |ts| && ts[k] == fs[j];
    }
    if exists k | 0 <= k < |ts| :: m in ts[k] && Open(ts[k], block) {
      var k :| 0 <= k < |ts| && m in ts[k] && Open(ts[k], block);
      assert ts[k] in ts;
      assert ts[k] in fs;
      var j :| 0 <= j < |fs| && fs[j] == ts[k];
    }
  }

  /** Each candidate in turn through the `validate` closure of `moves`. */
  method PushEach(kind: Kind, origin: Bits, color: Color, ts: seq<Bits>, block: Bits, moves: seq<Piece>)
    returns (res: seq<Piece>)
    ensures res == moves + AsMoves(kind, origin, color, Free(ts, block))
  {
    res := moves;
    for j := 0 to |ts|
      invariant res == moves + AsMoves(kind, origin, color, Free(ts[..j], block))
    {
      res := PushIfOpen(kind, origin, color, ts[j], block, res);
      PushChain(kind, origin, color, moves, ts[..j], [ts[j]], block);
      assert ts[..j + 1] == ts[..j] + [ts[j]];
    }
    assert ts[..|ts|] == ts;
  }

  /** Each candidate in turn through the `validate` closure of
      `moves_as_bits` (inclusive) or `moves_as_bits_exclusive`. */
  method OrEach(origin: Bits, ts: seq<Bits>, block: Bits, acc: Bits, inclusive: bool)
    returns (res: Bits)
    ensures res == acc + Reach(origin, Free(ts, block), inclusive)
  {
    res := acc;
    for j := 0 to |ts|
      invariant res == acc + Reach(origin, Free(ts[..j], block), inclusive)
    {
      var next := OrIfOpen(origin, ts[j], block, res, inclusive);
      OrStep(origin, acc, ts, j, block, inclusive, res, next);
      res := next;
    }
    assert ts[..|ts|] == ts;
  }

  /** One turn of the OrEach loop, as set bookkeeping. */
  lemma OrStep(origin: Bits, acc: Bits, ts: seq<Bits>, j: nat, block: Bits, inclusive: bool, res: Bits, next: Bits)
    requires j < |ts|
    requires res == acc + Reach(origin, Free(ts[..j], block), inclusive)
    requires next == res + Reach(origin, Free([ts[j]], block), inclusive)
    ensures next == acc + Reach(origin, Free(ts[..j + 1], block), inclusive)
  {
    OrChain(origin, acc, ts[..j], [ts[j]], block, inclusive);
    assert ts[..j + 1] == ts[..j] + [ts[j]];
  }
}
