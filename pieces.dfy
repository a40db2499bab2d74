/** Pieces and colours (wasm/src/game/pieces/mod.rs).

    The Rust `Pieces` enum wraps one struct per kind, each holding `bits` and
    `color`; here the kind is a tag of one datatype.  A piece on the board has
    one bit set; a piece that stands for a move carries the origin and the
    destination bits (and, for castling and promotion, a few more). */
module Pieces {
  import opened Board

  datatype Color = White | Black
  {
    function Opposite(): (c: Color)
      ensures c != this
    {
      if White? then Black else White
    }
  }

  datatype Kind = Pawn | Bishop | Knight | Rook | Queen | King

  datatype Piece = Piece(kind: Kind, bits: Bits, color: Color)

  /** `Kind::new(x, y, color)`: the piece alone on file x, rank y. */
  function New(kind: Kind, x: int, y: int, color: Color): (p: Piece)
    requires 0 <= x < 8 && 0 <= y < 8
    ensures p.kind == kind && p.color == color
    ensures p.bits == {16 * y + 8 + x} && OnBoard(p.bits)
  {
    SquareOnBoard(x, y);
    Piece(kind, Square(x, y), color)
  }

  /** `Kind::from_bits(bits, color)`: the bits are stored as given. */
  function FromBits(kind: Kind, bits: Bits, color: Color): (p: Piece)
    ensures p.kind == kind && p.bits == bits && p.color == color
  {
    Piece(kind, bits, color)
  }

  /** `set_bits`: the same piece with new bits. */
  function SetBits(p: Piece, bits: Bits): (q: Piece)
    ensures q.kind == p.kind && q.color == p.color && q.bits == bits
  {
    p.(bits := bits)
  }

  lemma AppendAssoc(a: seq<Piece>, b: seq<Piece>, c: seq<Piece>)
    ensures (a + b) + c == a + (b + c)
  {
  }

  /** The OR of a list of boards. */
  function Union(bs: seq<Bits>): Bits
  {
    if bs == [] then {} else Union(bs[..|bs| - 1]) + bs[|bs| - 1]
  }

  lemma UnionSingle(t: Bits)
    ensures Union([t]) == t
  {
    assert [t][..0] == [];
  }

  lemma {:induction false} UnionAppend(a: seq<Bits>, b: seq<Bits>)
    ensures Union(a + b) == Union(a) + Union(b)
    decreases |b|
  {
    if b == [] {
      assert a + b == a;
    } else {
      assert (a + b)[..|a + b| - 1] == a + b[..|b| - 1];
      UnionAppend(a, b[..|b| - 1]);
    }
  }

  /** A bit is in the union iff it is in one of the boards. */
  lemma {:induction false} UnionMember(bs: seq<Bits>, m: int)
    ensures m in Union(bs) <==> exists k | 0 <= k < |bs| :: m in bs[k]
    decreases |bs|
  {
    if bs != [] {
      var init := bs[..|bs| - 1];
      UnionMember(init, m);
      if m in Union(init) {
        var k :| 0 <= k < |init| && m in init[k];
        assert bs[k] == init[k];
      }
      if exists k | 0 <= k < |bs| :: m in bs[k] {
        var k :| 0 <= k < |bs| && m in bs[k];
        if k < |bs| - 1 {
          assert init[k] == bs[k];
        }
      }
    }
  }

  /** Each board of a list is part of their union. */
  lemma UnionCovers(bs: seq<Bits>, k: int)
    requires 0 <= k < |bs|
    ensures bs[k] <= Union(bs)
  {
    forall m | m in bs[k] ensures m in Union(bs) {
      UnionMember(bs, m);
    }
  }

  /** When no board of a list meets `origin`, neither does their union. */
  lemma UnionAvoids(bs: seq<Bits>, origin: Bits)
    requires forall k | 0 <= k < |bs| :: bs[k] * origin == {}
    ensures Union(bs) * origin == {}
  {
    forall m | m in origin ensures m !in Union(bs) {
      UnionMember(bs, m);
      forall k | 0 <= k < |bs| ensures m !in bs[k] {
        assert m !in bs[k] * origin;
      }
    }
  }

  /** The moves a `moves` closure pushes for the destinations `ts`:
      origin | destination, with the mover's kind and colour. */
  function AsMoves(kind: Kind, origin: Bits, color: Color, ts: seq<Bits>): (ms: seq<Piece>)
    ensures |ms| == |ts|
    ensures forall k | 0 <= k < |ts| :: ms[k] == Piece(kind, ts[k] + origin, color)
  {
    seq(|ts|, k requires 0 <= k < |ts| => Piece(kind, ts[k] + origin, color))
  }

  lemma AsMovesAppend(kind: Kind, origin: Bits, color: Color, a: seq<Bits>, b: seq<Bits>)
    ensures AsMoves(kind, origin, color, a + b) == AsMoves(kind, origin, color, a) + AsMoves(kind, origin, color, b)
  {
  }

  /** What a bits accumulator gains from the destinations `ds` of a piece
      standing on `origin`: every destination, and the origin itself when the
      accumulator is inclusive and there is at least one destination. */
  function Reach(origin: Bits, ds: seq<Bits>, inclusive: bool): Bits
  {
    Union(ds) + (if inclusive && ds != [] then origin else {})
  }

  lemma ReachAppend(origin: Bits, a: seq<Bits>, b: seq<Bits>, inclusive: bool)
    ensures Reach(origin, a + b, inclusive) == Reach(origin, a, inclusive) + Reach(origin, b, inclusive)
  {
    UnionAppend(a, b);
  }

  /** The bits of each move in a list. */
  function BitsOf(ms: seq<Piece>): (bs: seq<Bits>)
    ensures |bs| == |ms| && forall k | 0 <= k < |ms| :: bs[k] == ms[k].bits
  {
    seq(|ms|, k requires 0 <= k < |ms| => ms[k].bits)
  }

  /** `moves` and `moves_as_bits` agree: OR-ing the bits of the pushed moves
      gives what the inclusive accumulator gains. */
  lemma {:induction false} AsMovesBits(kind: Kind, origin: Bits, color: Color, ds: seq<Bits>)
    ensures Union(BitsOf(AsMoves(kind, origin, color, ds))) == Reach(origin, ds, true)
    decreases |ds|
  {
    var bs := BitsOf(AsMoves(kind, origin, color, ds));
    if ds != [] {
      var init := ds[..|ds| - 1];
      AsMovesBits(kind, origin, color, init);
      assert bs[..|bs| - 1] == BitsOf(AsMoves(kind, origin, color, init));
      assert bs[|bs| - 1] == ds[|ds| - 1] + origin;
      UnionAppend(init, [ds[|ds| - 1]]);
      UnionSingle(ds[|ds| - 1]);
      assert init + [ds[|ds| - 1]] == ds;
    }
  }

  /** Each move's bits XOR the mover's own bits: `m.bits() ^ piece.bits()`. */
  function XorBits(ms: seq<Piece>, origin: Bits): (bs: seq<Bits>)
    ensures |bs| == |ms| && forall k | 0 <= k < |ms| :: bs[k] == Xor(ms[k].bits, origin)
  {
    seq(|ms|, k requires 0 <= k < |ms| => Xor(ms[k].bits, origin))
  }

  /** When no destination meets the origin, XOR-ing the origin out of each
      move gives back exactly its destination. */
  lemma AsMovesXor(kind: Kind, origin: Bits, color: Color, ds: seq<Bits>)
    requires Disjoint(Union(ds), origin)
    ensures XorBits(AsMoves(kind, origin, color, ds), origin) == ds
  {
    var xs := XorBits(AsMoves(kind, origin, color, ds), origin);
    forall k | 0 <= k < |ds| ensures xs[k] == ds[k] {
      forall m | m in ds[k] ensures m !in origin {
        UnionMember(ds, m);
        assert m in Union(ds) && m !in Union(ds) * origin;
      }
    }
  }
}
