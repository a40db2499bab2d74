/** Pawn promotion (wasm/src/game/util/promote.rs).

    A promotion to a rook, knight or bishop is told apart from the queen
    promotion by an indicator bit on the far side's back rank: a1, b1 or c1
    for White, a8, b8 or c8 for Black.  A move with no indicator promotes to
    a queen. */
module Promote {
  import opened Board
  import opened Pieces

  const WHITE_ROOK: Bits := {8}
  const WHITE_KNIGHT: Bits := {9}
  const WHITE_BISHOP: Bits := {10}
  /** Rank 8, `0xff00 << 0x70`. */
  const WHITE_BACK_RANK: Bits := Span(120, 128)

  const BLACK_ROOK: Bits := {120}
  const BLACK_KNIGHT: Bits := {121}
  const BLACK_BISHOP: Bits := {122}
  /** Rank 1, `0xff00`. */
  const BLACK_BACK_RANK: Bits := Span(8, 16)

  /** White's indicators lie on rank 1 and Black's on rank 8, on files a, b
      and c, and the two back ranks are disjoint. */
  lemma IndicatorSquares()
    ensures WHITE_ROOK == Square(0, 0) && WHITE_KNIGHT == Square(1, 0) && WHITE_BISHOP == Square(2, 0)
    ensures BLACK_ROOK == Square(0, 7) && BLACK_KNIGHT == Square(1, 7) && BLACK_BISHOP == Square(2, 7)
    ensures WHITE_ROOK + WHITE_KNIGHT + WHITE_BISHOP <= BLACK_BACK_RANK
    ensures BLACK_ROOK + BLACK_KNIGHT + BLACK_BISHOP <= WHITE_BACK_RANK
    ensures Disjoint(WHITE_BACK_RANK, BLACK_BACK_RANK)
  {
  }

  /** The moves `add_promotions` appends for a move `mv`. */
  function Promotions(mv: Piece): seq<Piece>
  {
    if mv.color == White then
      if Disjoint(mv.bits, WHITE_BACK_RANK) then []
      else [FromBits(Pawn, mv.bits + WHITE_ROOK, White), FromBits(Pawn, mv.bits + WHITE_KNIGHT, White),
            FromBits(Pawn, mv.bits + WHITE_BISHOP, White)]
    else
      if Disjoint(mv.bits, BLACK_BACK_RANK) then []
      else [FromBits(Pawn, mv.bits + BLACK_ROOK, Black), FromBits(Pawn, mv.bits + BLACK_KNIGHT, Black),
            FromBits(Pawn, mv.bits + BLACK_BISHOP, Black)]
  }

  /** `add_promotions(mv, moves)`. */
  method AddPromotions(mv: Piece, moves: seq<Piece>) returns (res: seq<Piece>)
    ensures res == moves + Promotions(mv)
  {
    res := moves;
    if mv.color == White {
      if mv.bits * WHITE_BACK_RANK == {} {
        return;
      }
      res := res + [FromBits(Pawn, mv.bits + WHITE_ROOK, White)];
      res := res + [FromBits(Pawn, mv.bits + WHITE_KNIGHT, White)];
      res := res + [FromBits(Pawn, mv.bits + WHITE_BISHOP, White)];
    } else {
      if mv.bits * BLACK_BACK_RANK == {} {
        return;
      }
      res := res + [FromBits(Pawn, mv.bits + BLACK_ROOK, Black)];
      res := res + [FromBits(Pawn, mv.bits + BLACK_KNIGHT, Black)];
      res := res + [FromBits(Pawn, mv.bits + BLACK_BISHOP, Black)];
    }
  }

  /** The rank a move of this colour promotes on, and the indicators it
      carries. */
  function PromotionRank(c: Color): Bits
  {
    if c == White then WHITE_BACK_RANK else BLACK_BACK_RANK
  }

  function Indicators(c: Color): seq<Bits>
  {
    if c == White then [WHITE_ROOK, WHITE_KNIGHT, WHITE_BISHOP] else [BLACK_ROOK, BLACK_KNIGHT, BLACK_BISHOP]
  }

  /** Nothing is added unless the move reaches its promotion rank; then
      exactly three pawn moves of the mover's colour are added, the move
      with the rook, knight and bishop indicator; when the move carries no
      indicator yet, the three differ. */
  lemma PromotionsShape(mv: Piece)
    ensures var ps := Promotions(mv);
      && (ps == [] <==> Disjoint(mv.bits, PromotionRank(mv.color)))
      && (ps != [] ==> |ps| == 3 && forall k | 0 <= k < 3 ::
            ps[k] == Piece(Pawn, mv.bits + Indicators(mv.color)[k], mv.color))
    ensures Promotions(mv) != [] && Disjoint(mv.bits, Union(Indicators(mv.color))) ==>
      var ps := Promotions(mv);
      ps[0] != ps[1] && ps[1] != ps[2] && ps[0] != ps[2]
  {
    var ind := Indicators(mv.color);
    var ps := Promotions(mv);
    if ps != [] && Disjoint(mv.bits, Union(ind)) {
      UnionCovers(ind, 0);
      UnionCovers(ind, 1);
      UnionCovers(ind, 2);
      var r, n, b := if mv.color == White then 8 else 120, if mv.color == White then 9 else 121,
        if mv.color == White then 10 else 122;
      assert ind == [{r}, {n}, {b}];
      assert r !in mv.bits && n !in mv.bits && b !in mv.bits;
      assert r in ps[0].bits && r !in ps[1].bits && r !in ps[2].bits;
      assert n in ps[1].bits && n !in ps[2].bits;
    }
  }

  /** `try_promote(piece, mv, turn)`: a move touching neither back rank
      leaves the piece as it is; otherwise the indicator on the far rank
      picks a bishop, knight or rook, and anything else a queen, with the
      old piece's bits and the mover's colour. */
  function TryPromote(p: Piece, mv: Bits, turn: Color): (q: Piece)
    ensures Disjoint(mv, BLACK_BACK_RANK + WHITE_BACK_RANK) ==> q == p
    ensures !Disjoint(mv, BLACK_BACK_RANK + WHITE_BACK_RANK) ==> q.bits == p.bits && q.color == turn && q.kind != Pawn && q.kind != King
  {
    if mv * (BLACK_BACK_RANK + WHITE_BACK_RANK) == {} then p
    else if turn == White then
      var id := mv * BLACK_BACK_RANK;
      if id == WHITE_BISHOP then FromBits(Bishop, p.bits, White)
      else if id == WHITE_KNIGHT then FromBits(Knight, p.bits, White)
      else if id == WHITE_ROOK then FromBits(Rook, p.bits, White)
      else FromBits(Queen, p.bits, White)
    else
      var id := mv * WHITE_BACK_RANK;
      if id == BLACK_BISHOP then FromBits(Bishop, p.bits, Black)
      else if id == BLACK_KNIGHT then FromBits(Knight, p.bits, Black)
      else if id == BLACK_ROOK then FromBits(Rook, p.bits, Black)
      else FromBits(Queen, p.bits, Black)
  }

  /** `try_promote` reads back what `add_promotions` wrote: for a pawn move
      that reaches its promotion rank and has no square on the other back
      rank, the plain move promotes to a queen and the three added moves to
      a rook, a knight and a bishop. */
  lemma PromotionRoundTrip(p: Piece, mv: Piece)
    requires !Disjoint(mv.bits, PromotionRank(mv.color))
    requires Disjoint(mv.bits, PromotionRank(mv.color.Opposite()))
    ensures TryPromote(p, mv.bits, mv.color).kind == Queen
    ensures var ps := Promotions(mv);
      && TryPromote(p, ps[0].bits, mv.color).kind == Rook
      && TryPromote(p, ps[1].bits, mv.color).kind == Knight
      && TryPromote(p, ps[2].bits, mv.color).kind == Bishop
  {
    if mv.color == White {
      WhiteReads(p, mv.bits);
    } else {
      BlackReads(p, mv.bits);
    }
  }

  lemma WhiteReads(p: Piece, bits: Bits)
    requires !Disjoint(bits, WHITE_BACK_RANK) && Disjoint(bits, BLACK_BACK_RANK)
    ensures TryPromote(p, bits, White).kind == Queen
    ensures TryPromote(p, bits + WHITE_ROOK, White).kind == Rook
    ensures TryPromote(p, bits + WHITE_KNIGHT, White).kind == Knight
    ensures TryPromote(p, bits + WHITE_BISHOP, White).kind == Bishop
  {
    assert WHITE_ROOK != WHITE_BISHOP && WHITE_ROOK != WHITE_KNIGHT && WHITE_KNIGHT != WHITE_BISHOP by {
      assert 8 in WHITE_ROOK && 9 in WHITE_KNIGHT && 10 in WHITE_BISHOP;
    }
    IndicatorRead(bits, BLACK_BACK_RANK, WHITE_ROOK);
    IndicatorRead(bits, BLACK_BACK_RANK, WHITE_KNIGHT);
    IndicatorRead(bits, BLACK_BACK_RANK, WHITE_BISHOP);
  }

  lemma BlackReads(p: Piece, bits: Bits)
    requires !Disjoint(bits, BLACK_BACK_RANK) && Disjoint(bits, WHITE_BACK_RANK)
    ensures TryPromote(p, bits, Black).kind == Queen
    ensures TryPromote(p, bits + BLACK_ROOK, Black).kind == Rook
    ensures TryPromote(p, bits + BLACK_KNIGHT, Black).kind == Knight
    ensures TryPromote(p, bits + BLACK_BISHOP, Black).kind == Bishop
  {
    assert BLACK_ROOK != BLACK_BISHOP && BLACK_ROOK != BLACK_KNIGHT && BLACK_KNIGHT != BLACK_BISHOP by {
      assert 120 in BLACK_ROOK && 121 in BLACK_KNIGHT && 122 in BLACK_BISHOP;
    }
    IndicatorRead(bits, WHITE_BACK_RANK, BLACK_ROOK);
    IndicatorRead(bits, WHITE_BACK_RANK, BLACK_KNIGHT);
    IndicatorRead(bits, WHITE_BACK_RANK, BLACK_BISHOP);
  }

  /** Adding an indicator to a move off the far rank leaves exactly the
      indicator on that rank. */
  lemma IndicatorRead(bits: Bits, rank: Bits, ind: Bits)
    requires Disjoint(bits, rank) && ind <= rank
    ensures (bits + ind) * rank == ind
  {
    assert (bits + ind) * rank == bits * rank + ind * rank;
    assert ind * rank == ind;
  }
}
