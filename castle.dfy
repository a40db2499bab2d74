/** Castling helpers (wasm/src/game/util/castle.rs).

    The square sets are written out as bit positions: rank 1 is bits 8..15
    and rank 8 bits 120..127, file a first.  The castling rights are a `u16`
    flag set, kept as the set of its one-bits: `K_ID` is bit 0, `Q_ID` bit 4,
    `k_ID` bit 8 and `q_ID` bit 12. */
module Castle {
  import opened Board
  import opened Pieces

  /** King and rook home squares: e1 h1, a1 e1, e8 h8, a8 e8. */
  const K_SQUARES: Bits := {12, 15}
  const Q_SQUARES: Bits := {8, 12}
  const k_SQUARES: Bits := {124, 127}
  const q_SQUARES: Bits := {120, 124}

  /** The king's castling move: e1 g1, c1 e1, e8 g8, c8 e8. */
  const K_MOVE: Bits := {12, 14}
  const Q_MOVE: Bits := {10, 12}
  const k_MOVE: Bits := {124, 126}
  const q_MOVE: Bits := {122, 124}

  /** The rook's castling move: f1 h1, a1 d1, f8 h8, a8 d8. */
  const K_ROOK: Bits := {13, 15}
  const Q_ROOK: Bits := {8, 11}
  const k_ROOK: Bits := {125, 127}
  const q_ROOK: Bits := {120, 123}

  /** The castling move as it appears in a move list: e1..h1, a1..e1,
      e8..h8, a8..e8. */
  const K_ZONE: Bits := {12, 13, 14, 15}
  const Q_ZONE: Bits := {8, 9, 10, 11, 12}
  const k_ZONE: Bits := {124, 125, 126, 127}
  const q_ZONE: Bits := {120, 121, 122, 123, 124}

  /** The squares that must be empty: f1 g1, b1 c1 d1, f8 g8, b8 c8 d8. */
  const K_VALID: Bits := {13, 14}
  const Q_VALID: Bits := {9, 10, 11}
  const k_VALID: Bits := {125, 126}
  const q_VALID: Bits := {121, 122, 123}

  /** b1 and b8, which may be attacked during a queen-side castle. */
  const EDGE_CASE: Bits := {9, 121}

  /** The castling flags. */
  const K_ID: Bits := {0}
  const Q_ID: Bits := {4}
  const k_ID: Bits := {8}
  const q_ID: Bits := {12}

  /** The home squares are the king's and rooks' starting squares. */
  lemma HomeSquares()
    ensures K_SQUARES == Square(4, 0) + Square(7, 0) && Q_SQUARES == Square(0, 0) + Square(4, 0)
    ensures k_SQUARES == Square(4, 7) + Square(7, 7) && q_SQUARES == Square(0, 7) + Square(4, 7)
  {
  }

  /** The White move sets and the squares to keep empty name the squares
      their comments give, and every zone lies on the board. */
  lemma MoveSquares()
    ensures K_MOVE == Square(4, 0) + Square(6, 0) && Q_MOVE == Square(2, 0) + Square(4, 0)
    ensures K_ROOK == Square(5, 0) + Square(7, 0) && Q_ROOK == Square(0, 0) + Square(3, 0)
    ensures K_ZONE + Q_ZONE + k_ZONE + q_ZONE <= MASK
  {
  }

  lemma ValidSquares()
    ensures K_VALID == Square(5, 0) + Square(6, 0) && Q_VALID == Square(1, 0) + Square(2, 0) + Square(3, 0)
    ensures EDGE_CASE == Square(1, 0) + Square(1, 7)
  {
  }

  /** A castling zone is the king's move and the rook's move together; they
      share no square.  The queen-side zones also hold b1 or b8, the square
      the rook crosses. */
  lemma ZonesSplit()
    ensures K_ZONE == K_MOVE + K_ROOK && Disjoint(K_MOVE, K_ROOK)
    ensures k_ZONE == k_MOVE + k_ROOK && Disjoint(k_MOVE, k_ROOK)
    ensures Q_ZONE == Q_MOVE + Q_ROOK + Square(1, 0) && Disjoint(Q_MOVE, Q_ROOK)
    ensures q_ZONE == q_MOVE + q_ROOK + Square(1, 7) && Disjoint(q_MOVE, q_ROOK)
    ensures K_VALID <= K_ZONE && Q_VALID <= Q_ZONE && k_VALID <= k_ZONE && q_VALID <= q_ZONE
  {
  }

  /** The castling moves `add_castling` appends for one side. */
  function CastlingMoves(castling: Bits, obstacles: Bits, color: Color): seq<Piece>
  {
    if color == White then
      (if !Disjoint(castling, K_ID) && Disjoint(K_VALID, obstacles) then [FromBits(King, K_ZONE, White)] else [])
      + (if !Disjoint(castling, Q_ID) && Disjoint(Q_VALID, obstacles) then [FromBits(King, Q_ZONE, White)] else [])
    else
      (if !Disjoint(castling, k_ID) && Disjoint(k_VALID, obstacles) then [FromBits(King, k_ZONE, Black)] else [])
      + (if !Disjoint(castling, q_ID) && Disjoint(q_VALID, obstacles) then [FromBits(King, q_ZONE, Black)] else [])
  }

  /** `add_castling(castling, obstacles, color, moves)`. */
  method AddCastling(castling: Bits, obstacles: Bits, color: Color, moves: seq<Piece>) returns (res: seq<Piece>)
    ensures res == moves + CastlingMoves(castling, obstacles, color)
  {
    res := moves;
    if color == White {
      if castling * K_ID != {} && K_VALID * obstacles == {} {
        res := res + [FromBits(King, K_ZONE, White)];
      }
      if castling * Q_ID != {} && Q_VALID * obstacles == {} {
        res := res + [FromBits(King, Q_ZONE, White)];
      }
    } else {
      if castling * k_ID != {} && k_VALID * obstacles == {} {
        res := res + [FromBits(King, k_ZONE, Black)];
      }
      if castling * q_ID != {} && q_VALID * obstacles == {} {
        res := res + [FromBits(King, q_ZONE, Black)];
      }
    }
  }

  /** At most two moves are added, all king moves of the given colour, and
      each zone move is there exactly when its flag is set and its squares
      are free of obstacles. */
  lemma CastlingMovesShape(castling: Bits, obstacles: Bits, color: Color)
    ensures var ms := CastlingMoves(castling, obstacles, color);
      && |ms| <= 2
      && (forall m | m in ms :: m.kind == King && m.color == color)
    ensures color == White ==>
      && (FromBits(King, K_ZONE, White) in CastlingMoves(castling, obstacles, color) <==>
            !Disjoint(castling, K_ID) && Disjoint(K_VALID, obstacles))
      && (FromBits(King, Q_ZONE, White) in CastlingMoves(castling, obstacles, color) <==>
            !Disjoint(castling, Q_ID) && Disjoint(Q_VALID, obstacles))
    ensures color == Black ==>
      && (FromBits(King, k_ZONE, Black) in CastlingMoves(castling, obstacles, color) <==>
            !Disjoint(castling, k_ID) && Disjoint(k_VALID, obstacles))
      && (FromBits(King, q_ZONE, Black) in CastlingMoves(castling, obstacles, color) <==>
            !Disjoint(castling, q_ID) && Disjoint(q_VALID, obstacles))
  {
    assert K_ZONE != Q_ZONE && k_ZONE != q_ZONE by {
      assert 9 in Q_ZONE && 121 in q_ZONE;
    }
  }

  /** `try_castle(piece, king_move, rook_move)`: a king's bits are XORed
      with the king's move, a rook's with the rook's move, any other piece
      is left as it is. */
  function TryCastle(p: Piece, kingMove: Bits, rookMove: Bits): (q: Piece)
    ensures q.kind == p.kind && q.color == p.color
    ensures p.kind !in {King, Rook} ==> q == p
  {
    match p.kind
    case King => SetBits(p, Xor(p.bits, kingMove))
    case Rook => SetBits(p, Xor(p.bits, rookMove))
    case _ => p
  }

  /** Castling twice with the same moves puts the piece back. */
  lemma TryCastleTwice(p: Piece, kingMove: Bits, rookMove: Bits)
    ensures TryCastle(TryCastle(p, kingMove, rookMove), kingMove, rookMove) == p
  {
    if p.kind == King {
      assert Xor(Xor(p.bits, kingMove), kingMove) == p.bits;
    } else if p.kind == Rook {
      assert Xor(Xor(p.bits, rookMove), rookMove) == p.bits;
    }
  }

  /** On the home squares the four castles move the king and the rook where
      the Laws of Chess put them: e1 to g1 with h1 to f1, e1 to c1 with a1 to
      d1, and the same on rank 8. */
  lemma TryCastleHome()
    ensures TryCastle(New(King, 4, 0, White), K_MOVE, K_ROOK) == New(King, 6, 0, White)
    ensures TryCastle(New(Rook, 7, 0, White), K_MOVE, K_ROOK) == New(Rook, 5, 0, White)
    ensures TryCastle(New(King, 4, 0, White), Q_MOVE, Q_ROOK) == New(King, 2, 0, White)
    ensures TryCastle(New(Rook, 0, 0, White), Q_MOVE, Q_ROOK) == New(Rook, 3, 0, White)
    ensures TryCastle(New(King, 4, 7, Black), k_MOVE, k_ROOK) == New(King, 6, 7, Black)
    ensures TryCastle(New(Rook, 7, 7, Black), k_MOVE, k_ROOK) == New(Rook, 5, 7, Black)
    ensures TryCastle(New(King, 4, 7, Black), q_MOVE, q_ROOK) == New(King, 2, 7, Black)
    ensures TryCastle(New(Rook, 0, 7, Black), q_MOVE, q_ROOK) == New(Rook, 3, 7, Black)
  {
    assert Xor({12}, K_MOVE) == {14} && Xor({15}, K_ROOK) == {13};
    assert Xor({12}, Q_MOVE) == {10} && Xor({8}, Q_ROOK) == {11};
    assert Xor({124}, k_MOVE) == {126} && Xor({127}, k_ROOK) == {125};
    assert Xor({124}, q_MOVE) == {122} && Xor({120}, q_ROOK) == {123};
  }

  /** `fix_castle(castling, mv)` as written: a move touching e1 or h1 clears
      `K_ID`, else one touching a8 or e8 clears `q_ID`; then a move touching
      a1 or e1 clears `Q_ID`, else one touching e8 or h8 clears `k_ID`. */
  function FixCastle(castling: Bits, mv: Bits): (r: Bits)
    ensures r <= castling
  {
    var first :=
      if !Disjoint(mv, K_SQUARES) then castling - K_ID
      else if !Disjoint(mv, q_SQUARES) then castling - q_ID
      else castling;
    if !Disjoint(mv, Q_SQUARES) then first - Q_ID
    else if !Disjoint(mv, k_SQUARES) then first - k_ID
    else first
  }

  /** A move that touches no home square leaves the rights alone, and a
      second call with the same move changes nothing more. */
  lemma FixCastleStable(castling: Bits, mv: Bits)
    ensures Disjoint(mv, K_SQUARES + Q_SQUARES + k_SQUARES + q_SQUARES) ==> FixCastle(castling, mv) == castling
    ensures FixCastle(FixCastle(castling, mv), mv) == FixCastle(castling, mv)
  {
  }

  /** A move from or to e1 clears both White flags and keeps Black's; a
      move touching e8 alone clears both Black flags. */
  lemma FixCastleKingMoves(castling: Bits, mv: Bits)
    ensures Disjoint(mv, q_SQUARES + k_SQUARES) && 12 in mv ==>
      FixCastle(castling, mv) == castling - K_ID - Q_ID
    ensures Disjoint(mv, K_SQUARES + Q_SQUARES) && 124 in mv ==>
      FixCastle(castling, mv) == castling - q_ID - k_ID
  {
    if 12 in mv {
      assert 12 in mv * K_SQUARES && 12 in mv * Q_SQUARES;
    }
    if 124 in mv {
      assert 124 in mv * q_SQUARES && 124 in mv * k_SQUARES;
    }
  }

  /** The flag a pair of home squares guards. */
  function Guarded(castling: Bits, mv: Bits, squares: Bits, id: Bits): Bits
  {
    if Disjoint(mv, squares) then {} else castling * id
  }

  /** `fix_castle` as its home squares mean it: every flag whose king or
      rook square the move touches is cleared. */
  function FixCastleIntended(castling: Bits, mv: Bits): (r: Bits)
    ensures r <= castling
  {
    castling - Guarded(castling, mv, K_SQUARES, K_ID) - Guarded(castling, mv, Q_SQUARES, Q_ID)
      - Guarded(castling, mv, k_SQUARES, k_ID) - Guarded(castling, mv, q_SQUARES, q_ID)
  }

  /** The intended version clears a flag exactly when the move touches its
      squares, keeps the others, and agrees with the code on every move
      that stays on one side of the board. */
  lemma FixCastleIntendedFlags(castling: Bits, mv: Bits)
    ensures var r := FixCastleIntended(castling, mv);
      && (0 in r <==> 0 in castling && Disjoint(mv, K_SQUARES))
      && (4 in r <==> 4 in castling && Disjoint(mv, Q_SQUARES))
      && (8 in r <==> 8 in castling && Disjoint(mv, k_SQUARES))
      && (12 in r <==> 12 in castling && Disjoint(mv, q_SQUARES))
      && (forall f | f in castling && f !in {0, 4, 8, 12} :: f in r)
    ensures Disjoint(mv, k_SQUARES + q_SQUARES) || Disjoint(mv, K_SQUARES + Q_SQUARES) ==>
      FixCastle(castling, mv) == FixCastleIntended(castling, mv)
  {
  }

  /** The `else if` pairs assume one move never touches both e1/h1 and
      a8/e8: a bishop or queen going from h1 to a8 along the long diagonal
      captures the a8 rook, yet Black keeps its queen-side flag. */
  lemma FixCastleLongDiagonal()
    ensures var all := K_ID + Q_ID + k_ID + q_ID;
      var mv := Square(7, 0) + Square(0, 7);
      && 12 in FixCastle(all, mv)
      && 12 !in FixCastleIntended(all, mv)
  {
    var all := K_ID + Q_ID + k_ID + q_ID;
    var mv := Square(7, 0) + Square(0, 7);
    assert mv == {15, 120};
    assert 15 in mv * K_SQUARES;
    assert 120 in mv * q_SQUARES;
  }
}
