/** `gen_moves` (wasm/src/game/util/core.rs): one pass over the pieces that
    appends the mover's pseudo-legal non-king moves and ORs the opponent's
    attacked squares and sliding pieces into the `GameInfo` maps. */
module MoveGen {
  import opened Board
  import opened Pieces
  import opened GameInfo
  import Games
  import Dispatch
  import Knights
  import Bishops
  import Rooks
  import Queens
  import Kings
  import Pawns
  import Rays

  /** The blockers for opponent attacks: every piece except the mover's
      king, so that rays run on through the king's square. */
  function Blockers(info: Info): Bits
  {
    (info.teamPieces * Not(info.king.bits)) + info.oppPieces
  }

  /** What one opponent piece ORs into `opp_attacks`: a pawn its diagonal
      squares, a king its whole neighbourhood, any other piece the squares
      it reaches through `Blockers` with no teammates (so squares of
      defended pieces count as attacked). */
  function AttackOf(p: Piece, info: Info): Bits
  {
    if p.kind == Pawn then Union(Pawns.AttackTargets(p.bits, p.color))
    else if p.kind == King then Union(Dispatch.Destinations(p, {}, {}))
    else Union(Dispatch.Destinations(p, Blockers(info), {}))
  }

  /** The moves one piece of the mover appends: none for the king, pawns
      may capture on the en-passant square. */
  function OwnMovesOf(p: Piece, info: Info, enPassant: Bits): seq<Piece>
  {
    if p.kind == King then []
    else if p.kind == Pawn then Dispatch.MovesOf(p, info.oppPieces + enPassant, info.teamPieces)
    else Dispatch.MovesOf(p, info.oppPieces, info.teamPieces)
  }

  /** The moves appended for a list of pieces. */
  function Appended(ps: seq<Piece>, turn: Color, info: Info, enPassant: Bits): seq<Piece>
  {
    if ps == [] then []
    else
      var p := ps[|ps| - 1];
      Appended(ps[..|ps| - 1], turn, info, enPassant) + (if p.color == turn then OwnMovesOf(p, info, enPassant) else [])
  }

  /** The squares ORed into `opp_attacks` for a list of pieces. */
  function Attacked(ps: seq<Piece>, turn: Color, info: Info): Bits
  {
    if ps == [] then {}
    else
      var p := ps[|ps| - 1];
      Attacked(ps[..|ps| - 1], turn, info) + (if p.color != turn then AttackOf(p, info) else {})
  }

  /** The opponent pieces of the given kinds (`opp_diagonal`: bishops and
      queens, `opp_straight`: rooks and queens). */
  function Sliders(ps: seq<Piece>, turn: Color, k1: Kind, k2: Kind): Bits
  {
    if ps == [] then {}
    else
      var p := ps[|ps| - 1];
      Sliders(ps[..|ps| - 1], turn, k1, k2) + (if p.color != turn && (p.kind == k1 || p.kind == k2) then p.bits else {})
  }

  /** The record after `gen_moves`: only the three maps grow. */
  function After(info: Info, ps: seq<Piece>, turn: Color): Info
  {
    info.(oppAttacks := info.oppAttacks + Attacked(ps, turn, info),
          oppDiagonal := info.oppDiagonal + Sliders(ps, turn, Bishop, Queen),
          oppStraight := info.oppStraight + Sliders(ps, turn, Rook, Queen))
  }

  /** `gen_moves(info, game, moves)`. */
  method GenMoves(info: Info, game: Games.Game, moves: seq<Piece>) returns (info': Info, res: seq<Piece>)
    ensures info' == After(info, game.pieces, game.turn)
    ensures res == moves + Appended(game.pieces, game.turn, info, game.enPassant)
  {
    var ps, turn, ep := game.pieces, game.turn, game.enPassant;
    var attacks, diagonal, straight := info.oppAttacks, info.oppDiagonal, info.oppStraight;
    res := moves;
    for i := 0 to |ps|
      invariant attacks == info.oppAttacks + Attacked(ps[..i], turn, info)
      invariant diagonal == info.oppDiagonal + Sliders(ps[..i], turn, Bishop, Queen)
      invariant straight == info.oppStraight + Sliders(ps[..i], turn, Rook, Queen)
      invariant res == moves + Appended(ps[..i], turn, info, ep)
    {
      GenStep(ps, i, turn, info, ep);
      if ps[i].color == turn {
        res := Own(ps[i], info, ep, res);
        AppendAssoc(moves, Appended(ps[..i], turn, info, ep), OwnMovesOf(ps[i], info, ep));
      } else {
        attacks, diagonal, straight := Opponent(ps[i], info, attacks, diagonal, straight);
      }
    }
    assert ps[..|ps|] == ps;
    info' := info.(oppAttacks := attacks, oppDiagonal := diagonal, oppStraight := straight);
  }

  /** The mover's branch of the loop. */
  method Own(p: Piece, info: Info, enPassant: Bits, moves: seq<Piece>) returns (res: seq<Piece>)
    ensures res == moves + OwnMovesOf(p, info, enPassant)
  {
    match p.kind
    case King =>
      res := moves;
    case Pawn =>
      res := Dispatch.Moves(p, info.oppPieces + enPassant, info.teamPieces, moves);
    case _ =>
      res := Dispatch.Moves(p, info.oppPieces, info.teamPieces, moves);
  }

  /** The opponent's branch of the loop, on the three maps of `info`. */
  method Opponent(p: Piece, info: Info, attacks: Bits, diagonal: Bits, straight: Bits)
    returns (attacks': Bits, diagonal': Bits, straight': Bits)
    ensures attacks' == attacks + AttackOf(p, info)
    ensures diagonal' == diagonal + (if p.kind == Bishop || p.kind == Queen then p.bits else {})
    ensures straight' == straight + (if p.kind == Rook || p.kind == Queen then p.bits else {})
  {
    attacks', diagonal', straight' := attacks, diagonal, straight;
    match p.kind
    case Pawn =>
      attacks' := Pawns.AttacksInto(p.bits, p.color, attacks);
    case King =>
      attacks' := Kings.MovesAsBitsExclusive(p.bits, {}, {}, attacks);
    case Knight =>
      var opp := (info.teamPieces * Not(info.king.bits)) + info.oppPieces;
      attacks' := Knights.MovesAsBitsExclusive(p.bits, opp, {}, attacks);
    case Bishop =>
      var opp := (info.teamPieces * Not(info.king.bits)) + info.oppPieces;
      attacks' := Bishops.MovesAsBitsExclusive(p.bits, opp, {}, attacks);
      diagonal' := diagonal + p.bits;
    case Rook =>
      var opp := (info.teamPieces * Not(info.king.bits)) + info.oppPieces;
      attacks' := Rooks.MovesAsBitsExclusive(p.bits, opp, {}, attacks);
      straight' := straight + p.bits;
    case Queen =>
      var opp := (info.teamPieces * Not(info.king.bits)) + info.oppPieces;
      attacks' := Queens.MovesAsBitsExclusive(p.bits, opp, {}, attacks);
      diagonal' := diagonal + p.bits;
      straight' := straight + p.bits;
  }

  lemma GenStep(ps: seq<Piece>, i: int, turn: Color, info: Info, ep: Bits)
    requires 0 <= i < |ps|
    ensures var p := ps[i];
      && Appended(ps[..i + 1], turn, info, ep) == Appended(ps[..i], turn, info, ep) + (if p.color == turn then OwnMovesOf(p, info, ep) else [])
      && Attacked(ps[..i + 1], turn, info) == Attacked(ps[..i], turn, info) + (if p.color != turn then AttackOf(p, info) else {})
      && Sliders(ps[..i + 1], turn, Bishop, Queen) == Sliders(ps[..i], turn, Bishop, Queen) + (if p.color != turn && (p.kind == Bishop || p.kind == Queen) then p.bits else {})
      && Sliders(ps[..i + 1], turn, Rook, Queen) == Sliders(ps[..i], turn, Rook, Queen) + (if p.color != turn && (p.kind == Rook || p.kind == Queen) then p.bits else {})
  {
    assert ps[..i + 1][..i] == ps[..i];
  }

  /** The mover's king never stops an opponent ray: a ray that reaches the
      king's square goes on to the square behind it, so that square is
      attacked too and the king cannot step back along the ray. */
  lemma RayPassesKing(info: Info, origin: Bits, d: Rays.Dir, i: int)
    requires Disjoint(info.king.bits, info.oppPieces)
    requires 1 <= i < 7 && Rays.Target(origin, d, i) == info.king.bits
    requires i - 1 < |Rays.Ray(origin, d, Blockers(info), {})|
    requires OnBoard(Rays.Target(origin, d, i + 1))
    ensures Rays.Target(origin, d, i + 1) in Rays.Ray(origin, d, Blockers(info), {})
  {
    assert Disjoint(info.king.bits, Blockers(info));
    Rays.WalkPasses(Rays.Targets(origin, d), Blockers(info), {}, i - 1);
  }

  /** Every appended move is a non-king move of the side to move: it has the
      kind and colour of one of its pieces and covers that piece's square. */
  lemma {:induction false} AppendedOwn(ps: seq<Piece>, turn: Color, info: Info, ep: Bits, m: Piece)
    requires m in Appended(ps, turn, info, ep)
    ensures m.color == turn && m.kind != King
    ensures exists p | p in ps :: p.color == turn && p.kind == m.kind && p.bits <= m.bits
    decreases |ps|
  {
    var init, p := ps[..|ps| - 1], ps[|ps| - 1];
    if m in Appended(init, turn, info, ep) {
      AppendedOwn(init, turn, info, ep, m);
      var q :| q in init && q.color == turn && q.kind == m.kind && q.bits <= m.bits;
      assert q in ps;
    } else if p.kind == Pawn {
      Games.MoveFrom(p, info.oppPieces + ep, info.teamPieces, m);
    } else {
      Games.MoveFrom(p, info.oppPieces, info.teamPieces, m);
    }
  }
}
