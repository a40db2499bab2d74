/** `GameInfo` and its constructor (wasm/src/game/util/mod.rs): the boards
    of both sides and the mover's king, gathered in one pass over the
    pieces.  The attack and pinner maps start empty and are filled by
    `gen_moves`. */
module GameInfo {
  import opened Board
  import opened Pieces
  import opened Wrappers
  import opened Games

  /** The Rust `king: &Pieces` is a reference into the game; since neither
      is changed while the record lives, a copy of the piece stands for it. */
  datatype Info = Info(validMoves: int, king: Piece, check: bool,
                       teamPieces: Bits, oppPieces: Bits, oppAttacks: Bits,
                       oppDiagonal: Bits, oppStraight: Bits)

  /** The last king of the mover in list order (each one found overwrites
      the previous one). */
  function LastKing(ps: seq<Piece>, turn: Color): Option<Piece>
  {
    if ps == [] then None
    else
      var p := ps[|ps| - 1];
      if p.color == turn && p.kind == King then Some(p) else LastKing(ps[..|ps| - 1], turn)
  }

  /** What `GameInfo::init` returns, or its panic on `king.unwrap()`. */
  function InitOf(ps: seq<Piece>, turn: Color): Result<Info>
  {
    match LastKing(ps, turn)
    case None => Panic("called `Option::unwrap()` on a `None` value")
    case Some(k) => Ok(Info(0, k, false, Side(ps, turn), Side(ps, turn.Opposite()), {}, {}, {}))
  }

  /** `GameInfo::init`: reads the game and changes nothing in it. */
  method Init(game: Games.Game) returns (r: Result<Info>)
    ensures r == InitOf(game.pieces, game.turn)
  {
    var ps, turn := game.pieces, game.turn;
    var king: Option<Piece> := None;
    var team, opp := {}, {};
    for i := 0 to |ps|
      invariant king == LastKing(ps[..i], turn)
      invariant team == Side(ps[..i], turn) && opp == Side(ps[..i], turn.Opposite())
    {
      InitStep(ps, i, turn);
      if ps[i].color == turn {
        if ps[i].kind == King {
          king := Some(ps[i]);
        }
        team := team + ps[i].bits;
      } else {
        opp := opp + ps[i].bits;
      }
    }
    assert ps[..|ps|] == ps;
    if king.None? {
      return Panic("called `Option::unwrap()` on a `None` value");
    }
    r := Ok(Info(0, king.value, false, team, opp, {}, {}, {}));
  }

  lemma InitStep(ps: seq<Piece>, i: int, turn: Color)
    requires 0 <= i < |ps|
    ensures LastKing(ps[..i + 1], turn) == if ps[i].color == turn && ps[i].kind == King then Some(ps[i]) else LastKing(ps[..i], turn)
    ensures Side(ps[..i + 1], turn) == Side(ps[..i], turn) + (if ps[i].color == turn then ps[i].bits else {})
    ensures Side(ps[..i + 1], turn.Opposite()) == Side(ps[..i], turn.Opposite()) + (if ps[i].color != turn then ps[i].bits else {})
  {
    assert ps[..i + 1][..i] == ps[..i];
  }

  /** The last king found is a king of the mover taken from the list, and
      there is none exactly when the mover has no king. */
  lemma {:induction false} LastKingFound(ps: seq<Piece>, turn: Color)
    ensures LastKing(ps, turn).Some? ==> var k := LastKing(ps, turn).value;
      k in ps && k.kind == King && k.color == turn
    ensures LastKing(ps, turn).None? <==> forall p | p in ps :: !(p.kind == King && p.color == turn)
    decreases |ps|
  {
    if ps != [] {
      var init := ps[..|ps| - 1];
      LastKingFound(init, turn);
      assert ps == init + [ps[|ps| - 1]];
    }
  }

  /** `init` succeeds exactly when the mover has a king, and then `king` is
      one of the mover's kings, the two boards are the mover's and the
      opponent's pieces, and the maps, the check flag and the move count
      start at zero. */
  lemma InitShape(ps: seq<Piece>, turn: Color)
    ensures InitOf(ps, turn).Ok? <==> exists p | p in ps :: p.kind == King && p.color == turn
    ensures InitOf(ps, turn).Panic? <==> !InitOf(ps, turn).Ok?
    ensures InitOf(ps, turn).Ok? ==> var info := InitOf(ps, turn).value;
      && info.king in ps && info.king.kind == King && info.king.color == turn
      && info.validMoves == 0 && !info.check
      && info.oppAttacks == {} && info.oppDiagonal == {} && info.oppStraight == {}
  {
    LastKingFound(ps, turn);
  }

  /** The OR of every piece's bits. */
  function AllBits(ps: seq<Piece>): Bits
  {
    Union(BitsOf(ps))
  }

  /** The mover's board and the opponent's board together are every piece's
      bits, and a bit is on the mover's board iff a piece of the mover has
      it. */
  lemma {:induction false} SidesCover(ps: seq<Piece>, turn: Color)
    ensures Side(ps, turn) + Side(ps, turn.Opposite()) == AllBits(ps)
    ensures forall m :: m in Side(ps, turn) <==> exists p | p in ps :: p.color == turn && m in p.bits
    decreases |ps|
  {
    if ps != [] {
      var init, p := ps[..|ps| - 1], ps[|ps| - 1];
      SidesCover(init, turn);
      assert BitsOf(ps) == BitsOf(init) + [p.bits];
      UnionAppend(BitsOf(init), [p.bits]);
      UnionSingle(p.bits);
      assert ps == init + [p];
    }
  }
}
