/** Pins and check evasion (wasm/src/game/util/check.rs).

    `filter_pins` casts a bishop and a rook from the mover's king square and
    rejects a move that would leave a pinner looking at the king.
    `gen_check_moves` finds the opponent pieces that reach the king, and for a
    single attacker keeps the mover's non-king moves that land on the line
    between king and attacker (or on the attacker). */
module Check {
  import opened Board
  import opened Pieces
  import opened Wrappers
  import opened GameInfo
  import Games
  import Dispatch
  import Bishops
  import Rooks
  import Knights

  /** Some move of the list meets `test`. */
  predicate Hits(ms: seq<Piece>, test: Bits)
  {
    exists k | 0 <= k < |ms| :: !Disjoint(ms[k].bits, test)
  }

  /** The king's bishop moves towards the remaining diagonal pinners. */
  function DiagonalMoves(info: Info, turn: Color, mv: Bits): seq<Piece>
  {
    var test := info.oppDiagonal * Not(mv);
    AsMoves(Bishop, info.king.bits, turn, Bishops.Destinations(info.king.bits, test, Xor(info.teamPieces, mv)))
  }

  /** The king's rook moves towards the remaining straight pinners. */
  function StraightMoves(info: Info, turn: Color, mv: Bits): seq<Piece>
  {
    var test := info.oppStraight * Not(mv);
    AsMoves(Rook, info.king.bits, turn, Rooks.Destinations(info.king.bits, test, Xor(info.teamPieces, mv)))
  }

  /** The answer of `filter_pins`: true when neither cast reaches a pinner
      that `mv` does not capture. */
  predicate Unpinned(info: Info, turn: Color, mv: Bits)
  {
    && !Hits(DiagonalMoves(info, turn, mv), info.oppDiagonal * Not(mv))
    && !Hits(StraightMoves(info, turn, mv), info.oppStraight * Not(mv))
  }

  /** `filter_pins(info, turn, mv)`. */
  method FilterPins(info: Info, turn: Color, mv: Bits) returns (ok: bool)
    ensures ok == Unpinned(info, turn, mv)
  {
    var testDiagonal := info.oppDiagonal * Not(mv);
    var testStraight := info.oppStraight * Not(mv);
    var diagonal := Bishops.Moves(info.king.bits, turn, testDiagonal, Xor(info.teamPieces, mv));
    ok := Misses(diagonal, testDiagonal);
    if !ok {
      return;
    }
    var straight := Rooks.Moves(info.king.bits, turn, testStraight, Xor(info.teamPieces, mv), []);
    assert straight == StraightMoves(info, turn, mv);
    ok := Misses(straight, testStraight);
  }

  /** `for m in ms { if m.bits() & test != 0 { return false; } } true`. */
  method Misses(ms: seq<Piece>, test: Bits) returns (ok: bool)
    ensures ok == !Hits(ms, test)
  {
    for k := 0 to |ms|
      invariant forall j | 0 <= j < k :: Disjoint(ms[j].bits, test)
    {
      if ms[k].bits * test != {} {
        return false;
      }
    }
    return true;
  }

  /** When the king's square holds no pinner, `filter_pins` answers on the
      squares alone: a move is rejected iff the bishop cast or the rook cast
      from the king, with the mover's pieces after the move as blockers,
      reaches a pinner the move does not capture. */
  lemma UnpinnedSquares(info: Info, turn: Color, mv: Bits)
    requires Disjoint(info.king.bits, info.oppDiagonal + info.oppStraight)
    ensures var k, team := info.king.bits, Xor(info.teamPieces, mv);
      var testD, testS := info.oppDiagonal * Not(mv), info.oppStraight * Not(mv);
      Unpinned(info, turn, mv) <==>
        && Disjoint(Union(Bishops.Destinations(k, testD, team)), testD)
        && Disjoint(Union(Rooks.Destinations(k, testS, team)), testS)
  {
    var k, team := info.king.bits, Xor(info.teamPieces, mv);
    var testD, testS := info.oppDiagonal * Not(mv), info.oppStraight * Not(mv);
    HitsSquares(Bishop, k, turn, Bishops.Destinations(k, testD, team), testD);
    HitsSquares(Rook, k, turn, Rooks.Destinations(k, testS, team), testS);
  }

  /** A move origin | t meets `test` iff t does, when the origin does not. */
  lemma HitsSquares(kind: Kind, origin: Bits, color: Color, ds: seq<Bits>, test: Bits)
    requires Disjoint(origin, test)
    ensures Hits(AsMoves(kind, origin, color, ds), test) <==> !Disjoint(Union(ds), test)
  {
    var ms := AsMoves(kind, origin, color, ds);
    forall k | 0 <= k < |ms| ensures ms[k].bits * test == ds[k] * test {
      assert ms[k].bits == ds[k] + origin;
      forall m | m in test ensures m in ms[k].bits <==> m in ds[k] {
        assert m !in origin * test;
      }
    }
    if Hits(ms, test) {
      var k :| 0 <= k < |ms| && !Disjoint(ms[k].bits, test);
      UnionCovers(ds, k);
    } else {
      UnionAvoids(ds, test);
    }
  }

  /** A move that captures every pinner is never rejected. */
  lemma CapturingPinnersPasses(info: Info, turn: Color, mv: Bits)
    requires info.oppDiagonal <= mv && info.oppStraight <= mv
    ensures Unpinned(info, turn, mv)
  {
    assert info.oppDiagonal * Not(mv) == {} && info.oppStraight * Not(mv) == {};
  }

  /** The OR of the bits of the moves `piece.moves(opp, team)` gives. */
  function Covered(p: Piece, opp: Bits, team: Bits): Bits
  {
    Union(BitsOf(Dispatch.MovesOf(p, opp, team)))
  }

  /** What an opponent piece reaches, seen from its own side: the mover's
      pieces are capturable and the opponent's are teammates. */
  function ReachOf(p: Piece, info: Info): Bits
  {
    Covered(p, info.teamPieces, info.oppPieces)
  }

  predicate Attacks(p: Piece, turn: Color, info: Info)
  {
    p.color != turn && !Disjoint(ReachOf(p, info), info.king.bits)
  }

  /** The opponent pieces that reach the king, in list order. */
  function Attackers(ps: seq<Piece>, turn: Color, info: Info): (as_: seq<Piece>)
  {
    if ps == [] then []
    else
      var p := ps[|ps| - 1];
      Attackers(ps[..|ps| - 1], turn, info) + (if Attacks(p, turn, info) then [p] else [])
  }

  /** `attack`: what the last attacker reaches, or nothing. */
  function Attack(ps: seq<Piece>, turn: Color, info: Info): Bits
  {
    if ps == [] then {}
    else
      var p := ps[|ps| - 1];
      if Attacks(p, turn, info) then ReachOf(p, info) else Attack(ps[..|ps| - 1], turn, info)
  }

  /** `calc_rays`: the squares a piece cast from the king covers, restricted
      to what the attacker reaches. */
  function CalcRays(kind: Kind, info: Info, turn: Color, attack: Bits): Bits
  {
    Covered(Piece(kind, info.king.bits, turn), info.oppPieces, info.teamPieces) * attack
  }

  /** The line of attack for a single attacker: a bishop cast for a pawn or
      bishop, a knight cast for a knight, a rook cast for a rook; for a queen
      the bishop cast when it covers both king and queen, else the rook
      cast.  A king attacker panics. */
  function RaysFor(a: Piece, info: Info, turn: Color, attack: Bits): Result<Bits>
  {
    match a.kind
    case Pawn => Ok(CalcRays(Bishop, info, turn, attack))
    case Bishop => Ok(CalcRays(Bishop, info, turn, attack))
    case Knight => Ok(CalcRays(Knight, info, turn, attack))
    case Rook => Ok(CalcRays(Rook, info, turn, attack))
    case Queen =>
      var rays := CalcRays(Bishop, info, turn, attack);
      if rays * (info.king.bits + a.bits) != info.king.bits + a.bits then Ok(CalcRays(Rook, info, turn, attack))
      else Ok(rays)
    case King => Panic("King should not be checking another king")
  }

  /** The moves of `ms` whose bits meet `rays`, in order. */
  function Blocking(ms: seq<Piece>, rays: Bits): seq<Piece>
  {
    if ms == [] then []
    else Blocking(ms[..|ms| - 1], rays) + (if !Disjoint(ms[|ms| - 1].bits, rays) then [ms[|ms| - 1]] else [])
  }

  /** The mover's non-king moves that meet `rays`, piece by piece. */
  function Evasions(ps: seq<Piece>, turn: Color, info: Info, rays: Bits): seq<Piece>
  {
    if ps == [] then []
    else
      var p := ps[|ps| - 1];
      Evasions(ps[..|ps| - 1], turn, info, rays)
        + (if p.color == turn && p.kind != King then Blocking(Dispatch.MovesOf(p, info.oppPieces, info.teamPieces), rays) else [])
  }

  /** The result of `gen_check_moves`: no moves for a double check, a panic
      for no attacker (`attackers[0]` out of bounds) or a king attacker. */
  function CheckMovesOf(ps: seq<Piece>, turn: Color, info: Info): Result<seq<Piece>>
  {
    var attackers := Attackers(ps, turn, info);
    if |attackers| > 1 then Ok([])
    else if attackers == [] then Panic("index out of bounds: the len is 0 but the index is 0")
    else
      match RaysFor(attackers[0], info, turn, Attack(ps, turn, info))
      case Ok(rays) => Ok(Evasions(ps, turn, info, rays))
      case Err(e) => Err(e)
      case Panic(why) => Panic(why)
  }

  /** `gen_check_moves(info, game)`: reads both and changes neither. */
  method GenCheckMoves(info: Info, game: Games.Game) returns (r: Result<seq<Piece>>)
    ensures r == CheckMovesOf(game.pieces, game.turn, info)
  {
    var ps, turn := game.pieces, game.turn;
    var attackers, attack := FindAttackers(ps, turn, info);
    if |attackers| > 1 {
      return Ok([]);
    }
    if attackers == [] {
      return Panic("index out of bounds: the len is 0 but the index is 0");
    }
    var a := attackers[0];
    var rays;
    match a.kind {
      case Pawn =>
        rays := Rays(Bishop, info, turn, attack);
      case Bishop =>
        rays := Rays(Bishop, info, turn, attack);
      case Knight =>
        rays := Rays(Knight, info, turn, attack);
      case Rook =>
        rays := Rays(Rook, info, turn, attack);
      case Queen =>
        rays := Rays(Bishop, info, turn, attack);
        if rays * (info.king.bits + a.bits) != info.king.bits + a.bits {
          rays := Rays(Rook, info, turn, attack);
        }
      case King =>
        return Panic("King should not be checking another king");
    }
    var moves := CollectEvasions(ps, turn, info, rays);
    r := Ok(moves);
  }

  /** The first loop of `gen_check_moves`. */
  method FindAttackers(ps: seq<Piece>, turn: Color, info: Info) returns (attackers: seq<Piece>, attack: Bits)
    ensures attackers == Attackers(ps, turn, info) && attack == Attack(ps, turn, info)
  {
    attackers, attack := [], {};
    for i := 0 to |ps|
      invariant attackers == Attackers(ps[..i], turn, info) && attack == Attack(ps[..i], turn, info)
    {
      assert ps[..i + 1][..i] == ps[..i];
      var p := ps[i];
      if p.color != turn {
        var ms := Dispatch.Moves(p, info.teamPieces, info.oppPieces, []);
        assert ms == Dispatch.MovesOf(p, info.teamPieces, info.oppPieces);
        var bits := Games.OrBits(ms, {});
        if bits * info.king.bits != {} {
          attackers := attackers + [p];
          attack := bits;
        }
      }
    }
    assert ps[..|ps|] == ps;
  }

  /** The `calc_rays` closure. */
  method Rays(kind: Kind, info: Info, turn: Color, attack: Bits) returns (rays: Bits)
    ensures rays == CalcRays(kind, info, turn, attack)
  {
    var ms := Dispatch.Moves(Piece(kind, info.king.bits, turn), info.oppPieces, info.teamPieces, []);
    assert ms == Dispatch.MovesOf(Piece(kind, info.king.bits, turn), info.oppPieces, info.teamPieces);
    var kingRays := Games.OrBits(ms, {});
    rays := kingRays * attack;
  }

  /** The last loop of `gen_check_moves`. */
  method CollectEvasions(ps: seq<Piece>, turn: Color, info: Info, rays: Bits) returns (moves: seq<Piece>)
    ensures moves == Evasions(ps, turn, info, rays)
  {
    moves := [];
    for i := 0 to |ps|
      invariant moves == Evasions(ps[..i], turn, info, rays)
    {
      assert ps[..i + 1][..i] == ps[..i];
      var p := ps[i];
      if p.color == turn && p.kind != King {
        var ms := Dispatch.Moves(p, info.oppPieces, info.teamPieces, []);
        assert ms == Dispatch.MovesOf(p, info.oppPieces, info.teamPieces);
        moves := KeepBlocking(ms, rays, moves);
        AppendAssoc(Evasions(ps[..i], turn, info, rays), Blocking(ms, rays), []);
      }
    }
    assert ps[..|ps|] == ps;
  }

  /** `for mv in ms { if mv.bits() & rays != 0 { moves.push(mv) } }`. */
  method KeepBlocking(ms: seq<Piece>, rays: Bits, moves: seq<Piece>) returns (res: seq<Piece>)
    ensures res == moves + Blocking(ms, rays)
  {
    res := moves;
    for j := 0 to |ms|
      invariant res == moves + Blocking(ms[..j], rays)
    {
      assert ms[..j + 1][..j] == ms[..j];
      if ms[j].bits * rays != {} {
        AppendAssoc(moves, Blocking(ms[..j], rays), [ms[j]]);
        res := res + [ms[j]];
      }
    }
    assert ms[..|ms|] == ms;
  }

  /** A double check leaves no evasion but a king move, and a check by one
      piece that is not a king never panics. */
  lemma CheckOutcome(ps: seq<Piece>, turn: Color, info: Info)
    ensures |Attackers(ps, turn, info)| > 1 ==> CheckMovesOf(ps, turn, info) == Ok([])
    ensures CheckMovesOf(ps, turn, info).Panic? <==>
      Attackers(ps, turn, info) == [] || (|Attackers(ps, turn, info)| == 1 && Attackers(ps, turn, info)[0].kind == King)
    ensures !CheckMovesOf(ps, turn, info).Err?
  {
  }

  lemma {:induction false} BlockingMeets(ms: seq<Piece>, rays: Bits, m: Piece)
    requires m in Blocking(ms, rays)
    ensures m in ms && !Disjoint(m.bits, rays)
    decreases |ms|
  {
    var init := ms[..|ms| - 1];
    if m in Blocking(init, rays) {
      BlockingMeets(init, rays, m);
    }
  }

  /** Every evasion is a non-king move of the side to move that meets the
      line of attack, made by one of its pieces. */
  lemma {:induction false} EvasionsOwn(ps: seq<Piece>, turn: Color, info: Info, rays: Bits, m: Piece)
    requires m in Evasions(ps, turn, info, rays)
    ensures m.color == turn && m.kind != King && !Disjoint(m.bits, rays)
    ensures exists p | p in ps :: p.color == turn && p.kind == m.kind && p.bits <= m.bits
    decreases |ps|
  {
    var init, p := ps[..|ps| - 1], ps[|ps| - 1];
    if m in Evasions(init, turn, info, rays) {
      EvasionsOwn(init, turn, info, rays, m);
      var q :| q in init && q.color == turn && q.kind == m.kind && q.bits <= m.bits;
      assert q in ps;
    } else {
      BlockingMeets(Dispatch.MovesOf(p, info.oppPieces, info.teamPieces), rays, m);
      Games.MoveFrom(p, info.oppPieces, info.teamPieces, m);
    }
  }
}
