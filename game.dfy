/** The game state and its moves (wasm/src/game/game.rs).

    `Game` is a class: `move_piece` updates the piece list, the clocks and
    the side to move in place.  The queries over a position are stated as
    functions of the piece list and the side to move, and the methods are
    proved to compute them. */
module Games {
  import opened Board
  import opened Pieces
  import opened Wrappers
  import Dispatch
  import Pawns
  import Kings

  /** `u16` counters wrap modulo 2^16. */
  const U16: int := 0x1_0000

  /** A value copy of a game, for read-only consumers and for cloning. */
  datatype Position = Position(pieces: seq<Piece>, turn: Color, castling: Bits, enPassant: Bits,
                               halfMoves: int, moveCount: int)

  /** The OR of the bits of the pieces of colour c (`white_pieces`,
      `black_pieces`). */
  function Side(ps: seq<Piece>, c: Color): Bits
  {
    if ps == [] then {}
    else Side(ps[..|ps| - 1], c) + (if ps[|ps| - 1].color == c then ps[|ps| - 1].bits else {})
  }

  /** What one opponent piece adds to the attack map: a pawn its attacked
      squares, any other piece `m.bits() ^ piece.bits()` for each of its moves
      with every piece capturable and no teammates. */
  function AttackOf(p: Piece, all: Bits): Bits
  {
    if p.kind == Pawn then Union(Pawns.AttackTargets(p.bits, p.color))
    else Union(XorBits(Dispatch.MovesOf(p, all, {}), p.bits))
  }

  /** The attack map of the side not to move. */
  function Attacks(ps: seq<Piece>, turn: Color, all: Bits): Bits
  {
    if ps == [] then {}
    else
      var p := ps[|ps| - 1];
      Attacks(ps[..|ps| - 1], turn, all) + (if p.color != turn then AttackOf(p, all) else {})
  }

  /** The moves of the mover's pieces other than kings, in list order. */
  function OwnMoves(ps: seq<Piece>, turn: Color, opp: Bits, team: Bits): seq<Piece>
  {
    if ps == [] then []
    else
      var p := ps[|ps| - 1];
      OwnMoves(ps[..|ps| - 1], turn, opp, team)
        + (if p.color == turn && p.kind != King then Dispatch.MovesOf(p, opp, team) else [])
  }

  /** The mover's kings, in list order. */
  function OwnKings(ps: seq<Piece>, turn: Color): (ks: seq<Piece>)
    ensures forall k | k in ks :: k in ps && k.kind == King && k.color == turn
  {
    if ps == [] then []
    else
      var p := ps[|ps| - 1];
      OwnKings(ps[..|ps| - 1], turn) + (if p.color == turn && p.kind == King then [p] else [])
  }

  /** The moves of a list of kings. */
  function KingMoves(ks: seq<Piece>, opp: Bits, team: Bits): seq<Piece>
  {
    if ks == [] then []
    else KingMoves(ks[..|ks| - 1], opp, team) + Dispatch.MovesOf(ks[|ks| - 1], opp, team)
  }

  /** The move list of `Game::moves`: the non-king moves of the mover, then
      its king moves against the opponent's attack map. */
  function MoveList(ps: seq<Piece>, turn: Color): seq<Piece>
  {
    var own, other := Side(ps, turn), Side(ps, turn.Opposite());
    OwnMoves(ps, turn, other, own)
      + KingMoves(OwnKings(ps, turn), Attacks(ps, turn, own + other), own)
  }

  /** The pieces after the XOR step of `move_piece`: each piece of the mover
      that meets `mv` has `mv` XOR-ed into its bits. */
  function Shifted(ps: seq<Piece>, turn: Color, mv: Bits): (qs: seq<Piece>)
    ensures |qs| == |ps|
    ensures forall i | 0 <= i < |ps| ::
      qs[i] == if ps[i].color == turn && !Disjoint(ps[i].bits, mv) then SetBits(ps[i], Xor(ps[i].bits, mv)) else ps[i]
  {
    seq(|ps|, i requires 0 <= i < |ps| =>
      if ps[i].color == turn && !Disjoint(ps[i].bits, mv) then SetBits(ps[i], Xor(ps[i].bits, mv)) else ps[i])
  }

  /** An opponent piece is captured when `bits & !mv == 0`. */
  predicate Taken(p: Piece, turn: Color, mv: Bits)
  {
    p.color != turn && Disjoint(p.bits, Not(mv))
  }

  /** The indices of the captured pieces, ascending (the `removed` list). */
  function Captured(ps: seq<Piece>, turn: Color, mv: Bits): seq<int>
  {
    if ps == [] then []
    else Captured(ps[..|ps| - 1], turn, mv) + (if Taken(ps[|ps| - 1], turn, mv) then [|ps| - 1] else [])
  }

  /** `for i in &removed { pieces.remove(*i) }`: each index is removed from
      the list as it stands after the earlier removals.  The flag is false
      when an index is out of range, where `Vec::remove` panics; the list is
      then the one at the panic. */
  function RemoveEach(ps: seq<Piece>, idx: seq<int>): (seq<Piece>, bool)
    decreases |idx|
  {
    if idx == [] then (ps, true)
    else if 0 <= idx[0] < |ps| then RemoveEach(ps[..idx[0]] + ps[idx[0] + 1..], idx[1..])
    else (ps, false)
  }

  /** The pieces not captured, in order: what the removal intends. */
  function Survivors(ps: seq<Piece>, turn: Color, mv: Bits): seq<Piece>
  {
    if ps == [] then []
    else Survivors(ps[..|ps| - 1], turn, mv) + (if Taken(ps[|ps| - 1], turn, mv) then [] else [ps[|ps| - 1]])
  }

  /** The game after `move_piece(mv)`, and whether the removal loop got
      through without a panic (when it did not, only the pieces have
      changed, as they stood at the panic). */
  function Played(pos: Position, mv: Bits): (r: (Position, bool))
    ensures r.0.castling == pos.castling && r.0.enPassant == pos.enPassant
    ensures r.1 ==> r.0.turn == pos.turn.Opposite()
    ensures !r.1 ==> r.0.turn == pos.turn && r.0.halfMoves == pos.halfMoves && r.0.moveCount == pos.moveCount
  {
    var captured := Captured(pos.pieces, pos.turn, mv);
    var (ps, ok) := RemoveEach(Shifted(pos.pieces, pos.turn, mv), captured);
    if !ok then (pos.(pieces := ps), false)
    else
      var half := if captured == [] then (pos.halfMoves + 1) % U16 else 0;
      var count := if pos.turn == White then pos.moveCount else (pos.moveCount + 1) % U16;
      (Position(ps, pos.turn.Opposite(), pos.castling, pos.enPassant, half, count), true)
  }

  class Game {
    var pieces: seq<Piece>
    var turn: Color
    /** The castling rights as a set of flags (`K_ID`, `Q_ID`, `k_ID`,
        `q_ID`). */
    var castling: Bits
    var enPassant: Bits
    var halfMoves: int
    var moveCount: int

    function Snapshot(): Position
      reads this
    {
      Position(pieces, turn, castling, enPassant, halfMoves, moveCount)
    }

    /** `Game::new`. */
    constructor (pos: Position)
      ensures Snapshot() == pos
    {
      pieces, turn, castling := pos.pieces, pos.turn, pos.castling;
      enPassant, halfMoves, moveCount := pos.enPassant, pos.halfMoves, pos.moveCount;
    }

    /** `Game::moves`. */
    method Moves() returns (res: seq<Piece>)
      ensures res == MoveList(pieces, turn)
    {
      var white, black := Boards(pieces);
      var own, other := white, black;
      if turn == Black {
        own, other := black, white;
      }
      assert own == Side(pieces, turn) && other == Side(pieces, turn.Opposite());
      var kings, attacks;
      res, kings, attacks := Scan(pieces, turn, other, own, white + black);
      assert attacks == Attacks(pieces, turn, own + other) by {
        assert white + black == own + other;
      }
      res := MoveKings(kings, attacks, own, res);
    }

    /** `Game::move_piece`.  `ok` is false when `Vec::remove` panics (two or
        more captures, the later one at the end of the shortened list); the
        pieces are then as at the panic and nothing else has changed. */
    method MovePiece(mv: Bits) returns (ok: bool)
      modifies this
      ensures (pieces, ok) == RemoveEach(Shifted(old(pieces), old(turn), mv), Captured(old(pieces), old(turn), mv))
      ensures castling == old(castling) && enPassant == old(enPassant)
      ensures !ok ==> halfMoves == old(halfMoves) && moveCount == old(moveCount) && turn == old(turn)
      ensures ok ==> halfMoves == (if Captured(old(pieces), old(turn), mv) == [] then (old(halfMoves) + 1) % U16 else 0)
      ensures ok ==> turn == old(turn).Opposite()
      ensures ok ==> moveCount == if old(turn) == White then old(moveCount) else (old(moveCount) + 1) % U16
      ensures (Snapshot(), ok) == Played(old(Snapshot()), mv)
    {
      ghost var before := Snapshot();
      var ps, removed := Mark(pieces, turn, mv);
      var rest;
      rest, ok := RemoveAll(ps, removed);
      pieces := rest;
      if !ok {
        assert Snapshot() == before.(pieces := rest);
        return;
      }
      var half := if |removed| > 0 then 0 else (halfMoves + 1) % U16;
      var count := if turn == White then moveCount else (moveCount + 1) % U16;
      assert half == if removed == [] then (before.halfMoves + 1) % U16 else 0;
      halfMoves, moveCount, turn := half, count, turn.Opposite();
      assert Snapshot() == Position(rest, before.turn.Opposite(), before.castling, before.enPassant, half, count);
    }

    /** `Game::valid_move`: accepted iff some generated move covers every bit
        of `mv`. */
    method ValidMove(mv: Bits) returns (r: Result<()>)
      ensures r.Ok? <==> exists m | m in MoveList(pieces, turn) :: mv <= m.bits
      ensures !r.Ok? ==> r == Err("Invalid Move")
    {
      var ms := Moves();
      var found := AnyCovers(ms, mv);
      if found {
        return Ok(());
      }
      return Err("Invalid Move");
    }
  }

  /** The loop of `valid_move`: whether some move covers every bit of mv
      (`m.bits() & mv == mv`). */
  method AnyCovers(ms: seq<Piece>, mv: Bits) returns (found: bool)
    ensures found <==> exists m | m in ms :: mv <= m.bits
  {
    for i := 0 to |ms|
      invariant forall k | 0 <= k < i :: !(mv <= ms[k].bits)
    {
      if ms[i].bits * mv == mv {
        assert ms[i] in ms;
        return true;
      }
    }
    return false;
  }

  /** The first loop of `moves`: the boards of both colours. */
  method Boards(ps: seq<Piece>) returns (white: Bits, black: Bits)
    ensures white == Side(ps, White) && black == Side(ps, Black)
  {
    white, black := {}, {};
    for i := 0 to |ps|
      invariant white == Side(ps[..i], White) && black == Side(ps[..i], Black)
    {
      SideStep(ps, i);
      if ps[i].color == White {
        white := white + ps[i].bits;
      } else {
        black := black + ps[i].bits;
      }
    }
    assert ps[..|ps|] == ps;
  }

  /** The second loop of `moves`: the mover's non-king moves, its kings set
      aside, and the opponent's attack map. */
  method Scan(ps: seq<Piece>, turn: Color, opp: Bits, team: Bits, all: Bits)
    returns (res: seq<Piece>, kings: seq<Piece>, attacks: Bits)
    ensures res == OwnMoves(ps, turn, opp, team)
    ensures kings == OwnKings(ps, turn)
    ensures attacks == Attacks(ps, turn, all)
  {
    res, kings, attacks := [], [], {};
    for i := 0 to |ps|
      invariant res == OwnMoves(ps[..i], turn, opp, team)
      invariant kings == OwnKings(ps[..i], turn)
      invariant attacks == Attacks(ps[..i], turn, all)
    {
      ListStep(ps, i, turn, opp, team, all);
      res, kings, attacks := Visit(ps[i], turn, opp, team, all, res, kings, attacks);
    }
    assert ps[..|ps|] == ps;
  }

  /** One piece of the second loop of `moves`. */
  method Visit(p: Piece, turn: Color, opp: Bits, team: Bits, all: Bits,
               res: seq<Piece>, kings: seq<Piece>, attacks: Bits)
    returns (res': seq<Piece>, kings': seq<Piece>, attacks': Bits)
    ensures res' == res + (if p.color == turn && p.kind != King then Dispatch.MovesOf(p, opp, team) else [])
    ensures kings' == kings + (if p.color == turn && p.kind == King then [p] else [])
    ensures attacks' == attacks + (if p.color != turn then AttackOf(p, all) else {})
  {
    res', kings', attacks' := res, kings, attacks;
    if p.color == turn {
      if p.kind == King {
        kings' := kings + [p];
      } else {
        res' := Dispatch.Moves(p, opp, team, res);
      }
    } else if p.kind == Pawn {
      var hits := Pawns.Attacks(p.bits, p.color);
      assert BitsOf(hits) == Pawns.AttackTargets(p.bits, p.color);
      attacks' := OrBits(hits, attacks);
    } else {
      var ms := Dispatch.Moves(p, all, {}, []);
      assert ms == Dispatch.MovesOf(p, all, {});
      attacks' := OrXor(ms, p.bits, attacks);
    }
  }

  /** The third loop of `moves`: append the moves of the set-aside kings. */
  method MoveKings(kings: seq<Piece>, opp: Bits, team: Bits, moves: seq<Piece>) returns (res: seq<Piece>)
    ensures res == moves + KingMoves(kings, opp, team)
  {
    res := moves;
    for j := 0 to |kings|
      invariant res == moves + KingMoves(kings[..j], opp, team)
    {
      res := Dispatch.Moves(kings[j], opp, team, res);
      KingStep(kings, j, opp, team);
      AppendAssoc(moves, KingMoves(kings[..j], opp, team), Dispatch.MovesOf(kings[j], opp, team));
    }
    assert kings[..|kings|] == kings;
  }

  /** The loop of `move_piece`: XOR `mv` into the mover's pieces it touches
      and list the opponent pieces it covers. */
  method Mark(ps: seq<Piece>, turn: Color, mv: Bits) returns (qs: seq<Piece>, removed: seq<int>)
    ensures qs == Shifted(ps, turn, mv) && removed == Captured(ps, turn, mv)
  {
    qs, removed := ps, [];
    for i := 0 to |ps|
      invariant |qs| == |ps|
      invariant forall k | 0 <= k < i :: qs[k] == Shifted(ps, turn, mv)[k]
      invariant forall k | i <= k < |ps| :: qs[k] == ps[k]
      invariant removed == Captured(ps[..i], turn, mv)
    {
      assert ps[..i + 1][..i] == ps[..i];
      if qs[i].color == turn {
        if !Disjoint(qs[i].bits, mv) {
          qs := qs[i := SetBits(qs[i], Xor(qs[i].bits, mv))];
        }
      } else if Disjoint(qs[i].bits, Not(mv)) {
        removed := removed + [i];
      }
    }
    assert ps[..|ps|] == ps;
  }

  /** `for i in &removed { pieces.remove(*i) }`. */
  method RemoveAll(ps: seq<Piece>, removed: seq<int>) returns (qs: seq<Piece>, ok: bool)
    ensures (qs, ok) == RemoveEach(ps, removed)
  {
    qs := ps;
    for j := 0 to |removed|
      invariant RemoveEach(qs, removed[j..]) == RemoveEach(ps, removed)
    {
      assert removed[j..][1..] == removed[j + 1..];
      if !(0 <= removed[j] < |qs|) {
        return qs, false;
      }
      qs := qs[..removed[j]] + qs[removed[j] + 1..];
    }
    assert removed[|removed|..] == [];
    ok := true;
  }

  /** `for a in attacks { acc |= a.bits() }`. */
  method OrBits(ms: seq<Piece>, acc: Bits) returns (res: Bits)
    ensures res == acc + Union(BitsOf(ms))
  {
    res := acc;
    for j := 0 to |ms|
      invariant res == acc + Union(BitsOf(ms[..j]))
    {
      assert BitsOf(ms[..j + 1]) == BitsOf(ms[..j]) + [ms[j].bits];
      UnionAppend(BitsOf(ms[..j]), [ms[j].bits]);
      UnionSingle(ms[j].bits);
      res := res + ms[j].bits;
    }
    assert ms[..|ms|] == ms;
  }

  /** `for m in moves { acc |= m.bits() ^ piece.bits() }`. */
  method OrXor(ms: seq<Piece>, origin: Bits, acc: Bits) returns (res: Bits)
    ensures res == acc + Union(XorBits(ms, origin))
  {
    res := acc;
    for j := 0 to |ms|
      invariant res == acc + Union(XorBits(ms[..j], origin))
    {
      assert XorBits(ms[..j + 1], origin) == XorBits(ms[..j], origin) + [Xor(ms[j].bits, origin)];
      UnionAppend(XorBits(ms[..j], origin), [Xor(ms[j].bits, origin)]);
      UnionSingle(Xor(ms[j].bits, origin));
      res := res + Xor(ms[j].bits, origin);
    }
    assert ms[..|ms|] == ms;
  }

  lemma KingStep(ks: seq<Piece>, j: int, opp: Bits, team: Bits)
    requires 0 <= j < |ks|
    ensures KingMoves(ks[..j + 1], opp, team) == KingMoves(ks[..j], opp, team) + Dispatch.MovesOf(ks[j], opp, team)
  {
    assert ks[..j + 1][..j] == ks[..j];
  }

  lemma SideStep(ps: seq<Piece>, i: int)
    requires 0 <= i < |ps|
    ensures Side(ps[..i + 1], White) == Side(ps[..i], White) + (if ps[i].color == White then ps[i].bits else {})
    ensures Side(ps[..i + 1], Black) == Side(ps[..i], Black) + (if ps[i].color == Black then ps[i].bits else {})
  {
    assert ps[..i + 1][..i] == ps[..i];
  }

  lemma ListStep(ps: seq<Piece>, i: int, turn: Color, opp: Bits, team: Bits, all: Bits)
    requires 0 <= i < |ps|
    ensures var p := ps[i];
      && OwnMoves(ps[..i + 1], turn, opp, team)
         == OwnMoves(ps[..i], turn, opp, team) + (if p.color == turn && p.kind != King then Dispatch.MovesOf(p, opp, team) else [])
      && OwnKings(ps[..i + 1], turn) == OwnKings(ps[..i], turn) + (if p.color == turn && p.kind == King then [p] else [])
      && Attacks(ps[..i + 1], turn, all) == Attacks(ps[..i], turn, all) + (if p.color != turn then AttackOf(p, all) else {})
  {
    assert ps[..i + 1][..i] == ps[..i];
  }

  /** A move of a piece keeps its kind and colour and covers its origin. */
  lemma MoveFrom(p: Piece, opp: Bits, team: Bits, m: Piece)
    requires m in Dispatch.MovesOf(p, opp, team)
    ensures m.kind == p.kind && m.color == p.color && p.bits <= m.bits
  {
    Dispatch.MoveShape(p, opp, team);
  }

  lemma {:induction false} OwnMovesFrom(ps: seq<Piece>, turn: Color, opp: Bits, team: Bits, m: Piece)
    requires m in OwnMoves(ps, turn, opp, team)
    ensures m.color == turn && m.kind != King
    ensures exists p | p in ps :: p.color == turn && p.kind == m.kind && p.bits <= m.bits
    decreases |ps|
  {
    var init, p := ps[..|ps| - 1], ps[|ps| - 1];
    if m in OwnMoves(init, turn, opp, team) {
      OwnMovesFrom(init, turn, opp, team, m);
      var q :| q in init && q.color == turn && q.kind == m.kind && q.bits <= m.bits;
      assert q in ps;
    } else {
      MoveFrom(p, opp, team, m);
    }
  }

  lemma {:induction false} KingMovesFrom(ks: seq<Piece>, opp: Bits, team: Bits, m: Piece)
    requires m in KingMoves(ks, opp, team)
    ensures exists k, t | k in ks && t in Dispatch.Destinations(k, opp, team) ::
      m.kind == k.kind && m.color == k.color && m.bits == t + k.bits
    decreases |ks|
  {
    var init, k := ks[..|ks| - 1], ks[|ks| - 1];
    if m in KingMoves(init, opp, team) {
      KingMovesFrom(init, opp, team, m);
      var k', t :| k' in init && t in Dispatch.Destinations(k', opp, team)
        && m.kind == k'.kind && m.color == k'.color && m.bits == t + k'.bits;
      assert k' in ks;
    } else {
      Dispatch.MoveShape(k, opp, team);
      var ms := Dispatch.MovesOf(k, opp, team);
      var j :| 0 <= j < |ms| && ms[j] == m;
      assert Dispatch.Destinations(k, opp, team)[j] in Dispatch.Destinations(k, opp, team);
    }
  }

  /** Every move `moves` returns belongs to a piece of the side to move: it
      has that piece's kind and colour and covers its square. */
  lemma MovesOwn(ps: seq<Piece>, turn: Color, m: Piece)
    requires m in MoveList(ps, turn)
    ensures m.color == turn
    ensures exists p | p in ps :: p.color == turn && p.kind == m.kind && p.bits <= m.bits
  {
    var own, other := Side(ps, turn), Side(ps, turn.Opposite());
    var ks := OwnKings(ps, turn);
    if m in OwnMoves(ps, turn, other, own) {
      OwnMovesFrom(ps, turn, other, own, m);
    } else {
      KingMovesFrom(ks, Attacks(ps, turn, own + other), own, m);
    }
  }

  /** The moves of a list of kings avoid `opp` and `team`. */
  lemma {:induction false} KingsAvoid(ks: seq<Piece>, opp: Bits, team: Bits, m: Piece)
    requires forall k | k in ks :: k.kind == King
    requires m in KingMoves(ks, opp, team)
    ensures exists k, t | k in ks :: m.bits == t + k.bits && OnBoard(t) && Disjoint(t, opp) && Disjoint(t, team)
  {
    KingMovesFrom(ks, opp, team, m);
    var k, t :| k in ks && t in Dispatch.Destinations(k, opp, team)
      && m.kind == k.kind && m.color == k.color && m.bits == t + k.bits;
    Kings.Safe(k.bits, opp, team);
    assert OnBoard(t) && Disjoint(t, opp) && Disjoint(t, team);
  }

  /** King moves come last and never land on a square of the opponent's
      attack map or on one of the mover's own pieces (FIDE Laws, article
      3.9: a king may not move into check). */
  lemma KingMovesSafe(ps: seq<Piece>, turn: Color, m: Piece)
    requires m in MoveList(ps, turn) && m.kind == King
    ensures var own, other := Side(ps, turn), Side(ps, turn.Opposite());
      exists k | k in ps && k.kind == King && k.color == turn ::
        && k.bits <= m.bits
        && Disjoint(m.bits - k.bits, Attacks(ps, turn, own + other)) && Disjoint(m.bits - k.bits, own)
  {
    var own, other := Side(ps, turn), Side(ps, turn.Opposite());
    var attacks := Attacks(ps, turn, own + other);
    var ks := OwnKings(ps, turn);
    assert m in OwnMoves(ps, turn, other, own) + KingMoves(ks, attacks, own);
    if m in OwnMoves(ps, turn, other, own) {
      OwnMovesFrom(ps, turn, other, own, m);
      assert false;
    }
    KingsAvoid(ks, attacks, own, m);
    var k, t :| k in ks && m.bits == t + k.bits && OnBoard(t) && Disjoint(t, attacks) && Disjoint(t, own);
    KingSquareFree(k, t, m.bits, attacks, own);
  }

  /** A king move is the king's square plus a destination: without the king,
      what remains lies in the destination. */
  lemma KingSquareFree(k: Piece, t: Bits, bits: Bits, attacks: Bits, own: Bits)
    requires bits == t + k.bits && Disjoint(t, attacks) && Disjoint(t, own)
    ensures k.bits <= bits && Disjoint(bits - k.bits, attacks) && Disjoint(bits - k.bits, own)
  {
    assert bits - k.bits <= t;
  }

  /** The attack map as squares: what each opponent piece reaches, with
      pawns reaching their diagonal squares only. */
  function Reached(ps: seq<Piece>, turn: Color, all: Bits): Bits
  {
    if ps == [] then {}
    else
      var p := ps[|ps| - 1];
      Reached(ps[..|ps| - 1], turn, all)
        + (if p.color == turn then {}
           else if p.kind == Pawn then Union(Pawns.AttackTargets(p.bits, p.color))
           else Union(Dispatch.Destinations(p, all, {})))
  }

  /** When every piece stands on one square, `m.bits() ^ piece.bits()`
      gives exactly the destinations, so the attack map is the union of the
      squares the opponent's pieces reach. */
  lemma {:induction false} AttacksReached(ps: seq<Piece>, turn: Color, all: Bits)
    requires forall p | p in ps :: Single(p.bits)
    ensures Attacks(ps, turn, all) == Reached(ps, turn, all)
    decreases |ps|
  {
    if ps != [] {
      var init, p := ps[..|ps| - 1], ps[|ps| - 1];
      assert forall q | q in init :: q in ps;
      AttacksReached(init, turn, all);
      if p.color != turn && p.kind != Pawn {
        Dispatch.XorDestinations(p, all, {});
      }
    }
  }

  /** Applying a generated move with `move_piece` puts the piece on the
      move's destination: its bits XOR the move's bits are the
      destination. */
  lemma MoveLands(p: Piece, opp: Bits, team: Bits, k: int)
    requires Single(p.bits) && 0 <= k < |Dispatch.Destinations(p, opp, team)|
    ensures Xor(p.bits, Dispatch.MovesOf(p, opp, team)[k].bits) == Dispatch.Destinations(p, opp, team)[k]
  {
    Dispatch.MoveShape(p, opp, team);
    Dispatch.XorDestinations(p, opp, team);
    assert XorBits(Dispatch.MovesOf(p, opp, team), p.bits)[k] == Dispatch.Destinations(p, opp, team)[k];
  }

  /** The XOR step never changes an opponent piece, so the same pieces are
      captured before and after it. */
  lemma {:induction false} CapturedShifted(ps: seq<Piece>, turn: Color, mv: Bits)
    ensures Captured(Shifted(ps, turn, mv), turn, mv) == Captured(ps, turn, mv)
    decreases |ps|
  {
    if ps != [] {
      var init := ps[..|ps| - 1];
      assert Shifted(ps, turn, mv)[..|ps| - 1] == Shifted(init, turn, mv);
      CapturedShifted(init, turn, mv);
    }
  }

  lemma {:induction false} SurvivorsNone(qs: seq<Piece>, turn: Color, mv: Bits)
    requires Captured(qs, turn, mv) == []
    ensures Survivors(qs, turn, mv) == qs
    decreases |qs|
  {
    if qs != [] {
      var init, q := qs[..|qs| - 1], qs[|qs| - 1];
      assert |Captured(qs, turn, mv)| == |Captured(init, turn, mv)| + (if Taken(q, turn, mv) then 1 else 0);
      SurvivorsNone(init, turn, mv);
      assert init + [q] == qs;
    }
  }

  lemma {:induction false} SurvivorsOne(qs: seq<Piece>, turn: Color, mv: Bits, i: int)
    requires Captured(qs, turn, mv) == [i]
    ensures 0 <= i < |qs| && Survivors(qs, turn, mv) == qs[..i] + qs[i + 1..]
    decreases |qs|
  {
    var init, q := qs[..|qs| - 1], qs[|qs| - 1];
    if Taken(q, turn, mv) {
      var c := Captured(init, turn, mv);
      assert c + [|qs| - 1] == [i];
      assert |c| == 0 && (c + [|qs| - 1])[0] == |qs| - 1;
      SurvivorsNone(init, turn, mv);
    } else {
      assert Captured(init, turn, mv) == [i];
      SurvivorsOne(init, turn, mv, i);
      assert qs[..i] + qs[i + 1..] == init[..i] + init[i + 1..] + [q];
    }
  }

  /** With at most one capture, the removal loop of `move_piece` removes
      exactly the captured piece and keeps every other one in order. */
  lemma RemoveSingle(ps: seq<Piece>, turn: Color, mv: Bits)
    requires |Captured(ps, turn, mv)| <= 1
    ensures RemoveEach(Shifted(ps, turn, mv), Captured(ps, turn, mv)) == (Survivors(Shifted(ps, turn, mv), turn, mv), true)
  {
    var qs := Shifted(ps, turn, mv);
    CapturedShifted(ps, turn, mv);
    var idx := Captured(ps, turn, mv);
    if idx == [] {
      SurvivorsNone(qs, turn, mv);
    } else {
      SurvivorsOne(qs, turn, mv, idx[0]);
      assert idx[1..] == [];
    }
  }

  /** With two captures the ascending removal goes wrong: removing index 0
      shifts the second captured piece to index 0, so index 1 removes a
      survivor. */
  lemma RemovesSurvivor()
    ensures var ps, mv := [Piece(Rook, {8}, Black), Piece(Rook, {9}, Black), Piece(Queen, {24}, White)], {8, 9};
      && Captured(ps, White, mv) == [0, 1]
      && Survivors(Shifted(ps, White, mv), White, mv) == [Piece(Queen, {24}, White)]
      && RemoveEach(Shifted(ps, White, mv), [0, 1]) == ([Piece(Rook, {9}, Black)], true)
  {
    var mv: Bits := {8, 9};
    assert 24 in Not(mv) && 24 in {24} * Not(mv);
    var b8, b9, wq := Piece(Rook, {8}, Black), Piece(Rook, {9}, Black), Piece(Queen, {24}, White);
    assert Taken(b8, White, mv) && Taken(b9, White, mv) && !Taken(wq, White, mv);

    var ps := [b8, b9, wq];
    assert Shifted(ps, White, mv) == ps;
    assert ps[..2] == [b8, b9] && [b8, b9][..1] == [b8] && [b8][..0] == [];
    assert Captured([b8], White, mv) == [0];
    assert Captured([b8, b9], White, mv) == [0, 1];
    assert Survivors([b8], White, mv) == [];
    assert Survivors([b8, b9], White, mv) == [];
    assert [0, 1][1..] == [1] && ps[..0] + ps[1..] == [b9, wq];
    assert [b9, wq][..1] + [b9, wq][2..] == [b9] && [1][1..] == [];
  }

  /** The same with the captured pieces at the end of the list: the second
      index is out of range and `Vec::remove` panics. */
  lemma RemovalPanics()
    ensures var ps, mv := [Piece(Queen, {24}, White), Piece(Rook, {8}, Black), Piece(Rook, {9}, Black)], {8, 9};
      && Captured(ps, White, mv) == [1, 2]
      && !RemoveEach(Shifted(ps, White, mv), [1, 2]).1
  {
    var mv: Bits := {8, 9};
    assert 24 in Not(mv) && 24 in {24} * Not(mv);
    var b8, b9, wq := Piece(Rook, {8}, Black), Piece(Rook, {9}, Black), Piece(Queen, {24}, White);
    assert Taken(b8, White, mv) && Taken(b9, White, mv) && !Taken(wq, White, mv);
    var qs := [wq, b8, b9];
    assert Shifted(qs, White, mv) == qs;
    assert qs[..2] == [wq, b8] && [wq, b8][..1] == [wq] && [wq][..0] == [];
    assert Captured([wq], White, mv) == [];
    assert Captured([wq, b8], White, mv) == [1];
    assert [1, 2][1..] == [2] && qs[..1] + qs[2..] == [wq, b9];
  }
}
