/** The pawn (wasm/src/game/pieces/pawn.rs): two diagonal captures, a single
    push and, from the starting rank, a double push, all towards the high bits
    for White and the low bits for Black. */
module Pawns {
  import opened Board
  import opened Pieces

  /** The pawn shifted forward by k: `bits << k` for White, `bits >> k` for
      Black. */
  function Forward(b: Bits, color: Color, k: int): Bits
    requires 0 <= k < 128
  {
    if color == White then Shl(b, k) else Shr(b, k)
  }

  /** `Action::Attack`: on the board and on an opponent (teammates are not
      checked). */
  predicate AttackOk(t: Bits, opp: Bits)
  {
    OnBoard(t) && !Disjoint(t, opp)
  }

  /** `Action::Move`: on the board and on an empty square. */
  predicate MoveOk(t: Bits, opp: Bits, team: Bits)
  {
    OnBoard(t) && Disjoint(t, team) && Disjoint(t, opp)
  }

  /** `bits >> 0x18 & 0xff != 0` for White (a bit on rank 2) and
      `bits >> 0x68 & 0xff != 0` for Black (a bit on rank 7). */
  predicate OnStartRank(b: Bits, color: Color)
  {
    if color == White then b * Span(0x18, 0x20) != {} else b * Span(0x68, 0x70) != {}
  }

  /** [t] when `validate` accepts it, [] otherwise. */
  function Keep(t: Bits, ok: bool): seq<Bits>
  {
    if ok then [t] else []
  }

  /** What `moves` emits, in order: the captures by 0x0f and 0x11, the
      single push by 0x10 and, only when that push was emitted and the pawn
      is on its starting rank, the double push by 0x20. */
  function Destinations(b: Bits, color: Color, opp: Bits, team: Bits): seq<Bits>
  {
    var c1, c2, p1, p2 := Forward(b, color, 0x0f), Forward(b, color, 0x11), Forward(b, color, 0x10), Forward(b, color, 0x20);
    Keep(c1, AttackOk(c1, opp)) + Keep(c2, AttackOk(c2, opp)) + Keep(p1, MoveOk(p1, opp, team))
    + Keep(p2, MoveOk(p1, opp, team) && OnStartRank(b, color) && MoveOk(p2, opp, team))
  }

  /** The `validate` closure with `Action::Attack`. */
  method Attack(bits: Bits, color: Color, t: Bits, opp: Bits, moves: seq<Piece>) returns (res: seq<Piece>, ok: bool)
    ensures ok == AttackOk(t, opp)
    ensures res == moves + AsMoves(Pawn, bits, color, Keep(t, ok))
  {
    res, ok := moves, false;
    if !OnBoard(t) { return; }
    if Disjoint(t, opp) { return; }
    res, ok := moves + [Piece(Pawn, t + bits, color)], true;
  }

  /** The `validate` closure with `Action::Move`. */
  method Push(bits: Bits, color: Color, t: Bits, opp: Bits, team: Bits, moves: seq<Piece>) returns (res: seq<Piece>, ok: bool)
    ensures ok == MoveOk(t, opp, team)
    ensures res == moves + AsMoves(Pawn, bits, color, Keep(t, ok))
  {
    res, ok := moves, false;
    if !OnBoard(t) { return; }
    if !Disjoint(t, team) { return; }
    if !Disjoint(t, opp) { return; }
    res, ok := moves + [Piece(Pawn, t + bits, color)], true;
  }

  /** `Pawn::moves`: target | origin in the pawn's colour for each
      destination. */
  method Moves(bits: Bits, color: Color, opp: Bits, team: Bits) returns (res: seq<Piece>)
    ensures res == AsMoves(Pawn, bits, color, Destinations(bits, color, opp, team))
  {
    var c1, c2, p1, p2 := Forward(bits, color, 0x0f), Forward(bits, color, 0x11), Forward(bits, color, 0x10), Forward(bits, color, 0x20);
    var ok1, ok2, valid;
    var ok4 := false;
    res, ok1 := Attack(bits, color, c1, opp, []);
    ghost var r1 := res;
    res, ok2 := Attack(bits, color, c2, opp, res);
    ghost var r2 := res;
    res, valid := Push(bits, color, p1, opp, team, res);
    ghost var r3 := res;
    if valid && OnStartRank(bits, color) {
      res, ok4 := Push(bits, color, p2, opp, team, res);
    } else {
      assert res == r3 + AsMoves(Pawn, bits, color, Keep(p2, false));
    }
    MovesChain(bits, color, Keep(c1, ok1), Keep(c2, ok2), Keep(p1, valid), Keep(p2, ok4), r1, r2, r3, res);
  }

  lemma MovesChain(bits: Bits, color: Color, a1: seq<Bits>, a2: seq<Bits>, m1: seq<Bits>, m2: seq<Bits>,
                   r1: seq<Piece>, r2: seq<Piece>, r3: seq<Piece>, r4: seq<Piece>)
    requires r1 == [] + AsMoves(Pawn, bits, color, a1)
    requires r2 == r1 + AsMoves(Pawn, bits, color, a2)
    requires r3 == r2 + AsMoves(Pawn, bits, color, m1)
    requires r4 == r3 + AsMoves(Pawn, bits, color, m2)
    ensures r4 == AsMoves(Pawn, bits, color, a1 + a2 + m1 + m2)
  {
    AsMovesAppend(Pawn, bits, color, a1, a2);
    AsMovesAppend(Pawn, bits, color, a1 + a2, m1);
    AsMovesAppend(Pawn, bits, color, a1 + a2 + m1, m2);
  }

  /** The squares `attacks` emits: both diagonal targets that are on the
      board, whatever stands there. */
  function AttackTargets(b: Bits, color: Color): seq<Bits>
  {
    var c1, c2 := Forward(b, color, 0x0f), Forward(b, color, 0x11);
    (if OnBoard(c1) then [c1] else []) + (if OnBoard(c2) then [c2] else [])
  }

  /** `Pawn::attacks`: a pawn-coloured board of the target alone (without the
      origin) for each attacked square. */
  method Attacks(bits: Bits, color: Color) returns (res: seq<Piece>)
    ensures |res| == |AttackTargets(bits, color)|
    ensures forall k | 0 <= k < |res| :: res[k] == Piece(Pawn, AttackTargets(bits, color)[k], color)
  {
    var c1, c2 := Forward(bits, color, 0x0f), Forward(bits, color, 0x11);
    res := [];
    if OnBoard(c1) { res := res + [Piece(Pawn, c1, color)]; }
    if OnBoard(c2) { res := res + [Piece(Pawn, c2, color)]; }
  }

  /** The attack map form of `attacks` that `gen_moves` calls with the
      opponent attack accumulator: OR each attacked square into it. */
  method AttacksInto(bits: Bits, color: Color, acc: Bits) returns (res: Bits)
    ensures res == acc + Union(AttackTargets(bits, color))
  {
    var c1, c2 := Forward(bits, color, 0x0f), Forward(bits, color, 0x11);
    res := acc;
    if OnBoard(c1) { res := res + c1; }
    if OnBoard(c2) { res := res + c2; }
    AttackUnion(bits, color);
  }

  lemma AttackUnion(b: Bits, color: Color)
    ensures var c1, c2 := Forward(b, color, 0x0f), Forward(b, color, 0x11);
      Union(AttackTargets(b, color)) == (if OnBoard(c1) then c1 else {}) + (if OnBoard(c2) then c2 else {})
  {
    var c1, c2 := Forward(b, color, 0x0f), Forward(b, color, 0x11);
    var a1 := if OnBoard(c1) then [c1] else [];
    var a2 := if OnBoard(c2) then [c2] else [];
    UnionAppend(a1, a2);
    UnionSingle(c1);
    UnionSingle(c2);
  }

  /** The rank direction a pawn of this colour advances in. */
  function Ahead(color: Color): int
  {
    if color == White then 1 else -1
  }

  /** The rank (0-based) a pawn of this colour starts on. */
  function StartRank(color: Color): int
  {
    if color == White then 1 else 6
  }

  /** Square (x2, y2) exists. */
  predicate Exists(x2: int, y2: int)
  {
    0 <= x2 < 8 && 0 <= y2 < 8
  }

  /** Square (x2, y2) exists and holds no piece. */
  predicate Empty(x2: int, y2: int, opp: Bits, team: Bits)
  {
    Exists(x2, y2) && Disjoint(Square(x2, y2), team) && Disjoint(Square(x2, y2), opp)
  }

  /** [square (x2, y2)] when it exists and holds an opponent. */
  function CaptureAt(x2: int, y2: int, opp: Bits): seq<Bits>
  {
    if Exists(x2, y2) && !Disjoint(Square(x2, y2), opp) then [Square(x2, y2)] else []
  }

  /** The pawn rules of the FIDE Laws (article 3.7) in board coordinates,
      without en passant and promotion: a capture diagonally forward on either
      side onto an opponent, one step forward onto an empty square, and two
      steps forward from the starting rank through and onto empty squares. */
  function BoardMoves(x: int, y: int, color: Color, opp: Bits, team: Bits): seq<Bits>
  {
    var f := Ahead(color);
    CaptureAt(x - f, y + f, opp) + CaptureAt(x + f, y + f, opp)
    + (if Empty(x, y + f, opp, team) then [Square(x, y + f)] else [])
    + (if Empty(x, y + f, opp, team) && y == StartRank(color) && Empty(x, y + 2 * f, opp, team) then [Square(x, y + 2 * f)] else [])
  }

  /** Shifting forward by k is a move of (dx, dy) = (k - 16 * dy, dy) ranks
      ahead. */
  lemma ForwardSquare(x: int, y: int, color: Color, k: int, dx: int, dy: int)
    requires 0 <= x < 8 && 0 <= y < 8 && 0 < k < 128 && -7 <= dx <= 7
    requires dy * 16 + dx == Ahead(color) * k
    ensures var t := Forward(Square(x, y), color, k);
      && (OnBoard(t) <==> Exists(x + dx, y + dy))
      && (Exists(x + dx, y + dy) ==> t == Square(x + dx, y + dy))
  {
    assert Forward(Square(x, y), color, k) == Offset(Square(x, y), dx, dy);
    StepSquare(x, y, dx, dy);
  }

  /** A capture candidate from a square, in board coordinates. */
  lemma CaptureSquare(x: int, y: int, color: Color, k: int, dx: int, dy: int, opp: Bits)
    requires 0 <= x < 8 && 0 <= y < 8 && 0 < k < 128 && -7 <= dx <= 7
    requires dy * 16 + dx == Ahead(color) * k
    ensures var t := Forward(Square(x, y), color, k);
      Keep(t, AttackOk(t, opp)) == CaptureAt(x + dx, y + dy, opp)
  {
    ForwardSquare(x, y, color, k, dx, dy);
  }

  /** A push candidate from a square, in board coordinates. */
  lemma PushSquare(x: int, y: int, color: Color, k: int, dy: int, opp: Bits, team: Bits)
    requires 0 <= x < 8 && 0 <= y < 8 && 0 < k < 128
    requires dy * 16 == Ahead(color) * k
    ensures var t := Forward(Square(x, y), color, k);
      && (MoveOk(t, opp, team) <==> Empty(x, y + dy, opp, team))
      && (Empty(x, y + dy, opp, team) ==> t == Square(x, y + dy))
  {
    ForwardSquare(x, y, color, k, 0, dy);
  }

  /** The starting-rank test on a square is a test of its rank. */
  lemma StartSquare(x: int, y: int, color: Color)
    requires 0 <= x < 8 && 0 <= y < 8
    ensures OnStartRank(Square(x, y), color) <==> y == StartRank(color)
  {
    assert Index(x, y) in Square(x, y);
  }

  /** From a square, `moves` emits exactly the moves of the FIDE pawn rules,
      in the order captures, single push, double push. */
  lemma Geometry(x: int, y: int, color: Color, opp: Bits, team: Bits)
    requires 0 <= x < 8 && 0 <= y < 8
    ensures Destinations(Square(x, y), color, opp, team) == BoardMoves(x, y, color, opp, team)
    ensures |Destinations(Square(x, y), color, opp, team)| <= 4
  {
    var f := Ahead(color);
    CaptureSquare(x, y, color, 0x0f, -f, f, opp);
    CaptureSquare(x, y, color, 0x11, f, f, opp);
    PushSquare(x, y, color, 0x10, f, opp, team);
    PushSquare(x, y, color, 0x20, 2 * f, opp, team);
    StartSquare(x, y, color);
  }

  /** From a square, `attacks` names the diagonally forward squares that
      exist. */
  lemma AttackGeometry(x: int, y: int, color: Color)
    requires 0 <= x < 8 && 0 <= y < 8
    ensures var f := Ahead(color);
      AttackTargets(Square(x, y), color)
        == (if Exists(x - f, y + f) then [Square(x - f, y + f)] else [])
         + (if Exists(x + f, y + f) then [Square(x + f, y + f)] else [])
  {
    var f := Ahead(color);
    ForwardSquare(x, y, color, 0x0f, -f, f);
    ForwardSquare(x, y, color, 0x11, f, f);
  }

  /** No destination of a pawn on one square holds that square. */
  lemma AvoidsOrigin(b: Bits, color: Color, opp: Bits, team: Bits)
    requires Single(b)
    ensures Disjoint(Union(Destinations(b, color, opp, team)), b)
  {
    var ds := Destinations(b, color, opp, team);
    ShiftAvoids(b, 0x0f);
    ShiftAvoids(b, 0x11);
    ShiftAvoids(b, 0x10);
    ShiftAvoids(b, 0x20);
    forall k | 0 <= k < |ds| ensures ds[k] * b == {} {
      assert ds[k] in ds;
    }
    UnionAvoids(ds, b);
  }
}
