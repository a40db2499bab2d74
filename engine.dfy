/** The search engine: the static evaluation (wasm/src/engine/evaluate.rs)
    and minimax with alpha-beta pruning (wasm/src/engine/minimax.rs).

    Scores are `i32` values.  `evaluate` adds with the wrap-around of a
    release build, so its result is always an `i32`; the search only takes
    maxima and minima of scores and of `i32::MIN` / `i32::MAX`. */
module Engine {
  import opened Board
  import opened Pieces
  import opened Wrappers
  import opened GameInfo
  import opened Games

  const MIN: int := -0x8000_0000
  const MAX: int := 0x7fff_ffff

  /** An `i32`. */
  type I32 = x: int | MIN <= x <= MAX

  /** Two's-complement wrap-around of an integer into the `i32` range. */
  function Wrap(x: int): (r: I32)
    ensures MIN <= x <= MAX ==> r == x
  {
    (x - MIN) % 0x1_0000_0000 + MIN
  }

  /** Adding after a wrap wraps the same as adding before it. */
  lemma WrapAdd(a: int, b: int)
    ensures Wrap(Wrap(a) + b) == Wrap(a + b)
  {
    var m := 0x1_0000_0000;
    var q := (a - MIN) / m;
    assert Wrap(a) == a - m * q;
    ModShift(a + b - MIN, q);
  }

  lemma ModShift(x: int, q: int)
    ensures (x - 0x1_0000_0000 * q) % 0x1_0000_0000 == x % 0x1_0000_0000
  {
    var m := 0x1_0000_0000;
    var r, d := x % m, x / m;
    assert x == m * d + r;
    assert x - m * q == m * (d - q) + r;
  }

  // ---------------------------------------------------------------------
  // evaluate

  /** The material worth of a piece kind. */
  function Worth(k: Kind): (w: int)
    ensures 0 <= w <= 18 && (w == 0 <==> k == King)
  {
    match k
    case Pawn => 2
    case Bishop => 6
    case Knight => 6
    case Rook => 10
    case Queen => 18
    case King => 0
  }

  /** The early-game region `0xffff_ffff_7e00_7e00_7e00_7e00_0000_0000`:
      files b-g of ranks 3 to 6, and the whole of the two top lanes
      (ranks 7 and 8, guard bytes included). */
  const CENTRE: Bits := set m | 0 <= m < 128 && (m >= 96 || (32 <= m < 96 && 9 <= m % 16 <= 14))

  /** The mover's material minus the opponent's. */
  function Material(ps: seq<Piece>, turn: Color): int
  {
    if ps == [] then 0
    else
      var p := ps[|ps| - 1];
      Material(ps[..|ps| - 1], turn) + (if p.color == turn then Worth(p.kind) else -Worth(p.kind))
  }

  /** The number of the mover's pieces that touch the early-game region. */
  function Bonus(ps: seq<Piece>, turn: Color): int
  {
    if ps == [] then 0
    else
      var p := ps[|ps| - 1];
      Bonus(ps[..|ps| - 1], turn) + (if p.color == turn && !Disjoint(p.bits, CENTRE) then 1 else 0)
  }

  /** The check penalties: 2 for being in check, 1000 more when no move is
      left. */
  function Penalty(info: Info): int
  {
    (if info.check && info.validMoves == 0 then 1000 else 0) + (if info.check then 2 else 0)
  }

  /** What `evaluate(game, info)` returns. */
  function EvalOf(pos: Position, info: Info): I32
  {
    Wrap(Material(pos.pieces, pos.turn) + (if pos.moveCount < 8 then Bonus(pos.pieces, pos.turn) else 0)
         - Penalty(info))
  }

  /** `evaluate(game, info)`: reads both and changes neither. */
  method Evaluate(pos: Position, info: Info) returns (eval: I32)
    ensures eval == EvalOf(pos, info)
  {
    eval := 0;
    if info.check && info.validMoves == 0 {
      eval := Wrap(eval - 1000);
    }
    if info.check {
      WrapAdd(-Penalty(info) + 2, -2);
      eval := Wrap(eval - 2);
    }
    assert eval == Wrap(-Penalty(info));
    var ps := pos.pieces;
    for i := 0 to |ps|
      invariant eval == Wrap(Material(ps[..i], pos.turn)
                             + (if pos.moveCount < 8 then Bonus(ps[..i], pos.turn) else 0) - Penalty(info))
    {
      ghost var base := Material(ps[..i], pos.turn)
                        + (if pos.moveCount < 8 then Bonus(ps[..i], pos.turn) else 0) - Penalty(info);
      assert ps[..i + 1][..i] == ps[..i];
      var p := ps[i];
      if p.color == pos.turn {
        if pos.moveCount < 8 {
          if p.bits * CENTRE != {} {
            WrapAdd(base, 1);
            eval := Wrap(eval + 1);
            base := base + 1;
          }
        }
        WrapAdd(base, Worth(p.kind));
        eval := Wrap(eval + Worth(p.kind));
      } else {
        WrapAdd(base, -Worth(p.kind));
        eval := Wrap(eval - Worth(p.kind));
      }
    }
    assert ps[..|ps|] == ps;
  }

  /** Material is zero-sum: seen from the other side it changes sign. */
  lemma {:induction false} MaterialSwap(ps: seq<Piece>, turn: Color)
    ensures Material(ps, turn.Opposite()) == -Material(ps, turn)
    decreases |ps|
  {
    if ps != [] {
      MaterialSwap(ps[..|ps| - 1], turn);
    }
  }

  /** Each piece is worth at most 18 either way, and the bonus counts at
      most one per piece. */
  lemma {:induction false} MaterialBounds(ps: seq<Piece>, turn: Color)
    ensures -18 * |ps| <= Material(ps, turn) <= 18 * |ps|
    ensures 0 <= Bonus(ps, turn) <= |ps|
    decreases |ps|
  {
    if ps != [] {
      MaterialBounds(ps[..|ps| - 1], turn);
    }
  }

  /** Out of check and past the opening, with fewer than a hundred million
      pieces, the score is own material minus the opponent's; in the
      opening the mover gains one point per piece in the region; being in
      check costs 2, and 1002 when no move is left. */
  lemma EvalShape(pos: Position, info: Info)
    requires |pos.pieces| < 100_000_000
    ensures !info.check && pos.moveCount >= 8 ==> EvalOf(pos, info) == Material(pos.pieces, pos.turn)
    ensures EvalOf(pos, info) == Material(pos.pieces, pos.turn)
              + (if pos.moveCount < 8 then Bonus(pos.pieces, pos.turn) else 0)
              - (if info.check then 2 else 0) - (if info.check && info.validMoves == 0 then 1000 else 0)
  {
    MaterialBounds(pos.pieces, pos.turn);
  }

  // ---------------------------------------------------------------------
  // minimax

  /** What `Vec::remove` panics with when an index is out of range. */
  const REMOVE_PANIC: string := "removal index should be < len"

  /** `cmp::max`. */
  function Max(a: int, b: int): (r: int)
    ensures (r == a || r == b) && a <= r && b <= r
  {
    if a >= b then a else b
  }

  /** `cmp::min`. */
  function Min(a: int, b: int): (r: int)
    ensures (r == a || r == b) && r <= a && r <= b
  {
    if a <= b then a else b
  }

  /** `moves_verbose`, whose code is not part of this model: the moves of
      a position and the `GameInfo` gathered with them. */
  type Expand = Position -> (seq<Piece>, Info)

  /** What `minimax(game, maximizer, depth, alpha, beta)` returns.  A child
      whose `move_piece` panics aborts the whole search. */
  function Search(expand: Expand, pos: Position, maximizer: bool, depth: nat, alpha: I32, beta: I32): (r: Result<int>)
    ensures r.Ok? ==> MIN <= r.value <= MAX
    decreases depth, 1, 0
  {
    var (ms, info) := expand(pos);
    if depth <= 1 || info.validMoves == 0 then Ok(EvalOf(pos, info))
    else if maximizer then MaxLoop(expand, pos, BitsOf(ms), 0, depth, MIN, alpha, beta)
    else MinLoop(expand, pos, BitsOf(ms), 0, depth, MAX, alpha, beta)
  }

  /** The maximizer's loop from move i on, with the running `best` and
      `alpha`. */
  function MaxLoop(expand: Expand, pos: Position, moves: seq<Bits>, i: nat, depth: nat,
                   best: I32, alpha: I32, beta: I32): (r: Result<int>)
    requires i <= |moves| && depth >= 2
    ensures r.Ok? ==> best <= r.value <= MAX
    decreases depth, 0, |moves| - i
  {
    if i == |moves| then Ok(best)
    else
      var (child, ok) := Played(pos, moves[i]);
      if !ok then Panic(REMOVE_PANIC)
      else
        var v := Search(expand, child, false, depth - 1, alpha, beta);
        if !v.Ok? then v
        else
          var best' := Max(best, v.value);
          var alpha' := Max(alpha, best');
          if beta <= alpha' then Ok(best')
          else MaxLoop(expand, pos, moves, i + 1, depth, best', alpha', beta)
  }

  /** The minimizer's loop from move i on, with the running `best` and
      `beta`. */
  function MinLoop(expand: Expand, pos: Position, moves: seq<Bits>, i: nat, depth: nat,
                   best: I32, alpha: I32, beta: I32): (r: Result<int>)
    requires i <= |moves| && depth >= 2
    ensures r.Ok? ==> MIN <= r.value <= best
    decreases depth, 0, |moves| - i
  {
    if i == |moves| then Ok(best)
    else
      var (child, ok) := Played(pos, moves[i]);
      if !ok then Panic(REMOVE_PANIC)
      else
        var v := Search(expand, child, true, depth - 1, alpha, beta);
        if !v.Ok? then v
        else
          var best' := Min(best, v.value);
          var beta' := Min(beta, best');
          if beta' <= alpha then Ok(best')
          else MinLoop(expand, pos, moves, i + 1, depth, best', alpha, beta')
  }

  /** `minimax(game, maximizer, depth, alpha, beta)`. */
  method Minimax(expand: Expand, pos: Position, maximizer: bool, depth: nat, alpha: I32, beta: I32)
    returns (r: Result<int>)
    ensures r == Search(expand, pos, maximizer, depth, alpha, beta)
    decreases depth, 1
  {
    var (ms, info) := expand(pos);
    var moves := BitsOf(ms);
    if depth <= 1 || info.validMoves == 0 {
      var e := Evaluate(pos, info);
      return Ok(e);
    }
    if maximizer {
      r := Maximize(expand, pos, moves, depth, alpha, beta);
    } else {
      r := Minimize(expand, pos, moves, depth, alpha, beta);
    }
  }

  /** `game.clone()` followed by `move_piece(mv)` on the copy: the
      position searched is never changed. */
  method PlayCopy(pos: Position, mv: Bits) returns (child: Position, ok: bool)
    ensures (child, ok) == Played(pos, mv)
  {
    var game := new Game(pos);
    ok := game.MovePiece(mv);
    child := game.Snapshot();
  }

  /** The maximizer's branch: `alpha` rises with `best`, and the loop
      stops once `beta <= alpha`. */
  method Maximize(expand: Expand, pos: Position, moves: seq<Bits>, depth: nat, alpha: I32, beta: I32)
    returns (r: Result<int>)
    requires depth >= 2
    ensures r == MaxLoop(expand, pos, moves, 0, depth, MIN, alpha, beta)
    decreases depth, 0
  {
    var alpha': I32 := alpha;
    var best: I32 := MIN;
    var i := 0;
    while i < |moves|
      invariant 0 <= i <= |moves| && alpha <= alpha'
      invariant MaxLoop(expand, pos, moves, 0, depth, MIN, alpha, beta)
                == MaxLoop(expand, pos, moves, i, depth, best, alpha', beta)
      decreases |moves| - i
    {
      var child, ok := PlayCopy(pos, moves[i]);
      if !ok {
        return Panic(REMOVE_PANIC);
      }
      var v := Minimax(expand, child, false, depth - 1, alpha', beta);
      if !v.Ok? {
        return v;
      }
      best := Max(best, v.value);
      alpha' := Max(alpha', best);
      if beta <= alpha' {
        return Ok(best);
      }
      i := i + 1;
    }
    return Ok(best);
  }

  /** The minimizer's branch: `beta` falls with `best`, and the loop
      stops once `beta <= alpha`. */
  method Minimize(expand: Expand, pos: Position, moves: seq<Bits>, depth: nat, alpha: I32, beta: I32)
    returns (r: Result<int>)
    requires depth >= 2
    ensures r == MinLoop(expand, pos, moves, 0, depth, MAX, alpha, beta)
    decreases depth, 0
  {
    var beta': I32 := beta;
    var best: I32 := MAX;
    var i := 0;
    while i < |moves|
      invariant 0 <= i <= |moves| && beta' <= beta
      invariant MinLoop(expand, pos, moves, 0, depth, MAX, alpha, beta)
                == MinLoop(expand, pos, moves, i, depth, best, alpha, beta')
      decreases |moves| - i
    {
      var child, ok := PlayCopy(pos, moves[i]);
      if !ok {
        return Panic(REMOVE_PANIC);
      }
      var v := Minimax(expand, child, true, depth - 1, alpha, beta');
      if !v.Ok? {
        return v;
      }
      best := Min(best, v.value);
      beta' := Min(beta', best);
      if beta' <= alpha {
        return Ok(best);
      }
      i := i + 1;
    }
    return Ok(best);
  }

  // ---------------------------------------------------------------------
  // Plain minimax, the reference for the pruned search

  /** The minimax value of a position searched to `depth`: every child is
      searched, and a panic in any of them aborts. */
  function Value(expand: Expand, pos: Position, maximizer: bool, depth: nat): (r: Result<int>)
    ensures r.Ok? ==> MIN <= r.value <= MAX
    decreases depth, 1, 0
  {
    var (ms, info) := expand(pos);
    if depth <= 1 || info.validMoves == 0 then Ok(EvalOf(pos, info))
    else if maximizer then MaxAll(expand, pos, BitsOf(ms), 0, depth, MIN)
    else MinAll(expand, pos, BitsOf(ms), 0, depth, MAX)
  }

  function MaxAll(expand: Expand, pos: Position, moves: seq<Bits>, i: nat, depth: nat, best: I32): (r: Result<int>)
    requires i <= |moves| && depth >= 2
    ensures r.Ok? ==> best <= r.value <= MAX
    decreases depth, 0, |moves| - i
  {
    if i == |moves| then Ok(best)
    else
      var (child, ok) := Played(pos, moves[i]);
      if !ok then Panic(REMOVE_PANIC)
      else
        var v := Value(expand, child, false, depth - 1);
        if !v.Ok? then v else MaxAll(expand, pos, moves, i + 1, depth, Max(best, v.value))
  }

  function MinAll(expand: Expand, pos: Position, moves: seq<Bits>, i: nat, depth: nat, best: I32): (r: Result<int>)
    requires i <= |moves| && depth >= 2
    ensures r.Ok? ==> MIN <= r.value <= best
    decreases depth, 0, |moves| - i
  {
    if i == |moves| then Ok(best)
    else
      var (child, ok) := Played(pos, moves[i]);
      if !ok then Panic(REMOVE_PANIC)
      else
        var v := Value(expand, child, true, depth - 1);
        if !v.Ok? then v else MinAll(expand, pos, moves, i + 1, depth, Min(best, v.value))
  }

  /** A score seen through the window [alpha, beta]. */
  function Clamp(x: int, alpha: int, beta: int): int
  {
    Max(alpha, Min(x, beta))
  }

  /** Alpha-beta pruning is sound: wherever plain minimax gets a value,
      the pruned search gets one too, and both agree once seen through the
      search window. */
  lemma {:induction false} SearchSound(expand: Expand, pos: Position, maximizer: bool, depth: nat, alpha: I32, beta: I32)
    requires Value(expand, pos, maximizer, depth).Ok?
    ensures Search(expand, pos, maximizer, depth, alpha, beta).Ok?
    ensures Clamp(Search(expand, pos, maximizer, depth, alpha, beta).value, alpha, beta)
         == Clamp(Value(expand, pos, maximizer, depth).value, alpha, beta)
    decreases depth, 1, 0
  {
    var (ms, info) := expand(pos);
    if !(depth <= 1 || info.validMoves == 0) {
      if maximizer {
        MaxLoopSound(expand, pos, BitsOf(ms), 0, depth, MIN, alpha, alpha, beta, MIN);
      } else {
        MinLoopSound(expand, pos, BitsOf(ms), 0, depth, MAX, alpha, beta, beta, MAX);
      }
    }
  }

  /** The maximizer's loop against the full maximum: `best` and the true
      maximum `m` of the moves before i agree through the window, and
      `alpha` is the window's lower end raised to `best`. */
  lemma {:induction false} MaxLoopSound(expand: Expand, pos: Position, moves: seq<Bits>, i: nat, depth: nat,
                                        best: I32, alpha0: I32, alpha: I32, beta: I32, m: I32)
    requires i <= |moves| && depth >= 2
    requires alpha == Max(alpha0, best) && Clamp(best, alpha0, beta) == Clamp(m, alpha0, beta)
    requires MaxAll(expand, pos, moves, i, depth, m).Ok?
    ensures MaxLoop(expand, pos, moves, i, depth, best, alpha, beta).Ok?
    ensures Clamp(MaxLoop(expand, pos, moves, i, depth, best, alpha, beta).value, alpha0, beta)
         == Clamp(MaxAll(expand, pos, moves, i, depth, m).value, alpha0, beta)
    decreases depth, 0, |moves| - i
  {
    if i < |moves| {
      var (child, ok) := Played(pos, moves[i]);
      var v := Value(expand, child, false, depth - 1).value;
      SearchSound(expand, child, false, depth - 1, alpha, beta);
      var r := Search(expand, child, false, depth - 1, alpha, beta).value;
      var best', m' := Max(best, r), Max(m, v);
      var alpha' := Max(alpha, best');
      if beta <= alpha' {
        assert MaxAll(expand, pos, moves, i + 1, depth, m').value >= m';
      } else {
        MaxLoopSound(expand, pos, moves, i + 1, depth, best', alpha0, alpha', beta, m');
      }
    }
  }

  /** The minimizer's loop against the full minimum, symmetrically. */
  lemma {:induction false} MinLoopSound(expand: Expand, pos: Position, moves: seq<Bits>, i: nat, depth: nat,
                                        best: I32, alpha: I32, beta0: I32, beta: I32, m: I32)
    requires i <= |moves| && depth >= 2
    requires beta == Min(beta0, best) && Clamp(best, alpha, beta0) == Clamp(m, alpha, beta0)
    requires MinAll(expand, pos, moves, i, depth, m).Ok?
    ensures MinLoop(expand, pos, moves, i, depth, best, alpha, beta).Ok?
    ensures Clamp(MinLoop(expand, pos, moves, i, depth, best, alpha, beta).value, alpha, beta0)
         == Clamp(MinAll(expand, pos, moves, i, depth, m).value, alpha, beta0)
    decreases depth, 0, |moves| - i
  {
    if i < |moves| {
      var (child, ok) := Played(pos, moves[i]);
      var v := Value(expand, child, true, depth - 1).value;
      SearchSound(expand, child, true, depth - 1, alpha, beta);
      var r := Search(expand, child, true, depth - 1, alpha, beta).value;
      var best', m' := Min(best, r), Min(m, v);
      var beta' := Min(beta, best');
      if beta' <= alpha {
        assert MinAll(expand, pos, moves, i + 1, depth, m').value <= m';
      } else {
        MinLoopSound(expand, pos, moves, i + 1, depth, best', alpha, beta0, beta', m');
      }
    }
  }

  /** Searched with the full window, as at the root, the pruned search
      returns exactly the minimax value. */
  lemma FullWindow(expand: Expand, pos: Position, maximizer: bool, depth: nat)
    requires Value(expand, pos, maximizer, depth).Ok?
    ensures Search(expand, pos, maximizer, depth, MIN, MAX) == Value(expand, pos, maximizer, depth)
  {
    SearchSound(expand, pos, maximizer, depth, MIN, MAX);
  }

  /** At depth 1, or with no valid moves, the search is the static
      evaluation whatever the window. */
  lemma SearchLeaf(expand: Expand, pos: Position, maximizer: bool, depth: nat, alpha: I32, beta: I32)
    requires depth <= 1 || expand(pos).1.validMoves == 0
    ensures Search(expand, pos, maximizer, depth, alpha, beta) == Ok(EvalOf(pos, expand(pos).1))
  {
  }
}
