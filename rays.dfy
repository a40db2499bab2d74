/** The sliding-piece ray walk shared by rook, bishop and queen
    (`test_move` plus the `validate` closures in
    wasm/src/game/pieces/{rook,bishop,queen}.rs).

    A ray shifts the piece's bits by step*i for i = 1..7.  It stops, without
    emitting, at the first shifted board that is off the board or meets a
    teammate; it emits the first one that meets an opponent and then stops
    (a capture); every other shifted board is emitted and the walk goes on. */
module Rays {
  import opened Board
  import opened Pieces

  /** The eight ray directions, named as in the Rust comments. */
  datatype Dir = North | South | West | East | NorthWest | SouthEast | NorthEast | SouthWest
  {
    /** Whether the walk shifts towards the high bits (`<<`). */
    predicate Left()
    {
      this.North? || this.West? || this.NorthWest? || this.NorthEast?
    }

    /** The shift per square: `i << 4`, `i`, `(i << 4) + i` or `(i << 4) - i`
        for step i. */
    function Step(): int
    {
      match this
      case North | South => 16
      case West | East => 1
      case NorthWest | SouthEast => 17
      case NorthEast | SouthWest => 15
    }
  }

  /** The board tested at step i: `bits << step*i` or `bits >> step*i`. */
  function Target(origin: Bits, d: Dir, i: int): Bits
    requires 1 <= i <= 7
  {
    if d.Left() then Shl(origin, d.Step() * i) else Shr(origin, d.Step() * i)
  }

  /** The seven boards `for i in 1..8` tests along d, in order. */
  function Targets(origin: Bits, d: Dir): (ts: seq<Bits>)
    ensures |ts| == 7 && forall k | 0 <= k < 7 :: ts[k] == Target(origin, d, k + 1)
  {
    seq(7, k requires 0 <= k < 7 => Target(origin, d, k + 1))
  }

  /** The stopping rule of the `validate` closures, applied to the boards ts
      in order: stop before the first one off the board or on a teammate, emit
      and stop at the first one on an opponent, emit and go on otherwise. */
  function Walk(ts: seq<Bits>, opp: Bits, team: Bits): seq<Bits>
  {
    if ts == [] || !OnBoard(ts[0]) || !Disjoint(ts[0], team) then []
    else if !Disjoint(ts[0], opp) then [ts[0]]
    else [ts[0]] + Walk(ts[1..], opp, team)
  }

  /** The destinations of one ray. */
  function Ray(origin: Bits, d: Dir, opp: Bits, team: Bits): seq<Bits>
  {
    Walk(Targets(origin, d), opp, team)
  }

  /** What a walk emits, stated without the walk: a prefix of the tested
      boards, each on the board and free of teammates, each but the last free
      of opponents, and cut short only after a capture or before a board that
      is off the board or holds a teammate. */
  lemma {:induction false} WalkShape(ts: seq<Bits>, opp: Bits, team: Bits)
    ensures var r := Walk(ts, opp, team);
      && r <= ts
      && (forall k | 0 <= k < |r| :: OnBoard(r[k]) && Disjoint(r[k], team))
      && (forall k | 0 <= k < |r| - 1 :: Disjoint(r[k], opp))
      && (|r| < |ts| ==>
            (r != [] && !Disjoint(r[|r| - 1], opp)) || !OnBoard(ts[|r|]) || !Disjoint(ts[|r|], team))
  {
    if ts != [] {
      WalkShape(ts[1..], opp, team);
    }
  }

  /** The shape above fixes the walk: any list with that shape is the walk. */
  lemma {:induction false} WalkUnique(ts: seq<Bits>, opp: Bits, team: Bits, r: seq<Bits>)
    requires r <= ts
    requires forall k | 0 <= k < |r| :: OnBoard(r[k]) && Disjoint(r[k], team)
    requires forall k | 0 <= k < |r| - 1 :: Disjoint(r[k], opp)
    requires |r| < |ts| ==>
      (r != [] && !Disjoint(r[|r| - 1], opp)) || !OnBoard(ts[|r|]) || !Disjoint(ts[|r|], team)
    ensures r == Walk(ts, opp, team)
  {
    if r != [] {
      if |r| > 1 {
        assert r[1..] <= ts[1..];
        WalkUnique(ts[1..], opp, team, r[1..]);
        assert r == [r[0]] + r[1..];
      }
    }
  }

  /** A walk that has reached a board free of opponents goes on to the
      next board whenever that one is on the board and free of teammates. */
  lemma WalkPasses(ts: seq<Bits>, opp: Bits, team: Bits, j: int)
    requires 0 <= j < |Walk(ts, opp, team)| && j + 1 < |ts|
    requires Disjoint(ts[j], opp) && OnBoard(ts[j + 1]) && Disjoint(ts[j + 1], team)
    ensures j + 1 < |Walk(ts, opp, team)| && Walk(ts, opp, team)[j + 1] == ts[j + 1]
  {
    WalkShape(ts, opp, team);
  }

  /** A ray has at most seven destinations. */
  lemma RayLength(origin: Bits, d: Dir, opp: Bits, team: Bits)
    ensures |Ray(origin, d, opp, team)| <= 7
  {
    WalkShape(Targets(origin, d), opp, team);
  }

  /** The file and rank change of one step along d. */
  function Delta(d: Dir): (int, int)
  {
    var f, r := (if d.Step() == 15 then -1 else if d.Step() == 16 then 0 else 1), (if d.Step() == 1 then 0 else 1);
    if d.Left() then (f, r) else (-f, -r)
  }

  /** Step i along d is a move of i times d's file and rank change. */
  lemma TargetOffset(origin: Bits, d: Dir, i: int)
    requires 1 <= i <= 7
    ensures -7 <= i * Delta(d).0 <= 7 && -128 < 16 * (i * Delta(d).1) + i * Delta(d).0 < 128
    ensures Target(origin, d, i) == Offset(origin, i * Delta(d).0, i * Delta(d).1)
  {
    var dx, dy := Delta(d).0, Delta(d).1;
    var sign := if d.Left() then 1 else -1;
    if d.Step() == 1 {
      assert dx == sign && dy == 0;
    } else if d.Step() == 15 {
      assert dx == -sign && dy == sign;
    } else if d.Step() == 16 {
      assert dx == 0 && dy == sign;
    } else {
      assert dx == sign && dy == sign;
    }
    assert 16 * (i * dy) + i * dx == sign * (d.Step() * i);
  }

  /** t is the square i steps away from (x, y) along d. */
  predicate OnLine(t: Bits, x: int, y: int, d: Dir, i: int)
  {
    var x2, y2 := x + i * Delta(d).0, y + i * Delta(d).1;
    0 <= x2 < 8 && 0 <= y2 < 8 && t == Square(x2, y2)
  }

  /** Step i of a walk from square (x, y) lands on the board exactly when the
      square i steps away along d exists, and it is then that square. */
  lemma TargetGeometry(x: int, y: int, d: Dir, i: int)
    requires 0 <= x < 8 && 0 <= y < 8 && 1 <= i <= 7
    ensures var dx, dy, t := Delta(d).0, Delta(d).1, Target(Square(x, y), d, i);
      && (OnBoard(t) <==> 0 <= x + i * dx < 8 && 0 <= y + i * dy < 8)
      && (OnBoard(t) ==> OnLine(t, x, y, d, i))
  {
    TargetOffset(Square(x, y), d, i);
    StepSquare(x, y, i * Delta(d).0, i * Delta(d).1);
  }

  /** A ray from square (x, y) runs along its line: destination k is the
      square k+1 steps away along d (FIDE Laws, articles 3.3 to 3.5). */
  lemma RayGeometry(x: int, y: int, d: Dir, opp: Bits, team: Bits)
    requires 0 <= x < 8 && 0 <= y < 8
    ensures var r := Ray(Square(x, y), d, opp, team);
      forall k | 0 <= k < |r| :: OnLine(r[k], x, y, d, k + 1)
  {
    var o := Square(x, y);
    var r := Ray(o, d, opp, team);
    WalkShape(Targets(o, d), opp, team);
    forall k | 0 <= k < |r| ensures OnLine(r[k], x, y, d, k + 1) {
      assert r[k] == Targets(o, d)[k] == Target(o, d, k + 1);
      TargetGeometry(x, y, d, k + 1);
    }
  }

  /** One step of the walk, unfolded at position j of the tested boards. */
  lemma WalkStep(ts: seq<Bits>, j: int, opp: Bits, team: Bits)
    requires 0 <= j < |ts|
    ensures var t := ts[j];
      Walk(ts[j..], opp, team)
        == if !OnBoard(t) || !Disjoint(t, team) then []
           else if !Disjoint(t, opp) then [t]
           else [t] + Walk(ts[j + 1..], opp, team)
  {
    assert ts[j..][1..] == ts[j + 1..];
  }

  /** The walk has stopped: what was emitted so far is the whole ray. */
  lemma WalkDone(pushed: seq<Bits>, tail: seq<Bits>, ray: seq<Bits>)
    requires pushed + tail == ray && tail == []
    ensures pushed == ray
  {
    assert pushed + [] == pushed;
  }

  /** `test_move` with the `validate` closure of `moves`: walk one ray and
      push origin | destination for each emitted destination. */
  method PushRay(kind: Kind, origin: Bits, color: Color, d: Dir, opp: Bits, team: Bits, moves: seq<Piece>)
    returns (res: seq<Piece>)
    ensures res == moves + AsMoves(kind, origin, color, Ray(origin, d, opp, team))
  {
    res := moves;
    ghost var pushed: seq<Bits> := [];
    var i: int := 1;
    var stop := false;
    while !stop
      invariant 1 <= i <= 8
      invariant !stop ==> pushed + Walk(Targets(origin, d)[i - 1..], opp, team) == Ray(origin, d, opp, team)
      invariant !stop ==> res == moves + AsMoves(kind, origin, color, pushed)
      invariant stop ==> res == moves + AsMoves(kind, origin, color, Ray(origin, d, opp, team))
      decreases 8 - i, !stop
    {
      res, pushed, stop := PushRayProbe(kind, origin, color, d, opp, team, moves, i, res, pushed);
      if !stop { i := i + 1; }
    }
  }

  /** One pass of the `for i in 1..8` loop of PushRay, from step i. */
  method PushRayProbe(kind: Kind, origin: Bits, color: Color, d: Dir, opp: Bits, team: Bits, moves: seq<Piece>,
                      i: int, res: seq<Piece>, ghost pushed: seq<Bits>)
    returns (res': seq<Piece>, ghost pushed': seq<Bits>, stop: bool)
    requires 1 <= i <= 8
    requires pushed + Walk(Targets(origin, d)[i - 1..], opp, team) == Ray(origin, d, opp, team)
    requires res == moves + AsMoves(kind, origin, color, pushed)
    ensures i == 8 ==> stop
    ensures !stop ==> pushed' + Walk(Targets(origin, d)[i..], opp, team) == Ray(origin, d, opp, team)
    ensures !stop ==> res' == moves + AsMoves(kind, origin, color, pushed')
    ensures stop ==> res' == moves + AsMoves(kind, origin, color, Ray(origin, d, opp, team))
  {
    ghost var ts := Targets(origin, d);
    ghost var ray := Ray(origin, d, opp, team);
    res', pushed', stop := res, pushed, true;
    if i == 8 {
      WalkDone(pushed, Walk(ts[i - 1..], opp, team), ray);
      return;
    }
    var test := Target(origin, d, i);
    WalkStep(ts, i - 1, opp, team);
    if !OnBoard(test) || !Disjoint(test, team) {
      WalkDone(pushed, Walk(ts[i - 1..], opp, team), ray);
      return;
    }
    var last := !Disjoint(test, opp);
    ghost var rest := if last then [] else Walk(ts[i..], opp, team);
    PushRayStep(kind, origin, color, moves, res, pushed, test, rest, last, Walk(ts[i - 1..], opp, team), ray);
    res' := res + [Piece(kind, test + origin, color)];
    pushed' := pushed + [test];
    stop := last;
  }

  /** One emitted destination, as sequence bookkeeping for PushRay. */
  lemma PushRayStep(kind: Kind, origin: Bits, color: Color, moves: seq<Piece>, res: seq<Piece>,
                 pushed: seq<Bits>, t: Bits, rest: seq<Bits>, last: bool, tail: seq<Bits>, ray: seq<Bits>)
    requires pushed + tail == ray
    requires if last then tail == [t] && rest == [] else tail == [t] + rest
    requires res == moves + AsMoves(kind, origin, color, pushed)
    ensures (pushed + [t]) + rest == ray
    ensures last ==> pushed + [t] == ray
    ensures res + [Piece(kind, t + origin, color)] == moves + AsMoves(kind, origin, color, pushed + [t])
  {
    AsMovesAppend(kind, origin, color, pushed, [t]);
    assert [t] + [] == [t];
    assert (pushed + [t]) + rest == pushed + ([t] + rest);
  }

  /** `test_move` with the `validate` closure of `moves_as_bits` (inclusive)
      or `moves_as_bits_exclusive`: OR each emitted destination, together
      with the origin when inclusive, into the accumulator. */
  method OrRay(origin: Bits, d: Dir, opp: Bits, team: Bits, acc: Bits, inclusive: bool)
    returns (res: Bits)
    ensures res == acc + Reach(origin, Ray(origin, d, opp, team), inclusive)
  {
    res := acc;
    ghost var pushed: seq<Bits> := [];
    var i: int := 1;
    var stop := false;
    while !stop
      invariant 1 <= i <= 8
      invariant !stop ==> pushed + Walk(Targets(origin, d)[i - 1..], opp, team) == Ray(origin, d, opp, team)
      invariant !stop ==> res == acc + Reach(origin, pushed, inclusive)
      invariant stop ==> res == acc + Reach(origin, Ray(origin, d, opp, team), inclusive)
      decreases 8 - i, !stop
    {
      res, pushed, stop := OrRayProbe(origin, d, opp, team, acc, inclusive, i, res, pushed);
      if !stop { i := i + 1; }
    }
  }

  /** One pass of the `for i in 1..8` loop of OrRay, from step i. */
  method OrRayProbe(origin: Bits, d: Dir, opp: Bits, team: Bits, acc: Bits, inclusive: bool,
                    i: int, res: Bits, ghost pushed: seq<Bits>)
    returns (res': Bits, ghost pushed': seq<Bits>, stop: bool)
    requires 1 <= i <= 8
    requires pushed + Walk(Targets(origin, d)[i - 1..], opp, team) == Ray(origin, d, opp, team)
    requires res == acc + Reach(origin, pushed, inclusive)
    ensures i == 8 ==> stop
    ensures !stop ==> pushed' + Walk(Targets(origin, d)[i..], opp, team) == Ray(origin, d, opp, team)
    ensures !stop ==> res' == acc + Reach(origin, pushed', inclusive)
    ensures stop ==> res' == acc + Reach(origin, Ray(origin, d, opp, team), inclusive)
  {
    ghost var ts := Targets(origin, d);
    ghost var ray := Ray(origin, d, opp, team);
    res', pushed', stop := res, pushed, true;
    if i == 8 {
      WalkDone(pushed, Walk(ts[i - 1..], opp, team), ray);
      return;
    }
    var test := Target(origin, d, i);
    WalkStep(ts, i - 1, opp, team);
    if !OnBoard(test) || !Disjoint(test, team) {
      WalkDone(pushed, Walk(ts[i - 1..], opp, team), ray);
      return;
    }
    var last := !Disjoint(test, opp);
    ghost var rest := if last then [] else Walk(ts[i..], opp, team);
    OrRayStep(origin, acc, res, inclusive, pushed, test, rest, last, Walk(ts[i - 1..], opp, team), ray);
    res' := res + (if inclusive then test + origin else test);
    pushed' := pushed + [test];
    stop := last;
  }

  /** One emitted destination, as accumulator bookkeeping for OrRay. */
  lemma OrRayStep(origin: Bits, acc: Bits, res: Bits, inclusive: bool,
               pushed: seq<Bits>, t: Bits, rest: seq<Bits>, last: bool, tail: seq<Bits>, ray: seq<Bits>)
    requires pushed + tail == ray
    requires if last then tail == [t] && rest == [] else tail == [t] + rest
    requires res == acc + Reach(origin, pushed, inclusive)
    ensures (pushed + [t]) + rest == ray
    ensures last ==> pushed + [t] == ray
    ensures res + (if inclusive then t + origin else t) == acc + Reach(origin, pushed + [t], inclusive)
  {
    UnionAppend(pushed, [t]);
    assert [t] + [] == [t];
    assert (pushed + [t]) + rest == pushed + ([t] + rest);
  }

  /** The destinations of several rays from one origin, ray after ray, as
      the successive `test_move` calls of a sliding piece emit them. */
  function Sweep(origin: Bits, ds: seq<Dir>, opp: Bits, team: Bits): seq<Bits>
  {
    if ds == [] then [] else Ray(origin, ds[0], opp, team) + Sweep(origin, ds[1..], opp, team)
  }

  lemma {:induction false} SweepAppend(origin: Bits, a: seq<Dir>, b: seq<Dir>, opp: Bits, team: Bits)
    ensures Sweep(origin, a + b, opp, team) == Sweep(origin, a, opp, team) + Sweep(origin, b, opp, team)
    decreases |a|
  {
    if a == [] {
      assert a + b == b;
    } else {
      assert (a + b)[1..] == a[1..] + b;
      SweepAppend(origin, a[1..], b, opp, team);
    }
  }

  /** A sweep emits at most seven destinations per direction. */
  lemma {:induction false} SweepLength(origin: Bits, ds: seq<Dir>, opp: Bits, team: Bits)
    ensures |Sweep(origin, ds, opp, team)| <= 7 * |ds|
    decreases |ds|
  {
    if ds != [] {
      RayLength(origin, ds[0], opp, team);
      SweepLength(origin, ds[1..], opp, team);
    }
  }

  /** Every destination of a sweep comes from one of its rays. */
  lemma {:induction false} SweepMember(origin: Bits, ds: seq<Dir>, opp: Bits, team: Bits, t: Bits)
    requires t in Sweep(origin, ds, opp, team)
    ensures exists j | 0 <= j < |ds| :: t in Ray(origin, ds[j], opp, team)
    decreases |ds|
  {
    if t !in Ray(origin, ds[0], opp, team) {
      SweepMember(origin, ds[1..], opp, team, t);
      var j :| 0 <= j < |ds[1..]| && t in Ray(origin, ds[1..][j], opp, team);
      assert ds[1..][j] == ds[j + 1];
    }
  }

  /** Every square a sweep lists is on the board and off the team. */
  lemma SweepKept(origin: Bits, ds: seq<Dir>, opp: Bits, team: Bits, t: Bits)
    requires t in Sweep(origin, ds, opp, team)
    ensures OnBoard(t) && Disjoint(t, team)
  {
    SweepMember(origin, ds, opp, team, t);
    var j :| 0 <= j < |ds| && t in Ray(origin, ds[j], opp, team);
    WalkShape(Targets(origin, ds[j]), opp, team);
  }

  /** Every destination of a sweep from square (x, y) is the square some
      number of steps away along one of its directions. */
  lemma SweepGeometry(x: int, y: int, ds: seq<Dir>, opp: Bits, team: Bits, t: Bits)
    requires 0 <= x < 8 && 0 <= y < 8 && t in Sweep(Square(x, y), ds, opp, team)
    ensures exists j, i | 0 <= j < |ds| && 1 <= i <= 7 :: OnLine(t, x, y, ds[j], i)
  {
    SweepMember(Square(x, y), ds, opp, team, t);
    var j :| 0 <= j < |ds| && t in Ray(Square(x, y), ds[j], opp, team);
    var r := Ray(Square(x, y), ds[j], opp, team);
    var k :| 0 <= k < |r| && r[k] == t;
    RayGeometry(x, y, ds[j], opp, team);
    RayLength(Square(x, y), ds[j], opp, team);
    assert OnLine(t, x, y, ds[j], k + 1);
  }

  /** A sweep from a single-bit origin never reaches the origin. */
  lemma {:induction false} SweepAvoidsOrigin(origin: Bits, ds: seq<Dir>, opp: Bits, team: Bits)
    requires Single(origin)
    ensures Disjoint(Union(Sweep(origin, ds, opp, team)), origin)
    decreases |ds|
  {
    if ds != [] {
      RayAvoidsOrigin(origin, ds[0], opp, team);
      SweepAvoidsOrigin(origin, ds[1..], opp, team);
      UnionAppend(Ray(origin, ds[0], opp, team), Sweep(origin, ds[1..], opp, team));
    }
  }

  /** The sweep of the first j+1 directions extends that of the first j by
      one ray. */
  lemma SweepStep(origin: Bits, ds: seq<Dir>, j: int, opp: Bits, team: Bits)
    requires 0 <= j < |ds|
    ensures Sweep(origin, ds[..j + 1], opp, team) == Sweep(origin, ds[..j], opp, team) + Ray(origin, ds[j], opp, team)
  {
    SweepAppend(origin, ds[..j], [ds[j]], opp, team);
    assert ds[..j + 1] == ds[..j] + [ds[j]];
    assert Sweep(origin, [ds[j]], opp, team) == Ray(origin, ds[j], opp, team) + [];
  }

  lemma PushRaysStep(kind: Kind, origin: Bits, color: Color, moves: seq<Piece>, ds: seq<Dir>, j: int, opp: Bits, team: Bits)
    requires 0 <= j < |ds|
    ensures moves + AsMoves(kind, origin, color, Sweep(origin, ds[..j], opp, team)) + AsMoves(kind, origin, color, Ray(origin, ds[j], opp, team))
         == moves + AsMoves(kind, origin, color, Sweep(origin, ds[..j + 1], opp, team))
  {
    SweepStep(origin, ds, j, opp, team);
    AsMovesAppend(kind, origin, color, Sweep(origin, ds[..j], opp, team), Ray(origin, ds[j], opp, team));
  }

  lemma OrRaysStep(origin: Bits, acc: Bits, ds: seq<Dir>, j: int, opp: Bits, team: Bits, inclusive: bool)
    requires 0 <= j < |ds|
    ensures acc + Reach(origin, Sweep(origin, ds[..j], opp, team), inclusive) + Reach(origin, Ray(origin, ds[j], opp, team), inclusive)
         == acc + Reach(origin, Sweep(origin, ds[..j + 1], opp, team), inclusive)
  {
    SweepStep(origin, ds, j, opp, team);
    ReachAppend(origin, Sweep(origin, ds[..j], opp, team), Ray(origin, ds[j], opp, team), inclusive);
  }

  /** `test_move` for each direction in turn, with the `validate` closure of
      `moves`. */
  method PushRays(kind: Kind, origin: Bits, color: Color, ds: seq<Dir>, opp: Bits, team: Bits, moves: seq<Piece>)
    returns (res: seq<Piece>)
    ensures res == moves + AsMoves(kind, origin, color, Sweep(origin, ds, opp, team))
  {
    res := moves;
    for j := 0 to |ds|
      invariant res == moves + AsMoves(kind, origin, color, Sweep(origin, ds[..j], opp, team))
    {
      res := PushRay(kind, origin, color, ds[j], opp, team, res);
      PushRaysStep(kind, origin, color, moves, ds, j, opp, team);
    }
    assert ds[..|ds|] == ds;
  }

  /** `test_move` for each direction in turn, with the `validate` closure of
      `moves_as_bits` (inclusive) or `moves_as_bits_exclusive`. */
  method OrRays(origin: Bits, ds: seq<Dir>, opp: Bits, team: Bits, acc: Bits, inclusive: bool)
    returns (res: Bits)
    ensures res == acc + Reach(origin, Sweep(origin, ds, opp, team), inclusive)
  {
    res := acc;
    for j := 0 to |ds|
      invariant res == acc + Reach(origin, Sweep(origin, ds[..j], opp, team), inclusive)
    {
      res := OrRay(origin, ds[j], opp, team, res, inclusive);
      OrRaysStep(origin, acc, ds, j, opp, team, inclusive);
    }
    assert ds[..|ds|] == ds;
  }

  /** No destination of a ray from a single-bit origin is the origin. */
  lemma RayAvoidsOrigin(origin: Bits, d: Dir, opp: Bits, team: Bits)
    requires Single(origin)
    ensures Disjoint(Union(Ray(origin, d, opp, team)), origin)
  {
    var ts := Targets(origin, d);
    var r := Ray(origin, d, opp, team);
    WalkShape(ts, opp, team);
    forall k | 0 <= k < |r| ensures r[k] * origin == {} {
      assert r[k] == ts[k] == Target(origin, d, k + 1);
      ShiftAvoids(origin, d.Step() * (k + 1));
    }
    UnionAvoids(r, origin);
  }
}
