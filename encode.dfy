/** Writing a game as a FEN record (wasm/src/game/fen/encode.rs).

    Each piece is placed on an 8x8 board of characters at the square of its
    lowest on-board bit (a later piece overwrites an earlier one on the same
    square); the board is written rank 8 first, runs of empty squares as
    their length, ranks separated by '/'.  The other five fields follow, one
    space before each.  The closing call to `validate` has its result
    dropped, so it does not change what is returned. */
module FenEncode {
  import opened Board
  import opened Pieces
  import opened Wrappers
  import opened Text
  import opened FenValidate
  import Notation
  import Castle
  import Games

  const INVALID: string := "Invalid bit boards"

  /** What the `pos` closure finds: file and rank of the lowest on-board
      bit, rank 1 first. */
  function PosOf(bits: Bits): (r: Option<(int, int)>)
    ensures r.Some? ==> 0 <= r.value.0 < 8 && 0 <= r.value.1 < 8 && Index(r.value.0, r.value.1) in bits
    ensures r.None? <==> !OnBoard(bits)
  {
    Notation.AlgebraicOfShape(bits);
    match Notation.Lowest(bits, 0)
    case None => None
    case Some(n) => Some((n % 16 - 8, n / 16))
  }

  /** The `pos` closure. */
  method Locate(bits: Bits) returns (r: Option<(int, int)>)
    ensures r == PosOf(bits)
  {
    for lane := 0 to 8
      invariant forall m | 0 <= m < 16 * lane :: !(m in bits && m in MASK)
    {
      Notation.LaneBits(bits, lane);
      if bits * Lane(lane) != {} {
        for j := 0 to 8
          invariant forall m | 16 * lane <= m < 16 * lane + 8 + j :: !(m in bits && m in MASK)
        {
          // `bits >> (i + j + 8) & 1 != 0`
          if Index(j, lane) in bits {
            Notation.LowestIs(bits, 0, Index(j, lane));
            return Some((j, lane));
          }
        }
      }
    }
    Notation.LowestNone(bits);
    return None;
  }

  /** Every piece has an on-board bit. */
  predicate Located(ps: seq<Piece>)
  {
    forall j | 0 <= j < |ps| :: PosOf(ps[j].bits).Some?
  }

  /** The character the board holds at file x, rank y once the pieces have
      been placed: the letter of the last piece found there, or '.'. */
  function CellAt(ps: seq<Piece>, x: int, y: int): char
  {
    if ps == [] then '.'
    else if PosOf(ps[|ps| - 1].bits) == Some((x, y)) then Letter(ps[|ps| - 1])
    else CellAt(ps[..|ps| - 1], x, y)
  }

  /** The whole board, indexed by rank and then by file. */
  function Grid(ps: seq<Piece>): (g: seq<seq<char>>)
    ensures |g| == 8 && forall y | 0 <= y < 8 :: |g[y]| == 8
  {
    seq(8, y => seq(8, x => CellAt(ps, x, y)))
  }

  /** The board loop of `encode`: placing each piece, failing on the first
      one with no square. */
  method FillBoard(ps: seq<Piece>) returns (board: array2<char>, ok: bool)
    ensures fresh(board) && board.Length0 == 8 && board.Length1 == 8
    ensures ok == Located(ps)
    ensures ok ==> forall y, x | 0 <= y < 8 && 0 <= x < 8 :: board[y, x] == Grid(ps)[y][x]
  {
    board := new char[8, 8]((y, x) => '.');
    for i := 0 to |ps|
      invariant Located(ps[..i])
      invariant Shows(board, ps[..i])
    {
      var xy := Locate(ps[i].bits);
      if xy.None? {
        return board, false;
      }
      LocatedStep(ps, i);
      Place(board, ps, i, xy.value);
    }
    assert ps[..|ps|] == ps;
    return board, true;
  }

  /** The board holds the cells the pieces give. */
  predicate Shows(board: array2<char>, ps: seq<Piece>)
    reads board
  {
    && board.Length0 == 8 && board.Length1 == 8
    && forall y, x | 0 <= y < 8 && 0 <= x < 8 :: board[y, x] == CellAt(ps, x, y)
  }

  /** `board[xy.1][xy.0] = <letter>` for piece i. */
  method Place(board: array2<char>, ps: seq<Piece>, i: int, xy: (int, int))
    requires 0 <= i < |ps| && Shows(board, ps[..i])
    requires PosOf(ps[i].bits) == Some(xy)
    modifies board
    ensures Shows(board, ps[..i + 1])
  {
    board[xy.1, xy.0] := Letter(ps[i]);
    forall y, x | 0 <= y < 8 && 0 <= x < 8
      ensures board[y, x] == CellAt(ps[..i + 1], x, y)
    {
      CellStep(ps, i, x, y);
    }
  }

  lemma LocatedStep(ps: seq<Piece>, i: int)
    requires 0 <= i < |ps| && Located(ps[..i]) && PosOf(ps[i].bits).Some?
    ensures Located(ps[..i + 1])
  {
    var qs := ps[..i + 1];
    forall j | 0 <= j < i + 1
      ensures PosOf(qs[j].bits).Some?
    {
      if j < i {
        assert qs[j] == ps[..i][j];
      }
    }
  }

  lemma CellStep(ps: seq<Piece>, i: int, x: int, y: int)
    requires 0 <= i < |ps|
    ensures CellAt(ps[..i + 1], x, y) ==
      if PosOf(ps[i].bits) == Some((x, y)) then Letter(ps[i]) else CellAt(ps[..i], x, y)
  {
    assert ps[..i + 1][..i] == ps[..i];
  }

  /** The text of a rank from cell j on, with e empty cells pending. */
  function RowText(v: seq<char>, j: nat, e: nat): string
    requires j <= |v|
    decreases |v| - j
  {
    if j == |v| then Flush(e)
    else if v[j] == '.' then RowText(v, j + 1, e + 1)
    else Flush(e) + [v[j]] + RowText(v, j + 1, 0)
  }

  /** A pending run of empty cells, written as its length. */
  function Flush(e: nat): string
  {
    if e != 0 then Decimal(e) else []
  }

  /** The ranks' texts, rank 8 first. */
  function Rows(g: seq<seq<char>>): (rs: seq<string>)
    requires |g| == 8
    ensures |rs| == 8
  {
    seq(8, k requires 0 <= k < 8 => RowText(g[7 - k], 0, 0))
  }

  /** The texts, each followed by '/'. */
  function Terminated(rs: seq<string>): string
  {
    if rs == [] then [] else Terminated(rs[..|rs| - 1]) + rs[|rs| - 1] + ['/']
  }

  function SideText(c: Color): string
  {
    if c == White then "w" else "b"
  }

  /** The castling field: the letter of each right held, in the order
      K Q k q, or "-" when the flag word is zero. */
  function CastlingText(c: Bits): string
  {
    (if c * Castle.K_ID != {} then "K" else []) + (if c * Castle.Q_ID != {} then "Q" else [])
    + (if c * Castle.k_ID != {} then "k" else []) + (if c * Castle.q_ID != {} then "q" else [])
    + (if c == {} then "-" else [])
  }

  /** The en-passant field: the name of the target square, or "-" when
      there is none or it has no on-board bit. */
  function EnPassantText(ep: Bits): string
  {
    if ep == {} then "-"
    else match Notation.AlgebraicOf(ep)
      case Ok(s) => s
      case _ => "-"
  }

  /** What `encode(game)` returns. */
  function EncodeOf(pos: Games.Position): Result<string>
    requires pos.halfMoves >= 0 && pos.moveCount >= 0
  {
    if !Located(pos.pieces) then Err(INVALID)
    else
      Ok(Join(Rows(Grid(pos.pieces)), '/') + " " + SideText(pos.turn) + " " + CastlingText(pos.castling)
         + " " + EnPassantText(pos.enPassant) + " " + Decimal(pos.halfMoves) + " " + Decimal(pos.moveCount))
  }

  /** `encode(game)`. */
  method Encode(pos: Games.Position) returns (r: Result<string>)
    requires pos.halfMoves >= 0 && pos.moveCount >= 0
    ensures r == EncodeOf(pos)
  {
    var board, ok := FillBoard(pos.pieces);
    if !ok {
      return Err(INVALID);
    }
    ghost var rs := Rows(Grid(pos.pieces));
    var fen := WriteBoard(board, Grid(pos.pieces));
    TerminatedJoin(rs);
    fen := fen[..|fen| - 1];
    fen := fen + " " + SideText(pos.turn) + " ";
    var castling := WriteCastling(pos.castling);
    fen := fen + castling + " ";
    if pos.enPassant != {} {
      var name := Notation.BitsToAlgebraic(pos.enPassant);
      fen := fen + (if name.Ok? then name.value else "-");
    } else {
      fen := fen + "-";
    }
    fen := fen + " " + Decimal(pos.halfMoves) + " " + Decimal(pos.moveCount);
    return Ok(fen);
  }

  /** The rank loop of `encode`, rank 8 first, each rank closed by '/'. */
  method WriteBoard(board: array2<char>, ghost g: seq<seq<char>>) returns (fen: string)
    requires board.Length0 == 8 && board.Length1 == 8
    requires |g| == 8 && forall y | 0 <= y < 8 :: |g[y]| == 8
    requires forall y, x | 0 <= y < 8 && 0 <= x < 8 :: board[y, x] == g[y][x]
    ensures fen == Terminated(Rows(g))
  {
    fen := [];
    for k := 0 to 8
      invariant fen == Terminated(Rows(g)[..k])
    {
      fen := WriteRow(board, 7 - k, g[7 - k], fen);
      fen := fen + ['/'];
      assert Rows(g)[..k + 1][..k] == Rows(g)[..k];
    }
    assert Rows(g)[..8] == Rows(g);
  }

  /** One rank: empty cells are counted and the count written before the
      next piece letter and at the end of the rank. */
  method WriteRow(board: array2<char>, y: int, ghost v: seq<char>, acc: string) returns (fen: string)
    requires board.Length0 == 8 && board.Length1 == 8 && 0 <= y < 8
    requires |v| == 8 && forall x | 0 <= x < 8 :: board[y, x] == v[x]
    ensures fen == acc + RowText(v, 0, 0)
  {
    fen := acc;
    var empty := 0;
    for x := 0 to 8
      invariant fen + RowText(v, x, empty) == acc + RowText(v, 0, 0)
    {
      var c := board[y, x];
      if c == '.' {
        empty := empty + 1;
        continue;
      }
      if empty != 0 {
        fen := fen + Decimal(empty);
        empty := 0;
      }
      fen := fen + [c];
    }
    if empty != 0 {
      fen := fen + Decimal(empty);
    }
  }

  /** The castling block of `encode`. */
  method WriteCastling(c: Bits) returns (s: string)
    ensures s == CastlingText(c)
  {
    s := [];
    if c * Castle.K_ID != {} {
      s := s + "K";
    }
    if c * Castle.Q_ID != {} {
      s := s + "Q";
    }
    if c * Castle.k_ID != {} {
      s := s + "k";
    }
    if c * Castle.q_ID != {} {
      s := s + "q";
    }
    if c == {} {
      s := s + "-";
    }
  }

  /** Dropping the last '/' leaves the texts joined by '/'. */
  lemma {:induction false} TerminatedJoin(rs: seq<string>)
    requires rs != []
    ensures |Terminated(rs)| >= 1 && Terminated(rs)[..|Terminated(rs)| - 1] == Join(rs, '/')
  {
    var t := Terminated(rs);
    var init, last := rs[..|rs| - 1], rs[|rs| - 1];
    assert t == Terminated(init) + last + ['/'];
    if |rs| == 1 {
      assert Terminated(init) == [];
      assert t[..|t| - 1] == last;
    } else {
      TerminatedJoin(init);
      JoinLast(rs, '/');
      var u := Terminated(init);
      assert u == u[..|u| - 1] + ['/'];
      assert t[..|t| - 1] == u[..|u| - 1] + ['/'] + last;
    }
  }

  /** Joining splits off the last part as well as the first. */
  lemma {:induction false} JoinLast(rs: seq<string>, sep: char)
    requires |rs| >= 2
    ensures Join(rs, sep) == Join(rs[..|rs| - 1], sep) + [sep] + rs[|rs| - 1]
    decreases |rs|
  {
    if |rs| > 2 {
      JoinLast(rs[1..], sep);
      assert rs[1..][..|rs| - 2] == rs[..|rs| - 1][1..];
    }
  }
}
