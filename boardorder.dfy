/** Which piece lists survive being drawn on the board and read back
    (wasm/src/game/fen/encode.rs places the pieces, decode.rs reads them in
    board order).

    Drawing keeps one letter per square and forgets the order of the list;
    reading lists the pieces rank 8 first, file a first.  So a list comes
    back unchanged exactly when every piece stands alone on one square and
    the list is already in that reading order. */
module FenBoardOrder {
  import opened Board
  import opened Pieces
  import opened Wrappers
  import opened FenValidate
  import opened FenEncode
  import opened FenRankText
  import opened FenBoardText
  import Notation

  /** The piece stands alone on one square. */
  predicate OnSquare(p: Piece)
  {
    PosOf(p.bits).Some? && p.bits == Square(PosOf(p.bits).value.0, PosOf(p.bits).value.1)
  }

  /** The place of the piece's square in reading order: rank 8 first, file
      a first. */
  function Order(p: Piece): (t: int)
    ensures 0 <= t <= 64 && (t < 64 <==> PosOf(p.bits).Some?)
  {
    match PosOf(p.bits)
    case None => 64
    case Some(xy) => 8 * (7 - xy.1) + xy.0
  }

  /** Every piece alone on its square, listed in strictly increasing reading
      order (so no two share a square). */
  predicate Canonical(ps: seq<Piece>)
  {
    && (forall i {:trigger OnSquare(ps[i])} | 0 <= i < |ps| :: OnSquare(ps[i]))
    && (forall i, j | 0 <= i < j < |ps| :: Order(ps[i]) < Order(ps[j]))
  }

  /** The first c pieces come before reading position t and the others do
      not; piece c, when there is one, stands on the board. */
  predicate SplitAt(ps: seq<Piece>, c: int, t: int)
  {
    && 0 <= c <= |ps|
    && (forall i | 0 <= i < c :: Order(ps[i]) < t)
    && (forall i | c <= i < |ps| :: Order(ps[i]) >= t)
    && (c < |ps| ==> t <= Order(ps[c]) < 64)
  }

  /** A single square is found at its own file and rank. */
  lemma PosOfSquare(x: int, y: int)
    requires 0 <= x < 8 && 0 <= y < 8
    ensures PosOf(Square(x, y)) == Some((x, y))
  {
    var n := Index(x, y);
    Notation.LowestIs({n}, 0, n);
  }

  /** Reading position 8k + j is file j of rank 8 - k. */
  lemma OrderAt(p: Piece, k: int, j: int)
    requires 0 <= k < 8 && 0 <= j < 8
    ensures Order(p) == 8 * k + j <==> PosOf(p.bits) == Some((j, 7 - k))
  {
    if PosOf(p.bits).Some? {
      var xy := PosOf(p.bits).value;
      Base8(7 - xy.1, xy.0, k, j);
    }
  }

  /** Base-8 numerals with one digit below 8 are unique. */
  lemma Base8(a: int, b: int, c: int, d: int)
    requires 0 <= b < 8 && 0 <= d < 8
    ensures 8 * a + b == 8 * c + d <==> a == c && b == d
  {
    if a < c {
      assert 8 * a + b < 8 * (a + 1) <= 8 * c;
    } else if c < a {
      assert 8 * c + d < 8 * (c + 1) <= 8 * a;
    }
  }

  /** The piece `decode` builds from a piece's letter on the piece's own
      square is the piece. */
  lemma LetterPiece(p: Piece, x: int, y: int)
    requires 0 <= x < 8 && 0 <= y < 8 && p.bits == Square(x, y)
    ensures New(KindOf(Letter(p)), x, y, ColorOf(Letter(p))) == p
  {
  }

  /** A drawn cell holds '.' or a piece letter. */
  lemma {:induction false} CellAtChar(ps: seq<Piece>, x: int, y: int)
    ensures CellChar(CellAt(ps, x, y))
    decreases |ps|
  {
    if ps != [] {
      CellAtChar(ps[..|ps| - 1], x, y);
    }
  }

  /** A drawn board is eight ranks of eight such cells. */
  lemma GridChars(ps: seq<Piece>)
    ensures GridCells(Grid(ps))
  {
    var g := Grid(ps);
    forall y | 0 <= y < 8
      ensures Cells(g[y])
    {
      forall x | 0 <= x < 8
        ensures CellChar(g[y][x])
      {
        CellAtChar(ps, x, y);
      }
    }
  }

  /** A square no piece of the first m stands on is drawn empty. */
  lemma {:induction false} CellAtEmpty(ps: seq<Piece>, m: nat, x: int, y: int)
    requires m <= |ps| && forall i | 0 <= i < m :: PosOf(ps[i].bits) != Some((x, y))
    ensures CellAt(ps[..m], x, y) == '.'
    decreases m
  {
    if m > 0 {
      assert ps[..m][..m - 1] == ps[..m - 1];
      CellAtEmpty(ps, m - 1, x, y);
    }
  }

  /** In a canonical list, the square of piece i shows piece i's letter. */
  lemma {:induction false} CellAtFound(ps: seq<Piece>, m: nat, i: nat, x: int, y: int)
    requires Canonical(ps) && i < m <= |ps| && PosOf(ps[i].bits) == Some((x, y))
    ensures CellAt(ps[..m], x, y) == Letter(ps[i])
    decreases m
  {
    assert ps[..m][..m - 1] == ps[..m - 1];
    if i < m - 1 {
      assert Order(ps[i]) < Order(ps[m - 1]);
      CellAtFound(ps, m - 1, i, x, y);
    }
  }

  lemma GridAt(ps: seq<Piece>, x: int, y: int)
    requires 0 <= x < 8 && 0 <= y < 8
    ensures Grid(ps)[y][x] == CellAt(ps, x, y)
  {
  }

  lemma CellAtEmptyAll(ps: seq<Piece>, x: int, y: int)
    requires forall i | 0 <= i < |ps| :: PosOf(ps[i].bits) != Some((x, y))
    ensures CellAt(ps, x, y) == '.'
  {
    assert ps[..|ps|] == ps;
    CellAtEmpty(ps, |ps|, x, y);
  }

  lemma CellAtFoundAll(ps: seq<Piece>, i: nat, x: int, y: int)
    requires Canonical(ps) && i < |ps| && PosOf(ps[i].bits) == Some((x, y))
    ensures CellAt(ps, x, y) == Letter(ps[i])
  {
    assert ps[..|ps|] == ps;
    CellAtFound(ps, |ps|, i, x, y);
  }
}
