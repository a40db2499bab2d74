/** The board text `encode` writes (wasm/src/game/fen/encode.rs) and how
    `decode` reads it back (wasm/src/game/fen/decode.rs). */
module FenBoardText {
  import opened Board
  import opened Pieces
  import opened Wrappers
  import opened Text
  import opened FenValidate
  import opened FenDecode
  import opened FenEncode
  import opened FenRankText

  // ---------------------------------------------------------------------
  // The board text

  lemma Assoc(a: seq<Piece>, b: seq<Piece>, c: seq<Piece>)
    ensures a + b + c == a + (b + c)
  {
  }

  /** Eight ranks of eight cells. */
  predicate GridCells(g: seq<seq<char>>)
  {
    |g| == 8 && forall y {:trigger Cells(g[y])} | 0 <= y < 8 :: Cells(g[y])
  }

  /** The piece of the cell at file j of rank 8 - k, as `decode` builds
      it. */
  function CellPiece(g: seq<seq<char>>, k: nat, j: nat): seq<Piece>
    requires GridCells(g) && k < 8 && j < 8
  {
    assert Cells(g[7 - k]);
    var c := g[7 - k][j];
    if c == '.' then [] else [New(KindOf(c), j, 7 - k, ColorOf(c))]
  }

  /** The pieces of the cells in reading order (rank 8 first, file a
      first) from file j of rank 8 - k on. */
  function Scan(g: seq<seq<char>>, k: nat, j: nat): seq<Piece>
    requires GridCells(g) && k <= 8 && j <= 8
    decreases 8 - k, 8 - j
  {
    if k == 8 then []
    else if j == 8 then Scan(g, k + 1, 0)
    else CellPiece(g, k, j) + Scan(g, k, j + 1)
  }

  /** The ranks written for a board are rows `validate` accepts. */
  lemma RowsOk(g: seq<seq<char>>)
    requires GridCells(g)
    ensures forall k | 0 <= k < 8 :: RowOk(Rows(g)[k])
  {
    forall k | 0 <= k < 8
      ensures RowOk(Rows(g)[k])
    {
      RowTextShape(g[7 - k], 0, 0);
    }
  }

  /** A rank's cells from file j on, then the ranks below, are the cells
      from that point on in reading order. */
  lemma {:induction false} RankScan(g: seq<seq<char>>, k: nat, j: nat)
    requires GridCells(g) && k < 8 && j <= 8
    ensures CellPieces(g[7 - k], j, 7 - k) + Scan(g, k + 1, 0) == Scan(g, k, j)
    decreases 8 - j
  {
    if j < 8 {
      RankScan(g, k, j + 1);
      var c, rest := CellPiece(g, k, j), Scan(g, k + 1, 0);
      assert CellPieces(g[7 - k], j, 7 - k) == c + CellPieces(g[7 - k], j + 1, 7 - k);
      Assoc(c, CellPieces(g[7 - k], j + 1, 7 - k), rest);
    } else {
      assert CellPieces(g[7 - k], j, 7 - k) == [];
    }
  }

  /** `decode` reads the text of rank 8 - k back as its cells' pieces. */
  lemma RankReads(g: seq<seq<char>>, k: nat, acc: seq<Piece>)
    requires |g| == 8 && k < 8 && Cells(g[7 - k])
    ensures RowRest(Rows(g)[k], 0, 0)
    ensures RowFrom(Rows(g)[k], 0, 0, 7 - k, acc) == acc + CellPieces(g[7 - k], 0, 7 - k)
  {
    ReadsAs(Rows(g)[k], g[7 - k], 7 - k, acc);
  }

  lemma ReadsAs(t: string, v: seq<char>, y: int, acc: seq<Piece>)
    requires Cells(v) && 0 <= y < 8 && t == RowText(v, 0, 0)
    ensures RowRest(t, 0, 0) && RowFrom(t, 0, 0, y, acc) == acc + CellPieces(v, 0, y)
  {
    RowTextReads(v, 0, 0, y, acc);
  }

  /** `decode` reads the board text back as the cells' pieces in reading
      order. */
  lemma {:induction false} BoardReads(g: seq<seq<char>>, k: nat, acc: seq<Piece>)
    requires GridCells(g) && k <= 8 && forall j | 0 <= j < 8 :: RowOk(Rows(g)[j])
    ensures BoardFrom(Rows(g), k, acc) == acc + Scan(g, k, 0)
    decreases 8 - k
  {
    if k < 8 {
      var rows := Rows(g);
      BoardStep(rows, k, acc);
      RankReads(g, k, acc);
      var cells := CellPieces(g[7 - k], 0, 7 - k);
      BoardReads(g, k + 1, acc + cells);
      RankScan(g, k, 0);
      Assoc(acc, cells, Scan(g, k + 1, 0));
    } else {
      assert acc + [] == acc;
    }
  }
}
