/** Reading back the board `encode` draws for a canonical piece list
    (wasm/src/game/fen/encode.rs and decode.rs). */
module FenGridScan {
  import opened Board
  import opened Pieces
  import opened Wrappers
  import opened FenValidate
  import opened FenEncode
  import opened FenRankText
  import opened FenBoardText
  import opened FenBoardOrder

  /** Reading the drawn board of a canonical list from reading position
      8k + j on gives the pieces from that position on. */
  lemma {:induction false} GridScan(ps: seq<Piece>, k: nat, j: nat, c: int)
    requires Canonical(ps) && k <= 8 && j <= 8 && SplitAt(ps, c, 8 * k + j)
    ensures GridCells(Grid(ps)) && Scan(Grid(ps), k, j) == ps[c..]
    decreases 8 - k, 8 - j
  {
    GridChars(ps);
    if k == 8 {
      assert ps[c..] == [];
    } else if j == 8 {
      GridScan(ps, k + 1, 0, c);
    } else if c < |ps| && Order(ps[c]) == 8 * k + j {
      if c + 1 < |ps| {
        assert OnSquare(ps[c + 1]);
      }
      GridScan(ps, k, j + 1, c + 1);
      ScanFound(ps, k, j, c);
    } else {
      assert SplitAt(ps, c, 8 * k + j + 1) by {
        forall i | c <= i < |ps|
          ensures Order(ps[i]) >= 8 * k + j + 1
        {
          if i > c {
            assert Order(ps[c]) < Order(ps[i]);
          }
        }
      }
      GridScan(ps, k, j + 1, c);
      ScanEmpty(ps, k, j, c);
    }
  }

  /** The step of `GridScan` at the square of piece c. */
  lemma ScanFound(ps: seq<Piece>, k: nat, j: nat, c: nat)
    requires Canonical(ps) && k < 8 && j < 8 && c < |ps| && Order(ps[c]) == 8 * k + j
    requires GridCells(Grid(ps)) && Scan(Grid(ps), k, j + 1) == ps[c + 1..]
    ensures Scan(Grid(ps), k, j) == ps[c..]
  {
    var g := Grid(ps);
    GridAt(ps, j, 7 - k);
    CellFound(ps, k, j, c);
    assert CellPiece(g, k, j) == [ps[c]];
    ConsSlice(ps, c);
  }

  lemma ConsSlice(s: seq<Piece>, c: nat)
    requires c < |s|
    ensures s[c..] == [s[c]] + s[c + 1..]
  {
  }

  /** The step of `GridScan` at a square no piece stands on. */
  lemma ScanEmpty(ps: seq<Piece>, k: nat, j: nat, c: nat)
    requires Canonical(ps) && k < 8 && j < 8 && c <= |ps| && SplitAt(ps, c, 8 * k + j)
    requires c < |ps| ==> Order(ps[c]) != 8 * k + j
    requires GridCells(Grid(ps)) && Scan(Grid(ps), k, j + 1) == ps[c..]
    ensures Scan(Grid(ps), k, j) == ps[c..]
  {
    var g := Grid(ps);
    GridAt(ps, j, 7 - k);
    NoneAt(ps, k, j, c);
    CellAtEmptyAll(ps, j, 7 - k);
    assert CellPiece(g, k, j) == [];
    assert [] + ps[c..] == ps[c..];
  }

  /** The cell at reading position 8k + j, where piece c stands. */
  lemma CellFound(ps: seq<Piece>, k: nat, j: nat, c: nat)
    requires Canonical(ps) && k < 8 && j < 8 && c < |ps| && Order(ps[c]) == 8 * k + j
    ensures CellAt(ps, j, 7 - k) == Letter(ps[c])
    ensures New(KindOf(Letter(ps[c])), j, 7 - k, ColorOf(Letter(ps[c]))) == ps[c]
  {
    OrderAt(ps[c], k, j);
    assert OnSquare(ps[c]);
    CellAtFoundAll(ps, c, j, 7 - k);
    LetterPiece(ps[c], j, 7 - k);
  }

  /** No piece stands at reading position 8k + j. */
  lemma NoneAt(ps: seq<Piece>, k: nat, j: nat, c: nat)
    requires Canonical(ps) && k < 8 && j < 8 && c <= |ps| && SplitAt(ps, c, 8 * k + j)
    requires c < |ps| ==> Order(ps[c]) != 8 * k + j
    ensures forall i | 0 <= i < |ps| :: PosOf(ps[i].bits) != Some((j, 7 - k))
  {
    forall i | 0 <= i < |ps|
      ensures PosOf(ps[i].bits) != Some((j, 7 - k))
    {
      NotAt(ps, k, j, c, i);
    }
  }

  /** Piece i is not at reading position 8k + j. */
  lemma NotAt(ps: seq<Piece>, k: nat, j: nat, c: nat, i: nat)
    requires Canonical(ps) && k < 8 && j < 8 && c <= |ps| && SplitAt(ps, c, 8 * k + j)
    requires c < |ps| ==> Order(ps[c]) != 8 * k + j
    requires i < |ps|
    ensures PosOf(ps[i].bits) != Some((j, 7 - k))
  {
    OrderAt(ps[i], k, j);
    if i < c {
      assert Order(ps[i]) < 8 * k + j;
    } else if i == c {
    } else {
      assert Order(ps[c]) < Order(ps[i]);
      assert Order(ps[c]) >= 8 * k + j;
    }
  }

  /** Drawing a canonical list and reading the board back in reading order
      gives the list. */
  lemma GridRoundTrip(ps: seq<Piece>)
    requires Canonical(ps)
    ensures GridCells(Grid(ps)) && Scan(Grid(ps), 0, 0) == ps
  {
    if 0 < |ps| {
      assert OnSquare(ps[0]);
    }
    GridScan(ps, 0, 0, 0);
  }
}
