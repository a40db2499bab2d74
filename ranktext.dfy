/** The text `encode` writes for one rank (wasm/src/game/fen/encode.rs)
    and how `decode` reads it back (wasm/src/game/fen/decode.rs). */
module FenRankText {
  import opened Board
  import opened Pieces
  import opened Wrappers
  import opened Text
  import opened FenValidate
  import opened FenDecode
  import opened FenEncode

  // ---------------------------------------------------------------------
  // Reading a row text from the front

  /** Where the file count and the piece list stand after reading c at
      file x of rank y. */
  function StepX(c: char, x: int): int
  {
    if IsDigit(c) then x + DigitValue(c) else x + 1
  }

  function StepAcc(c: char, x: int, y: int, acc: seq<Piece>): seq<Piece>
    requires IsDigit(c) || (0 <= x < 8 && 0 <= y < 8)
  {
    if IsDigit(c) then acc else acc + [New(KindOf(c), x, y, ColorOf(c))]
  }

  lemma {:induction false} RowFromSuffix(s: string, i: nat, x: int, y: int, acc: seq<Piece>)
    requires RowRest(s, i, x) && 0 <= y < 8
    ensures RowRest(s[i..], 0, x) && RowFrom(s, i, x, y, acc) == RowFrom(s[i..], 0, x, y, acc)
    decreases |s| - i
  {
    assert s[i..][0..] == s[i..];
    if i < |s| {
      RowSquaresStep(s, i);
      var t := s[i..];
      assert t[1..] == s[i + 1..];
      RowSquaresStep(t, 0);
      RowFromSuffix(s, i + 1, StepX(s[i], x), y, StepAcc(s[i], x, y, acc));
      RowFromSuffix(t, 1, StepX(s[i], x), y, StepAcc(s[i], x, y, acc));
    }
  }

  /** Reading a row is reading its first character, then the rest. */
  lemma RowFromCons(s: string, x: int, y: int, acc: seq<Piece>)
    requires RowRest(s, 0, x) && s != [] && 0 <= y < 8
    ensures IsDigit(s[0]) || 0 <= x < 8
    ensures RowRest(s[1..], 0, StepX(s[0], x))
    ensures RowFrom(s, 0, x, y, acc) == RowFrom(s[1..], 0, StepX(s[0], x), y, StepAcc(s[0], x, y, acc))
  {
    RowSquaresStep(s, 0);
    RowFromSuffix(s, 1, StepX(s[0], x), y, StepAcc(s[0], x, y, acc));
  }

  // ---------------------------------------------------------------------
  // The text of a rank

  /** A rank of the character board: eight cells, each '.' or a piece
      letter. */
  predicate Cells(v: seq<char>)
  {
    |v| == 8 && forall x | 0 <= x < 8 :: CellChar(v[x])
  }

  predicate CellChar(c: char)
  {
    c == '.' || c in PIECE_LETTERS
  }

  /** The pieces of the cells from file j on, as `decode` builds them. */
  function CellPieces(v: seq<char>, j: nat, y: int): seq<Piece>
    requires Cells(v) && j <= 8 && 0 <= y < 8
    decreases 8 - j
  {
    if j == 8 then []
    else (if v[j] == '.' then [] else [New(KindOf(v[j]), j, y, ColorOf(v[j]))]) + CellPieces(v, j + 1, y)
  }

  /** A row text is well formed when it is made of digits and piece
      letters with no two digits side by side. */
  predicate RowChars(t: string)
  {
    && (forall k | 0 <= k < |t| :: IsDigit(t[k]) || t[k] in PIECE_LETTERS)
    && (forall k | 0 <= k < |t| - 1 :: !DigitPair(t, k))
  }

  lemma ConsChars(c: char, u: string)
    requires IsDigit(c) || c in PIECE_LETTERS
    requires RowChars(u) && (IsDigit(c) ==> u == [] || !IsDigit(u[0]))
    ensures RowChars([c] + u)
    ensures RowSquares([c] + u) == (if IsDigit(c) then DigitValue(c) else 1) + RowSquares(u)
  {
    var t := [c] + u;
    assert t[1..] == u;
    forall k | 0 <= k < |t| - 1
      ensures !DigitPair(t, k)
    {
      if k > 0 {
        assert !DigitPair(u, k - 1);
      }
    }
  }

  lemma LetterNotDigit(c: char)
    requires c in PIECE_LETTERS
    ensures !IsDigit(c)
  {
  }

  lemma FlushDigit(e: nat)
    requires 0 < e < 10
    ensures Flush(e) == [DigitChar(e)]
  {
  }

  /** The text of a rank from cell j with e empty cells pending is well
      formed and covers the pending cells and the rest of the rank. */
  lemma {:induction false} RowTextShape(v: seq<char>, j: nat, e: nat)
    requires Cells(v) && j <= 8 && e <= j
    ensures RowChars(RowText(v, j, e)) && RowSquares(RowText(v, j, e)) == e + 8 - j
    decreases 8 - j
  {
    if j == 8 {
      if e != 0 {
        FlushDigit(e);
        assert RowText(v, j, e) == [DigitChar(e)] + [];
        ConsChars(DigitChar(e), []);
      }
    } else if v[j] == '.' {
      RowTextShape(v, j + 1, e + 1);
    } else {
      RowTextShape(v, j + 1, 0);
      ShapeLetter(v, j, e);
    }
  }

  /** The letter step of `RowTextShape`. */
  lemma ShapeLetter(v: seq<char>, j: nat, e: nat)
    requires Cells(v) && j < 8 && e <= j && v[j] != '.'
    requires RowChars(RowText(v, j + 1, 0)) && RowSquares(RowText(v, j + 1, 0)) == 8 - (j + 1)
    ensures RowChars(RowText(v, j, e)) && RowSquares(RowText(v, j, e)) == e + 8 - j
  {
    var t, r := RowText(v, j, e), RowText(v, j + 1, 0);
    var u := [v[j]] + r;
    ConsChars(v[j], r);
    if e != 0 {
      FlushDigit(e);
      assert t == [DigitChar(e)] + u;
      ConsChars(DigitChar(e), u);
    } else {
      assert t == u;
    }
  }

  lemma RowTextRest(v: seq<char>, j: nat, e: nat)
    requires Cells(v) && j <= 8 && e <= j
    ensures RowRest(RowText(v, j, e), 0, j - e)
  {
    RowTextShape(v, j, e);
    assert RowText(v, j, e)[0..] == RowText(v, j, e);
  }

  /** `decode` reads the text of a rank back as the pieces of its cells. */
  lemma {:induction false} RowTextReads(v: seq<char>, j: nat, e: nat, y: int, acc: seq<Piece>)
    requires Cells(v) && j <= 8 && e <= j && 0 <= y < 8
    ensures RowRest(RowText(v, j, e), 0, j - e)
    ensures RowFrom(RowText(v, j, e), 0, j - e, y, acc) == acc + CellPieces(v, j, y)
    decreases 8 - j
  {
    RowTextRest(v, j, e);
    if j == 8 {
      ReadsEnd(v, e, y, acc);
    } else if v[j] == '.' {
      RowTextReads(v, j + 1, e + 1, y, acc);
      assert RowText(v, j, e) == RowText(v, j + 1, e + 1);
      assert CellPieces(v, j, y) == [] + CellPieces(v, j + 1, y) == CellPieces(v, j + 1, y);
    } else {
      RowTextReads(v, j + 1, 0, y, acc + [New(KindOf(v[j]), j, y, ColorOf(v[j]))]);
      ReadsLetter(v, j, e, y, acc);
    }
  }

  /** The end of a rank: the pending count alone. */
  lemma ReadsEnd(v: seq<char>, e: nat, y: int, acc: seq<Piece>)
    requires Cells(v) && e <= 8 && 0 <= y < 8
    requires RowRest(RowText(v, 8, e), 0, 8 - e)
    ensures RowFrom(RowText(v, 8, e), 0, 8 - e, y, acc) == acc + CellPieces(v, 8, y)
  {
    var t := RowText(v, 8, e);
    if e != 0 {
      FlushDigit(e);
      var d := DigitChar(e);
      assert t == [d] && t[1..] == [];
      RowFromCons(t, 8 - e, y, acc);
      assert StepX(d, 8 - e) == 8 && StepAcc(d, 8 - e, y, acc) == acc;
    } else {
      assert t == [];
    }
    assert acc + [] == acc;
  }

  /** The letter step of `RowTextReads`. */
  lemma ReadsLetter(v: seq<char>, j: nat, e: nat, y: int, acc: seq<Piece>)
    requires Cells(v) && j < 8 && e <= j && 0 <= y < 8 && v[j] != '.'
    requires RowRest(RowText(v, j + 1, 0), 0, j + 1)
    requires RowFrom(RowText(v, j + 1, 0), 0, j + 1, y, acc + [New(KindOf(v[j]), j, y, ColorOf(v[j]))])
      == acc + [New(KindOf(v[j]), j, y, ColorOf(v[j]))] + CellPieces(v, j + 1, y)
    ensures RowRest(RowText(v, j, e), 0, j - e)
    ensures RowFrom(RowText(v, j, e), 0, j - e, y, acc) == acc + CellPieces(v, j, y)
  {
    RowTextRest(v, j, e);
    var r := RowText(v, j + 1, 0);
    ReadFlushLetter(RowText(v, j, e), v[j], r, e, j, y, acc, CellPieces(v, j + 1, y));
  }

  /** Reading a pending count, a letter and the rest of a row. */
  lemma ReadFlushLetter(t: string, c: char, r: string, e: nat, j: nat, y: int, acc: seq<Piece>, rest: seq<Piece>)
    requires c in PIECE_LETTERS && e <= j < 8 && 0 <= y < 8
    requires t == Flush(e) + [c] + r && RowRest(t, 0, j - e) && RowRest(r, 0, j + 1)
    requires RowFrom(r, 0, j + 1, y, acc + [New(KindOf(c), j, y, ColorOf(c))]) == acc + [New(KindOf(c), j, y, ColorOf(c))] + rest
    ensures RowFrom(t, 0, j - e, y, acc) == acc + ([New(KindOf(c), j, y, ColorOf(c))] + rest)
  {
    var u := [c] + r;
    if e != 0 {
      FlushDigit(e);
      assert t == [DigitChar(e)] + u;
      ReadDigit(t, e, j - e, y, acc);
    } else {
      assert t == u;
    }
    ReadLetter(u, j, y, acc, rest);
  }

  /** A single digit e at the front of a row skips e files. */
  lemma ReadDigit(t: string, e: nat, x: int, y: int, acc: seq<Piece>)
    requires 0 < e < 10 && 0 <= y < 8 && t != [] && t[0] == DigitChar(e) && RowRest(t, 0, x)
    ensures RowRest(t[1..], 0, x + e)
    ensures RowFrom(t, 0, x, y, acc) == RowFrom(t[1..], 0, x + e, y, acc)
  {
    RowFromCons(t, x, y, acc);
    assert StepX(t[0], x) == x + e && StepAcc(t[0], x, y, acc) == acc;
  }

  /** A piece letter at the front of a row places its piece on file j. */
  lemma ReadLetter(u: string, j: int, y: int, acc: seq<Piece>, rest: seq<Piece>)
    requires 0 <= j < 8 && 0 <= y < 8 && u != [] && u[0] in PIECE_LETTERS && RowRest(u, 0, j)
    requires RowFrom(u[1..], 0, j + 1, y, acc + [New(KindOf(u[0]), j, y, ColorOf(u[0]))])
      == acc + [New(KindOf(u[0]), j, y, ColorOf(u[0]))] + rest
    ensures RowFrom(u, 0, j, y, acc) == acc + ([New(KindOf(u[0]), j, y, ColorOf(u[0]))] + rest)
  {
    var p := New(KindOf(u[0]), j, y, ColorOf(u[0]));
    LetterNotDigit(u[0]);
    RowFromCons(u, j, y, acc);
    assert StepX(u[0], j) == j + 1 && StepAcc(u[0], j, y, acc) == acc + [p];
    assert acc + [p] + rest == acc + ([p] + rest);
  }
}
