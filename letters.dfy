/** What `decode` makes of the letters of the placement field
    (wasm/src/game/fen/decode.rs): one piece per letter, in the order the
    letters are written, so that the pieces spell the field back with the
    digits and the '/' separators left out. */
module FenLetters {
  import opened Board
  import opened Pieces
  import opened Wrappers
  import opened Text
  import opened FenValidate
  import opened FenDecode

  /** The letters of a piece list, in order. */
  function Letters(ps: seq<Piece>): (ls: string)
    ensures |ls| == |ps| && forall i | 0 <= i < |ps| :: ls[i] == Letter(ps[i])
  {
    seq(|ps|, i requires 0 <= i < |ps| => Letter(ps[i]))
  }

  /** The piece letters of a text, in order. */
  function Placement(s: string): string
  {
    if s == [] then [] else (if s[0] in PIECE_LETTERS then [s[0]] else []) + Placement(s[1..])
  }

  lemma {:induction false} PlacementAppend(a: string, b: string)
    ensures Placement(a + b) == Placement(a) + Placement(b)
    decreases |a|
  {
    if a != [] {
      assert (a + b)[0] == a[0] && (a + b)[1..] == a[1..] + b;
      PlacementAppend(a[1..], b);
    } else {
      assert a + b == b;
    }
  }

  /** Leaving out digits and separators does not change how often a piece
      letter occurs. */
  lemma {:induction false} PlacementCount(s: string, c: char)
    requires c in PIECE_LETTERS
    ensures multiset(Placement(s))[c] == multiset(s)[c]
    decreases |s|
  {
    if s != [] {
      PlacementCount(s[1..], c);
      assert s == [s[0]] + s[1..];
    }
  }

  /** The piece letters of rows k.. in order. */
  function PlacementRows(rows: seq<string>, k: nat): string
    requires k <= |rows|
    decreases |rows| - k
  {
    if k == |rows| then [] else Placement(rows[k]) + PlacementRows(rows, k + 1)
  }

  /** The rows joined with '/' hold the same piece letters. */
  lemma {:induction false} JoinPlacement(rows: seq<string>, k: nat)
    requires k < |rows|
    ensures Placement(Join(rows[k..], '/')) == PlacementRows(rows, k)
    decreases |rows| - k
  {
    var rest := rows[k..];
    if |rest| == 1 {
      assert Join(rest, '/') == rows[k];
      assert PlacementRows(rows, k + 1) == [];
    } else {
      assert rest[1..] == rows[k + 1..];
      assert Join(rest, '/') == rows[k] + (['/'] + Join(rows[k + 1..], '/'));
      PlacementAppend(rows[k], ['/'] + Join(rows[k + 1..], '/'));
      assert Placement(['/'] + Join(rows[k + 1..], '/')) == Placement(Join(rows[k + 1..], '/'));
      JoinPlacement(rows, k + 1);
    }
  }

  /** A piece made from its letter has that letter. */
  lemma NewLetter(c: char, x: int, y: int)
    requires c in PIECE_LETTERS && 0 <= x < 8 && 0 <= y < 8
    ensures Letter(New(KindOf(c), x, y, ColorOf(c))) == c
  {
    LetterOf(c);
  }

  lemma LettersPush(acc: seq<Piece>, p: Piece)
    ensures Letters(acc + [p]) == Letters(acc) + [Letter(p)]
  {
  }

  lemma PlacementCons(s: string, i: nat)
    requires i < |s|
    ensures Placement(s[i..]) == (if s[i] in PIECE_LETTERS then [s[i]] else []) + Placement(s[i + 1..])
  {
    assert s[i..][0] == s[i] && s[i..][1..] == s[i + 1..];
  }

  /** A digit of a row skips files and adds no letter. */
  lemma RowDigitStep(s: string, i: nat, x: int, y: int, acc: seq<Piece>)
    requires RowRest(s, i, x) && i < |s| && IsDigit(s[i]) && 0 <= y < 8
    ensures RowRest(s, i + 1, x + DigitValue(s[i]))
    ensures RowFrom(s, i, x, y, acc) == RowFrom(s, i + 1, x + DigitValue(s[i]), y, acc)
    ensures Placement(s[i..]) == Placement(s[i + 1..])
  {
    RowSquaresStep(s, i);
    PlacementCons(s, i);
  }

  /** A letter of a row adds one piece, spelt with that letter. */
  lemma RowLetterStep(s: string, i: nat, x: int, y: int, acc: seq<Piece>)
    requires RowRest(s, i, x) && i < |s| && !IsDigit(s[i]) && 0 <= y < 8
    ensures 0 <= x < 8 && s[i] in PIECE_LETTERS && RowRest(s, i + 1, x + 1)
    ensures RowFrom(s, i, x, y, acc) == RowFrom(s, i + 1, x + 1, y, acc + [New(KindOf(s[i]), x, y, ColorOf(s[i]))])
    ensures Letters(acc + [New(KindOf(s[i]), x, y, ColorOf(s[i]))]) == Letters(acc) + [s[i]]
    ensures Placement(s[i..]) == [s[i]] + Placement(s[i + 1..])
  {
    RowSquaresStep(s, i);
    PlacementCons(s, i);
    NewLetter(s[i], x, y);
    LettersPush(acc, New(KindOf(s[i]), x, y, ColorOf(s[i])));
  }

  lemma AppendAssoc(a: string, b: string, c: string)
    ensures a + b + c == a + (b + c)
  {
  }

  /** Reading a row appends one piece per letter, in order. */
  lemma {:induction false} RowLetters(s: string, i: nat, x: int, y: int, acc: seq<Piece>)
    requires RowRest(s, i, x) && 0 <= y < 8
    ensures Letters(RowFrom(s, i, x, y, acc)) == Letters(acc) + Placement(s[i..])
    decreases |s| - i
  {
    if i == |s| {
      assert s[i..] == [];
      assert Letters(acc) + [] == Letters(acc);
    } else if IsDigit(s[i]) {
      RowDigitStep(s, i, x, y, acc);
      RowLetters(s, i + 1, x + DigitValue(s[i]), y, acc);
    } else {
      var p := New(KindOf(s[i]), x, y, ColorOf(s[i]));
      RowLetterStep(s, i, x, y, acc);
      RowLetters(s, i + 1, x + 1, y, acc + [p]);
      AppendAssoc(Letters(acc), [s[i]], Placement(s[i + 1..]));
    }
  }

  /** Reading the board appends one piece per letter of each row, rank 8
      first. */
  lemma {:induction false} BoardLetters(rows: seq<string>, k: nat, acc: seq<Piece>)
    requires |rows| == 8 && k <= 8 && forall j | 0 <= j < 8 :: RowOk(rows[j])
    ensures Letters(BoardFrom(rows, k, acc)) == Letters(acc) + PlacementRows(rows, k)
    decreases 8 - k
  {
    if k < 8 {
      var next := BoardRowLetters(rows, k, acc);
      BoardLetters(rows, k + 1, next);
      AppendAssoc(Letters(acc), Placement(rows[k]), PlacementRows(rows, k + 1));
    } else {
      assert Letters(acc) + [] == Letters(acc);
    }
  }

  /** Row k of the board: the pieces read after acc, and their letters. */
  lemma BoardRowLetters(rows: seq<string>, k: nat, acc: seq<Piece>) returns (next: seq<Piece>)
    requires |rows| == 8 && k < 8 && forall j | 0 <= j < 8 :: RowOk(rows[j])
    ensures BoardFrom(rows, k, acc) == BoardFrom(rows, k + 1, next)
    ensures Letters(next) == Letters(acc) + Placement(rows[k])
    ensures PlacementRows(rows, k) == Placement(rows[k]) + PlacementRows(rows, k + 1)
  {
    BoardStep(rows, k, acc);
    next := RowFrom(rows[k], 0, 0, 7 - k, acc);
    RowLetters(rows[k], 0, 0, 7 - k, acc);
    assert rows[k][0..] == rows[k];
  }

  /** `split` then joining with the same separator gives the text back. */
  lemma {:induction false} JoinSplit(s: string, sep: char)
    ensures Join(Split(s, sep), sep) == s
    decreases |s|
  {
    if s != [] {
      var rest := Split(s[1..], sep);
      JoinSplit(s[1..], sep);
      if s[0] == sep {
        assert Split(s, sep) == [[]] + rest;
        assert ([[]] + rest)[1..] == rest;
        assert s == [sep] + s[1..];
      } else if |rest| == 1 {
        assert Split(s, sep) == [[s[0]] + rest[0]];
        assert s == [s[0]] + s[1..];
      } else {
        var parts := [[s[0]] + rest[0]] + rest[1..];
        assert Split(s, sep) == parts;
        assert parts[1..] == rest[1..];
        assert Join(rest, sep) == rest[0] + [sep] + Join(rest[1..], sep);
        assert s == [s[0]] + s[1..];
      }
    }
  }

  /** The pieces `decode` builds spell the piece letters of the placement
      field in the order they are written: rank 8 first, each rank from
      file a. */
  lemma DecodeLetters(fen: string)
    requires DecodeOf(fen).Ok?
    ensures Letters(DecodeOf(fen).value.pieces) == Placement(Words(fen)[0])
  {
    ValidateOk(fen);
    var f := Words(fen);
    var rows := Split(f[0], '/');
    BoardLetters(rows, 0, []);
    JoinPlacement(rows, 0);
    assert rows[0..] == rows;
    JoinSplit(f[0], '/');
  }

  /** So a decoded game has exactly one White king and one Black king. */
  lemma DecodeKings(fen: string)
    requires DecodeOf(fen).Ok?
    ensures multiset(Letters(DecodeOf(fen).value.pieces))['K'] == 1
    ensures multiset(Letters(DecodeOf(fen).value.pieces))['k'] == 1
  {
    ValidateOk(fen);
    DecodeLetters(fen);
    PlacementCount(Words(fen)[0], 'K');
    PlacementCount(Words(fen)[0], 'k');
  }
}
