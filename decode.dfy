/** Reading a FEN record into a game (wasm/src/game/fen/decode.rs).

    The record is validated first and a validation error is returned as it
    is.  The piece placement is then read rank 8 first, each rank from file
    a: a digit skips that many files and a letter places a piece.  After
    validation no stray character, side or en-passant rank can reach the
    decoder, so its `throw` arms are unreachable here; only the two clock
    fields, which validation does not check, can still make it panic. */
module FenDecode {
  import opened Board
  import opened Pieces
  import opened Wrappers
  import opened Text
  import opened FenValidate
  import Notation
  import Castle
  import Games

  /** What `unwrap` on a failed `parse::<u16>` panics with (the error's
      own description follows it). */
  const UNWRAP: string := "called `Result::unwrap()` on an `Err` value"

  /** The rest of a row from position i, with x files already passed, is
      made of digits and piece letters and covers at most the remaining
      files. */
  predicate RowRest(s: string, i: nat, x: int)
  {
    && i <= |s| && 0 <= x && x + RowSquares(s[i..]) <= 8
    && forall k | i <= k < |s| :: RowChar(s[k])
  }

  /** A character a row may hold: a digit or a piece letter. */
  predicate RowChar(c: char)
  {
    IsDigit(c) || c in PIECE_LETTERS
  }

  lemma RowSquaresStep(s: string, i: nat)
    requires i < |s|
    ensures RowSquares(s[i..]) == (if IsDigit(s[i]) then DigitValue(s[i]) else 1) + RowSquares(s[i + 1..])
  {
    assert s[i..][1..] == s[i + 1..];
  }

  lemma RowOkRest(s: string)
    requires RowOk(s)
    ensures RowRest(s, 0, 0)
  {
    assert s[0..] == s;
  }

  /** The pieces of row s from position i on, on rank y with x files
      passed, appended to acc. */
  function RowFrom(s: string, i: nat, x: int, y: int, acc: seq<Piece>): seq<Piece>
    requires RowRest(s, i, x) && 0 <= y < 8
    decreases |s| - i
  {
    if i == |s| then acc
    else
      RowSquaresStep(s, i);
      if IsDigit(s[i]) then RowFrom(s, i + 1, x + DigitValue(s[i]), y, acc)
      else RowFrom(s, i + 1, x + 1, y, acc + [New(KindOf(s[i]), x, y, ColorOf(s[i]))])
  }

  /** The pieces of rows k.. (row k is rank 8 - k), appended to acc. */
  function BoardFrom(rows: seq<string>, k: nat, acc: seq<Piece>): seq<Piece>
    requires |rows| == 8 && k <= 8 && forall j | k <= j < 8 :: RowOk(rows[j])
    decreases 8 - k
  {
    if k == 8 then acc
    else
      RowOkRest(rows[k]);
      BoardFrom(rows, k + 1, RowFrom(rows[k], 0, 0, 7 - k, acc))
  }

  lemma BoardStep(rows: seq<string>, k: nat, acc: seq<Piece>)
    requires |rows| == 8 && k < 8 && forall j | 0 <= j < 8 :: RowOk(rows[j])
    ensures RowRest(rows[k], 0, 0)
    ensures BoardFrom(rows, k, acc) == BoardFrom(rows, k + 1, RowFrom(rows[k], 0, 0, 7 - k, acc))
  {
    RowOkRest(rows[k]);
  }

  /** The castling flags named in the castling field. */
  function Flags(c: string): Bits
  {
    (if 'K' in c then Castle.K_ID else {}) + (if 'Q' in c then Castle.Q_ID else {})
    + (if 'k' in c then Castle.k_ID else {}) + (if 'q' in c then Castle.q_ID else {})
  }

  lemma FileLetter(c: char)
    requires 'a' <= c <= 'h'
    ensures c in Notation.FILES
  {
    assert Notation.FILES[c as int - 'a' as int] == c;
  }

  /** The en-passant target: none for "-", else the square on rank 3
      (`1 << 0x20 + 8 + x`) or rank 6 (`1 << 0x50 + 8 + x`). */
  function EnPassantOf(e: string): Bits
    requires EnPassantField(e)
  {
    if e == "-" then {}
    else
      FileLetter(e[0]);
      if e[1] == '3' then {0x20 + 8 + Notation.FileOf(e[0])} else {0x50 + 8 + Notation.FileOf(e[0])}
  }

  /** What `decode(fen)` returns. */
  function DecodeOf(fen: string): Result<Games.Position>
  {
    if ValidateOf(fen).Err? then Err(ValidateOf(fen).msg)
    else
      ValidateOk(fen);
      FromFields(Words(fen))
  }

  /** What `decode` builds from the fields of a valid record. */
  function FromFields(f: seq<string>): Result<Games.Position>
    requires FieldsOk(f)
  {
    var pieces := BoardFrom(Split(f[0], '/'), 0, []);
    var half, moves := ParseU16(f[4]), ParseU16(f[5]);
    if half.None? || moves.None? then Panic(UNWRAP)
    else
      Ok(Games.Position(pieces, if f[1] == "w" then White else Black, Flags(f[2]),
                        EnPassantOf(f[3]), half.value, moves.value))
  }

  /** The board loop of `decode`: rows in order, rank 8 first. */
  method ReadBoard(rows: seq<string>) returns (pieces: seq<Piece>)
    requires |rows| == 8 && forall j | 0 <= j < 8 :: RowOk(rows[j])
    ensures pieces == BoardFrom(rows, 0, [])
  {
    pieces := [];
    for k := 0 to 8
      invariant BoardFrom(rows, k, pieces) == BoardFrom(rows, 0, [])
    {
      pieces := NextRow(rows, k, pieces);
    }
  }

  /** One pass of the board loop: row k read onto the pieces so far. */
  method NextRow(rows: seq<string>, k: nat, acc: seq<Piece>) returns (pieces: seq<Piece>)
    requires |rows| == 8 && k < 8 && forall j | 0 <= j < 8 :: RowOk(rows[j])
    ensures BoardFrom(rows, k + 1, pieces) == BoardFrom(rows, k, acc)
  {
    BoardStep(rows, k, acc);
    pieces := ReadRow(rows[k], 7 - k, acc);
  }

  /** One row of the board loop, pushing onto `pieces`. */
  method ReadRow(s: string, y: int, acc: seq<Piece>) returns (pieces: seq<Piece>)
    requires RowRest(s, 0, 0) && 0 <= y < 8
    ensures pieces == RowFrom(s, 0, 0, y, acc)
  {
    pieces := acc;
    var x := 0;
    for i := 0 to |s|
      invariant RowRest(s, i, x)
      invariant RowFrom(s, i, x, y, pieces) == RowFrom(s, 0, 0, y, acc)
    {
      RowSquaresStep(s, i);
      if IsDigit(s[i]) {
        x := x + DigitValue(s[i]);
      } else {
        // validation leaves only piece letters here: no `throw`
        pieces := pieces + [New(KindOf(s[i]), x, y, ColorOf(s[i]))];
        x := x + 1;
      }
    }
  }

  /** `decode(fen)`. */
  method Decode(fen: string) returns (r: Result<Games.Position>)
    ensures r == DecodeOf(fen)
  {
    var v := Validate(fen);
    if v.Err? {
      return Err(v.msg);
    }
    ValidateOk(fen);
    r := ReadFields(Words(fen));
  }

  /** The rest of `decode`, once the record is valid. */
  method ReadFields(f: seq<string>) returns (r: Result<Games.Position>)
    requires FieldsOk(f)
    ensures r == FromFields(f)
  {
    var pieces := ReadBoard(Split(f[0], '/'));
    // validation leaves only "w" and "b" here: no `throw`
    var turn := if f[1] == "w" then White else Black;
    var castling := ReadCastling(f[2]);
    var ep := ReadEnPassant(f[3]);
    var half := ParseU16(f[4]);
    var moves := ParseU16(f[5]);
    if half.None? || moves.None? {
      return Panic(UNWRAP);
    }
    return Ok(Games.Position(pieces, turn, castling, ep, half.value, moves.value));
  }

  /** The castling block of `decode`. */
  method ReadCastling(c: string) returns (castling: Bits)
    ensures castling == Flags(c)
  {
    castling := {};
    if 'K' in c {
      castling := castling + Castle.K_ID;
    }
    if 'Q' in c {
      castling := castling + Castle.Q_ID;
    }
    if 'k' in c {
      castling := castling + Castle.k_ID;
    }
    if 'q' in c {
      castling := castling + Castle.q_ID;
    }
  }

  /** The en-passant block of `decode`. */
  method ReadEnPassant(e: string) returns (ep: Bits)
    requires EnPassantField(e)
    ensures ep == EnPassantOf(e)
  {
    ep := {};
    if e != "-" {
      FileLetter(e[0]);
      var x := Notation.FileOf(e[0]);
      // validation leaves only ranks 3 and 6 here: no `throw`
      if e[1] == '3' {
        ep := {0x20 + 8 + x};
      } else {
        ep := {0x50 + 8 + x};
      }
    }
  }

  /** `decode` fails exactly on the records `validate` rejects, with the
      same message, and panics exactly when a valid record has a clock
      field that is not a `u16`. */
  lemma DecodeOutcome(fen: string)
    ensures DecodeOf(fen).Err? <==> !WellFormed(fen)
    ensures DecodeOf(fen).Err? ==> ValidateOf(fen).Err? && DecodeOf(fen).msg == ValidateOf(fen).msg
    ensures DecodeOf(fen).Panic? <==>
      WellFormed(fen) && (ParseU16(Words(fen)[4]).None? || ParseU16(Words(fen)[5]).None?)
  {
    ValidateOk(fen);
  }

  /** A decoded game has the side, the castling rights, the en-passant
      square and the clocks the record names; an en-passant target on rank
      3 comes with Black to move and one on rank 6 with White. */
  lemma DecodeFields(fen: string)
    requires DecodeOf(fen).Ok?
    ensures var f, pos := Words(fen), DecodeOf(fen).value;
      && |f| == 6
      && (pos.turn == White <==> f[1] == "w") && (pos.turn == Black <==> f[1] == "b")
      && pos.castling == Flags(f[2])
      && (pos.enPassant == {} <==> f[3] == "-")
      && (f[3] != "-" ==> exists x | 0 <= x < 8 ::
            || (pos.enPassant == Square(x, 2) && pos.turn == Black && f[3] == [Notation.FILES[x], '3'])
            || (pos.enPassant == Square(x, 5) && pos.turn == White && f[3] == [Notation.FILES[x], '6']))
      && ParseU16(f[4]) == Some(pos.halfMoves) && ParseU16(f[5]) == Some(pos.moveCount)
      && 0 <= pos.halfMoves < Games.U16 && 0 <= pos.moveCount < Games.U16
  {
    ValidateOk(fen);
    var f := Words(fen);
    EnPassantNamed(f[3]);
  }

  /** Each castling flag is set exactly when its letter is in the field,
      and no other bit is. */
  lemma FlagsNamed(c: string)
    ensures Castle.K_ID <= Flags(c) <==> 'K' in c
    ensures Castle.Q_ID <= Flags(c) <==> 'Q' in c
    ensures Castle.k_ID <= Flags(c) <==> 'k' in c
    ensures Castle.q_ID <= Flags(c) <==> 'q' in c
    ensures Flags(c) <= Castle.K_ID + Castle.Q_ID + Castle.k_ID + Castle.q_ID
  {
  }

  /** "-" names no square; a file letter and '3' or '6' name that file's
      square on rank 3 or rank 6. */
  lemma EnPassantNamed(e: string)
    requires EnPassantField(e)
    ensures EnPassantOf(e) == {} <==> e == "-"
    ensures e != "-" ==> exists x | 0 <= x < 8 ::
      || (EnPassantOf(e) == Square(x, 2) && e == [Notation.FILES[x], '3'])
      || (EnPassantOf(e) == Square(x, 5) && e == [Notation.FILES[x], '6'])
  {
    if e != "-" {
      FileLetter(e[0]);
      var x := Notation.FileOf(e[0]);
      assert e == [Notation.FILES[x], e[1]];
      if e[1] == '3' {
        assert EnPassantOf(e) == Square(x, 2);
      } else {
        assert EnPassantOf(e) == Square(x, 5);
      }
    }
  }
}
