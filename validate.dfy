/** FEN syntax and coherence checks (wasm/src/game/fen/validate.rs), after the
    criteria of chess.js.  A FEN record (section 16.1 of the PGN Standard) is
    six fields separated by white space: piece placement, side to move,
    castling availability, en-passant target, half-move clock and full-move
    number. */
module FenValidate {
  import opened Wrappers
  import opened Text
  import opened Pieces

  const FIELDS: string := "Invalid Fen: must contain 6 space-seperated fields"
  const EN_PASSANT: string := "Invalid Fen: invalid en-passant square"
  const CASTLING: string := "Invalid Fen: invalid castling availability"
  const SIDE: string := "Invalid Fen: side-to-move is invalid"
  const ROWS: string := "Invalid Fen: piece data does not contain 8 '/'-seperated rows"
  const CONSECUTIVE: string := "Invalid Fen: piece data is invalid, consecutive number"
  const BAD_PIECE: string := "Invalid Fen: piece data is invalid, invalid piece"
  const SQUARES: string := "Invalid Fen: piece data is invalid, wrong number of squares"
  const TOO_MANY_KINGS: string := "Invalid Fen: too many kings"
  const TOO_FEW_KINGS: string := "Invalid Fen: too few kings"

  const PIECE_LETTERS: string := "prnbqkPRNBQK"

  /** The kind a piece letter names. */
  function KindOf(c: char): Kind
  {
    if c == 'p' || c == 'P' then Pawn
    else if c == 'r' || c == 'R' then Rook
    else if c == 'n' || c == 'N' then Knight
    else if c == 'b' || c == 'B' then Bishop
    else if c == 'q' || c == 'Q' then Queen
    else King
  }

  /** Upper case is White, lower case Black. */
  function ColorOf(c: char): Color
  {
    if 'A' <= c <= 'Z' then White else Black
  }

  /** The letter of a piece: the kind's initial (N for the knight), upper
      case for White. */
  function Letter(p: Piece): (c: char)
    ensures c in PIECE_LETTERS && KindOf(c) == p.kind && ColorOf(c) == p.color
  {
    var w := p.color == White;
    match p.kind
    case Pawn => if w then 'P' else 'p'
    case Rook => if w then 'R' else 'r'
    case Knight => if w then 'N' else 'n'
    case Bishop => if w then 'B' else 'b'
    case Queen => if w then 'Q' else 'q'
    case King => if w then 'K' else 'k'
  }

  /** Each piece letter is the letter of the piece it names. */
  lemma LetterOf(c: char)
    requires c in PIECE_LETTERS
    ensures Letter(Piece(KindOf(c), {}, ColorOf(c))) == c
  {
  }

  /** `^(-|[a-h][36])$`. */
  predicate EnPassantField(e: string)
  {
    e == "-" || (|e| == 2 && 'a' <= e[0] <= 'h' && (e[1] == '3' || e[1] == '6'))
  }

  /** No match of `[^kKqQ-]`. */
  predicate CastlingField(c: string)
  {
    forall k | 0 <= k < |c| :: c[k] in "kKqQ-"
  }

  /** `^(w|b)$`. */
  predicate SideField(t: string)
  {
    t == "w" || t == "b"
  }

  /** The verdict of the loop over one row, from position i with the running
      square count and whether the previous character was a digit. */
  function RowScan(s: string, i: nat, sum: int, prev: bool): (r: Result<()>)
    requires i <= |s|
    ensures !r.Panic?
    decreases |s| - i
  {
    if i == |s| then (if sum != 8 then Err(SQUARES) else Ok(()))
    else if IsDigit(s[i]) then
      if prev then Err(CONSECUTIVE) else RowScan(s, i + 1, sum + DigitValue(s[i]), true)
    else if s[i] !in PIECE_LETTERS then Err(BAD_PIECE)
    else RowScan(s, i + 1, sum + 1, false)
  }

  /** The verdict of the rows from row k on: the first failing row's. */
  function RowsCheck(rows: seq<string>, k: nat): (r: Result<()>)
    requires k <= |rows|
    ensures !r.Panic?
    decreases |rows| - k
  {
    if k == |rows| then Ok(())
    else match RowScan(rows[k], 0, 0, false)
      case Ok(_) => RowsCheck(rows, k + 1)
      case Err(e) => Err(e)
      case Panic(e) => Panic(e)
  }

  /** The first position of c in s. */
  function FirstIndex(s: string, c: char): (i: nat)
    requires c in s
    ensures i < |s| && s[i] == c && c !in s[..i]
  {
    if s[0] == c then 0 else FirstIndex(s[1..], c) + 1
  }

  /** The `count_kings` closure. */
  function KingCheck(board: string, c: char): (r: Result<()>)
    ensures !r.Panic?
  {
    if c !in board then Err(TOO_FEW_KINGS)
    else if c in board[FirstIndex(board, c) + 1..] then Err(TOO_MANY_KINGS)
    else Ok(())
  }

  /** En passant on rank 3 needs Black to move and on rank 6 White. */
  predicate Incoherent(side: string, ep: string)
    requires EnPassantField(ep)
  {
    ep != "-" && ((ep[1] == '3' && side == "w") || (ep[1] == '6' && side == "b"))
  }

  /** What `validate(fen)` returns, check by check.  The two numeric fields
      are parsed and the outcome is dropped, so they are never checked. */
  function ValidateOf(fen: string): (r: Result<()>)
    ensures !r.Panic?
  {
    var f := Words(fen);
    if |f| != 6 then Err(FIELDS)
    else if !EnPassantField(f[3]) then Err(EN_PASSANT)
    else if !CastlingField(f[2]) then Err(CASTLING)
    else if !SideField(f[1]) then Err(SIDE)
    else
      var rows := Split(f[0], '/');
      if |rows| != 8 then Err(ROWS)
      else if RowsCheck(rows, 0).Err? then RowsCheck(rows, 0)
      else if Incoherent(f[1], f[3]) then Err(EN_PASSANT)
      else if KingCheck(f[0], 'K').Err? then KingCheck(f[0], 'K')
      else KingCheck(f[0], 'k')
  }

  /** `validate(fen)`. */
  method Validate(fen: string) returns (r: Result<()>)
    ensures r == ValidateOf(fen)
  {
    var f := Words(fen);
    if |f| != 6 {
      return Err(FIELDS);
    }
    if !EnPassantField(f[3]) {
      return Err(EN_PASSANT);
    }
    if !CastlingField(f[2]) {
      return Err(CASTLING);
    }
    if !SideField(f[1]) {
      return Err(SIDE);
    }
    var rows := Split(f[0], '/');
    if |rows| != 8 {
      return Err(ROWS);
    }
    for k := 0 to |rows|
      invariant RowsCheck(rows, k) == RowsCheck(rows, 0)
    {
      var s := rows[k];
      var sum, prev := 0, false;
      for i := 0 to |s|
        invariant RowScan(s, i, sum, prev) == RowScan(s, 0, 0, false)
      {
        if IsDigit(s[i]) {
          if prev {
            return Err(CONSECUTIVE);
          }
          sum := sum + DigitValue(s[i]);
          prev := true;
        } else {
          if s[i] !in PIECE_LETTERS {
            return Err(BAD_PIECE);
          }
          sum := sum + 1;
          prev := false;
        }
      }
      if sum != 8 {
        return Err(SQUARES);
      }
    }
    if f[3] == "-" {
    } else if (f[3][1] == '3' && f[1] == "w") || (f[3][1] == '6' && f[1] == "b") {
      return Err(EN_PASSANT);
    }
    r := KingCheck(f[0], 'K');
    if r.Err? {
      return;
    }
    r := KingCheck(f[0], 'k');
  }

  /** The squares a row covers: a digit its value, any other character one. */
  function RowSquares(s: string): nat
  {
    if s == [] then 0 else (if IsDigit(s[0]) then DigitValue(s[0]) else 1) + RowSquares(s[1..])
  }

  /** Positions k and k + 1 both hold digits. */
  predicate DigitPair(s: string, k: int)
    requires 0 <= k < |s| - 1
  {
    IsDigit(s[k]) && IsDigit(s[k + 1])
  }

  /** A well-formed row: digits and piece letters only, no two digits side
      by side, eight squares in all. */
  predicate RowOk(s: string)
  {
    && (forall k | 0 <= k < |s| :: IsDigit(s[k]) || s[k] in PIECE_LETTERS)
    && (forall k | 0 <= k < |s| - 1 :: !DigitPair(s, k))
    && RowSquares(s) == 8
  }

  /** A FEN record `validate` accepts, stated field by field. */
  predicate WellFormed(fen: string)
  {
    FieldsOk(Words(fen))
  }

  /** Six fields that pass every check. */
  predicate FieldsOk(f: seq<string>)
  {
    && |f| == 6
    && EnPassantField(f[3]) && CastlingField(f[2]) && SideField(f[1])
    && |Split(f[0], '/')| == 8
    && (forall k | 0 <= k < 8 :: RowOk(Split(f[0], '/')[k]))
    && !Incoherent(f[1], f[3])
    && multiset(f[0])['K'] == 1 && multiset(f[0])['k'] == 1
  }

  /** The row loop accepts the rest of a row iff it is well formed given
      what came before. */
  lemma {:induction false} RowScanOk(s: string, i: nat, sum: int, prev: bool)
    requires i <= |s|
    ensures RowScan(s, i, sum, prev).Ok? <==>
      && (prev && i < |s| ==> !IsDigit(s[i]))
      && (forall k | i <= k < |s| :: IsDigit(s[k]) || s[k] in PIECE_LETTERS)
      && (forall k | i <= k < |s| - 1 :: !DigitPair(s, k))
      && sum + RowSquares(s[i..]) == 8
    decreases |s| - i
  {
    if i < |s| {
      assert s[i..][1..] == s[i + 1..];
      assert RowSquares(s[i..]) == (if IsDigit(s[i]) then DigitValue(s[i]) else 1) + RowSquares(s[i + 1..]);
      if IsDigit(s[i]) {
        if i + 1 < |s| {
          assert DigitPair(s, i) == IsDigit(s[i + 1]);
        }
        RowScanOk(s, i + 1, sum + DigitValue(s[i]), true);
      } else {
        assert i + 1 < |s| ==> !DigitPair(s, i);
        RowScanOk(s, i + 1, sum + 1, false);
      }
    }
  }

  lemma {:induction false} RowsCheckOk(rows: seq<string>, k: nat)
    requires k <= |rows|
    ensures RowsCheck(rows, k).Ok? <==> forall j | k <= j < |rows| :: RowOk(rows[j])
    decreases |rows| - k
  {
    if k < |rows| {
      RowScanOk(rows[k], 0, 0, false);
      assert rows[k][0..] == rows[k];
      RowsCheckOk(rows, k + 1);
    }
  }

  /** `count_kings` accepts iff the letter occurs exactly once. */
  lemma KingCheckOk(board: string, c: char)
    ensures KingCheck(board, c).Ok? <==> multiset(board)[c] == 1
  {
    if c in board {
      var i := FirstIndex(board, c);
      assert board == board[..i] + [c] + board[i + 1..];
      assert multiset(board) == multiset(board[..i]) + multiset{c} + multiset(board[i + 1..]);
      assert multiset(board[..i])[c] == 0;
    }
  }

  /** `validate` accepts exactly the well-formed records. */
  lemma ValidateOk(fen: string)
    ensures ValidateOf(fen).Ok? <==> WellFormed(fen)
  {
    var f := Words(fen);
    if |f| == 6 {
      var rows := Split(f[0], '/');
      RowsCheckOk(rows, 0);
      KingCheckOk(f[0], 'K');
      KingCheckOk(f[0], 'k');
    }
  }
}
