/** `decode` reads back what `encode` writes (wasm/src/game/fen/encode.rs
    and decode.rs, and the FEN test in wasm/src/test/mod.rs).

    A position survives the round trip when its pieces stand on distinct
    single squares listed in the order `decode` produces them (rank 8
    first, file a first), each side has one king, the castling word holds
    only the four flags, an en-passant target is a rank-3 square with Black
    to move or a rank-6 square with White to move, and the clocks are
    `u16` values. */
module FenRoundTrip {
  import opened Board
  import opened Pieces
  import opened Wrappers
  import opened Text
  import opened FenValidate
  import opened FenDecode
  import opened FenEncode
  import opened FenRankText
  import opened FenBoardText
  import Notation
  import Castle
  import opened FenBoardOrder
  import opened FenGridScan
  import opened FenLetters
  import Games

  /** The flag bits `encode` and `decode` know. */
  const FLAGS: Bits := Castle.K_ID + Castle.Q_ID + Castle.k_ID + Castle.q_ID

  /** An en-passant target `decode` can produce for the side to move. */
  predicate TargetOk(ep: Bits, turn: Color)
  {
    || ep == {}
    || exists x | 0 <= x < 8 ::
         || (ep == Square(x, 2) && turn == Black)
         || (ep == Square(x, 5) && turn == White)
  }

  /** The positions a FEN record can describe exactly. */
  predicate Encodable(pos: Games.Position)
  {
    && Canonical(pos.pieces)
    && multiset(Letters(pos.pieces))['K'] == 1 && multiset(Letters(pos.pieces))['k'] == 1
    && pos.castling <= FLAGS
    && TargetOk(pos.enPassant, pos.turn)
    && 0 <= pos.halfMoves < Games.U16 && 0 <= pos.moveCount < Games.U16
  }

  /** No white space in a text. */
  predicate Solid(w: string)
  {
    w != [] && forall c | c in w :: !IsSpace(c)
  }

  /** Six fields joined by single spaces. */
  lemma Join6(a: string, b: string, c: string, d: string, e: string, f: string)
    ensures Join([a, b, c, d, e, f], ' ')
         == a + " " + b + " " + c + " " + d + " " + e + " " + f
  {
    var fs := [a, b, c, d, e, f];
    assert fs[1..] == [b, c, d, e, f];
    assert fs[1..][1..] == [c, d, e, f];
    assert fs[1..][1..][1..] == [d, e, f];
    assert fs[1..][1..][1..][1..] == [e, f];
    assert fs[1..][1..][1..][1..][1..] == [f];
    assert Join([e, f], ' ') == e + " " + f;
    assert Join([d, e, f], ' ') == d + " " + e + " " + f;
    assert Join([c, d, e, f], ' ') == c + " " + d + " " + e + " " + f;
    assert Join([b, c, d, e, f], ' ') == b + " " + c + " " + d + " " + e + " " + f;
  }

  /** Joining texts free of '/' and white space with '/' gives a text free
      of white space. */
  lemma {:induction false} JoinSolid(rs: seq<string>)
    requires forall k | 0 <= k < |rs| :: forall c | c in rs[k] :: !IsSpace(c)
    ensures forall c | c in Join(rs, '/') :: !IsSpace(c)
    decreases |rs|
  {
    if |rs| > 1 {
      JoinSolid(rs[1..]);
      assert Join(rs, '/') == rs[0] + ['/'] + Join(rs[1..], '/');
    }
  }

  /** The rank texts of a drawn board: well formed, so free of '/' and of
      white space. */
  lemma RowsShape(g: seq<seq<char>>)
    requires GridCells(g)
    ensures forall k | 0 <= k < 8 :: RowOk(Rows(g)[k]) && '/' !in Rows(g)[k]
    ensures forall k | 0 <= k < 8 :: forall c | c in Rows(g)[k] :: !IsSpace(c)
  {
    RowsOk(g);
    forall k, c | 0 <= k < 8 && c in Rows(g)[k]
      ensures c != '/' && !IsSpace(c)
    {
      var i :| 0 <= i < |Rows(g)[k]| && Rows(g)[k][i] == c;
      assert IsDigit(c) || c in PIECE_LETTERS;
    }
  }

  /** A one-bit flag is set exactly when its bit is. */
  lemma HasFlag(c: Bits, f: Bits, n: int)
    requires f == {n}
    ensures c * f != {} <==> n in c
  {
    if n in c {
      assert n in c * f;
    }
  }

  /** The letters of the castling field, flag by flag. */
  lemma CastlingLetters(c: Bits)
    ensures var t := CastlingText(c);
      && ('K' in t <==> 0 in c) && ('Q' in t <==> 4 in c)
      && ('k' in t <==> 8 in c) && ('q' in t <==> 12 in c)
      && ('-' in t <==> c == {})
      && forall ch | ch in t :: ch in "KQkq-"
  {
    FlagLetter(c, 'K', Castle.K_ID, 0);
    FlagLetter(c, 'Q', Castle.Q_ID, 4);
    FlagLetter(c, 'k', Castle.k_ID, 8);
    FlagLetter(c, 'q', Castle.q_ID, 12);
    CastlingDash(c);
  }

  lemma FlagLetter(c: Bits, l: char, f: Bits, n: int)
    requires (l, f, n) in {('K', Castle.K_ID, 0), ('Q', Castle.Q_ID, 4), ('k', Castle.k_ID, 8), ('q', Castle.q_ID, 12)}
    ensures l in CastlingText(c) <==> n in c
  {
    HasFlag(c, f, n);
  }

  lemma CastlingDash(c: Bits)
    ensures '-' in CastlingText(c) <==> c == {}
    ensures forall ch | ch in CastlingText(c) :: ch in "KQkq-"
  {
  }

  /** Each flag's letter is written exactly when the flag is set, and "-"
      when none is. */
  lemma CastlingTextShape(c: Bits)
    requires c <= FLAGS
    ensures Solid(CastlingText(c)) && CastlingField(CastlingText(c))
    ensures Flags(CastlingText(c)) == c
  {
    CastlingLetters(c);
    CastlingChars(c);
    CastlingFlags(c);
  }

  lemma CastlingChars(c: Bits)
    requires c <= FLAGS
    requires var t := CastlingText(c);
      && ('K' in t <==> 0 in c) && ('Q' in t <==> 4 in c)
      && ('k' in t <==> 8 in c) && ('q' in t <==> 12 in c)
      && ('-' in t <==> c == {})
      && forall ch | ch in t :: ch in "KQkq-"
    ensures Solid(CastlingText(c)) && CastlingField(CastlingText(c))
  {
    var t := CastlingText(c);
    assert t != [] by {
      if c == {} {
        assert '-' in t;
      } else {
        var n :| n in c;
        assert n in FLAGS;
      }
    }
    forall k | 0 <= k < |t|
      ensures t[k] in "kKqQ-" && !IsSpace(t[k])
    {
      assert t[k] in t;
    }
  }

  lemma CastlingFlags(c: Bits)
    requires c <= FLAGS
    requires var t := CastlingText(c);
      && ('K' in t <==> 0 in c) && ('Q' in t <==> 4 in c)
      && ('k' in t <==> 8 in c) && ('q' in t <==> 12 in c)
    ensures Flags(CastlingText(c)) == c
  {
    var t := CastlingText(c);
    forall n
      ensures n in Flags(t) <==> n in c
    {
      if n in c {
        assert n in FLAGS;
      }
    }
  }

  /** The name of a rank-3 or rank-6 target is its file letter and the rank
      digit, and `decode` reads it back as the same square. */
  lemma EnPassantTextShape(ep: Bits, turn: Color)
    requires TargetOk(ep, turn)
    ensures Solid(EnPassantText(ep)) && EnPassantField(EnPassantText(ep))
    ensures EnPassantOf(EnPassantText(ep)) == ep
    ensures !Incoherent(SideText(turn), EnPassantText(ep))
  {
    if ep != {} {
      var x :| 0 <= x < 8 && ((ep == Square(x, 2) && turn == Black) || (ep == Square(x, 5) && turn == White));
      if turn == Black {
        TargetName(x, 2);
      } else {
        TargetName(x, 5);
      }
    }
  }

  /** The name of a square written as the target field, read back. */
  lemma TargetName(x: int, y: int)
    requires 0 <= x < 8 && (y == 2 || y == 5)
    ensures var e := EnPassantText(Square(x, y));
      && e == [Notation.FILES[x], if y == 2 then '3' else '6']
      && Solid(e) && EnPassantField(e) && EnPassantOf(e) == Square(x, y)
  {
    var n := Index(x, y);
    Notation.LowestIs(Square(x, y), 0, n);
    Notation.NameOf(x, y);
    var e := EnPassantText(Square(x, y));
    assert e == [Notation.FILES[x], DigitChar(y + 1)];
    assert 'a' <= e[0] <= 'h';
    assert forall c | c in e :: c == e[0] || c == e[1];
  }

  /** The pieces of a canonical list are the pieces `decode` reads from the
      board `encode` draws, and their letters are the letters of that
      board. */
  lemma BoardTextShape(ps: seq<Piece>)
    requires Canonical(ps)
    ensures var rs := Rows(Grid(ps));
      && Split(Join(rs, '/'), '/') == rs
      && (forall k | 0 <= k < 8 :: RowOk(rs[k]))
      && BoardFrom(rs, 0, []) == ps
      && Placement(Join(rs, '/')) == Letters(ps)
      && Solid(Join(rs, '/'))
  {
    var g := Grid(ps);
    GridRoundTrip(ps);
    var rs := Rows(g);
    RowsShape(g);
    SplitJoin(rs, '/');
    BoardReads(g, 0, []);
    assert [] + Scan(g, 0, 0) == ps;
    BoardLetters(rs, 0, []);
    JoinPlacement(rs, 0);
    assert rs[0..] == rs;
    assert Letters([]) + PlacementRows(rs, 0) == PlacementRows(rs, 0);
    JoinSolid(rs);
    assert Join(rs, '/') != [] by {
      assert RowSquares(rs[0]) == 8;
      assert rs[0] != [];
      if |rs| > 1 {
        assert Join(rs, '/') == rs[0] + ['/'] + Join(rs[1..], '/');
      }
    }
  }

  /** Every piece of a canonical list has a square, so `encode` succeeds. */
  lemma CanonicalLocated(ps: seq<Piece>)
    requires Canonical(ps)
    ensures Located(ps)
  {
    forall j | 0 <= j < |ps|
      ensures PosOf(ps[j].bits).Some?
    {
      assert OnSquare(ps[j]);
    }
  }

  lemma DecimalSolid(n: nat)
    ensures Solid(Decimal(n))
  {
    var d := Decimal(n);
    forall c | c in d
      ensures !IsSpace(c)
    {
      var i :| 0 <= i < |d| && d[i] == c;
      assert IsDigit(d[i]);
    }
  }

  /** The six fields `encode` writes. */
  function Fields(pos: Games.Position): (f: seq<string>)
    requires pos.halfMoves >= 0 && pos.moveCount >= 0
    ensures |f| == 6
  {
    [Join(Rows(Grid(pos.pieces)), '/'), SideText(pos.turn), CastlingText(pos.castling),
     EnPassantText(pos.enPassant), Decimal(pos.halfMoves), Decimal(pos.moveCount)]
  }

  /** `encode` writes the six fields with one space between each two. */
  lemma EncodedText(pos: Games.Position)
    requires Encodable(pos)
    ensures EncodeOf(pos).Ok? && EncodeOf(pos).value == Join(Fields(pos), ' ')
  {
    var f := Fields(pos);
    CanonicalLocated(pos.pieces);
    Join6(f[0], f[1], f[2], f[3], f[4], f[5]);
    assert f == [f[0], f[1], f[2], f[3], f[4], f[5]];
  }

  /** None of the fields is empty or holds white space. */
  lemma FieldsSolid(pos: Games.Position)
    requires Encodable(pos)
    ensures forall k | 0 <= k < 6 :: Solid(Fields(pos)[k])
  {
    forall k | 0 <= k < 6
      ensures Solid(Fields(pos)[k])
    {
      if k == 0 {
        BoardTextShape(pos.pieces);
      } else if k == 2 {
        CastlingTextShape(pos.castling);
      } else if k == 3 {
        EnPassantTextShape(pos.enPassant, pos.turn);
      } else if k == 4 {
        DecimalSolid(pos.halfMoves);
      } else if k == 5 {
        DecimalSolid(pos.moveCount);
      }
    }
  }

  /** So `split_whitespace` finds the six fields again. */
  lemma EncodedWords(pos: Games.Position)
    requires Encodable(pos)
    ensures EncodeOf(pos).Ok? && Words(EncodeOf(pos).value) == Fields(pos)
  {
    EncodedText(pos);
    FieldsSolid(pos);
    WordsJoin(Fields(pos));
  }

  /** The fields `encode` writes pass every check of `validate`. */
  lemma EncodedFieldsOk(pos: Games.Position)
    requires Encodable(pos)
    ensures FieldsOk(Fields(pos))
  {
    BoardFieldOk(pos);
    CastlingTextShape(pos.castling);
    EnPassantTextShape(pos.enPassant, pos.turn);
  }

  lemma BoardFieldOk(pos: Games.Position)
    requires Encodable(pos)
    ensures var b := Fields(pos)[0];
      && |Split(b, '/')| == 8 && (forall k | 0 <= k < 8 :: RowOk(Split(b, '/')[k]))
      && multiset(b)['K'] == 1 && multiset(b)['k'] == 1
  {
    BoardTextShape(pos.pieces);
    KingLetters(pos.pieces, Fields(pos)[0]);
  }

  /** The board field holds each king's letter once. */
  lemma KingLetters(ps: seq<Piece>, b: string)
    requires Placement(b) == Letters(ps)
    requires multiset(Letters(ps))['K'] == 1 && multiset(Letters(ps))['k'] == 1
    ensures multiset(b)['K'] == 1 && multiset(b)['k'] == 1
  {
    PlacementCount(b, 'K');
    PlacementCount(b, 'k');
  }

  /** What `decode` builds from those fields is the position written. */
  lemma EncodedRead(pos: Games.Position)
    requires Encodable(pos) && FieldsOk(Fields(pos))
    ensures FromFields(Fields(pos)) == Ok(pos)
  {
    var f := Fields(pos);
    BoardTextShape(pos.pieces);
    CastlingTextShape(pos.castling);
    EnPassantTextShape(pos.enPassant, pos.turn);
    ParseDecimal(pos.halfMoves);
    ParseDecimal(pos.moveCount);
  }

  /** `decode(encode(pos))` gives `pos` back for every position a FEN record
      can describe. */
  lemma RoundTrip(pos: Games.Position)
    requires Encodable(pos)
    ensures EncodeOf(pos).Ok? && DecodeOf(EncodeOf(pos).value) == Ok(pos)
  {
    EncodedWords(pos);
    EncodedFieldsOk(pos);
    ValidateOk(EncodeOf(pos).value);
    EncodedRead(pos);
  }

  // ---------------------------------------------------------------------
  // What `decode` produces is encodable

  /** Every piece comes before reading position t. */
  predicate Before(ps: seq<Piece>, t: int)
  {
    forall i | 0 <= i < |ps| :: Order(ps[i]) < t
  }

  /** A piece made at file x, rank y stands alone there, at reading
      position 8 (7 - y) + x. */
  lemma NewOrder(kind: Kind, x: int, y: int, color: Color)
    requires 0 <= x < 8 && 0 <= y < 8
    ensures OnSquare(New(kind, x, y, color)) && Order(New(kind, x, y, color)) == 8 * (7 - y) + x
  {
    PosOfSquare(x, y);
    assert New(kind, x, y, color).bits == Square(x, y);
  }

  /** Appending a piece beyond all others keeps a list canonical. */
  lemma PushCanonical(acc: seq<Piece>, p: Piece, t: int)
    requires Canonical(acc) && Before(acc, t) && OnSquare(p) && Order(p) == t
    ensures Canonical(acc + [p]) && Before(acc + [p], t + 1)
  {
    var qs := acc + [p];
    forall i | 0 <= i < |qs|
      ensures OnSquare(qs[i]) && Order(qs[i]) <= t
    {
      if i < |acc| {
        assert qs[i] == acc[i];
      }
    }
    forall i, j | 0 <= i < j < |qs|
      ensures Order(qs[i]) < Order(qs[j])
    {
      assert qs[i] == acc[i];
      if j < |acc| {
        assert qs[j] == acc[j];
      }
    }
  }

  /** One character of a row: the row read from there is the row read
      from the next character after this one's step. */
  lemma RowStep(s: string, i: nat, x: int, y: int, acc: seq<Piece>)
    requires RowRest(s, i, x) && i < |s| && 0 <= y < 8
    ensures IsDigit(s[i]) || 0 <= x < 8
    ensures RowRest(s, i + 1, StepX(s[i], x))
    ensures RowFrom(s, i, x, y, acc) == RowFrom(s, i + 1, StepX(s[i], x), y, StepAcc(s[i], x, y, acc))
  {
    RowSquaresStep(s, i);
  }

  /** The step keeps the list canonical and before the next file. */
  lemma StepCanonical(c: char, x: int, y: int, acc: seq<Piece>)
    requires IsDigit(c) || (0 <= x < 8 && 0 <= y < 8)
    requires 0 <= y < 8 && x <= StepX(c, x)
    requires Canonical(acc) && Before(acc, 8 * (7 - y) + x)
    ensures Canonical(StepAcc(c, x, y, acc)) && Before(StepAcc(c, x, y, acc), 8 * (7 - y) + StepX(c, x))
  {
    if !IsDigit(c) {
      NewOrder(KindOf(c), x, y, ColorOf(c));
      PushCanonical(acc, New(KindOf(c), x, y, ColorOf(c)), 8 * (7 - y) + x);
    }
  }

  /** Reading a row lists its pieces file by file after those already
      read. */
  lemma {:induction false} RowCanonical(s: string, i: nat, x: int, y: int, acc: seq<Piece>)
    requires RowRest(s, i, x) && 0 <= y < 8
    requires Canonical(acc) && Before(acc, 8 * (7 - y) + x)
    ensures Canonical(RowFrom(s, i, x, y, acc)) && Before(RowFrom(s, i, x, y, acc), 8 * (7 - y) + 8)
    decreases |s| - i
  {
    if i == |s| {
      assert x <= 8;
    } else {
      RowStep(s, i, x, y, acc);
      StepCanonical(s[i], x, y, acc);
      RowCanonical(s, i + 1, StepX(s[i], x), y, StepAcc(s[i], x, y, acc));
    }
  }

  /** Reading the board lists the pieces rank 8 first, file a first. */
  lemma {:induction false} BoardCanonical(rows: seq<string>, k: nat, acc: seq<Piece>)
    requires |rows| == 8 && k <= 8 && forall j | 0 <= j < 8 :: RowOk(rows[j])
    requires Canonical(acc) && Before(acc, 8 * k)
    ensures Canonical(BoardFrom(rows, k, acc))
    decreases 8 - k
  {
    if k < 8 {
      BoardStep(rows, k, acc);
      RowCanonical(rows[k], 0, 0, 7 - k, acc);
      BoardCanonical(rows, k + 1, RowFrom(rows[k], 0, 0, 7 - k, acc));
    }
  }

  /** Every game `decode` produces can be written and read back. */
  lemma DecodeEncodable(fen: string)
    requires DecodeOf(fen).Ok?
    ensures Encodable(DecodeOf(fen).value)
  {
    ValidateOk(fen);
    var f := Words(fen);
    BoardCanonical(Split(f[0], '/'), 0, []);
    DecodeKings(fen);
    DecodeFields(fen);
    FlagsNamed(f[2]);
    var pos := DecodeOf(fen).value;
    if f[3] != "-" {
      var x :| 0 <= x < 8 &&
        (|| (pos.enPassant == Square(x, 2) && pos.turn == Black && f[3] == [Notation.FILES[x], '3'])
         || (pos.enPassant == Square(x, 5) && pos.turn == White && f[3] == [Notation.FILES[x], '6']));
      assert TargetOk(pos.enPassant, pos.turn);
    }
  }

  /** So `encode` never fails on a decoded game, and the record it writes
      decodes to that same game: `encode(decode(s))` describes the game `s`
      describes. */
  lemma EncodeDecoded(fen: string)
    requires DecodeOf(fen).Ok?
    ensures EncodeOf(DecodeOf(fen).value).Ok?
    ensures DecodeOf(EncodeOf(DecodeOf(fen).value).value) == DecodeOf(fen)
  {
    DecodeEncodable(fen);
    RoundTrip(DecodeOf(fen).value);
  }
}
