/** The string operations of the Rust standard library the FEN and square-name
    code relies on: `split_whitespace`, `split`, `to_digit(10)`,
    `parse::<u16>` and `to_string` on unsigned integers.  A Rust `&str` is a
    sequence of Unicode scalar values here. */
module Text {
  import opened Wrappers

  /** `char::is_whitespace`: the Unicode White_Space property. */
  predicate IsSpace(c: char)
  {
    || c == ' ' || '\t' <= c <= '\r' || c == '\U{85}' || c == '\U{A0}' || c == '\U{1680}'
    || '\U{2000}' <= c <= '\U{200A}' || c == '\U{2028}' || c == '\U{2029}' || c == '\U{202F}'
    || c == '\U{205F}' || c == '\U{3000}'
  }

  /** `c.to_digit(10).is_some()`. */
  predicate IsDigit(c: char)
  {
    '0' <= c <= '9'
  }

  function DigitValue(c: char): (d: int)
    requires IsDigit(c)
    ensures 0 <= d <= 9
  {
    c as int - '0' as int
  }

  function DigitChar(d: int): (c: char)
    requires 0 <= d <= 9
    ensures IsDigit(c) && DigitValue(c) == d
  {
    ('0' as int + d) as char
  }

  /** A one-byte character in UTF-8. */
  predicate Ascii(c: char)
  {
    c as int < 0x80
  }

  /** The longest prefix of `s` with no white space. */
  function Word(s: string): (w: string)
    ensures w <= s && forall c | c in w :: !IsSpace(c)
    ensures w == s || IsSpace(s[|w|])
  {
    if s == [] || IsSpace(s[0]) then [] else [s[0]] + Word(s[1..])
  }

  /** `s.split_whitespace()`: the maximal runs of non-space characters. */
  function Words(s: string): (ws: seq<string>)
    ensures forall k | 0 <= k < |ws| :: ws[k] != [] && forall c | c in ws[k] :: !IsSpace(c)
    decreases |s|
  {
    if s == [] then []
    else if IsSpace(s[0]) then Words(s[1..])
    else
      var w := Word(s);
      [w] + Words(s[|w|..])
  }

  /** `s.split(sep)`: the pieces between separators, empty ones included. */
  function Split(s: string, sep: char): (parts: seq<string>)
    ensures |parts| >= 1
    ensures forall k | 0 <= k < |parts| :: sep !in parts[k]
    decreases |s|
  {
    if s == [] then [[]]
    else
      var rest := Split(s[1..], sep);
      if s[0] == sep then [[]] + rest else [[s[0]] + rest[0]] + rest[1..]
  }

  /** The parts joined with `sep` between them. */
  function Join(parts: seq<string>, sep: char): string
  {
    if parts == [] then []
    else if |parts| == 1 then parts[0]
    else parts[0] + [sep] + Join(parts[1..], sep)
  }

  /** Splitting undoes joining with a separator no part contains. */
  lemma {:induction false} SplitJoin(parts: seq<string>, sep: char)
    requires |parts| >= 1
    requires forall k | 0 <= k < |parts| :: sep !in parts[k]
    ensures Split(Join(parts, sep), sep) == parts
    decreases |parts|, |parts[0]|
  {
    if |parts| == 1 {
      SplitNoSep(parts[0], sep);
    } else if parts[0] == [] {
      var rest := parts[1..];
      assert Join(parts, sep) == [sep] + Join(rest, sep);
      assert ([sep] + Join(rest, sep))[1..] == Join(rest, sep);
      SplitJoin(rest, sep);
      assert parts == [[]] + rest;
    } else {
      var p := parts[0];
      var shorter := [p[1..]] + parts[1..];
      assert Join(parts, sep) == [p[0]] + Join(shorter, sep) by {
        assert p == [p[0]] + p[1..];
      }
      assert ([p[0]] + Join(shorter, sep))[1..] == Join(shorter, sep);
      assert sep !in shorter[0] by {
        assert forall c | c in p[1..] :: c in p;
      }
      SplitJoin(shorter, sep);
      assert [[p[0]] + shorter[0]] + shorter[1..] == parts by {
        assert [p[0]] + p[1..] == p;
      }
    }
  }

  lemma {:induction false} SplitNoSep(s: string, sep: char)
    requires sep !in s
    ensures Split(s, sep) == [s]
    decreases |s|
  {
    if s != [] {
      SplitNoSep(s[1..], sep);
      assert [s[0]] + s[1..] == s;
    }
  }

  /** Runs of non-space text joined by single spaces split back into the
      same runs. */
  lemma {:induction false} WordsJoin(ws: seq<string>)
    requires |ws| >= 1
    requires forall k | 0 <= k < |ws| :: ws[k] != [] && forall c | c in ws[k] :: !IsSpace(c)
    ensures Words(Join(ws, ' ')) == ws
    decreases |ws|
  {
    var w := ws[0];
    WordAll(w);
    if |ws| == 1 {
      WordTail(w, []);
      assert w + [] == w;
    } else {
      var rest := Join(ws[1..], ' ');
      assert Join(ws, ' ') == w + ([' '] + rest);
      WordTail(w, [' '] + rest);
      assert (w + ([' '] + rest))[|w|..] == [' '] + rest;
      assert ([' '] + rest)[1..] == rest;
      WordsJoin(ws[1..]);
      assert ws == [w] + ws[1..];
    }
  }

  lemma {:induction false} WordAll(w: string)
    requires forall c | c in w :: !IsSpace(c)
    ensures Word(w) == w
    decreases |w|
  {
    if w != [] {
      assert forall c | c in w[1..] :: c in w;
      WordAll(w[1..]);
    }
  }

  /** The first word of `w + t` is `w` when `w` has no space and `t` is empty
      or starts with one. */
  lemma {:induction false} WordTail(w: string, t: string)
    requires w != [] && forall c | c in w :: !IsSpace(c)
    requires t == [] || IsSpace(t[0])
    ensures Word(w + t) == w && Words(w + t) == [w] + Words((w + t)[|w|..])
    decreases |w|
  {
    if |w| == 1 {
      assert (w + t)[1..] == t;
    } else {
      assert forall c | c in w[1..] :: c in w;
      WordTail(w[1..], t);
      assert (w + t)[1..] == w[1..] + t;
    }
  }

  /** The number written by a string of decimal digits. */
  function Value(ds: string): (n: nat)
    requires forall k | 0 <= k < |ds| :: IsDigit(ds[k])
  {
    if ds == [] then 0 else 10 * Value(ds[..|ds| - 1]) + DigitValue(ds[|ds| - 1])
  }

  predicate AllDigits(ds: string)
  {
    forall k | 0 <= k < |ds| :: IsDigit(ds[k])
  }

  /** `s.parse::<u16>()`: one optional leading `+` (not alone), then at least
      one decimal digit, and a value below 2^16. */
  function ParseU16(s: string): (r: Option<nat>)
    ensures r.Some? ==> r.value < 0x1_0000
  {
    if s == [] then None
    else
      var ds := if s[0] == '+' && |s| > 1 then s[1..] else s;
      if AllDigits(ds) && Value(ds) < 0x1_0000 then Some(Value(ds)) else None
  }

  /** `n.to_string()`: decimal digits, no sign, no leading zero. */
  function Decimal(n: nat): (s: string)
    ensures s != [] && AllDigits(s)
    ensures |s| > 1 ==> s[0] != '0'
  {
    if n < 10 then [DigitChar(n)] else Decimal(n / 10) + [DigitChar(n % 10)]
  }

  /** Reading back a number's decimal text gives the number. */
  lemma {:induction false} DecimalValue(n: nat)
    ensures Value(Decimal(n)) == n
  {
    if n >= 10 {
      var s := Decimal(n);
      assert s[..|s| - 1] == Decimal(n / 10);
      DecimalValue(n / 10);
    }
  }

  /** `parse::<u16>` reads back `to_string` on a `u16`. */
  lemma ParseDecimal(n: nat)
    requires n < 0x1_0000
    ensures ParseU16(Decimal(n)) == Some(n)
  {
    DecimalValue(n);
  }
}
