/**
 * String helpers the database core relies on: `Vec::join`, `str::contains`,
 * the single-quote doubling of the SQL builders, decimal rendering of
 * integers (`Display` for `u64`, `i64` and `u16`), ASCII upper-casing and
 * `split_whitespace`.
 */
module Text {

  import opened Outcomes

  /** `parts.join(sep)`. */
  function Join(parts: seq<string>, sep: string): string
  {
    if parts == [] then ""
    else if |parts| == 1 then parts[0]
    else parts[0] + sep + Join(parts[1..], sep)
  }

  /** Joining one more element of `parts` adds a separator and that element. */
  lemma JoinPrefix(parts: seq<string>, i: nat, sep: string)
    requires 0 < i < |parts|
    ensures Join(parts[..i + 1], sep) == Join(parts[..i], sep) + sep + parts[i]
  {
    assert parts[..i + 1] == parts[..i] + [parts[i]];
    JoinSnoc(parts[..i], parts[i], sep);
  }

  lemma {:induction false} JoinSnoc(parts: seq<string>, x: string, sep: string)
    requires parts != []
    ensures Join(parts + [x], sep) == Join(parts, sep) + sep + x
  {
    if |parts| == 1 {
      assert parts + [x] == [parts[0], x];
      assert ([parts[0], x])[1..] == [x];
    } else {
      assert (parts + [x])[1..] == parts[1..] + [x];
      JoinSnoc(parts[1..], x, sep);
    }
  }

  predicate OccursAt(s: string, sub: string, i: nat)
  {
    i + |sub| <= |s| && s[i..i + |sub|] == sub
  }

  /** `s.contains(sub)`. */
  predicate Contains(s: string, sub: string)
  {
    exists i: nat | i <= |s| :: OccursAt(s, sub, i)
  }

  // ---------------------------------------------------------------------
  // Single-quote doubling: `s.replace("'", "''")`

  /** Every `'` of `s` doubled, nothing else changed. */
  function EscapeQuotes(s: string): (e: string)
    ensures |e| >= |s|
  {
    if s == [] then ""
    else if s[0] == '\'' then "''" + EscapeQuotes(s[1..])
    else [s[0]] + EscapeQuotes(s[1..])
  }

  /** The SQL literal `'…'` holding `s`. */
  function Quote(s: string): string
  {
    "'" + EscapeQuotes(s) + "'"
  }

  /**
   * How an SQL lexer reads the body of a string literal once the opening
   * quote is consumed: `''` stands for one quote, a lone `'` closes the
   * literal. Yields the text and what follows the closing quote.
   */
  function ReadQuotedBody(t: string): Option<(string, string)>
    decreases |t|
  {
    if t == [] then None
    else if t[0] != '\'' then
      match ReadQuotedBody(t[1..])
      case None => None
      case Some(p) => Some(([t[0]] + p.0, p.1))
    else if |t| >= 2 && t[1] == '\'' then
      match ReadQuotedBody(t[2..])
      case None => None
      case Some(p) => Some(("'" + p.0, p.1))
    else Some(("", t[1..]))
  }

  /** Reads one SQL string literal at the head of `t`. */
  function ReadSqlString(t: string): Option<(string, string)>
  {
    if t != [] && t[0] == '\'' then ReadQuotedBody(t[1..]) else None
  }

  lemma {:induction false} ReadEscaped(s: string, rest: string)
    requires rest == [] || rest[0] != '\''
    ensures ReadQuotedBody(EscapeQuotes(s) + "'" + rest) == Some((s, rest))
  {
    if s == [] {
      assert EscapeQuotes(s) + "'" + rest == "'" + rest;
    } else if s[0] == '\'' {
      ReadEscaped(s[1..], rest);
      var t := EscapeQuotes(s) + "'" + rest;
      assert t == "''" + (EscapeQuotes(s[1..]) + "'" + rest);
      assert t[2..] == EscapeQuotes(s[1..]) + "'" + rest;
      assert "'" + s[1..] == s;
    } else {
      ReadEscaped(s[1..], rest);
      var t := EscapeQuotes(s) + "'" + rest;
      assert t == [s[0]] + (EscapeQuotes(s[1..]) + "'" + rest);
      assert t[1..] == EscapeQuotes(s[1..]) + "'" + rest;
      assert [s[0]] + s[1..] == s;
    }
  }

  /**
   * The doubling makes `Quote(s)` exactly one SQL string token: a lexer
   * reading it back recovers `s` and stops right after the closing quote,
   * whatever `s` contains.
   */
  lemma QuoteIsOneToken(s: string, rest: string)
    requires rest == [] || rest[0] != '\''
    ensures ReadSqlString(Quote(s) + rest) == Some((s, rest))
  {
    ReadEscaped(s, rest);
    assert (Quote(s) + rest)[1..] == EscapeQuotes(s) + "'" + rest;
  }

  // ---------------------------------------------------------------------
  // Decimal rendering

  predicate IsDigit(c: char) { '0' <= c <= '9' }

  predicate AllDigits(s: string) { forall i | 0 <= i < |s| :: IsDigit(s[i]) }

  function DigitChar(d: nat): (c: char)
    requires d < 10
    ensures IsDigit(c) && DigitValue(c) == d
  {
    "0123456789"[d]
  }

  function DigitValue(c: char): nat
    requires IsDigit(c)
  {
    (c as int - '0' as int) as nat
  }

  /** `Display` of an unsigned integer: decimal digits, no leading zero. */
  function NatToString(n: nat): (s: string)
    ensures |s| >= 1 && AllDigits(s)
    ensures n >= 10 ==> s[0] != '0'
    ensures n < 10 ==> |s| == 1
  {
    if n < 10 then [DigitChar(n)] else NatToString(n / 10) + [DigitChar(n % 10)]
  }

  /** The value of a string of decimal digits. */
  function ParseDigits(s: string): nat
    requires AllDigits(s)
  {
    if s == [] then 0 else ParseDigits(s[..|s| - 1]) * 10 + DigitValue(s[|s| - 1])
  }

  /** Reading back the rendered digits gives the number. */
  lemma {:induction false} NatToStringRoundTrip(n: nat)
    ensures ParseDigits(NatToString(n)) == n
  {
    if n >= 10 {
      var s := NatToString(n);
      assert s[..|s| - 1] == NatToString(n / 10);
      NatToStringRoundTrip(n / 10);
    }
  }

  /** Distinct numbers are rendered differently. */
  lemma NatToStringInjective(m: nat, n: nat)
    requires NatToString(m) == NatToString(n)
    ensures m == n
  {
    NatToStringRoundTrip(m);
    NatToStringRoundTrip(n);
  }

  /** `Display` of a signed integer. */
  function IntToString(i: int): (s: string)
    ensures i < 0 <==> (|s| > 0 && s[0] == '-')
  {
    if i < 0 then "-" + NatToString(-i) else NatToString(i)
  }

  // ---------------------------------------------------------------------
  // Case mapping

  /** `to_uppercase` on ASCII letters; every other character is kept. */
  function ToUpper(s: string): (u: string)
    ensures |u| == |s|
    ensures forall i | 0 <= i < |s| ::
      u[i] == if 'a' <= s[i] <= 'z' then (s[i] as int - 32) as char else s[i]
  {
    seq(|s|, i requires 0 <= i < |s| =>
      if 'a' <= s[i] <= 'z' then (s[i] as int - 32) as char else s[i])
  }

  // ---------------------------------------------------------------------
  // `split_whitespace`

  /** Rust's `char::is_whitespace`: the Unicode White_Space property. */
  predicate IsWhitespace(c: char)
  {
    c == ' ' || ('\t' <= c <= '\r') || c == '\U{85}' || c == '\U{A0}'
    || c == '\U{1680}' || ('\U{2000}' <= c <= '\U{200A}') || c == '\U{2028}'
    || c == '\U{2029}' || c == '\U{202F}' || c == '\U{205F}' || c == '\U{3000}'
  }

  predicate IsWord(w: string)
  {
    w != [] && forall i | 0 <= i < |w| :: !IsWhitespace(w[i])
  }

  /** Length of the run of non-whitespace characters at the head of `s`. */
  function WordLength(s: string): (n: nat)
    ensures n <= |s|
    ensures forall i | 0 <= i < n :: !IsWhitespace(s[i])
    ensures n < |s| ==> IsWhitespace(s[n])
  {
    if s == [] || IsWhitespace(s[0]) then 0 else 1 + WordLength(s[1..])
  }

  /** The maximal whitespace-free runs of `s`, in order. */
  function Words(s: string): (ws: seq<string>)
    ensures forall k | 0 <= k < |ws| :: IsWord(ws[k])
    decreases |s|
  {
    if s == [] then []
    else if IsWhitespace(s[0]) then Words(s[1..])
    else
      var n := WordLength(s);
      [s[..n]] + Words(s[n..])
  }

  lemma {:induction false} WordsOfWord(w: string, rest: string)
    requires IsWord(w)
    requires rest == [] || IsWhitespace(rest[0])
    ensures Words(w + rest) == [w] + Words(rest)
  {
    var s := w + rest;
    WordLengthOf(w, rest);
    assert s[..|w|] == w;
    assert s[|w|..] == rest;
  }

  lemma {:induction false} WordLengthOf(w: string, rest: string)
    requires forall i | 0 <= i < |w| :: !IsWhitespace(w[i])
    requires rest == [] || IsWhitespace(rest[0])
    ensures WordLength(w + rest) == |w|
  {
    if w != [] {
      assert (w + rest)[1..] == w[1..] + rest;
      WordLengthOf(w[1..], rest);
    } else {
      assert w + rest == rest;
    }
  }

  /**
   * Splitting the words joined by one space gives the words back: the
   * single-space join loses nothing `split_whitespace` can see.
   */
  lemma {:induction false} WordsOfJoin(ws: seq<string>)
    requires forall k | 0 <= k < |ws| :: IsWord(ws[k])
    ensures Words(Join(ws, " ")) == ws
  {
    if |ws| == 1 {
      WordsOfWord(ws[0], "");
      assert ws[0] + "" == ws[0];
    } else if |ws| > 1 {
      var tail := Join(ws[1..], " ");
      WordsOfJoin(ws[1..]);
      WordsOfWord(ws[0], " " + tail);
      assert Join(ws, " ") == ws[0] + (" " + tail);
      assert Words(" " + tail) == Words(tail) by {
        assert (" " + tail)[1..] == tail;
      }
    }
  }
}
