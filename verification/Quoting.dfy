/** Go's `%q` on a string of Unicode scalar values, and the double-quoted scalar reader
    of YAML 1.2 (sections 5.7 and 7.3.1) that takes it back. */
module Quoting {
  import opened Wrappers
  import opened Text

  /** What `strconv.IsPrint` accepts beyond ASCII: a table of the Go library, left unspecified but for this: it holds
      nothing that YAML refuses, that is neither the C1 controls nor the two noncharacters U+FFFE and U+FFFF. */
  const PRINTABLE_BEYOND_ASCII: set<char>

  predicate IsPrint(c: char) {
    if c < '\U{80}' then ' ' <= c <= '~' else c in PRINTABLE_BEYOND_ASCII && YamlPrintable(c)
  }

  function HexDigit(d: int): (c: char)
    requires 0 <= d < 16
    ensures HexValue(c) == Some(d)
  {
    if d < 10 then '0' + d as char else 'a' + (d - 10) as char
  }

  function HexValue(c: char): Option<int> {
    if '0' <= c <= '9' then Some(c as int - '0' as int)
    else if 'a' <= c <= 'f' then Some(c as int - 'a' as int + 10)
    else if 'A' <= c <= 'F' then Some(c as int - 'A' as int + 10)
    else None
  }

  /** The `n` lower-case hexadecimal digits of `v`. */
  function Hex(n: nat, v: nat): (s: string)
    ensures |s| == n
  {
    if n == 0 then "" else Hex(n - 1, v / 16) + [HexDigit(v % 16)]
  }

  /** Go 1.16's `appendEscapedRune` for the quote character '"'. */
  function EscapeChar(c: char): string {
    if c == '"' || c == '\\' then ['\\', c]
    else if IsPrint(c) then [c]
    else if c == '\U{07}' then "\\a"
    else if c == '\U{08}' then "\\b"
    else if c == '\U{0C}' then "\\f"
    else if c == '\n' then "\\n"
    else if c == '\r' then "\\r"
    else if c == '\t' then "\\t"
    else if c == '\U{0B}' then "\\v"
    else if c < ' ' then "\\x" + Hex(2, c as int)
    else if c < '\U{10000}' then "\\u" + Hex(4, c as int)
    else "\\U" + Hex(8, c as int)
  }

  function Escape(s: string): string {
    if s == "" then "" else EscapeChar(s[0]) + Escape(s[1..])
  }

  /** `fmt.Sprintf("%q", s)`. */
  function Quote(s: string): string {
    "\"" + Escape(s) + "\""
  }

  /** The number that hexadecimal digits stand for. */
  function HexNumber(s: string): Option<int> {
    if s == "" then Some(0)
    else
      var high, low := HexNumber(s[..|s| - 1]), HexValue(s[|s| - 1]);
      if high.Some? && low.Some? then Some(16 * high.value + low.value) else None
  }

  predicate IsScalar(v: int) {
    0 <= v < 0xD800 || 0xE000 <= v < 0x11_0000
  }

  /** The characters that one escape letter stands for (section 5.7). */
  function Letter(c: char): Option<char> {
    match c
    case '0' => Some('\0')
    case 'a' => Some('\U{07}')
    case 'b' => Some('\U{08}')
    case 't' => Some('\t')
    case '\t' => Some('\t')
    case 'n' => Some('\n')
    case 'v' => Some('\U{0B}')
    case 'f' => Some('\U{0C}')
    case 'r' => Some('\r')
    case 'e' => Some('\U{1B}')
    case ' ' => Some(' ')
    case '"' => Some('"')
    case '/' => Some('/')
    case '\\' => Some('\\')
    case 'N' => Some('\U{85}')
    case '_' => Some('\U{A0}')
    case 'L' => Some('\U{2028}')
    case 'P' => Some('\U{2029}')
    case _ => None
  }

  /** How many hexadecimal digits follow an escape letter. */
  function Width(c: char): nat {
    if c == 'x' then 2 else if c == 'u' then 4 else if c == 'U' then 8 else 0
  }

  function Prepend(c: char, rest: Option<string>): Option<string> {
    if rest.None? then None else Some([c] + rest.value)
  }

  /** The rest of a double-quoted scalar on one line, after the opening quote (section 7.3.1);
      None when it is malformed or something follows it. */
  function ReadRest(s: string): Option<string> {
    if s == "" then None
    else if s[0] == '"' then (if |s| == 1 then Some("") else None)
    else if s[0] == '\n' || s[0] == '\r' then None
    else if s[0] != '\\' then Prepend(s[0], ReadRest(s[1..]))
    else if |s| == 1 then None
    else if Letter(s[1]).Some? then Prepend(Letter(s[1]).value, ReadRest(s[2..]))
    else
      var w := Width(s[1]);
      if w == 0 || |s| < 2 + w then None
      else
        var v := HexNumber(s[2..2 + w]);
        if v.Some? && IsScalar(v.value) then Prepend(v.value as char, ReadRest(s[2 + w..])) else None
  }

  function ReadQuoted(s: string): Option<string> {
    if s == "" || s[0] != '"' then None else ReadRest(s[1..])
  }

  function Pow16(n: nat): nat {
    if n == 0 then 1 else 16 * Pow16(n - 1)
  }

  lemma {:induction false} HexReads(n: nat, v: nat)
    requires v < Pow16(n)
    ensures HexNumber(Hex(n, v)) == Some(v)
  {
    if n > 0 {
      HexReads(n - 1, v / 16);
      var s := Hex(n, v);
      assert s[..|s| - 1] == Hex(n - 1, v / 16);
    }
  }

  lemma Powers()
    ensures Pow16(2) == 0x100 && Pow16(4) == 0x1_0000 && Pow16(8) == 0x1_0000_0000
  {
    assert Pow16(3) == 16 * Pow16(2);
    assert Pow16(4) == 16 * Pow16(3);
    assert Pow16(5) == 16 * Pow16(4);
    assert Pow16(6) == 16 * Pow16(5);
    assert Pow16(7) == 16 * Pow16(6);
  }

  lemma ReadsNumeric(c: char, letter: char, rest: string)
    requires Width(letter) > 0 && c as int < Pow16(Width(letter))
    ensures ReadRest("\\" + [letter] + Hex(Width(letter), c as int) + rest) == Prepend(c, ReadRest(rest))
  {
    var w := Width(letter);
    HexReads(w, c as int);
    var s := "\\" + [letter] + Hex(w, c as int) + rest;
    assert s[2..2 + w] == Hex(w, c as int);
    assert s[2 + w..] == rest;
    assert Letter(letter).None?;
  }

  lemma ReadsLetter(letter: char, rest: string)
    requires Letter(letter).Some?
    ensures ReadRest("\\" + [letter] + rest) == Prepend(Letter(letter).value, ReadRest(rest))
  {
    var s := "\\" + [letter] + rest;
    assert s[2..] == rest;
  }

  /** The letters that Go uses for escapes. */
  function GoLetter(c: char): Option<char> {
    match c
    case '"' => Some('"')
    case '\\' => Some('\\')
    case '\U{07}' => Some('a')
    case '\U{08}' => Some('b')
    case '\U{0C}' => Some('f')
    case '\n' => Some('n')
    case '\r' => Some('r')
    case '\t' => Some('t')
    case '\U{0B}' => Some('v')
    case _ => None
  }

  /** The three ways in which Go writes a character. */
  lemma EscapeForms(c: char)
    ensures
      var w := if c < ' ' then 'x' else if c < '\U{10000}' then 'u' else 'U';
      || (EscapeChar(c) == [c] && c !in {'"', '\\', '\n', '\r'})
      || (GoLetter(c).Some? && EscapeChar(c) == ['\\', GoLetter(c).value])
      || EscapeChar(c) == "\\" + [w] + Hex(Width(w), c as int)
  {
    hide Hex;
  }

  lemma ReadsChar(c: char, rest: string)
    ensures ReadRest(EscapeChar(c) + rest) == Prepend(c, ReadRest(rest))
  {
    hide EscapeChar, ReadRest, Hex;
    EscapeForms(c);
    var w := if c < ' ' then 'x' else if c < '\U{10000}' then 'u' else 'U';
    if EscapeChar(c) == [c] && c !in {'"', '\\', '\n', '\r'} {
      ReadsPlain(c, rest);
    } else if GoLetter(c).Some? && EscapeChar(c) == ['\\', GoLetter(c).value] {
      ReadsLetter(GoLetter(c).value, rest);
      assert ['\\', GoLetter(c).value] + rest == "\\" + [GoLetter(c).value] + rest;
    } else {
      Powers();
      ReadsNumeric(c, w, rest);
    }
  }

  lemma ReadsPlain(c: char, rest: string)
    requires c !in {'"', '\\', '\n', '\r'}
    ensures ReadRest([c] + rest) == Prepend(c, ReadRest(rest))
  {
    assert ([c] + rest)[1..] == rest;
  }

  /** What `%q` writes, a YAML reader takes back, for every string. */
  lemma {:induction false} QuoteRoundTrip(s: string)
    ensures ReadQuoted(Quote(s)) == Some(s)
  {
    hide EscapeChar;
    EscapeRoundTrip(s);
    assert Quote(s)[1..] == Escape(s) + "\"";
  }

  lemma {:induction false} EscapeRoundTrip(s: string)
    ensures ReadRest(Escape(s) + "\"") == Some(s)
  {
    hide EscapeChar;
    if s != "" {
      EscapeRoundTrip(s[1..]);
      ReadsChar(s[0], Escape(s[1..]) + "\"");
      assert Escape(s) + "\"" == EscapeChar(s[0]) + (Escape(s[1..]) + "\"");
      assert [s[0]] + s[1..] == s;
    }
  }

  /** A quoted string has no raw line break or carriage return, so it takes one line. */
  lemma {:induction false} QuoteIsOneLine(s: string)
    ensures '\n' !in Quote(s) && '\r' !in Quote(s)
  {
    EscapeIsOneLine(s);
  }

  lemma {:induction false} EscapeIsOneLine(s: string)
    ensures '\n' !in Escape(s) && '\r' !in Escape(s)
  {
    hide EscapeChar;
    if s != "" {
      EscapeIsOneLine(s[1..]);
      EscapeForms(s[0]);
      var w := if s[0] < ' ' then 'x' else if s[0] < '\U{10000}' then 'u' else 'U';
      HexIsPlain(Width(w), s[0] as int);
    }
  }

  lemma {:induction false} HexIsPlain(n: nat, v: nat)
    ensures '\n' !in Hex(n, v) && '\r' !in Hex(n, v)
  {
    if n > 0 {
      HexIsPlain(n - 1, v / 16);
    }
  }
}
