/** Text in double quotes as Go's strconv.Quote writes it and strconv.QuotedPrefix and Unquote read it.

    Text is a sequence of characters (Unicode scalar values).  Which characters outside ASCII are
    printable is a parameter: the laws hold for every choice. */
module QuotedText {
  import opened Wrappers

  const DEL := 0x7f as char
  const BELL := 7 as char
  const BACKSPACE := 8 as char
  const VTAB := 11 as char
  const FORM_FEED := 12 as char

  // ---- hexadecimal ----

  function Power16(k: nat): nat {
    if k == 0 then 1 else 16 * Power16(k - 1)
  }

  function HexDigit(d: nat): char
    requires d < 16
  {
    if d < 10 then (d + '0' as int) as char else (d - 10 + 'a' as int) as char
  }

  function UnhexDigit(c: char): Option<nat> {
    if '0' <= c <= '9' then Some(c as int - '0' as int)
    else if 'a' <= c <= 'f' then Some(c as int - 'a' as int + 10)
    else if 'A' <= c <= 'F' then Some(c as int - 'A' as int + 10)
    else None
  }

  function Hex(n: nat, k: nat): (s: string)
    ensures |s| == k
  {
    if k == 0 then [] else Hex(n / 16, k - 1) + [HexDigit(n % 16)]
  }

  function Unhex(s: string): Option<nat> {
    if s == [] then Some(0)
    else
      var high, low := Unhex(s[..|s| - 1]), UnhexDigit(s[|s| - 1]);
      if high.Some? && low.Some? then Some(16 * high.value + low.value) else None
  }

  lemma {:induction false} UnhexHex(n: nat, k: nat)
    requires n < Power16(k)
    ensures Unhex(Hex(n, k)) == Some(n)
  {
    if k > 0 {
      UnhexHex(n / 16, k - 1);
      var s := Hex(n, k);
      assert s[..k - 1] == Hex(n / 16, k - 1);
      assert UnhexDigit(s[k - 1]) == Some(n % 16);
    }
  }

  // ---- writing ----

  predicate Prints(c: char, wide: char -> bool) {
    if c as int < 0x80 then ' ' <= c < DEL else wide(c)
  }

  function Escape(c: char, wide: char -> bool): (s: string)
    ensures s != [] && (s[0] == c || s[0] == '\\')
  {
    if c == '"' || c == '\\' then ['\\', c]
    else if Prints(c, wide) then [c]
    else if c == BELL then "\\a"
    else if c == BACKSPACE then "\\b"
    else if c == FORM_FEED then "\\f"
    else if c == '\n' then "\\n"
    else if c == '\r' then "\\r"
    else if c == '\t' then "\\t"
    else if c == VTAB then "\\v"
    else if c < ' ' || c == DEL then "\\x" + Hex(c as int, 2)
    else if c as int < 0x10000 then "\\u" + Hex(c as int, 4)
    else "\\U" + Hex(c as int, 8)
  }

  function Escaped(s: string, wide: char -> bool): string {
    if s == [] then [] else Escape(s[0], wide) + Escaped(s[1..], wide)
  }

  function Quote(s: string, wide: char -> bool): string {
    "\"" + Escaped(s, wide) + "\""
  }

  lemma DigitsAre(d: nat)
    requires d < 16
    ensures HexDigit(d) == "0123456789abcdef"[d]
    ensures UnhexDigit("0123456789abcdef"[d]) == UnhexDigit("0123456789ABCDEF"[d]) == Some(d)
  {
  }

  /** What is written for a character: itself if it prints, a backslash and its letter for the seven that have
      one, and else its number. */
  lemma EscapesAre(c: char, wide: char -> bool)
    ensures c in "\"\\" ==> Escape(c, wide) == "\\" + [c]
    ensures Prints(c, wide) && c !in "\"\\" ==> Escape(c, wide) == [c]
    ensures forall i :: 0 <= i < 7 && c as int == [7, 8, 9, 10, 11, 12, 13][i] ==>
              Escape(c, wide) == "\\" + ["abtnvfr"[i]]
    ensures !Prints(c, wide) && !(7 <= c as int <= 13) ==>
              exists k :: k in {2, 4, 8} && c as int < Power16(k) && Escape(c, wide)[2..] == Hex(c as int, k)
                          && Escape(c, wide)[..2] == if k == 2 then "\\x" else if k == 4 then "\\u" else "\\U"
  {
    Powers();
    if !Prints(c, wide) && !(7 <= c as int <= 13) {
      var k := if c as int < 0x80 then 2 else if c as int < 0x10000 then 4 else 8;
      assert Escape(c, wide)[2..] == Hex(c as int, k);
    }
  }

  // ---- reading ----

  predicate Scalar(n: int) {
    0 <= n < 0xD800 || 0xE000 <= n < 0x11_0000
  }

  // The text up to the closing quote, and how much of s it takes with that quote.
  function Inside(s: string): (r: Option<(string, nat)>)
    ensures r.Some? ==> 0 < r.value.1 <= |s|
    decreases |s|, 2
  {
    if s == [] || s[0] == '\n' then None
    else if s[0] == '"' then Some(("", 1))
    else if s[0] == '\\' then Behind(s[1..])
    else Before(s[0], 1, Inside(s[1..]))
  }

  // The same from behind a backslash, which counts.
  function Behind(s: string): (r: Option<(string, nat)>)
    ensures r.Some? ==> 0 < r.value.1 <= |s| + 1
    decreases |s|, 1
  {
    if s == [] then None
    else if Letter(s[0]).Some? then Before(Letter(s[0]).value, 2, Inside(s[1..]))
    else if s[0] == 'x' then ByNumber(s[1..], 2, 0x80)
    else if s[0] == 'u' then ByNumber(s[1..], 4, 0x11_0000)
    else if s[0] == 'U' then ByNumber(s[1..], 8, 0x11_0000)
    else None
  }

  // A character written by number: k hexadecimal digits at the start of s.
  function ByNumber(s: string, k: nat, limit: nat): (r: Option<(string, nat)>)
    ensures r.Some? ==> 0 < r.value.1 <= |s| + 2
    decreases |s|, 3
  {
    if |s| < k then None
    else
      var n := Unhex(s[..k]);
      if n.Some? && n.value < limit && Scalar(n.value) then Before(n.value as char, k + 2, Inside(s[k..])) else None
  }

  // The characters a backslash and one letter stand for.
  function Letter(c: char): Option<char> {
    match c
    case 'a' => Some(BELL)
    case 'b' => Some(BACKSPACE)
    case 'f' => Some(FORM_FEED)
    case 'n' => Some('\n')
    case 'r' => Some('\r')
    case 't' => Some('\t')
    case 'v' => Some(VTAB)
    case '\\' => Some('\\')
    case '"' => Some('"')
    case _ => None
  }

  function Before(c: char, n: nat, rest: Option<(string, nat)>): Option<(string, nat)> {
    if rest.None? then None else Some(([c] + rest.value.0, n + rest.value.1))
  }

  function Unquoted(s: string): (r: Option<(string, nat)>)
    ensures r.Some? ==> 2 <= r.value.1 <= |s|
  {
    if s == [] || s[0] != '"' then None else Counted(Inside(s[1..]))
  }

  function Counted(r: Option<(string, nat)>): Option<(string, nat)> {
    if r.None? then None else Some((r.value.0, r.value.1 + 1))
  }

  // ---- what was written is read back ----

  lemma Glue(a: string, b: string, c: string)
    ensures a + b + c == a + (b + c)
  {
  }

  lemma NumberReads(c: char, k: nat, limit: nat, tail: string)
    requires c as int < Power16(k) && c as int < limit
    ensures ByNumber(Hex(c as int, k) + tail, k, limit) == Before(c, k + 2, Inside(tail))
  {
    UnhexHex(c as int, k);
    assert (Hex(c as int, k) + tail)[..k] == Hex(c as int, k);
    assert (Hex(c as int, k) + tail)[k..] == tail;
  }

  lemma BehindNumber(letter: char, c: char, k: nat, tail: string)
    requires (letter == 'x' && k == 2 && c as int < 0x80) || (letter == 'u' && k == 4 && c as int < 0x1_0000) ||
             (letter == 'U' && k == 8)
    ensures Behind([letter] + Hex(c as int, k) + tail) == Before(c, k + 2, Inside(tail))
  {
    Powers();
    NumberReads(c, k, if k == 2 then 0x80 else 0x11_0000, tail);
    Glue([letter], Hex(c as int, k), tail);
    BehindDigits(letter, Hex(c as int, k) + tail);
  }

  lemma Powers()
    ensures Power16(2) == 0x100 && Power16(4) == 0x1_0000 && Power16(8) == 0x1_0000_0000
  {
  }

  lemma BehindDigits(letter: char, s: string)
    requires letter in "xuU"
    ensures Behind([letter] + s) ==
            if letter == 'x' then ByNumber(s, 2, 0x80) else ByNumber(s, if letter == 'u' then 4 else 8, 0x11_0000)
  {
    assert ([letter] + s)[1..] == s;
  }

  lemma BehindLetter(letter: char, tail: string)
    requires Letter(letter).Some?
    ensures Behind([letter] + tail) == Before(Letter(letter).value, 2, Inside(tail))
  {
    assert ([letter] + tail)[1..] == tail;
  }

  lemma EscapeReads(c: char, wide: char -> bool, tail: string)
    requires Escape(c, wide)[0] == '\\'
    ensures Behind(Escape(c, wide)[1..] + tail) == Before(c, |Escape(c, wide)|, Inside(tail))
  {
    var e := Escape(c, wide);
    if |e| == 2 {
      assert e[1..] == [e[1]];
      BehindLetter(e[1], tail);
    } else {
      assert e[1..] == [e[1]] + Hex(c as int, |e| - 2);
      BehindNumber(e[1], c, |e| - 2, tail);
    }
  }

  lemma InsideStep(c: char, wide: char -> bool, tail: string)
    ensures Inside(Escape(c, wide) + tail) == Before(c, |Escape(c, wide)|, Inside(tail))
  {
    var e := Escape(c, wide);
    assert (e + tail)[1..] == e[1..] + tail;
    if e[0] == '\\' {
      EscapeReads(c, wide, tail);
    } else {
      assert e[1..] + tail == tail;
    }
  }

  lemma Regroup(a: string, b: string, c: string, d: string)
    ensures a + b + c + d == a + (b + c + d)
  {
  }

  ghost predicate ReadsAs(text: string, s: string, n: nat) {
    Inside(text) == Some((s, n))
  }

  lemma ReadsMore(c: char, s: string, wide: char -> bool, rest: string)
    requires ReadsAs(Escaped(s, wide) + "\"" + rest, s, |Escaped(s, wide)| + 1)
    ensures ReadsAs(Escape(c, wide) + Escaped(s, wide) + "\"" + rest, [c] + s, |Escape(c, wide) + Escaped(s, wide)| + 1)
  {
    InsideStep(c, wide, Escaped(s, wide) + "\"" + rest);
    Regroup(Escape(c, wide), Escaped(s, wide), "\"", rest);
  }

  lemma {:induction false} InsideReads(s: string, wide: char -> bool, rest: string)
    ensures ReadsAs(Escaped(s, wide) + "\"" + rest, s, |Escaped(s, wide)| + 1)
    decreases |s|
  {
    if s == [] {
      assert Escaped(s, wide) + "\"" + rest == "\"" + rest;
    } else {
      InsideReads(s[1..], wide, rest);
      ReadsMore(s[0], s[1..], wide, rest);
      assert s == [s[0]] + s[1..];
    }
  }

  /** A quoted text, whatever follows it, reads back as that text, to the end of the quotes. */
  lemma QuoteReads(s: string, wide: char -> bool, rest: string)
    ensures Unquoted(Quote(s, wide) + rest) == Some((s, |Quote(s, wide)|))
  {
    InsideReads(s, wide, rest);
    assert (Quote(s, wide) + rest)[1..] == Escaped(s, wide) + "\"" + rest;
  }
}
