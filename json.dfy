/** JSON string quoting as JSON.stringify performs it on a string value
    (section 7 of RFC 8259), and the decoding of such a literal, which
    inverts it. */
module Json {
  import opened Common

  function HexDigit(n: int): (c: char)
    requires 0 <= n < 16
  {
    if n < 10 then ('0' as int + n) as char else ('a' as int + n - 10) as char
  }

  /** The value of a hexadecimal digit of either case, or -1. */
  function HexValue(c: char): (v: int)
    ensures -1 <= v < 16
  {
    if '0' <= c <= '9' then c as int - '0' as int
    else if 'a' <= c <= 'f' then c as int - 'a' as int + 10
    else if 'A' <= c <= 'F' then c as int - 'A' as int + 10
    else -1
  }

  lemma HexRoundTrip(n: int)
    requires 0 <= n < 16
    ensures HexValue(HexDigit(n)) == n
  {
  }

  /** The value of the four hexadecimal digits at t[i..i+4], or -1 when one
      of them is not a hexadecimal digit. */
  function Hex4(t: string, i: nat): (v: int)
    requires i + 4 <= |t|
    ensures -1 <= v < 0x10000
    ensures v >= 0 <==> HexValue(t[i]) >= 0 && HexValue(t[i + 1]) >= 0 && HexValue(t[i + 2]) >= 0 && HexValue(t[i + 3]) >= 0
  {
    if HexValue(t[i]) < 0 || HexValue(t[i + 1]) < 0 || HexValue(t[i + 2]) < 0 || HexValue(t[i + 3]) < 0 then -1
    else ((HexValue(t[i]) * 16 + HexValue(t[i + 1])) * 16 + HexValue(t[i + 2])) * 16 + HexValue(t[i + 3])
  }

  /** The escape \uXXXX of one UTF-16 code unit, in lower-case hex. */
  function UnitEscape(v: int): (e: string)
    requires 0 <= v < 0x10000
    ensures |e| == 6 && e[0] == '\\' && e[1] == 'u'
  {
    "\\u" + [HexDigit(v / 16 / 16 / 16), HexDigit(v / 16 / 16 % 16), HexDigit(v / 16 % 16), HexDigit(v % 16)]
  }

  /** A unit's escape reads back as that unit. */
  lemma UnitEscapeValue(v: int, t: string, i: nat)
    requires 0 <= v < 0x10000
    requires i + 6 <= |t| && t[i..i + 6] == UnitEscape(v)
    ensures t[i] == '\\' && t[i + 1] == 'u' && Hex4(t, i + 2) == v
  {
    var q1, q2 := v / 16, v / 16 / 16;
    assert t[i] == UnitEscape(v)[0] && t[i + 1] == UnitEscape(v)[1];
    assert t[i + 2] == HexDigit(q2 / 16) && t[i + 3] == HexDigit(q2 % 16);
    assert t[i + 4] == HexDigit(q1 % 16) && t[i + 5] == HexDigit(v % 16);
    HexRoundTrip(q2 / 16);
    HexRoundTrip(q2 % 16);
    HexRoundTrip(q1 % 16);
    HexRoundTrip(v % 16);
    assert q2 == q2 / 16 * 16 + q2 % 16;
    assert q1 == q2 * 16 + q1 % 16;
    assert v == q1 * 16 + v % 16;
  }

  /** The high and low surrogates that encode a character above U+FFFF in
      UTF-16. */
  function HighSurrogate(c: char): (hi: int)
    requires c as int >= 0x10000
    ensures 0xD800 <= hi < 0xDC00
  {
    0xD800 + (c as int - 0x10000) / 0x400
  }

  function LowSurrogate(c: char): (lo: int)
    requires c as int >= 0x10000
    ensures 0xDC00 <= lo < 0xE000
  {
    0xDC00 + (c as int - 0x10000) % 0x400
  }

  /** The pair gives the character back. */
  lemma SurrogatesCombine(c: char)
    requires c as int >= 0x10000
    ensures 0x10000 + (HighSurrogate(c) - 0xD800) * 0x400 + (LowSurrogate(c) - 0xDC00) == c as int
  {
    var u := c as int - 0x10000;
    assert u == u / 0x400 * 0x400 + u % 0x400;
  }

  /** The surrogate-pair escape of a character above U+FFFF, as a JSON
      writer that escapes non-BMP characters produces it. */
  function PairEscape(c: char): (e: string)
    requires c as int >= 0x10000
    ensures |e| == 12
  {
    UnitEscape(HighSurrogate(c)) + UnitEscape(LowSurrogate(c))
  }

  /** The escape JSON.stringify writes for one character: a two-character
      escape for the quote, the backslash and the five named controls, a
      \u00XX escape in lower-case hex for the other controls below U+0020,
      and the character itself otherwise. */
  function EscapeChar(c: char): (e: string)
    ensures |e| >= 1
    ensures forall i :: 0 <= i < |e| ==> e[i] >= ' '
    ensures forall i :: 0 <= i < |e| ==> e[i] != '"' || (i == 1 && e[0] == '\\')
  {
    if c == '"' then "\\\""
    else if c == '\\' then "\\\\"
    else if c == '\U{8}' then "\\b"
    else if c == '\U{C}' then "\\f"
    else if c == '\n' then "\\n"
    else if c == '\r' then "\\r"
    else if c == '\t' then "\\t"
    else if c < ' ' then "\\u00" + [HexDigit(c as int / 16), HexDigit(c as int % 16)]
    else [c]
  }

  function Escape(s: string): (e: string)
    ensures forall i :: 0 <= i < |e| ==> e[i] >= ' '
  {
    if s == [] then [] else EscapeChar(s[0]) + Escape(s[1..])
  }

  /** JSON.stringify of a string: the escaped text between double quotes.
      No control character, and so no line feed, survives. */
  function Quote(s: string): (q: string)
    ensures |q| >= 2 && q[0] == '"' && q[|q| - 1] == '"'
    ensures forall i :: 0 <= i < |q| ==> q[i] >= ' '
    ensures '\n' !in q
  {
    "\"" + Escape(s) + "\""
  }

  function Cons(c: char, rest: Option<string>): Option<string>
  {
    if rest.Some? then Some([c] + rest.value) else None
  }

  /** Decodes the body of a JSON string literal (section 7 of RFC 8259);
      None when it is not a well-formed body. */
  function Unescape(t: string): (r: Option<string>)
    decreases |t|
  {
    if t == [] then Some([])
    else if t[0] == '\\' then
      if |t| < 2 then None
      else if t[1] == '"' then Cons('"', Unescape(t[2..]))
      else if t[1] == '\\' then Cons('\\', Unescape(t[2..]))
      else if t[1] == '/' then Cons('/', Unescape(t[2..]))
      else if t[1] == 'b' then Cons('\U{8}', Unescape(t[2..]))
      else if t[1] == 'f' then Cons('\U{C}', Unescape(t[2..]))
      else if t[1] == 'n' then Cons('\n', Unescape(t[2..]))
      else if t[1] == 'r' then Cons('\r', Unescape(t[2..]))
      else if t[1] == 't' then Cons('\t', Unescape(t[2..]))
      else if t[1] == 'u' && |t| >= 6 && Hex4(t, 2) >= 0 then
        var v := Hex4(t, 2);
        if 0xDC00 <= v < 0xE000 then None
        else if 0xD800 <= v < 0xDC00 then
          // a high surrogate combines with the low surrogate escaped after it
          if |t| >= 12 && t[6] == '\\' && t[7] == 'u' && 0xDC00 <= Hex4(t, 8) < 0xE000 then
            Cons((0x10000 + (v - 0xD800) * 0x400 + (Hex4(t, 8) - 0xDC00)) as char, Unescape(t[12..]))
          else None
        else Cons(v as char, Unescape(t[6..]))
      else None
    else if t[0] == '"' || t[0] < ' ' then None
    else Cons(t[0], Unescape(t[1..]))
  }

  /** A control character without a short escape comes back from its
      \u00XX escape. */
  lemma UnescapeControl(c: char, rest: string)
    requires c < ' ' && c != '\U{8}' && c != '\U{C}' && c != '\n' && c != '\r' && c != '\t'
    ensures Unescape(EscapeChar(c) + rest) == Cons(c, Unescape(rest))
  {
    var hi, lo := c as int / 16, c as int % 16;
    HexRoundTrip(hi);
    HexRoundTrip(lo);
    var t := EscapeChar(c) + rest;
    assert t == ['\\', 'u', '0', '0', HexDigit(hi), HexDigit(lo)] + rest;
    assert t[6..] == rest;
    assert HexValue(t[2]) == 0 && HexValue(t[3]) == 0;
    assert Hex4(t, 2) == c as int;
  }

  /** The quote, the backslash and the five named controls come back from
      their two-character escapes. */
  lemma UnescapeShort(c: char, rest: string)
    requires c == '"' || c == '\\' || c == '\U{8}' || c == '\U{C}' || c == '\n' || c == '\r' || c == '\t'
    ensures Unescape(EscapeChar(c) + rest) == Cons(c, Unescape(rest))
  {
    var t := EscapeChar(c) + rest;
    assert |EscapeChar(c)| == 2;
    assert t[2..] == rest;
  }

  lemma UnescapeChar(c: char, rest: string)
    ensures Unescape(EscapeChar(c) + rest) == Cons(c, Unescape(rest))
  {
    if c < ' ' && c != '\U{8}' && c != '\U{C}' && c != '\n' && c != '\r' && c != '\t' {
      UnescapeControl(c, rest);
    } else if c == '"' || c == '\\' || c == '\U{8}' || c == '\U{C}' || c == '\n' || c == '\r' || c == '\t' {
      UnescapeShort(c, rest);
    } else {
      var t := EscapeChar(c) + rest;
      assert t[1..] == rest;
    }
  }

  /** Decoding undoes the escaping: the quoting loses nothing. */
  lemma {:induction false} UnescapeEscape(s: string)
    ensures Unescape(Escape(s)) == Some(s)
  {
    if s != [] {
      UnescapeEscape(s[1..]);
      UnescapeChar(s[0], Escape(s[1..]));
      assert s == [s[0]] + s[1..];
    }
  }

  /** An escaped high surrogate followed by an escaped low surrogate
      decodes to the character the pair encodes. */
  lemma UnescapeHighLow(t: string)
    requires |t| >= 12 && t[0] == '\\' && t[1] == 'u' && t[6] == '\\' && t[7] == 'u'
    requires 0xD800 <= Hex4(t, 2) < 0xDC00 && 0xDC00 <= Hex4(t, 8) < 0xE000
    ensures Unescape(t) == Cons((0x10000 + (Hex4(t, 2) - 0xD800) * 0x400 + (Hex4(t, 8) - 0xDC00)) as char, Unescape(t[12..]))
  {
  }

  /** A surrogate-pair escape decodes to the one character it encodes. */
  lemma UnescapePair(c: char, rest: string)
    requires c as int >= 0x10000
    ensures Unescape(PairEscape(c) + rest) == Cons(c, Unescape(rest))
  {
    var hi, lo := HighSurrogate(c), LowSurrogate(c);
    var t := PairEscape(c) + rest;
    assert t[0..6] == UnitEscape(hi);
    assert t[6..12] == UnitEscape(lo);
    assert t[12..] == rest;
    UnitEscapeValue(hi, t, 0);
    UnitEscapeValue(lo, t, 6);
    UnescapeHighLow(t);
    SurrogatesCombine(c);
  }

  /** The pair in upper-case hex for U+1F600 decodes to that one character. */
  lemma UnescapeUpperPair()
    ensures Unescape("\\uD83D\\uDE00") == Some("\U{1F600}")
  {
    var t := "\\uD83D\\uDE00";
    assert t[0] == '\\' && t[1] == 'u' && t[6] == '\\' && t[7] == 'u';
    assert HexValue(t[2]) == 0xD && HexValue(t[3]) == 8 && HexValue(t[4]) == 3 && HexValue(t[5]) == 0xD;
    assert HexValue(t[8]) == 0xD && HexValue(t[9]) == 0xE && HexValue(t[10]) == 0 && HexValue(t[11]) == 0;
    assert Hex4(t, 2) == 0xD83D && Hex4(t, 8) == 0xDE00;
    assert t[12..] == [];
    UnescapeHighLow(t);
    var c: char := '\U{1F600}';
    assert [c] + [] == [c] == "\U{1F600}";
  }
}
