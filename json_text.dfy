/** The JSON text of the error payloads the dispatcher returns:
    `json.dumps({"error": message})` with Python's default settings
    (separators ", " and ": ", ASCII-only output). A reader that parses the
    payload back is given beside it, with the proof that it recovers the
    message exactly. */
module JsonText {
  import opened Types

  /** A lower-case hexadecimal digit, as `format(n, "04x")` writes them. */
  function HexDigit(d: nat): (c: char)
    requires d < 16
    ensures ' ' <= c <= '~'
  {
    if d < 10 then ('0' as int + d) as char else ('a' as int + d - 10) as char
  }

  /** Four hex digits, most significant first. */
  function Hex4(n: nat): (s: string)
    requires n < 0x10000
    ensures |s| == 4
    ensures forall i :: 0 <= i < 4 ==> ' ' <= s[i] <= '~'
  {
    var m1 := n / 16;
    var m2 := m1 / 16;
    [HexDigit(m2 / 16), HexDigit(m2 % 16), HexDigit(m1 % 16), HexDigit(n % 16)]
  }

  /** How `json.dumps` writes one character of a string: a backslash escape
      for the quote, the backslash and five control characters, the
      character itself when it is printable ASCII, a `\uXXXX` escape for
      any other character of the Basic Multilingual Plane, and a surrogate
      pair of such escapes above it. */
  function EscapeChar(c: char): (s: string)
    ensures 1 <= |s|
    ensures forall i :: 0 <= i < |s| ==> ' ' <= s[i] <= '~'
  {
    if c == '"' then "\\\""
    else if c == '\\' then "\\\\"
    else if c == '\n' then "\\n"
    else if c == '\r' then "\\r"
    else if c == '\t' then "\\t"
    else if c as int == 8 then "\\b"
    else if c as int == 12 then "\\f"
    else if ' ' <= c <= '~' then [c]
    else if c as int < 0x10000 then "\\u" + Hex4(c as int)
    else
      var n := c as int - 0x10000;
      "\\u" + Hex4(0xD800 + n / 0x400) + "\\u" + Hex4(0xDC00 + n % 0x400)
  }

  /** The characters of a JSON string literal between its quotes. */
  function Escape(s: string): (e: string)
    ensures forall i :: 0 <= i < |e| ==> ' ' <= e[i] <= '~'
  {
    if s == [] then [] else EscapeChar(s[0]) + Escape(s[1..])
  }

  /** `json.dumps({"error": message})`. */
  function ErrorObject(message: string): (p: string)
    ensures forall i :: 0 <= i < |p| ==> ' ' <= p[i] <= '~'
  {
    "{\"error\": \"" + Escape(message) + "\"}"
  }

  // ---------------------------------------------------------------------
  // Reading the payload back

  function HexValue(c: char): (v: Option<nat>)
    ensures v.Some? ==> v.value < 16
  {
    if '0' <= c <= '9' then Some(c as int - '0' as int)
    else if 'a' <= c <= 'f' then Some(c as int - 'a' as int + 10)
    else if 'A' <= c <= 'F' then Some(c as int - 'A' as int + 10)
    else None
  }

  function ParseHex4(s: string): (v: Option<nat>)
    requires |s| == 4
    ensures v.Some? ==> v.value < 0x10000
  {
    match (HexValue(s[0]), HexValue(s[1]), HexValue(s[2]), HexValue(s[3]))
    case (Some(a), Some(b), Some(c), Some(d)) => Some(((a * 16 + b) * 16 + c) * 16 + d)
    case _ => None
  }

  function Prepend(c: char, rest: Option<string>): Option<string>
  {
    match rest
    case None => None
    case Some(t) => Some([c] + t)
  }

  /** The character a two-character escape `\e` stands for. */
  function ShortEscape(e: char): Option<char>
  {
    if e == '"' then Some('"')
    else if e == '\\' then Some('\\')
    else if e == '/' then Some('/')
    else if e == 'n' then Some('\n')
    else if e == 'r' then Some('\r')
    else if e == 't' then Some('\t')
    else if e == 'b' then Some(8 as char)
    else if e == 'f' then Some(12 as char)
    else None
  }

  predicate IsHighSurrogate(v: nat) { 0xD800 <= v < 0xDC00 }
  predicate IsLowSurrogate(v: nat) { 0xDC00 <= v < 0xE000 }

  /** The character a surrogate pair stands for. */
  function Combine(hi: nat, lo: nat): char
    requires IsHighSurrogate(hi) && IsLowSurrogate(lo)
  {
    (0x10000 + (hi - 0xD800) * 0x400 + (lo - 0xDC00)) as char
  }

  /** Decodes the characters of a JSON string literal between its quotes;
      None when they are not well formed (a raw quote or control character,
      an unknown escape, a lone surrogate). */
  function Unescape(s: string): (r: Option<string>)
    decreases |s|
  {
    if s == [] then Some([])
    else if s[0] == '\\' then
      if |s| < 2 then None
      else if s[1] != 'u' then
        match ShortEscape(s[1])
        case None => None
        case Some(c) => Prepend(c, Unescape(s[2..]))
      else if |s| < 6 then None
      else
        match ParseHex4(s[2..6])
        case None => None
        case Some(v) =>
          if IsHighSurrogate(v) then
            if |s| < 12 || s[6] != '\\' || s[7] != 'u' then None
            else
              match ParseHex4(s[8..12])
              case None => None
              case Some(w) =>
                if IsLowSurrogate(w) then
                  Prepend(Combine(v, w), Unescape(s[12..]))
                else None
          else if IsLowSurrogate(v) then None
          else Prepend(v as char, Unescape(s[6..]))
    else if s[0] == '"' || s[0] < ' ' then None
    else Prepend(s[0], Unescape(s[1..]))
  }

  /** Reads `{"error": "<literal>"}` and returns the decoded message. */
  function ParseErrorObject(p: string): Option<string>
  {
    if |p| >= 13 && p[..11] == "{\"error\": \"" && p[|p| - 2..] == "\"}" then
      Unescape(p[11..|p| - 2])
    else None
  }

  // ---------------------------------------------------------------------
  // The round trip

  lemma HexDigitValue(d: nat)
    requires d < 16
    ensures HexValue(HexDigit(d)) == Some(d)
  {
  }

  lemma Hex4RoundTrip(n: nat)
    requires n < 0x10000
    ensures ParseHex4(Hex4(n)) == Some(n)
  {
    var m1 := n / 16;
    var m2 := m1 / 16;
    HexDigitValue(m2 / 16);
    HexDigitValue(m2 % 16);
    HexDigitValue(m1 % 16);
    HexDigitValue(n % 16);
    assert n == m1 * 16 + n % 16;
    assert m1 == m2 * 16 + m1 % 16;
    assert m2 == (m2 / 16) * 16 + m2 % 16;
  }

  /** Decoding undoes the escape of one character, whatever follows it. */
  lemma UnescapeChar(c: char, rest: string)
    ensures Unescape(EscapeChar(c) + rest) == Prepend(c, Unescape(rest))
  {
    if c == '"' || c == '\\' || c == '\n' || c == '\r' || c == '\t' || c as int == 8 || c as int == 12 {
      UnescapeShort(c, rest);
    } else if ' ' <= c <= '~' {
      var s := EscapeChar(c) + rest;
      assert s[1..] == rest;
    } else if c as int < 0x10000 {
      UnescapeBmp(c, rest);
    } else {
      UnescapeAstral(c, rest);
    }
  }

  lemma UnescapeShort(c: char, rest: string)
    requires c == '"' || c == '\\' || c == '\n' || c == '\r' || c == '\t' || c as int == 8 || c as int == 12
    ensures Unescape(EscapeChar(c) + rest) == Prepend(c, Unescape(rest))
  {
    var s := EscapeChar(c) + rest;
    assert |EscapeChar(c)| == 2 && EscapeChar(c)[0] == '\\';
    assert ShortEscape(EscapeChar(c)[1]) == Some(c);
    assert s[2..] == rest;
  }

  lemma UnescapeBmp(c: char, rest: string)
    requires c as int < 0x10000 && !(' ' <= c <= '~')
    requires c != '\n' && c != '\r' && c != '\t' && c as int != 8 && c as int != 12
    ensures Unescape(EscapeChar(c) + rest) == Prepend(c, Unescape(rest))
  {
    var s := EscapeChar(c) + rest;
    assert EscapeChar(c) == "\\u" + Hex4(c as int);
    Hex4RoundTrip(c as int);
    assert s[2..6] == Hex4(c as int);
    assert s[6..] == rest;
  }

  lemma UnescapeAstral(c: char, rest: string)
    requires c as int >= 0x10000
    ensures Unescape(EscapeChar(c) + rest) == Prepend(c, Unescape(rest))
  {
    var n := c as int - 0x10000;
    var hi, lo := 0xD800 + n / 0x400, 0xDC00 + n % 0x400;
    SurrogatePair(c);
    EscapeAstral(c);
    Hex4RoundTrip(hi);
    Hex4RoundTrip(lo);
    UnescapePairOf(Hex4(hi), Hex4(lo), rest, hi, lo);
  }

  lemma UnescapePairOf(a: string, b: string, rest: string, hi: nat, lo: nat)
    requires |a| == 4 && |b| == 4
    requires ParseHex4(a) == Some(hi) && IsHighSurrogate(hi)
    requires ParseHex4(b) == Some(lo) && IsLowSurrogate(lo)
    ensures Unescape("\\u" + a + "\\u" + b + rest) == Prepend(Combine(hi, lo), Unescape(rest))
  {
    PairSlices(a, b, rest);
    UnescapePair("\\u" + a + "\\u" + b + rest, hi, lo);
  }

  lemma EscapeAstral(c: char)
    requires c as int >= 0x10000
    ensures var n := c as int - 0x10000;
      EscapeChar(c) == "\\u" + Hex4(0xD800 + n / 0x400) + "\\u" + Hex4(0xDC00 + n % 0x400)
  {
  }

  /** A well-formed surrogate pair escape decodes to the character the two
      halves combine to. */
  lemma UnescapePair(s: string, hi: nat, lo: nat)
    requires |s| >= 12 && s[0] == '\\' && s[1] == 'u' && s[6] == '\\' && s[7] == 'u'
    requires ParseHex4(s[2..6]) == Some(hi) && IsHighSurrogate(hi)
    requires ParseHex4(s[8..12]) == Some(lo) && IsLowSurrogate(lo)
    ensures Unescape(s) == Prepend(Combine(hi, lo), Unescape(s[12..]))
  {
  }

  /** The two halves of a surrogate pair fall in their ranges and recombine. */
  lemma SurrogatePair(c: char)
    requires c as int >= 0x10000
    ensures var n := c as int - 0x10000;
      && IsHighSurrogate(0xD800 + n / 0x400) && IsLowSurrogate(0xDC00 + n % 0x400)
      && Combine(0xD800 + n / 0x400, 0xDC00 + n % 0x400) == c
  {
    var n := c as int - 0x10000;
    assert 0x10000 + (n / 0x400) * 0x400 + n % 0x400 == c as int;
  }

  lemma PairSlices(a: string, b: string, rest: string)
    requires |a| == 4 && |b| == 4
    ensures var s := "\\u" + a + "\\u" + b + rest;
      s[0] == '\\' && s[1] == 'u' && s[2..6] == a && s[6] == '\\' && s[7] == 'u' && s[8..12] == b && s[12..] == rest
  {
    var s := "\\u" + a + "\\u" + b + rest;
    assert s == "\\u" + (a + ("\\u" + (b + rest)));
  }

  lemma {:induction false} UnescapeEscape(s: string)
    ensures Unescape(Escape(s)) == Some(s)
  {
    if s != [] {
      UnescapeChar(s[0], Escape(s[1..]));
      UnescapeEscape(s[1..]);
      assert [s[0]] + s[1..] == s;
    }
  }

  /** The message of an error payload can be read back exactly. */
  lemma ErrorObjectRoundTrip(message: string)
    ensures ParseErrorObject(ErrorObject(message)) == Some(message)
  {
    var p := ErrorObject(message);
    assert p[..11] == "{\"error\": \"";
    assert p[|p| - 2..] == "\"}";
    assert p[11..|p| - 2] == Escape(message);
    UnescapeEscape(message);
  }

  /** Different messages give different payloads. */
  lemma ErrorObjectInjective(m1: string, m2: string)
    requires ErrorObject(m1) == ErrorObject(m2)
    ensures m1 == m2
  {
    ErrorObjectRoundTrip(m1);
    ErrorObjectRoundTrip(m2);
  }
}
