/**
 * String literals as `JSON.stringify` writes them, and a reader for them.
 * The handlers only ever stringify objects with one string field
 * (`{text}`, `{error}`), so that is all this module covers.
 */
module Json {
  import opened Wrappers

  function HexDigit(n: nat): (c: char)
    requires n < 16
  {
    if n < 10 then ('0' as int + n) as char else ('a' as int + n - 10) as char
  }

  function HexValue(c: char): (r: Option<nat>)
    ensures r.Some? ==> r.value < 16
  {
    if '0' <= c <= '9' then Some(c as int - '0' as int)
    else if 'a' <= c <= 'f' then Some(c as int - 'a' as int + 10)
    else if 'A' <= c <= 'F' then Some(c as int - 'A' as int + 10)
    else None
  }

  lemma HexRoundTrip(n: nat)
    requires n < 16
    ensures HexValue(HexDigit(n)) == Some(n)
  {
  }

  /** The value of four hexadecimal digits, as in a `\uXXXX` escape. */
  function Hex4(h: string): (r: Option<nat>)
    requires |h| == 4
  {
    match (HexValue(h[0]), HexValue(h[1]), HexValue(h[2]), HexValue(h[3]))
    case (Some(a), Some(b), Some(c), Some(d)) => Some(4096 * a + 256 * b + 16 * c + d)
    case _ => None
  }

  /** How `JSON.stringify` writes one character inside a string literal. */
  function EscapeChar(c: char): string {
    if c == '"' then "\\\""
    else if c == '\\' then "\\\\"
    else if c == '\U{8}' then "\\b"
    else if c == '\t' then "\\t"
    else if c == '\n' then "\\n"
    else if c == '\U{C}' then "\\f"
    else if c == '\r' then "\\r"
    else if (c as int) < 0x20 then "\\u00" + [HexDigit(c as int / 16), HexDigit(c as int % 16)]
    else [c]
  }

  /** The inside of the string literal `JSON.stringify(s)`. */
  function Escape(s: string): string {
    if s == [] then "" else EscapeChar(s[0]) + Escape(s[1..])
  }

  /** Printable characters other than `"` and `\\` are written as they are. */
  predicate IsPlain(c: char) {
    c != '"' && c != '\\' && c as int >= 0x20
  }

  lemma {:induction false} EscapePlain(s: string)
    requires forall i | 0 <= i < |s| :: IsPlain(s[i])
    ensures Escape(s) == s
    decreases |s|
  {
    if s != [] {
      EscapePlain(s[1..]);
      assert [s[0]] + s[1..] == s;
    }
  }

  /** `JSON.stringify({[key]: value})` for one string-valued field. */
  function ObjectWithString(key: string, value: string): string {
    "{\"" + Escape(key) + "\":\"" + Escape(value) + "\"}"
  }

  /** The character a one-letter escape `\k` stands for. */
  function SimpleUnescape(k: char): Option<char> {
    if k == '"' then Some('"')
    else if k == '\\' then Some('\\')
    else if k == '/' then Some('/')
    else if k == 'b' then Some('\U{8}')
    else if k == 'f' then Some('\U{C}')
    else if k == 'n' then Some('\n')
    else if k == 'r' then Some('\r')
    else if k == 't' then Some('\t')
    else None
  }

  function Prepend(c: char, r: Option<string>): Option<string> {
    match r
    case Some(s) => Some([c] + s)
    case None => None
  }

  /** Reads the inside of a JSON string literal back into the string; None if it is not well formed. */
  function Unescape(e: string): Option<string>
    decreases |e|
  {
    if e == [] then Some("")
    else if e[0] == '\\' then
      if |e| < 2 then None
      else if e[1] == 'u' then
        if |e| < 6 then None
        else
          match Hex4(e[2..6])
          case Some(n) =>
            if n < 0xD800 || 0xE000 <= n then Prepend(n as char, Unescape(e[6..])) else None
          case None => None
      else
        match SimpleUnescape(e[1])
        case Some(c) => Prepend(c, Unescape(e[2..]))
        case None => None
    else if e[0] == '"' || (e[0] as int) < 0x20 then None
    else Prepend(e[0], Unescape(e[1..]))
  }

  /** Reading back one escaped character. */
  lemma UnescapeChar(c: char, rest: string)
    ensures Unescape(EscapeChar(c) + rest) == Prepend(c, Unescape(rest))
  {
    var e := EscapeChar(c) + rest;
    var n := c as int;
    if n < 0x20 && c != '\U{8}' && c != '\t' && c != '\n' && c != '\U{C}' && c != '\r' {
      assert e[2..6] == ['0', '0', HexDigit(n / 16), HexDigit(n % 16)];
      HexRoundTrip(n / 16);
      HexRoundTrip(n % 16);
      assert Hex4(e[2..6]) == Some(n);
      assert e[6..] == rest;
    } else if c == '"' || c == '\\' || c == '\U{8}' || c == '\t' || c == '\n' || c == '\U{C}' || c == '\r' {
      assert e[2..] == rest;
    } else {
      assert e[1..] == rest;
    }
  }

  /** Reading a stringified string gives the original string back. */
  lemma {:induction false} UnescapeEscape(s: string)
    ensures Unescape(Escape(s)) == Some(s)
    decreases |s|
  {
    if s != [] {
      UnescapeEscape(s[1..]);
      UnescapeChar(s[0], Escape(s[1..]));
      assert [s[0]] + s[1..] == s;
    }
  }

  /** A stringified string holds no raw line break, so it stays on one line of an event stream. */
  lemma {:induction false} EscapeHasNoLineBreak(s: string)
    ensures '\n' !in Escape(s) && '\r' !in Escape(s)
    decreases |s|
  {
    if s != [] {
      EscapeHasNoLineBreak(s[1..]);
      assert Escape(s) == EscapeChar(s[0]) + Escape(s[1..]);
    }
  }
}
