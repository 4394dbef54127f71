/**
 * The text form of JSON values. Structured payloads (tool arguments, input
 * schemas, tool-call responses) are carried as their serialized text; the one
 * serialization the chat loop performs on a plain string, `JSON.stringify(s)`,
 * is modelled exactly as ECMAScript's QuoteJSONString, together with the parser
 * that inverts it.
 */
module JsonText {
  import opened Wrappers

  /** A JSON value, kept as its serialized text. */
  type Json = string

  const Backspace: char := 8 as char
  const FormFeed: char := 12 as char

  /** Lower-case hexadecimal digit of a nibble. */
  function HexDigit(n: nat): (c: char)
    requires n < 16
    ensures HexValue(c) == Some(n)
  {
    if n < 10 then (48 + n) as char else (87 + n) as char
  }

  /** Value of a hexadecimal digit in either case. */
  function HexValue(c: char): (r: Option<nat>)
    ensures r.Some? ==> r.value < 16
  {
    if '0' <= c <= '9' then Some(c as nat - 48)
    else if 'a' <= c <= 'f' then Some(c as nat - 87)
    else if 'A' <= c <= 'F' then Some(c as nat - 55)
    else None
  }

  /** The escape sequence JSON.stringify writes for one character of a string. */
  function EscapeChar(c: char): string {
    if c == '"' then ['\\', '"']
    else if c == '\\' then ['\\', '\\']
    else if c == Backspace then ['\\', 'b']
    else if c == FormFeed then ['\\', 'f']
    else if c == '\n' then ['\\', 'n']
    else if c == '\r' then ['\\', 'r']
    else if c == '\t' then ['\\', 't']
    else if c < ' ' then ['\\', 'u', '0', '0', HexDigit(c as nat / 16), HexDigit(c as nat % 16)]
    else [c]
  }

  function Escape(s: string): string {
    if s == [] then [] else EscapeChar(s[0]) + Escape(s[1..])
  }

  /** `JSON.stringify(s)` for a string `s`. */
  function Stringify(s: string): string {
    "\"" + Escape(s) + "\""
  }

  function Prepend(c: char, r: Option<string>): Option<string> {
    if r.Some? then Some([c] + r.value) else None
  }

  /** Value of four hexadecimal digits. */
  function Hex4(u: string): (r: Option<nat>)
    requires |u| == 4
    ensures r.Some? ==> r.value < 0x1_0000
  {
    var d0, d1, d2, d3 := HexValue(u[0]), HexValue(u[1]), HexValue(u[2]), HexValue(u[3]);
    if d0.Some? && d1.Some? && d2.Some? && d3.Some? then
      Some(((d0.value * 16 + d1.value) * 16 + d2.value) * 16 + d3.value)
    else None
  }

  /** Decodes the body of a JSON string literal (the text between its quotes). */
  function Unescape(u: string): Option<string>
    decreases |u|
  {
    if u == [] then Some([])
    else if u[0] == '"' || u[0] < ' ' then None
    else if u[0] != '\\' then Prepend(u[0], Unescape(u[1..]))
    else if |u| < 2 then None
    else if u[1] == '"' then Prepend('"', Unescape(u[2..]))
    else if u[1] == '\\' then Prepend('\\', Unescape(u[2..]))
    else if u[1] == '/' then Prepend('/', Unescape(u[2..]))
    else if u[1] == 'b' then Prepend(Backspace, Unescape(u[2..]))
    else if u[1] == 'f' then Prepend(FormFeed, Unescape(u[2..]))
    else if u[1] == 'n' then Prepend('\n', Unescape(u[2..]))
    else if u[1] == 'r' then Prepend('\r', Unescape(u[2..]))
    else if u[1] == 't' then Prepend('\t', Unescape(u[2..]))
    else if u[1] == 'u' && |u| >= 6 then
      match Hex4(u[2..6])
      case Some(v) =>
        if v < 0xD800 || 0xE000 <= v then Prepend(v as char, Unescape(u[6..])) else None
      case None => None
    else None
  }

  /** Reads a JSON string literal back into the string it denotes. */
  function ParseString(t: string): Option<string> {
    if |t| >= 2 && t[0] == '"' && t[|t| - 1] == '"' then Unescape(t[1..|t| - 1]) else None
  }

  lemma EscapeCharDecodes(c: char, rest: string)
    ensures Unescape(EscapeChar(c) + rest) == Prepend(c, Unescape(rest))
  {
    var e := EscapeChar(c);
    var u := e + rest;
    if c < ' ' && c != Backspace && c != FormFeed && c != '\n' && c != '\r' && c != '\t' {
      var hi, lo := c as nat / 16, c as nat % 16;
      assert u[2..6] == ['0', '0', HexDigit(hi), HexDigit(lo)];
      assert Hex4(u[2..6]) == Some(c as nat);
      assert u[6..] == rest;
    } else if |e| == 2 {
      assert u[2..] == rest;
    } else {
      assert u[1..] == rest;
    }
  }

  lemma {:induction false} UnescapeEscape(s: string)
    ensures Unescape(Escape(s)) == Some(s)
  {
    if s != [] {
      UnescapeEscape(s[1..]);
      EscapeCharDecodes(s[0], Escape(s[1..]));
      assert [s[0]] + s[1..] == s;
    }
  }

  /** JSON.stringify on strings is inverted by the string-literal parser. */
  lemma StringifyRoundTrip(s: string)
    ensures ParseString(Stringify(s)) == Some(s)
  {
    var t := Stringify(s);
    assert t[1..|t| - 1] == Escape(s);
    UnescapeEscape(s);
  }

  /** Distinct strings serialize to distinct texts. */
  lemma StringifyInjective(a: string, b: string)
    ensures Stringify(a) == Stringify(b) ==> a == b
  {
    StringifyRoundTrip(a);
    StringifyRoundTrip(b);
  }
}
