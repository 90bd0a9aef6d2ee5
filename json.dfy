/** The part of JSON the settings code uses: `JSON.stringify` of a scalar value
    and `JSON.parse` of stored setting text, for null, booleans, integers and
    strings. Non-integer numbers, arrays and objects are outside this model. */
module Json {
  import opened Base
  import opened Text

  datatype Json = JNull | JBool(b: bool) | JInt(i: int) | JStr(s: string)

  /** JavaScript truthiness of a parsed value: null, false, 0 and "" are falsy. */
  predicate JsonTruthy(v: Json)
  {
    match v
    case JNull => false
    case JBool(b) => b
    case JInt(i) => i != 0
    case JStr(s) => s != ""
  }

  function HexDigit(d: nat): (c: char)
    requires d < 16
  {
    "0123456789abcdef"[d]
  }

  function HexValue(c: char): (r: Option<nat>)
    ensures r.Some? ==> r.value < 16
  {
    if '0' <= c <= '9' then Some(c as int - '0' as int)
    else if 'a' <= c <= 'f' then Some(c as int - 'a' as int + 10)
    else if 'A' <= c <= 'F' then Some(c as int - 'A' as int + 10)
    else None
  }

  lemma HexRoundTrip(d: nat)
    requires d < 16
    ensures HexValue(HexDigit(d)) == Some(d)
  {
  }

  /** The value of four hexadecimal digits, as in a `\uXXXX` escape. */
  function Hex4(h: string): (r: Option<nat>)
    requires |h| == 4
    ensures r.Some? ==> r.value < 0x10000
  {
    match (HexValue(h[0]), HexValue(h[1]), HexValue(h[2]), HexValue(h[3]))
    case (Some(a), Some(b), Some(c), Some(d)) => Some(((a * 16 + b) * 16 + c) * 16 + d)
    case _ => None
  }

  /** How `JSON.stringify` writes one character inside a string literal. */
  function EscapeChar(c: char): (e: string)
    ensures |e| > 0
  {
    if c == '"' then ['\\', '"']
    else if c == '\\' then ['\\', '\\']
    else if c == '\U{8}' then ['\\', 'b']
    else if c == '\U{C}' then ['\\', 'f']
    else if c == '\n' then ['\\', 'n']
    else if c == '\r' then ['\\', 'r']
    else if c == '\t' then ['\\', 't']
    else if (c as int) < 0x20 then ['\\', 'u', '0', '0', HexDigit(c as int / 16), HexDigit(c as int % 16)]
    else [c]
  }

  function Escape(s: string): string
  {
    if s == [] then [] else EscapeChar(s[0]) + Escape(s[1..])
  }

  /** `JSON.stringify(v)`. */
  function Stringify(v: Json): (t: string)
    ensures |t| > 0
  {
    match v
    case JNull => "null"
    case JBool(b) => if b then "true" else "false"
    case JInt(i) => IntToString(i)
    case JStr(s) => "\"" + Escape(s) + "\""
  }

  /** The character a one-letter escape `\e` stands for. */
  function SimpleEscape(e: char): Option<char>
  {
    if e == '"' then Some('"')
    else if e == '\\' then Some('\\')
    else if e == '/' then Some('/')
    else if e == 'b' then Some('\U{8}')
    else if e == 'f' then Some('\U{C}')
    else if e == 'n' then Some('\n')
    else if e == 'r' then Some('\r')
    else if e == 't' then Some('\t')
    else None
  }

  function Prepend(c: char, r: Option<string>): Option<string>
  {
    match r
    case None => None
    case Some(t) => Some([c] + t)
  }

  /** Decodes the body of a JSON string literal; fails on an unescaped quote or
      control character, a bad escape, or a `\u` escape naming a surrogate. */
  function Unescape(s: string): Option<string>
    decreases |s|
  {
    if s == [] then Some([])
    else if s[0] == '"' || (s[0] as int) < 0x20 then None
    else if s[0] != '\\' then Prepend(s[0], Unescape(s[1..]))
    else if |s| < 2 then None
    else if s[1] == 'u' then
      if |s| < 6 then None
      else match Hex4(s[2..6])
        case None => None
        case Some(code) =>
          if 0xD800 <= code < 0xE000 then None else Prepend(code as char, Unescape(s[6..]))
    else match SimpleEscape(s[1])
      case None => None
      case Some(c) => Prepend(c, Unescape(s[2..]))
  }

  predicate IsJsonSpace(c: char)
  {
    c == ' ' || c == '\t' || c == '\n' || c == '\r'
  }

  function TrimStart(s: string): string
  {
    if s != [] && IsJsonSpace(s[0]) then TrimStart(s[1..]) else s
  }

  function TrimEnd(s: string): string
  {
    if s != [] && IsJsonSpace(s[|s| - 1]) then TrimEnd(s[..|s| - 1]) else s
  }

  /** A JSON integer literal without sign: digits, no leading zero. */
  function ParseNatText(s: string): Option<nat>
  {
    if s == [] || exists i :: 0 <= i < |s| && !IsDigit(s[i]) then None
    else if |s| > 1 && s[0] == '0' then None
    else Some(DigitsValue(s))
  }

  function ParseInt(s: string): Option<int>
  {
    if s != [] && s[0] == '-' then
      match ParseNatText(s[1..])
      case None => None
      case Some(n) => Some(-(n as int))
    else
      match ParseNatText(s)
      case None => None
      case Some(n) => var r: int := n; Some(r)
  }

  /** `JSON.parse(text)`, or None where `JSON.parse` throws. */
  function Parse(text: string): Option<Json>
  {
    var s := TrimEnd(TrimStart(text));
    if s == "null" then Some(JNull)
    else if s == "true" then Some(JBool(true))
    else if s == "false" then Some(JBool(false))
    else if |s| >= 2 && s[0] == '"' && s[|s| - 1] == '"' then
      match Unescape(s[1..|s| - 1])
      case None => None
      case Some(t) => Some(JStr(t))
    else
      match ParseInt(s)
      case None => None
      case Some(i) => Some(JInt(i))
  }

  lemma UnescapeEscapeChar(c: char, rest: string)
    ensures Unescape(EscapeChar(c) + rest) == Prepend(c, Unescape(rest))
  {
    var e := EscapeChar(c);
    if c == '"' || c == '\\' || c == '\U{8}' || c == '\U{C}' || c == '\n' || c == '\r' || c == '\t' {
      assert (e + rest)[2..] == rest;
    } else if (c as int) < 0x20 {
      var hi, lo := c as int / 16, c as int % 16;
      HexRoundTrip(hi);
      HexRoundTrip(lo);
      assert (e + rest)[2..6] == ['0', '0', HexDigit(hi), HexDigit(lo)];
      assert (e + rest)[6..] == rest;
    } else {
      assert (e + rest)[1..] == rest;
    }
  }

  lemma {:induction false} UnescapeEscape(s: string)
    ensures Unescape(Escape(s)) == Some(s)
    decreases |s|
  {
    if s != [] {
      UnescapeEscapeChar(s[0], Escape(s[1..]));
      UnescapeEscape(s[1..]);
      assert [s[0]] + s[1..] == s;
    }
  }

  lemma NatTextRoundTrip(n: nat)
    ensures ParseNatText(NatToString(n)) == Some(n)
  {
    NatToStringRoundTrip(n);
  }

  lemma IntRoundTrip(i: int)
    ensures ParseInt(IntToString(i)) == Some(i)
  {
    if i < 0 {
      var s := IntToString(i);
      assert s[1..] == NatToString(-i);
      NatTextRoundTrip(-i);
    } else {
      NatTextRoundTrip(i);
    }
  }

  /** What `JSON.stringify` writes, `JSON.parse` reads back unchanged. */
  lemma ParseStringify(v: Json)
    ensures Parse(Stringify(v)) == Some(v)
  {
    var t := Stringify(v);
    assert !IsJsonSpace(t[0]) && !IsJsonSpace(t[|t| - 1]);
    assert TrimEnd(TrimStart(t)) == t;
    match v
    case JNull =>
    case JBool(b) =>
    case JInt(i) =>
      assert t[0] != 'n' && t[0] != 't' && t[0] != 'f' && t[0] != '"';
      IntRoundTrip(i);
    case JStr(s) =>
      assert t[1..|t| - 1] == Escape(s);
      UnescapeEscape(s);
  }
}
