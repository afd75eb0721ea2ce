/**
 * The text the browser keeps under the "user" key: `JSON.stringify(user)` of a
 * `{ id, email }` record, and the reading of that text back by `JSON.parse`.
 */
module UserJson {
  import opened Wrappers
  import opened AuthTypes

  function HexDigit(d: nat): char
    requires d < 16
  {
    "0123456789abcdef"[d]
  }

  /** The value of one hexadecimal digit, in either case. */
  function HexValue(c: char): (r: Option<nat>)
    ensures r.Some? ==> r.value < 16
  {
    if '0' <= c <= '9' then Some(c as int - '0' as int)
    else if 'a' <= c <= 'f' then Some(c as int - 'a' as int + 10)
    else if 'A' <= c <= 'F' then Some(c as int - 'A' as int + 10)
    else None
  }

  lemma HexRoundTrip(d: nat)
    requires d < 16
    ensures HexValue(HexDigit(d)) == Some(d)
  {
  }

  /** The value of four hexadecimal digits, as in a `\uXXXX` escape. */
  function Hex4(s: string): (r: Option<nat>)
    requires |s| == 4
    ensures r.Some? ==> r.value < 0x10000
  {
    match (HexValue(s[0]), HexValue(s[1]), HexValue(s[2]), HexValue(s[3]))
    case (Some(a), Some(b), Some(c), Some(d)) => Some(((a * 16 + b) * 16 + c) * 16 + d)
    case _ => None
  }

  // ---------------------------------------------------------------------------
  // Writing

  /** How `JSON.stringify` writes one character inside a string literal. */
  function EscapeChar(c: char): string {
    if c == '"' then "\\\""
    else if c == '\\' then "\\\\"
    else if c == '\U{8}' then "\\b"
    else if c == '\t' then "\\t"
    else if c == '\n' then "\\n"
    else if c == '\U{C}' then "\\f"
    else if c == '\r' then "\\r"
    else if (c as int) < 0x20 then ['\\', 'u', '0', '0', HexDigit(c as int / 16), HexDigit(c as int % 16)]
    else [c]
  }

  function Escape(s: string): string {
    if s == [] then "" else EscapeChar(s[0]) + Escape(s[1..])
  }

  const IdPrefix := "{\"id\":\""
  const EmailInfix := ",\"email\":\""

  /** `JSON.stringify(user)`: `{"id":"…","email":"…"}`, never the empty string. */
  function Encode(u: User): (r: string)
    ensures r != ""
  {
    IdPrefix + Escape(u.id) + "\"" + EmailInfix + Escape(u.email) + "\"" + "}"
  }

  // ---------------------------------------------------------------------------
  // Reading

  /** The character a backslash escape at the head of `s` stands for, and the length of the escape. */
  function Unescape(s: string): (r: Option<(char, nat)>)
    requires |s| >= 2 && s[0] == '\\'
    ensures r.Some? ==> 2 <= r.value.1 <= |s|
  {
    var e := s[1];
    if e == '"' then Some(('"', 2))
    else if e == '\\' then Some(('\\', 2))
    else if e == '/' then Some(('/', 2))
    else if e == 'b' then Some(('\U{8}', 2))
    else if e == 'f' then Some(('\U{C}', 2))
    else if e == 'n' then Some(('\n', 2))
    else if e == 'r' then Some(('\r', 2))
    else if e == 't' then Some(('\t', 2))
    else if e != 'u' || |s| < 6 then None
    else
      match Hex4(s[2..6])
      case None => None
      case Some(v) => if v < 0xD800 || 0xE000 <= v then Some((v as char, 6)) else None
  }

  function Prepend(c: char, parsed: Option<(string, string)>): Option<(string, string)> {
    match parsed
    case None => None
    case Some((text, rest)) => Some(([c] + text, rest))
  }

  /**
   * Reads a string literal whose opening quote is already consumed: its
   * characters, and the text after its closing quote.
   */
  function ParseStringTail(s: string): Option<(string, string)>
    decreases |s|
  {
    if s == [] then None
    else if s[0] == '"' then Some(("", s[1..]))
    else if s[0] == '\\' then
      if |s| < 2 then None
      else
        match Unescape(s)
        case None => None
        case Some((c, n)) => Prepend(c, ParseStringTail(s[n..]))
    else if (s[0] as int) < 0x20 then None
    else Prepend(s[0], ParseStringTail(s[1..]))
  }

  /** `JSON.parse` of a stored user: the two-property record written by Encode, or nothing. */
  function Decode(s: string): Option<User> {
    if |s| < |IdPrefix| || s[..|IdPrefix|] != IdPrefix then None
    else
      match ParseStringTail(s[|IdPrefix|..])
      case None => None
      case Some((id, rest)) =>
        if |rest| < |EmailInfix| || rest[..|EmailInfix|] != EmailInfix then None
        else
          match ParseStringTail(rest[|EmailInfix|..])
          case None => None
          case Some((email, last)) => if last == "}" then Some(User(id, email)) else None
  }

  // ---------------------------------------------------------------------------
  // Round trip

  /** The seven characters written as a backslash and one letter. */
  predicate ShortEscaped(c: char) {
    c == '"' || c == '\\' || c == '\U{8}' || c == '\t' || c == '\n' || c == '\U{C}' || c == '\r'
  }

  lemma ParseAfterEscape(s: string, c: char, n: nat)
    requires |s| >= 2 && s[0] == '\\' && Unescape(s) == Some((c, n))
    ensures ParseStringTail(s) == Prepend(c, ParseStringTail(s[n..]))
  {
  }

  lemma ParseShortEscape(c: char, tail: string)
    requires ShortEscaped(c)
    ensures ParseStringTail(EscapeChar(c) + tail) == Prepend(c, ParseStringTail(tail))
  {
    var s := EscapeChar(c) + tail;
    assert |EscapeChar(c)| == 2 && s[0] == '\\';
    assert Unescape(s) == Some((c, 2));
    assert s[2..] == tail;
    ParseAfterEscape(s, c, 2);
  }

  lemma ParseControlEscape(c: char, tail: string)
    requires !ShortEscaped(c) && (c as int) < 0x20
    ensures ParseStringTail(EscapeChar(c) + tail) == Prepend(c, ParseStringTail(tail))
  {
    var s := EscapeChar(c) + tail;
    var hi, lo := c as int / 16, c as int % 16;
    HexRoundTrip(hi);
    HexRoundTrip(lo);
    assert EscapeChar(c) == ['\\', 'u', '0', '0', HexDigit(hi), HexDigit(lo)];
    assert s[0] == '\\' && s[1] == 'u';
    assert s[2..6] == ['0', '0', HexDigit(hi), HexDigit(lo)];
    assert Hex4(s[2..6]) == Some(c as int);
    assert Unescape(s) == Some((c, 6));
    assert s[6..] == tail;
    ParseAfterEscape(s, c, 6);
  }

  lemma ParseEscapedChar(c: char, tail: string)
    ensures ParseStringTail(EscapeChar(c) + tail) == Prepend(c, ParseStringTail(tail))
  {
    if ShortEscaped(c) {
      ParseShortEscape(c, tail);
    } else if (c as int) < 0x20 {
      ParseControlEscape(c, tail);
    } else {
      var s := EscapeChar(c) + tail;
      assert EscapeChar(c) == [c];
      assert s[0] == c && s[1..] == tail;
    }
  }

  lemma {:induction false} ParseEscaped(x: string, rest: string)
    ensures ParseStringTail(Escape(x) + "\"" + rest) == Some((x, rest))
  {
    if x == [] {
      assert Escape(x) + "\"" + rest == "\"" + rest;
    } else {
      var tail := Escape(x[1..]) + "\"" + rest;
      assert Escape(x) + "\"" + rest == EscapeChar(x[0]) + tail;
      ParseEscapedChar(x[0], tail);
      ParseEscaped(x[1..], rest);
      assert [x[0]] + x[1..] == x;
    }
  }

  lemma Split(a: string, b: string)
    ensures (a + b)[..|a|] == a && (a + b)[|a|..] == b
  {
  }

  /** Reading back what was written gives the same user. */
  lemma DecodeEncode(u: User)
    ensures Decode(Encode(u)) == Some(u)
  {
    var tail := Escape(u.email) + "\"" + "}";
    var afterId := EmailInfix + tail;
    var body := Escape(u.id) + "\"" + afterId;
    var s := Encode(u);
    assert s == IdPrefix + body;
    Split(IdPrefix, body);
    ParseEscaped(u.id, afterId);
    Split(EmailInfix, tail);
    ParseEscaped(u.email, "}");
  }

  /** Two different users are never stored as the same text. */
  lemma EncodeInjective(u: User, v: User)
    requires Encode(u) == Encode(v)
    ensures u == v
  {
    DecodeEncode(u);
    DecodeEncode(v);
  }
}
