/** `JSON.stringify` of a signed-up user, as sign-up stores it under "user", and
    the `JSON.parse` that reads it back, restricted to texts of that shape. */
module Json {
  import opened Api
  import opened AuthSlice

  function HexDigit(d: nat): (c: char)
    requires d < 16
    ensures IsHex(c) && HexValue(c) == d
  {
    if d < 10 then ('0' as int + d) as char else ('a' as int + d - 10) as char
  }

  predicate IsHex(c: char) {
    ('0' <= c <= '9') || ('a' <= c <= 'f') || ('A' <= c <= 'F')
  }

  function HexValue(c: char): (v: nat)
    requires IsHex(c)
    ensures v < 16
  {
    if '0' <= c <= '9' then c as int - '0' as int
    else if 'a' <= c <= 'f' then c as int - 'a' as int + 10
    else c as int - 'A' as int + 10
  }

  /** How `JSON.stringify` writes one character inside a string literal. */
  function EscapeChar(c: char): string {
    if c == '"' then "\\\""
    else if c == '\\' then "\\\\"
    else if c == '\U{8}' then "\\b"
    else if c == '\t' then "\\t"
    else if c == '\n' then "\\n"
    else if c == '\U{C}' then "\\f"
    else if c == '\r' then "\\r"
    else if c < ' ' then ['\\', 'u', '0', '0', HexDigit(c as int / 16), HexDigit(c as int % 16)]
    else [c]
  }

  function Escape(s: string): string {
    if s == [] then "" else EscapeChar(s[0]) + Escape(s[1..])
  }

  /** The character a `\` escape stands for, given the text after the backslash,
      with the number of characters the escape takes after the backslash. */
  function Unescape(s: string): Option<(char, nat)>
  {
    if s == [] then None
    else if s[0] == '"' then Some(('"', 1))
    else if s[0] == '\\' then Some(('\\', 1))
    else if s[0] == '/' then Some(('/', 1))
    else if s[0] == 'b' then Some(('\U{8}', 1))
    else if s[0] == 't' then Some(('\t', 1))
    else if s[0] == 'n' then Some(('\n', 1))
    else if s[0] == 'f' then Some(('\U{C}', 1))
    else if s[0] == 'r' then Some(('\r', 1))
    else if s[0] == 'u' && |s| >= 5 && IsHex(s[1]) && IsHex(s[2]) && IsHex(s[3]) && IsHex(s[4]) then
      var v := HexValue(s[1]) * 4096 + HexValue(s[2]) * 256 + HexValue(s[3]) * 16 + HexValue(s[4]);
      if 0xD800 <= v < 0xE000 then None else Some((v as char, 5))
    else None
  }

  /** Reads a string literal's contents up to its closing quote: the decoded text
      and what follows the quote. */
  function ReadString(s: string): Option<(string, string)>
    decreases |s|
  {
    if s == [] then None
    else if s[0] == '"' then Some(("", s[1..]))
    else if s[0] < ' ' then None
    else if s[0] == '\\' then
      match Unescape(s[1..])
      case None => None
      case Some((c, k)) =>
        if 1 + k <= |s| then
          match ReadString(s[1 + k..])
          case None => None
          case Some((t, rest)) => Some(([c] + t, rest))
        else None
    else
      match ReadString(s[1..])
      case None => None
      case Some((t, rest)) => Some(([s[0]] + t, rest))
  }

  /** Any text, escaped and closed by a quote, reads back as itself. */
  lemma {:induction false} ReadEscaped(s: string, rest: string)
    ensures ReadString(Escape(s) + "\"" + rest) == Some((s, rest))
  {
    if s == [] {
      assert Escape(s) + "\"" + rest == ['"'] + rest;
    } else {
      var tail := Escape(s[1..]) + "\"" + rest;
      ReadEscaped(s[1..], rest);
      assert Escape(s) + "\"" + rest == EscapeChar(s[0]) + tail;
      ReadEscapedChar(s[0], tail, s[1..], rest);
      assert [s[0]] + s[1..] == s;
    }
  }

  /** One escaped character in front of a readable literal reads as that character
      in front of the literal's contents. */
  lemma ReadEscapedChar(c: char, tail: string, t: string, rest: string)
    requires ReadString(tail) == Some((t, rest))
    ensures ReadString(EscapeChar(c) + tail) == Some(([c] + t, rest))
  {
    var whole := EscapeChar(c) + tail;
    if c < ' ' && c != '\U{8}' && c != '\t' && c != '\n' && c != '\U{C}' && c != '\r' {
      ReadUnicodeEscape(c, tail);
    } else if c == '"' || c == '\\' || c == '\U{8}' || c == '\t' || c == '\n' || c == '\U{C}' || c == '\r' {
      assert |EscapeChar(c)| == 2 && EscapeChar(c)[0] == '\\';
      assert whole[2..] == tail;
    } else {
      assert EscapeChar(c) == [c];
      assert whole[1..] == tail;
    }
  }

  lemma ReadUnicodeEscape(c: char, tail: string)
    requires c < ' '
    requires c != '\U{8}' && c != '\t' && c != '\n' && c != '\U{C}' && c != '\r'
    ensures var whole := EscapeChar(c) + tail;
            |whole| >= 6 && whole[0] == '\\' && Unescape(whole[1..]) == Some((c, 5)) && whole[6..] == tail
  {
    var hi, lo := HexDigit(c as int / 16), HexDigit(c as int % 16);
    var whole := EscapeChar(c) + tail;
    assert EscapeChar(c) == ['\\', 'u', '0', '0', hi, lo];
    assert whole[1..] == ['u', '0', '0', hi, lo] + tail;
    var v := HexValue('0') * 4096 + HexValue('0') * 256 + HexValue(hi) * 16 + HexValue(lo);
    assert v == c as int;
  }

  /** Strips a literal prefix. */
  function Expect(lit: string, s: string): Option<string> {
    if |lit| <= |s| && s[..|lit|] == lit then Some(s[|lit|..]) else None
  }

  /** `lit`, then `v` escaped, then its closing quote, then `rest`. */
  function Quoted(lit: string, v: string, rest: string): string {
    lit + Escape(v) + "\"" + rest
  }

  /** The user as `JSON.stringify` writes it: fields in the order the server sends. */
  function EncodeUser(u: AuthUser): string {
    Quoted("{\"_id\":\"", u.id,
      Quoted(",\"name\":\"", u.name,
        Quoted(",\"email\":\"", u.email,
          Quoted(",\"profilePicture\":\"", u.profilePicture,
            Quoted(",\"accessToken\":\"", u.accessToken, "}")))))
  }

  /** Reads one `"key":"value"` field after `lit` (which ends with the opening quote
      of the value), returning the value and the remaining text. */
  function Field(lit: string, s: string): Option<(string, string)> {
    match Expect(lit, s)
    case None => None
    case Some(t) => ReadString(t)
  }

  /** `JSON.parse` of a stored user snapshot; `None` where it would throw or the
      text is not a snapshot of this shape. */
  function DecodeUser(s: string): Option<AuthUser> {
    match Field("{\"_id\":\"", s)
    case None => None
    case Some((id, s1)) =>
      match Field(",\"name\":\"", s1)
      case None => None
      case Some((name, s2)) =>
        match Field(",\"email\":\"", s2)
        case None => None
        case Some((email, s3)) =>
          match Field(",\"profilePicture\":\"", s3)
          case None => None
          case Some((pic, s4)) =>
            match Field(",\"accessToken\":\"", s4)
            case None => None
            case Some((token, s5)) =>
              if s5 == "}" then Some(AuthUser(id, name, email, pic, token)) else None
  }

  lemma FieldOf(lit: string, v: string, rest: string)
    ensures Field(lit, Quoted(lit, v, rest)) == Some((v, rest))
  {
    var s := Quoted(lit, v, rest);
    assert s[..|lit|] == lit;
    assert s[|lit|..] == Escape(v) + "\"" + rest;
    ReadEscaped(v, rest);
  }

  /** What sign-up stores, OTP confirmation reads back unchanged. */
  lemma DecodeEncode(u: AuthUser)
    ensures DecodeUser(EncodeUser(u)) == Some(u)
  {
    var r4 := Quoted(",\"accessToken\":\"", u.accessToken, "}");
    var r3 := Quoted(",\"profilePicture\":\"", u.profilePicture, r4);
    var r2 := Quoted(",\"email\":\"", u.email, r3);
    var r1 := Quoted(",\"name\":\"", u.name, r2);
    FieldOf("{\"_id\":\"", u.id, r1);
    FieldOf(",\"name\":\"", u.name, r2);
    FieldOf(",\"email\":\"", u.email, r3);
    FieldOf(",\"profilePicture\":\"", u.profilePicture, r4);
    FieldOf(",\"accessToken\":\"", u.accessToken, "}");
  }
}
