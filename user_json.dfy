/**
 * The signed-in user as the auth service keeps it in browser storage: the
 * text `JSON.stringify` writes for a user object, and a reader for that text
 * that gives the object back.
 */
module UserJson {
  import opened Wrappers

  /** The account the auth endpoints return. */
  datatype User = User(id: string, fullName: string, email: string, role: string, isActive: bool, createdAt: string)

  /** The lower-case hexadecimal digit for `d`. */
  function HexDigit(d: nat): (r: char)
    requires d < 16
    ensures '0' <= r <= '9' || 'a' <= r <= 'f'
  {
    if d < 10 then ('0' as int + d) as char else ('a' as int + d - 10) as char
  }

  /** The value of a hexadecimal digit of either case. */
  function HexValue(c: char): (r: Option<nat>)
    ensures r.Some? ==> r.value < 16
    ensures r.Some? <==> ('0' <= c <= '9' || 'a' <= c <= 'f' || 'A' <= c <= 'F')
  {
    if '0' <= c <= '9' then Some(c as int - '0' as int)
    else if 'a' <= c <= 'f' then Some(c as int - 'a' as int + 10)
    else if 'A' <= c <= 'F' then Some(c as int - 'A' as int + 10)
    else None
  }

  lemma HexRoundTrip(d: nat)
    requires d < 16
    ensures HexValue(HexDigit(d)) == Some(d)
  {
  }

  /**
   * How `JSON.stringify` writes one character inside a string literal: a
   * quote and a backslash behind a backslash, the five short escapes, every
   * other control character as `\u00xx`, and anything else as it is.
   */
  function Escape(c: char): (r: string)
    ensures |r| >= 1
    ensures |r| == 1 <==> r == [c]
    ensures r[0] == '\\' || r == [c]
  {
    if c == '"' then ['\\', '"']
    else if c == '\\' then ['\\', '\\']
    else if c == 8 as char then ['\\', 'b']
    else if c == 12 as char then ['\\', 'f']
    else if c == '\n' then ['\\', 'n']
    else if c == '\r' then ['\\', 'r']
    else if c == '\t' then ['\\', 't']
    else if (c as int) < 0x20 then ['\\', 'u', '0', '0', HexDigit(c as int / 16), HexDigit(c as int % 16)]
    else [c]
  }

  function EscapeAll(s: string): string
    decreases |s|
  {
    if s == [] then [] else Escape(s[0]) + EscapeAll(s[1..])
  }

  /** A JSON string literal holding `s`. */
  function Quote(s: string): string {
    "\"" + EscapeAll(s) + "\""
  }

  function Flag(b: bool): string {
    if b then "true" else "false"
  }

  /** `JSON.stringify(user)`, members in the order the `User` interface declares them. */
  function Encode(u: User): (r: string)
    ensures |r| > 0
  {
    "{\"_id\":" + (Quote(u.id) +
    (",\"fullName\":" + (Quote(u.fullName) +
    (",\"email\":" + (Quote(u.email) +
    (",\"role\":" + (Quote(u.role) +
    (",\"isActive\":" + (Flag(u.isActive) +
    (",\"createdAt\":" + (Quote(u.createdAt) + "}")))))))))))
  }

  /**
   * The character an escape sequence stands for and how many characters
   * it takes, `t` starting just after the backslash. Escapes naming half of
   * a surrogate pair are refused: a `char` cannot hold one.
   */
  function Unescape(t: string): (r: Option<(char, nat)>)
    ensures r.Some? ==> 1 <= r.value.1 <= |t|
  {
    if t == [] then None
    else if t[0] == '"' then Some(('"', 1))
    else if t[0] == '\\' then Some(('\\', 1))
    else if t[0] == '/' then Some(('/', 1))
    else if t[0] == 'b' then Some((8 as char, 1))
    else if t[0] == 'f' then Some((12 as char, 1))
    else if t[0] == 'n' then Some(('\n', 1))
    else if t[0] == 'r' then Some(('\r', 1))
    else if t[0] == 't' then Some(('\t', 1))
    else if t[0] == 'u' && |t| >= 5 then
      match (HexValue(t[1]), HexValue(t[2]), HexValue(t[3]), HexValue(t[4]))
      case (Some(a), Some(b), Some(c), Some(d)) =>
        var v := ((a * 16 + b) * 16 + c) * 16 + d;
        if 0xD800 <= v < 0xE000 then None else Some((v as char, 5))
      case _ => None
    else None
  }

  function Prepend(c: char, p: Option<(string, string)>): Option<(string, string)> {
    match p
    case None => None
    case Some((s, rest)) => Some(([c] + s, rest))
  }

  /**
   * The body of a string literal up to its closing quote: the characters it
   * stands for and the text after the quote. A raw control character, a
   * bad escape or a missing quote is refused.
   */
  function ParseBody(t: string): Option<(string, string)>
    decreases |t|
  {
    if t == [] then None
    else if t[0] == '"' then Some(([], t[1..]))
    else if t[0] == '\\' then
      match Unescape(t[1..])
      case None => None
      case Some((c, n)) => Prepend(c, ParseBody(t[1 + n..]))
    else if (t[0] as int) < 0x20 then None
    else Prepend(t[0], ParseBody(t[1..]))
  }

  /** The text after `lit`, when `t` starts with it. */
  function Expect(lit: string, t: string): (r: Option<string>)
    ensures r.Some? <==> |lit| <= |t| && t[..|lit|] == lit
    ensures r.Some? ==> t == lit + r.value
  {
    if |lit| <= |t| && t[..|lit|] == lit then Some(t[|lit|..]) else None
  }

  function ParseString(t: string): Option<(string, string)> {
    if |t| > 0 && t[0] == '"' then ParseBody(t[1..]) else None
  }

  function ParseFlag(t: string): Option<(bool, string)> {
    match Expect("true", t)
    case Some(rest) => Some((true, rest))
    case None =>
      match Expect("false", t)
      case Some(rest) => Some((false, rest))
      case None => None
  }

  /** `JSON.parse` on the texts `Encode` writes; every other text is refused. */
  function Decode(t: string): Option<User> {
    var t1 :- Expect("{\"_id\":", t);
    var p1 :- ParseString(t1);
    var t2 :- Expect(",\"fullName\":", p1.1);
    var p2 :- ParseString(t2);
    var t3 :- Expect(",\"email\":", p2.1);
    var p3 :- ParseString(t3);
    var t4 :- Expect(",\"role\":", p3.1);
    var p4 :- ParseString(t4);
    var t5 :- Expect(",\"isActive\":", p4.1);
    var p5 :- ParseFlag(t5);
    var t6 :- Expect(",\"createdAt\":", p5.1);
    var p6 :- ParseString(t6);
    if p6.1 == "}" then Some(User(p1.0, p2.0, p3.0, p4.0, p5.0, p6.0)) else None
  }

  /** The `\u00xx` escape of a control character reads back as that character. */
  lemma UnicodeUnescape(c: char, t: string)
    requires (c as int) < 0x20
    ensures Unescape(['u', '0', '0', HexDigit(c as int / 16), HexDigit(c as int % 16)] + t) == Some((c, 5))
  {
    var hi, lo := c as int / 16, c as int % 16;
    var u := ['u', '0', '0', HexDigit(hi), HexDigit(lo)] + t;
    HexRoundTrip(0);
    HexRoundTrip(hi);
    HexRoundTrip(lo);
    assert u[0] == 'u' && u[1] == '0' && u[2] == '0' && u[3] == HexDigit(hi) && u[4] == HexDigit(lo);
    assert ((0 * 16 + 0) * 16 + hi) * 16 + lo == c as int;
  }

  /** Reading an escaped character gives it back and goes on after it. */
  lemma EscapeStep(c: char, t: string)
    ensures ParseBody(Escape(c) + t) == Prepend(c, ParseBody(t))
  {
    var e := Escape(c);
    var w := e + t;
    if |e| == 1 {
      assert w[0] == c && w[1..] == t;
    } else if (c as int) < 0x20 && c != 8 as char && c != 12 as char && c != '\n' && c != '\r' && c != '\t' {
      var u := ['u', '0', '0', HexDigit(c as int / 16), HexDigit(c as int % 16)];
      assert e == ['\\'] + u;
      assert w[1..] == u + t;
      UnicodeUnescape(c, t);
      assert w[6..] == t;
    } else {
      assert |e| == 2;
      assert Unescape(w[1..]).Some? && Unescape(w[1..]).value == (c, 1);
      assert w[2..] == t;
    }
  }

  lemma {:induction false} ParseQuoted(s: string, rest: string)
    ensures ParseBody(EscapeAll(s) + "\"" + rest) == Some((s, rest))
    decreases |s|
  {
    if s == [] {
      assert EscapeAll(s) + "\"" + rest == "\"" + rest;
    } else {
      ParseQuoted(s[1..], rest);
      assert EscapeAll(s) + "\"" + rest == Escape(s[0]) + (EscapeAll(s[1..]) + "\"" + rest);
      EscapeStep(s[0], EscapeAll(s[1..]) + "\"" + rest);
      assert [s[0]] + s[1..] == s;
    }
  }

  lemma ParseStringQuote(s: string, rest: string)
    ensures ParseString(Quote(s) + rest) == Some((s, rest))
  {
    var t := Quote(s) + rest;
    assert t[1..] == EscapeAll(s) + "\"" + rest;
    ParseQuoted(s, rest);
  }

  lemma ExpectLiteral(lit: string, rest: string)
    ensures Expect(lit, lit + rest) == Some(rest)
  {
    assert (lit + rest)[..|lit|] == lit;
  }

  lemma ParseFlagOf(b: bool, rest: string)
    ensures ParseFlag(Flag(b) + rest) == Some((b, rest))
  {
    ExpectLiteral(Flag(b), rest);
    if !b {
      assert ("false" + rest)[..4] != "true" by {
        assert ("false" + rest)[0] == 'f';
      }
    }
  }

  /** Reading back what was written gives the same user. */
  lemma DecodeEncode(u: User)
    ensures Decode(Encode(u)) == Some(u)
  {
    var r6 := "}";
    var r5 := Quote(u.createdAt) + r6;
    var r4 := ",\"createdAt\":" + r5;
    var r3 := Flag(u.isActive) + r4;
    var q4 := ",\"isActive\":" + r3;
    var s4 := Quote(u.role) + q4;
    var q3 := ",\"role\":" + s4;
    var s3 := Quote(u.email) + q3;
    var q2 := ",\"email\":" + s3;
    var s2 := Quote(u.fullName) + q2;
    var q1 := ",\"fullName\":" + s2;
    var s1 := Quote(u.id) + q1;
    ExpectLiteral("{\"_id\":", s1);
    ParseStringQuote(u.id, q1);
    ExpectLiteral(",\"fullName\":", s2);
    ParseStringQuote(u.fullName, q2);
    ExpectLiteral(",\"email\":", s3);
    ParseStringQuote(u.email, q3);
    ExpectLiteral(",\"role\":", s4);
    ParseStringQuote(u.role, q4);
    ExpectLiteral(",\"isActive\":", r3);
    ParseFlagOf(u.isActive, r4);
    ExpectLiteral(",\"createdAt\":", r5);
    ParseStringQuote(u.createdAt, r6);
  }
}
