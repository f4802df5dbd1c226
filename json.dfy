/**
 * The JSON text the client writes for its outbound commands, as Gson's
 * default (HTML-safe) writer produces it for a map of strings to strings,
 * together with a reader for that text, so that every encoding can be shown
 * to decode back to what was encoded.
 */
module Json {
  import opened Protocol

  /** Characters that Gson writes as a six-character `\u` escape with lower-case hex digits. */
  predicate NeedsUnicodeEscape(c: char)
  {
    (c < ' ' && c !in "\t\n\r" && c != '\U{8}' && c != '\U{C}')
    || c in "<>&='"
    || c == '\U{2028}' || c == '\U{2029}'
  }

  function HexDigit(d: nat): (c: char)
    requires d < 16
  {
    "0123456789abcdef"[d]
  }

  /** The value of one hexadecimal digit, either case. */
  function HexValue(c: char): Option<nat>
  {
    if '0' <= c <= '9' then Some(c as nat - '0' as nat)
    else if 'a' <= c <= 'f' then Some(c as nat - 'a' as nat + 10)
    else if 'A' <= c <= 'F' then Some(c as nat - 'A' as nat + 10)
    else None
  }

  function Hex4(n: nat): (s: string)
    requires n < 0x10000
    ensures |s| == 4
  {
    [HexDigit(n / 0x1000), HexDigit(n / 0x100 % 16), HexDigit(n / 0x10 % 16), HexDigit(n % 16)]
  }

  function ParseHex4(s: string): Option<nat>
    requires |s| == 4
  {
    var d0 :- HexValue(s[0]);
    var d1 :- HexValue(s[1]);
    var d2 :- HexValue(s[2]);
    var d3 :- HexValue(s[3]);
    Some(d0 * 0x1000 + d1 * 0x100 + d2 * 0x10 + d3)
  }

  lemma HexValueOfDigit(d: nat)
    requires d < 16
    ensures HexValue(HexDigit(d)) == Some(d)
  {
  }

  /** The four hexadecimal digits of a number below 0x10000 add back up to it. */
  lemma Hex4Digits(n: nat)
    requires n < 0x10000
    ensures n == n / 0x1000 * 0x1000 + n / 0x100 % 16 * 0x100 + n / 0x10 % 16 * 0x10 + n % 16
  {
    var q1 := n / 16;
    var q2 := q1 / 16;
    assert n / 0x100 == q2;
    assert n / 0x1000 == q2 / 16;
  }

  lemma ParseHex4OfHex4(n: nat)
    requires n < 0x10000
    ensures ParseHex4(Hex4(n)) == Some(n)
  {
    HexValueOfDigit(n / 0x1000);
    HexValueOfDigit(n / 0x100 % 16);
    HexValueOfDigit(n / 0x10 % 16);
    HexValueOfDigit(n % 16);
    Hex4Digits(n);
  }

  /** The text Gson writes for one character inside a string literal. */
  function EscapeChar(c: char): (s: string)
    ensures s == [c] || (|s| >= 2 && s[0] == '\\')
    ensures c == '"' || c == '\\' ==> s == ['\\', c]
  {
    if c == '"' then "\\\""
    else if c == '\\' then "\\\\"
    else if c == '\t' then "\\t"
    else if c == '\U{8}' then "\\b"
    else if c == '\n' then "\\n"
    else if c == '\r' then "\\r"
    else if c == '\U{C}' then "\\f"
    else if NeedsUnicodeEscape(c) then "\\u" + Hex4(c as nat)
    else [c]
  }

  function Escape(s: string): string
  {
    if s == [] then [] else EscapeChar(s[0]) + Escape(s[1..])
  }

  /** A JSON string literal. */
  function Quote(s: string): string
  {
    "\"" + Escape(s) + "\""
  }

  /** The text Gson writes for an ordered map of two string entries. */
  function Object2(k1: string, v1: string, k2: string, v2: string): string
  {
    "{" + Quote(k1) + ":" + Quote(v1) + "," + Quote(k2) + ":" + Quote(v2) + "}"
  }

  /** One step of reading the inside of a string literal. */
  datatype Step = ClosingQuote(rest: string) | Char(c: char, rest: string) | Malformed

  function ReadStep(s: string): (r: Step)
    ensures !r.Malformed? ==> |r.rest| < |s|
  {
    if s == [] then Malformed
    else if s[0] == '"' then ClosingQuote(s[1..])
    else if s[0] == '\\' then
      if |s| < 2 then Malformed
      else if s[1] == '"' then Char('"', s[2..])
      else if s[1] == '\\' then Char('\\', s[2..])
      else if s[1] == '/' then Char('/', s[2..])
      else if s[1] == 't' then Char('\t', s[2..])
      else if s[1] == 'b' then Char('\U{8}', s[2..])
      else if s[1] == 'n' then Char('\n', s[2..])
      else if s[1] == 'r' then Char('\r', s[2..])
      else if s[1] == 'f' then Char('\U{C}', s[2..])
      else if s[1] == 'u' && |s| >= 6 then
        match ParseHex4(s[2..6])
        case Some(n) =>
          if n < 0xD800 || 0xE000 <= n then Char(n as char, s[6..]) else Malformed
        case None => Malformed
      else Malformed
    else if s[0] < ' ' then Malformed
    else Char(s[0], s[1..])
  }

  /** Reads the inside of a string literal up to its closing quote: the decoded text and what follows. */
  function ReadString(s: string): Option<(string, string)>
    decreases |s|
  {
    match ReadStep(s)
    case Malformed => None
    case ClosingQuote(rest) => Some(([], rest))
    case Char(c, rest) =>
      var (text, after) :- ReadString(rest);
      Some(([c] + text, after))
  }

  function ParseQuoted(s: string): Option<(string, string)>
  {
    if s != [] && s[0] == '"' then ReadString(s[1..]) else None
  }

  function Expect(s: string, c: char): Option<string>
  {
    if s != [] && s[0] == c then Some(s[1..]) else None
  }

  /** Reads one `"key":"value"` entry: the key, the value and what follows. */
  function ParseMember(s: string): Option<(string, string, string)>
  {
    var (k, s1) :- ParseQuoted(s);
    var s2 :- Expect(s1, ':');
    var (v, s3) :- ParseQuoted(s2);
    Some((k, v, s3))
  }

  /** Reads back an object of exactly two string entries, in order. */
  function ParseObject2(s: string): Option<(string, string, string, string)>
  {
    var s1 :- Expect(s, '{');
    var (k1, v1, s2) :- ParseMember(s1);
    var s3 :- Expect(s2, ',');
    var (k2, v2, s4) :- ParseMember(s3);
    if s4 == "}" then Some((k1, v1, k2, v2)) else None
  }

  /** A six-character escape reads back as the character it encodes. */
  lemma ReadStepUnicodeEscape(n: nat, tail: string)
    requires n < 0xD800
    ensures ReadStep("\\u" + Hex4(n) + tail) == Char(n as char, tail)
  {
    var s := "\\u" + Hex4(n) + tail;
    ParseHex4OfHex4(n);
    assert s[2..6] == Hex4(n);
    assert s[6..] == tail;
  }

  lemma ReadStepEscapeChar(c: char, tail: string)
    ensures ReadStep(EscapeChar(c) + tail) == Char(c, tail)
  {
    if c in "\"\\\t\n\r" || c == '\U{8}' || c == '\U{C}' {
      assert (EscapeChar(c) + tail)[2..] == tail;
    } else if NeedsUnicodeEscape(c) {
      ReadStepUnicodeEscape(c as nat, tail);
    } else {
      assert (EscapeChar(c) + tail)[1..] == tail;
    }
  }

  /** Reading an escaped string followed by a closing quote recovers the string and the rest. */
  lemma {:induction false} ReadStringOfEscape(x: string, rest: string)
    ensures ReadString(Escape(x) + "\"" + rest) == Some((x, rest))
  {
    if x == [] {
      assert Escape(x) + "\"" + rest == "\"" + rest;
    } else {
      var tail := Escape(x[1..]) + "\"" + rest;
      assert Escape(x) + "\"" + rest == EscapeChar(x[0]) + tail;
      ReadStepEscapeChar(x[0], tail);
      ReadStringOfEscape(x[1..], rest);
      assert [x[0]] + x[1..] == x;
    }
  }

  lemma ParseQuotedOfQuote(x: string, rest: string)
    ensures ParseQuoted(Quote(x) + rest) == Some((x, rest))
  {
    var s := Quote(x) + rest;
    assert s[1..] == Escape(x) + "\"" + rest;
    ReadStringOfEscape(x, rest);
  }

  lemma ParseMemberOfMember(k: string, v: string, rest: string)
    ensures ParseMember(Quote(k) + ":" + Quote(v) + rest) == Some((k, v, rest))
  {
    var s2 := Quote(v) + rest;
    var s1 := ":" + s2;
    assert Quote(k) + ":" + Quote(v) + rest == Quote(k) + s1;
    ParseQuotedOfQuote(k, s1);
    assert Expect(s1, ':') == Some(s2);
    ParseQuotedOfQuote(v, rest);
  }

  lemma ConcatAssoc(x: string, y: string, z: string)
    ensures (x + y) + z == x + (y + z)
  {
  }

  lemma Object2Split(k1: string, v1: string, k2: string, v2: string)
    ensures Object2(k1, v1, k2, v2)
         == "{" + (Quote(k1) + ":" + Quote(v1) + ("," + (Quote(k2) + ":" + Quote(v2) + "}")))
  {
    var a, b, c, d := Quote(k1), Quote(v1), Quote(k2), Quote(v2);
    var front := "{" + a + ":" + b;
    // The tail `,c:d}` regrouped under its comma.
    ConcatAssoc(",", c, ":");
    ConcatAssoc(",", c + ":", d);
    ConcatAssoc(",", c + ":" + d, "}");
    // The whole text regrouped as `front` followed by the tail.
    ConcatAssoc(front, ",", c);
    ConcatAssoc(front, "," + c, ":");
    ConcatAssoc(front, "," + c + ":", d);
    ConcatAssoc(front, "," + c + ":" + d, "}");
    // `front` regrouped under its brace.
    ConcatAssoc("{", a, ":");
    ConcatAssoc("{", a + ":", b);
    ConcatAssoc("{", a + ":" + b, "," + (c + ":" + d + "}"));
  }

  /** Decoding the two-entry object text gives back its keys and values: the encoding loses nothing. */
  lemma ParseObject2OfObject2(k1: string, v1: string, k2: string, v2: string)
    ensures ParseObject2(Object2(k1, v1, k2, v2)) == Some((k1, v1, k2, v2))
  {
    var s3 := Quote(k2) + ":" + Quote(v2) + "}";
    var s2 := "," + s3;
    var s1 := Quote(k1) + ":" + Quote(v1) + s2;
    Object2Split(k1, v1, k2, v2);
    assert Expect("{" + s1, '{') == Some(s1);
    ParseMemberOfMember(k1, v1, s2);
    assert Expect(s2, ',') == Some(s3);
    ParseMemberOfMember(k2, v2, "}");
  }

  /** Two-entry objects with different contents have different texts. */
  lemma Object2Injective(k1: string, v1: string, k2: string, v2: string,
                         k1': string, v1': string, k2': string, v2': string)
    requires Object2(k1, v1, k2, v2) == Object2(k1', v1', k2', v2')
    ensures k1 == k1' && v1 == v1' && k2 == k2' && v2 == v2'
  {
    ParseObject2OfObject2(k1, v1, k2, v2);
    ParseObject2OfObject2(k1', v1', k2', v2');
  }
}
