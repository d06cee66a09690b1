/** The part of Python's json.dumps that the action messages use, with its default
    settings: ensure_ascii escaping (lower-case \uXXXX, surrogate pairs above the
    Basic Multilingual Plane), the separators ", " and ": ", and dict members in
    insertion order. */
module PyJson {
  import opened Strings

  /** The Python values that are serialized: None, bool, int, str, list, dict. */
  datatype Json =
    | JNull
    | JBool(b: bool)
    | JInt(i: int)
    | JString(s: string)
    | JArray(items: seq<Json>)
    | JObject(members: seq<(string, Json)>)

  // ---------------------------------------------------------------------------
  // Hexadecimal digits

  function HexDigit(d: nat): (c: char)
    requires d < 16
    ensures '0' <= c <= '9' || 'a' <= c <= 'f'
  {
    if d < 10 then ('0' as int + d) as char else ('a' as int + d - 10) as char
  }

  function DigitValue(c: char): (r: Option<nat>)
    ensures r.Some? ==> r.value < 16
  {
    if '0' <= c <= '9' then Some(c as int - '0' as int)
    else if 'a' <= c <= 'f' then Some(c as int - 'a' as int + 10)
    else None
  }

  lemma DigitRoundTrip(d: nat)
    requires d < 16
    ensures DigitValue(HexDigit(d)) == Some(d)
  {
  }

  /** '{0:04x}'.format(n) */
  function Hex4(n: nat): (r: string)
    requires n < 0x10000
    ensures |r| == 4
  {
    var q1 := n / 16;
    var q2 := q1 / 16;
    var q3 := q2 / 16;
    [HexDigit(q3), HexDigit(q2 % 16), HexDigit(q1 % 16), HexDigit(n % 16)]
  }

  function ParseHex4(s: string): (r: Option<nat>)
    requires |s| == 4
    ensures r.Some? ==> r.value < 0x10000
  {
    match (DigitValue(s[0]), DigitValue(s[1]), DigitValue(s[2]), DigitValue(s[3]))
    case (Some(a), Some(b), Some(c), Some(d)) => Some(((a * 16 + b) * 16 + c) * 16 + d)
    case _ => None
  }

  lemma {:induction false} Hex4RoundTrip(n: nat)
    requires n < 0x10000
    ensures ParseHex4(Hex4(n)) == Some(n)
  {
    var q1 := n / 16;
    var q2 := q1 / 16;
    var q3 := q2 / 16;
    DigitRoundTrip(q3);
    DigitRoundTrip(q2 % 16);
    DigitRoundTrip(q1 % 16);
    DigitRoundTrip(n % 16);
    assert n == q1 * 16 + n % 16 && q1 == q2 * 16 + q1 % 16 && q2 == q3 * 16 + q2 % 16;
  }

  // ---------------------------------------------------------------------------
  // String escaping

  /** A character that ensure_ascii writes as itself: printable ASCII other than
      the quote and the backslash. */
  predicate Plain(c: char)
  {
    ' ' <= c <= '~' && c != '"' && c != '\\'
  }

  predicate AllPlain(s: string)
  {
    forall i :: 0 <= i < |s| ==> Plain(s[i])
  }

  /** The escape of one character: the short escapes for quote, backslash, newline,
      carriage return, tab, backspace and form feed; the character itself when it is
      plain; \uXXXX below 0x10000; a surrogate pair above. */
  function EscapeChar(c: char): (r: string)
    ensures |r| >= 1 && (|r| == 1 <==> Plain(c))
    ensures Plain(c) ==> r == [c]
  {
    if c == '"' then "\\\""
    else if c == '\\' then "\\\\"
    else if c == '\n' then "\\n"
    else if c == '\r' then "\\r"
    else if c == '\t' then "\\t"
    else if c as int == 8 then "\\b"
    else if c as int == 12 then "\\f"
    else if Plain(c) then [c]
    else if c as int < 0x10000 then "\\u" + Hex4(c as int)
    else "\\u" + Hex4(HighSurrogate(c)) + "\\u" + Hex4(LowSurrogate(c))
  }

  /** The UTF-16 surrogate halves of a character above the Basic Multilingual Plane. */
  function HighSurrogate(c: char): (r: nat)
    requires c as int >= 0x10000
    ensures 0xD800 <= r < 0xDC00
  {
    0xD800 + (c as int - 0x10000) / 0x400
  }

  /** The character a high and a low surrogate stand for together. */
  function Combine(v: nat, w: nat): (c: char)
    requires 0xD800 <= v < 0xDC00 && 0xDC00 <= w < 0xE000
    ensures c as int >= 0x10000
  {
    (0x10000 + (v - 0xD800) * 0x400 + (w - 0xDC00)) as char
  }

  function LowSurrogate(c: char): (r: nat)
    requires c as int >= 0x10000
    ensures 0xDC00 <= r < 0xE000
  {
    0xDC00 + (c as int - 0x10000) % 0x400
  }

  function Escape(s: string): (r: string)
    ensures |r| >= |s|
  {
    if s == [] then [] else EscapeChar(s[0]) + Escape(s[1..])
  }

  /** json.dumps of a str. */
  function Quote(s: string): string
  {
    "\"" + Escape(s) + "\""
  }

  /** The escape leaves a string unchanged exactly when every character is plain. */
  lemma {:induction false} EscapeIdentityIffPlain(s: string)
    ensures Escape(s) == s <==> AllPlain(s)
  {
    if s != [] {
      EscapeIdentityIffPlain(s[1..]);
      if Plain(s[0]) {
        assert Escape(s) == [s[0]] + Escape(s[1..]);
        if Escape(s) == s {
          assert Escape(s[1..]) == s[1..];
        }
        if AllPlain(s) {
          assert AllPlain(s[1..]) by {
            forall i | 0 <= i < |s[1..]| ensures Plain(s[1..][i]) {
              assert s[1..][i] == s[i + 1];
            }
          }
          assert s == [s[0]] + s[1..];
        }
      } else {
        assert |Escape(s)| > |s|;
      }
    }
  }

  /** Every character is printable ASCII. */
  predicate Ascii(s: string)
  {
    forall i :: 0 <= i < |s| ==> ' ' <= s[i] <= '~'
  }

  lemma AsciiAppend(a: string, b: string)
    requires Ascii(a) && Ascii(b)
    ensures Ascii(a + b)
  {
    forall i | 0 <= i < |a + b| ensures ' ' <= (a + b)[i] <= '~' {
      if i >= |a| {
        assert (a + b)[i] == b[i - |a|];
      }
    }
  }

  lemma EscapeCharIsAscii(c: char)
    ensures Ascii(EscapeChar(c))
  {
  }

  /** Every character of the escaped text is printable ASCII: ensure_ascii. */
  lemma {:induction false} EscapeIsAscii(s: string)
    ensures Ascii(Escape(s))
  {
    if s != [] {
      EscapeIsAscii(s[1..]);
      EscapeCharIsAscii(s[0]);
      AsciiAppend(EscapeChar(s[0]), Escape(s[1..]));
    }
  }

  /** Decodes the body of a JSON string literal: the inverse of Escape. None for a
      malformed escape or a lone surrogate. */
  function Unescape(t: string): (r: Option<string>)
    decreases |t|
  {
    if t == [] then Some([])
    else if t[0] != '\\' then Prepend(t[0], Unescape(t[1..]))
    else Escaped(t[1..])
  }

  /** The character a one-letter escape stands for. */
  function ShortEscape(e: char): Option<char>
  {
    if e == '"' then Some('"')
    else if e == '\\' then Some('\\')
    else if e == 'n' then Some('\n')
    else if e == 'r' then Some('\r')
    else if e == 't' then Some('\t')
    else if e == 'b' then Some(8 as char)
    else if e == 'f' then Some(12 as char)
    else None
  }

  /** Decoding after a backslash. */
  function Escaped(u: string): (r: Option<string>)
    decreases |u|
  {
    if u == [] then None
    else match ShortEscape(u[0])
      case Some(c) => Prepend(c, Unescape(u[1..]))
      case None =>
        if u[0] != 'u' || |u| < 5 then None
        else match ParseHex4(u[1..5])
          case None => None
          case Some(v) =>
            if v < 0xD800 || 0xE000 <= v then Prepend(v as char, Unescape(u[5..]))
            else if 0xDC00 <= v || |u| < 11 || u[5..7] != "\\u" then None
            else match ParseHex4(u[7..11])
              case None => None
              case Some(w) =>
                if w < 0xDC00 || 0xE000 <= w then None
                else Prepend(Combine(v, w), Unescape(u[11..]))
  }

  function Prepend(c: char, r: Option<string>): Option<string>
  {
    match r
    case None => None
    case Some(s) => Some([c] + s)
  }

  lemma UnescapeShort(c: char, rest: string)
    requires c == '"' || c == '\\' || c == '\n' || c == '\r' || c == '\t' || c as int == 8 || c as int == 12
    ensures Unescape(EscapeChar(c) + rest) == Prepend(c, Unescape(rest))
  {
    var t := EscapeChar(c) + rest;
    assert t[1..][1..] == rest;
  }

  lemma UnescapeBasic(c: char, rest: string)
    requires !Plain(c) && c as int < 0x10000
    requires !(c == '"' || c == '\\' || c == '\n' || c == '\r' || c == '\t' || c as int == 8 || c as int == 12)
    ensures Unescape(EscapeChar(c) + rest) == Prepend(c, Unescape(rest))
  {
    var h := Hex4(c as int);
    assert EscapeChar(c) == "\\u" + h;
    DropFirst("\\u" + h, rest);
    assert ("\\u" + h)[1..] == "u" + h;
    EscapedBasic(c, rest);
  }

  /** A \uXXXX escape of a character of the Basic Multilingual Plane, decoded after
      the backslash. */
  lemma EscapedBasic(c: char, rest: string)
    requires c as int < 0x10000
    ensures Escaped("u" + Hex4(c as int) + rest) == Prepend(c, Unescape(rest))
  {
    var u := "u" + Hex4(c as int) + rest;
    Hex4RoundTrip(c as int);
    assert u[1..5] == Hex4(c as int);
    assert u[5..] == rest;
  }

  /** A high and a low surrogate escape, decoded after the backslash. */
  lemma EscapedPair(v: nat, w: nat, rest: string)
    requires 0xD800 <= v < 0xDC00 && 0xDC00 <= w < 0xE000
    ensures Escaped("u" + Hex4(v) + "\\u" + Hex4(w) + rest) ==
      Prepend(Combine(v, w), Unescape(rest))
  {
    var u := "u" + Hex4(v) + "\\u" + Hex4(w) + rest;
    Hex4RoundTrip(v);
    Hex4RoundTrip(w);
    assert u[1..5] == Hex4(v);
    assert u[5..7] == "\\u";
    assert u[7..11] == Hex4(w);
    assert u[11..] == rest;
  }

  /** The surrogate halves of an astral character recombine to it. */
  lemma SurrogatesRecombine(c: char)
    requires c as int >= 0x10000
    ensures Combine(HighSurrogate(c), LowSurrogate(c)) == c
  {
  }

  /** Dropping the first character of a concatenation whose first part is not empty. */
  lemma DropFirst(a: string, b: string)
    requires a != []
    ensures (a + b)[1..] == a[1..] + b
  {
  }

  /** The escape of a character above the Basic Multilingual Plane: a backslash, then
      the rest of its two surrogate escapes. */
  lemma EscapeAstral(c: char)
    requires c as int >= 0x10000
    ensures EscapeChar(c) == "\\" + ("u" + Hex4(HighSurrogate(c)) + "\\u" + Hex4(LowSurrogate(c)))
  {
  }

  /** Decoding text that starts with a backslash decodes the escape after it. */
  lemma UnescapeBackslash(tail: string, rest: string)
    ensures Unescape("\\" + tail + rest) == Escaped(tail + rest)
  {
    assert ("\\" + tail + rest)[1..] == tail + rest;
  }

  lemma UnescapeSurrogates(c: char, rest: string)
    requires c as int >= 0x10000
    ensures Unescape(EscapeChar(c) + rest) == Prepend(c, Unescape(rest))
  {
    var v := HighSurrogate(c);
    var w := LowSurrogate(c);
    EscapeAstral(c);
    UnescapeBackslash("u" + Hex4(v) + "\\u" + Hex4(w), rest);
    EscapedPair(v, w, rest);
    SurrogatesRecombine(c);
  }

  lemma UnescapeChar(c: char, rest: string)
    ensures Unescape(EscapeChar(c) + rest) == Prepend(c, Unescape(rest))
  {
    if Plain(c) {
      assert (EscapeChar(c) + rest)[1..] == rest;
    } else if c == '"' || c == '\\' || c == '\n' || c == '\r' || c == '\t' || c as int == 8 || c as int == 12 {
      UnescapeShort(c, rest);
    } else if c as int < 0x10000 {
      UnescapeBasic(c, rest);
    } else {
      UnescapeSurrogates(c, rest);
    }
  }

  /** Decoding the escaped text gives back the original string. */
  lemma {:induction false} UnescapeEscape(s: string)
    ensures Unescape(Escape(s)) == Some(s)
  {
    if s != [] {
      UnescapeEscape(s[1..]);
      UnescapeChar(s[0], Escape(s[1..]));
      assert [s[0]] + s[1..] == s;
    }
  }

  // ---------------------------------------------------------------------------
  // Serialization

  function NatText(n: nat): (r: string)
    ensures |r| >= 1
  {
    if n < 10 then [('0' as int + n) as char] else NatText(n / 10) + [('0' as int + n % 10) as char]
  }

  /** repr of a Python int. */
  function IntText(i: int): string
  {
    if i < 0 then "-" + NatText(-i) else NatText(i)
  }

  /** The texts joined by a separator. */
  function JoinWith(sep: string, texts: seq<string>): string
  {
    if texts == [] then ""
    else if |texts| == 1 then texts[0]
    else texts[0] + sep + JoinWith(sep, texts[1..])
  }

  /** json.dumps(value) with the default arguments. */
  function Dumps(j: Json): string
  {
    match j
    case JNull => "null"
    case JBool(b) => if b then "true" else "false"
    case JInt(i) => IntText(i)
    case JString(s) => Quote(s)
    case JArray(items) =>
      "[" + JoinWith(", ", seq(|items|, k requires 0 <= k < |items| => Dumps(items[k]))) + "]"
    case JObject(members) =>
      "{" + JoinWith(", ", seq(|members|, k requires 0 <= k < |members| =>
        Quote(members[k].0) + ": " + Dumps(members[k].1))) + "}"
  }

  /** json.dumps of a str is a quoted literal whose body decodes back to the str. */
  lemma DumpsStringDecodes(s: string)
    ensures var d := Dumps(JString(s));
      |d| >= 2 && d[0] == '"' && d[|d| - 1] == '"' && Unescape(d[1..|d| - 1]) == Some(s)
  {
    var d := Dumps(JString(s));
    assert d[1..|d| - 1] == Escape(s);
    UnescapeEscape(s);
  }

  /** A list of strings, as json.dumps writes it. */
  function StringList(xs: seq<string>): Json
  {
    JArray(seq(|xs|, k requires 0 <= k < |xs| => JString(xs[k])))
  }
}
