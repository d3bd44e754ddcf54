/**
 * The flash message and its JSON form.
 *
 * `Encode` writes a flash message the way Go's `encoding/json` marshals the
 * `Flash` struct (fields in declaration order, HTML-safe string escaping);
 * `Decode` reads back that field layout. The two are tied by the round trip
 * `Decode(Encode(f)) == Some(f)`, and every encoding is free of raw control
 * characters, so store entries never contain a newline.
 */
module Codec {
  import opened Wrappers

  /** A flash notification: its JSON field "type" is `kind`, "content" is `content`. */
  datatype Flash = Flash(kind: string, content: string)

  const TypeKey: string := "{\"type\":"
  const ContentKey: string := ",\"content\":"
  const Close: string := "}"

  /** Characters Go's encoder writes as a `\u00XX`-style escape. */
  predicate NeedsUnicodeEscape(c: char) {
    (c < ' ' && c != '\n' && c != '\r' && c != '\t')
    || c == '<' || c == '>' || c == '&'
    || c as int == 0x2028 || c as int == 0x2029
  }

  /** The lower-case hex digit of `d`. */
  function HexDigit(d: nat): char
    requires d < 16
  {
    if d < 10 then ('0' as int + d) as char else ('a' as int + d - 10) as char
  }

  /** Four lower-case hex digits of `n`, most significant first. */
  function Hex4(n: nat): (r: string)
    requires n < 0x10000
    ensures |r| == 4
  {
    var q := n / 16;
    var qq := q / 16;
    [HexDigit(qq / 16), HexDigit(qq % 16), HexDigit(q % 16), HexDigit(n % 16)]
  }

  function EscapeChar(c: char): string {
    if c == '"' then "\\\""
    else if c == '\\' then "\\\\"
    else if c == '\n' then "\\n"
    else if c == '\r' then "\\r"
    else if c == '\t' then "\\t"
    else if NeedsUnicodeEscape(c) && c as int < 0x10000 then "\\u" + Hex4(c as int)
    else [c]
  }

  function Escape(s: string): string {
    if s == [] then [] else EscapeChar(s[0]) + Escape(s[1..])
  }

  function Quote(s: string): string {
    "\"" + Escape(s) + "\""
  }

  /** `json.Marshal(flash)` as a string. */
  function Encode(f: Flash): string {
    TypeKey + Quote(f.kind) + ContentKey + Quote(f.content) + Close
  }

  function HexValue(c: char): Option<nat> {
    if '0' <= c <= '9' then Some(c as int - '0' as int)
    else if 'a' <= c <= 'f' then Some(c as int - 'a' as int + 10)
    else if 'A' <= c <= 'F' then Some(c as int - 'A' as int + 10)
    else None
  }

  /** The code point written by four hex digits. */
  function Hex4Value(s: string): (r: Option<nat>)
    requires |s| == 4
    ensures r.Some? ==> r.value < 0x10000
  {
    match (HexValue(s[0]), HexValue(s[1]), HexValue(s[2]), HexValue(s[3]))
    case (Some(a), Some(b), Some(c), Some(d)) =>
      if a < 16 && b < 16 && c < 16 && d < 16 then Some(((a * 16 + b) * 16 + c) * 16 + d) else None
    case _ => None
  }

  /**
   * The escape sequence that follows a backslash in a JSON string: the
   * character it stands for and the text after it. A `\u` escape naming a
   * UTF-16 surrogate is refused (surrogate pairs are not modelled).
   */
  function ParseEscape(s: string): (r: Option<(char, string)>)
    ensures r.Some? ==> |r.value.1| < |s|
  {
    if s == [] then None
    else if s[0] == '"' || s[0] == '\\' || s[0] == '/' then Some((s[0], s[1..]))
    else if s[0] == 'b' then Some((8 as char, s[1..]))
    else if s[0] == 'f' then Some((12 as char, s[1..]))
    else if s[0] == 'n' then Some(('\n', s[1..]))
    else if s[0] == 'r' then Some(('\r', s[1..]))
    else if s[0] == 't' then Some(('\t', s[1..]))
    else if s[0] == 'u' && |s| >= 5 then
      match Hex4Value(s[1..5])
      case Some(v) => if 0xD800 <= v < 0xE000 then None else Some((v as char, s[5..]))
      case None => None
    else None
  }

  /**
   * The body of a JSON string up to its closing quote: the decoded text and
   * what follows the quote. Raw control characters are refused, as in JSON.
   */
  function ParseStringBody(s: string): (r: Option<(string, string)>)
    ensures r.Some? ==> |r.value.1| < |s|
    decreases |s|
  {
    if s == [] then None
    else if s[0] == '"' then Some(([], s[1..]))
    else if s[0] == '\\' then
      match ParseEscape(s[1..])
      case None => None
      case Some((c, rest)) =>
        match ParseStringBody(rest)
        case None => None
        case Some((body, after)) => Some(([c] + body, after))
    else if s[0] < ' ' then None
    else
      match ParseStringBody(s[1..])
      case None => None
      case Some((body, after)) => Some(([s[0]] + body, after))
  }

  function ParseString(s: string): Option<(string, string)> {
    if s != [] && s[0] == '"' then ParseStringBody(s[1..]) else None
  }

  /** `json.Unmarshal` of one stored entry into a `Flash`, for the layout `Encode` writes. */
  function Decode(s: string): Option<Flash> {
    if !(TypeKey <= s) then None
    else
      match ParseString(s[|TypeKey|..])
      case None => None
      case Some((kind, rest)) =>
        if !(ContentKey <= rest) then None
        else
          match ParseString(rest[|ContentKey|..])
          case None => None
          case Some((content, tail)) => if tail == Close then Some(Flash(kind, content)) else None
  }

  lemma Hex4RoundTrip(n: nat)
    requires n < 0x10000
    ensures Hex4Value(Hex4(n)) == Some(n)
  {
    var h := Hex4(n);
    var q := n / 16;
    var qq := q / 16;
    assert n == q * 16 + n % 16;
    assert q == qq * 16 + q % 16;
    assert qq == (qq / 16) * 16 + qq % 16;
    assert HexValue(h[0]) == Some(qq / 16);
    assert HexValue(h[1]) == Some(qq % 16);
    assert HexValue(h[2]) == Some(q % 16);
    assert HexValue(h[3]) == Some(n % 16);
  }

  /** What `ParseStringBody` makes of a text that starts with the escape of `c`. */
  function AfterChar(c: char, t: string): Option<(string, string)> {
    match ParseStringBody(t)
    case None => None
    case Some((body, after)) => Some(([c] + body, after))
  }

  lemma {:induction false} ShortEscapeRoundTrip(c: char, t: string)
    requires c == '"' || c == '\\' || c == '\n' || c == '\r' || c == '\t'
    ensures ParseStringBody(EscapeChar(c) + t) == AfterChar(c, t)
  {
    var s := EscapeChar(c) + t;
    assert s[0] == '\\' && s[1..][1..] == t;
    assert ParseEscape(s[1..]) == Some((c, t));
  }

  lemma {:induction false} UnicodeEscapeRoundTrip(c: char, t: string)
    requires NeedsUnicodeEscape(c) && c as int < 0x10000
    requires !(c == '"' || c == '\\' || c == '\n' || c == '\r' || c == '\t')
    ensures ParseStringBody(EscapeChar(c) + t) == AfterChar(c, t)
  {
    var h := Hex4(c as int);
    var s := EscapeChar(c) + t;
    assert s == "\\u" + h + t;
    assert s[0] == '\\';
    var e := s[1..];
    assert e[0] == 'u' && e[1..5] == h && e[5..] == t;
    Hex4RoundTrip(c as int);
    assert ParseEscape(e) == Some((c, t));
  }

  lemma {:induction false} PlainCharRoundTrip(c: char, t: string)
    requires !(NeedsUnicodeEscape(c) && c as int < 0x10000)
    requires !(c == '"' || c == '\\' || c == '\n' || c == '\r' || c == '\t')
    ensures ParseStringBody(EscapeChar(c) + t) == AfterChar(c, t)
  {
    var s := EscapeChar(c) + t;
    assert EscapeChar(c) == [c];
    assert s[0] == c && s[1..] == t;
  }

  /** One escaped character is read back as that character, whatever follows it. */
  lemma {:induction false} EscapeCharRoundTrip(c: char, t: string)
    ensures ParseStringBody(EscapeChar(c) + t) == AfterChar(c, t)
  {
    if c == '"' || c == '\\' || c == '\n' || c == '\r' || c == '\t' {
      ShortEscapeRoundTrip(c, t);
    } else if NeedsUnicodeEscape(c) && c as int < 0x10000 {
      UnicodeEscapeRoundTrip(c, t);
    } else {
      PlainCharRoundTrip(c, t);
    }
  }

  lemma {:induction false} EscapeRoundTrip(s: string, rest: string)
    ensures ParseStringBody(Escape(s) + "\"" + rest) == Some((s, rest))
  {
    if s == [] {
      assert Escape(s) + "\"" + rest == "\"" + rest;
    } else {
      var t := Escape(s[1..]) + "\"" + rest;
      assert Escape(s) + "\"" + rest == EscapeChar(s[0]) + t;
      EscapeCharRoundTrip(s[0], t);
      EscapeRoundTrip(s[1..], rest);
      assert [s[0]] + s[1..] == s;
    }
  }

  lemma QuoteRoundTrip(s: string, rest: string)
    ensures ParseString(Quote(s) + rest) == Some((s, rest))
  {
    var q := Quote(s) + rest;
    assert q[1..] == Escape(s) + "\"" + rest;
    EscapeRoundTrip(s, rest);
  }

  /** Every flash message reads back from its encoding unchanged. */
  lemma DecodeFields(s: string, kind: string, rest: string, content: string)
    requires TypeKey <= s && ParseString(s[|TypeKey|..]) == Some((kind, rest))
    requires ContentKey <= rest && ParseString(rest[|ContentKey|..]) == Some((content, Close))
    ensures Decode(s) == Some(Flash(kind, content))
  {
  }

  lemma StripKey(key: string, tail: string)
    ensures key <= key + tail && (key + tail)[|key|..] == tail
  {
  }

  lemma DecodeEncode(f: Flash)
    ensures Decode(Encode(f)) == Some(f)
  {
    var rest := ContentKey + (Quote(f.content) + Close);
    var e := TypeKey + (Quote(f.kind) + rest);
    assert Encode(f) == e;
    StripKey(TypeKey, Quote(f.kind) + rest);
    QuoteRoundTrip(f.kind, rest);
    StripKey(ContentKey, Quote(f.content) + Close);
    QuoteRoundTrip(f.content, Close);
    DecodeFields(e, f.kind, rest, f.content);
  }

  /** The example of the service's documentation: `{type: "info", content: "hello"}`. */
  lemma InfoHelloRoundTrip()
    ensures Decode(Encode(Flash("info", "hello"))) == Some(Flash("info", "hello"))
  {
    DecodeEncode(Flash("info", "hello"));
  }

  lemma {:induction false} EscapeHasNoControlChars(s: string)
    ensures forall i :: 0 <= i < |Escape(s)| ==> Escape(s)[i] >= ' '
  {
    if s != [] {
      EscapeHasNoControlChars(s[1..]);
      var e := EscapeChar(s[0]);
      assert forall i :: 0 <= i < |e| ==> e[i] >= ' ';
      assert Escape(s) == e + Escape(s[1..]);
    }
  }

  /** Encoded entries carry no raw control character, in particular no newline. */
  lemma EncodeHasNoControlChars(f: Flash)
    ensures forall i :: 0 <= i < |Encode(f)| ==> Encode(f)[i] >= ' '
    ensures '\n' !in Encode(f)
  {
    EscapeHasNoControlChars(f.kind);
    EscapeHasNoControlChars(f.content);
  }
}
