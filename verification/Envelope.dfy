/**
 The file format of stored messages: `json.Marshal` of the Message struct (broker/message.go:31-38)
 and the reading of it back. Texts are sequences of Unicode characters; sizes are UTF-8 sizes.
 */
module Envelope {
  import opened Broker
  import Base64

  // ---- JSON strings (section 7 of RFC 8259), escaped as encoding/json escapes them ----

  function HexDigit(v: int): char
    requires 0 <= v < 16
  {
    if v < 10 then ('0' as int + v) as char else ('a' as int + v - 10) as char
  }

  function HexValue(c: char): (v: int)
    ensures -1 <= v < 16
  {
    if '0' <= c <= '9' then c as int - '0' as int
    else if 'a' <= c <= 'f' then c as int - 'a' as int + 10
    else if 'A' <= c <= 'F' then c as int - 'A' as int + 10 else -1
  }

  function UnicodeEscape(n: int): string
    requires 0 <= n < 0x1_0000
  {
    ['\\', 'u', HexDigit(n / 4096), HexDigit(n / 256 % 16), HexDigit(n / 16 % 16), HexDigit(n % 16)]
  }

  predicate NeedsUnicodeEscape(c: char) {
    c as int < 0x20 || c == '<' || c == '>' || c == '&' || c as int == 0x2028 || c as int == 0x2029
  }

  function Escape(c: char): string {
    if c == '"' then "\\\""
    else if c == '\\' then "\\\\"
    else if c == '\n' then "\\n"
    else if c == '\r' then "\\r"
    else if c == '\t' then "\\t"
    else if NeedsUnicodeEscape(c) then UnicodeEscape(c as int)
    else [c]
  }

  function EscapeAll(s: string): string {
    if s == "" then "" else Escape(s[0]) + EscapeAll(s[1..])
  }

  /** Reads the hexadecimal digits of a \u escape. */
  function ReadHex(t: string): Option<(char, string)> {
    if |t| < 4 then None
    else
      var a, b, c, d := HexValue(t[0]), HexValue(t[1]), HexValue(t[2]), HexValue(t[3]);
      var n := a * 4096 + b * 256 + c * 16 + d;
      if a < 0 || b < 0 || c < 0 || d < 0 || 0xD800 <= n < 0xE000 then None
      else Some((n as char, t[4..]))
  }

  /** Reads one character of a JSON string; the closing quote is not one. */
  function ReadChar(t: string): Option<(char, string)> {
    if t == "" || t[0] == '"' || t[0] as int < 0x20 then None
    else if t[0] != '\\' then Some((t[0], t[1..]))
    else if |t| == 1 then None
    else if t[1] == 'n' then Some(('\n', t[2..]))
    else if t[1] == 'r' then Some(('\r', t[2..]))
    else if t[1] == 't' then Some(('\t', t[2..]))
    else if t[1] == 'b' then Some((8 as char, t[2..]))
    else if t[1] == 'f' then Some((12 as char, t[2..]))
    else if t[1] == '"' || t[1] == '\\' || t[1] == '/' then Some((t[1], t[2..]))
    else if t[1] == 'u' then ReadHex(t[2..])
    else None
  }

  lemma ReadCharShortens(t: string)
    ensures ReadChar(t).Some? ==> |ReadChar(t).value.1| < |t|
  {
  }

  /** Reads up to and including the closing quote. */
  function ReadString(t: string): Option<(string, string)>
    decreases |t|
  {
    if t != "" && t[0] == '"' then Some(("", t[1..]))
    else
      ReadCharShortens(t);
      var (c, t1) :- ReadChar(t);
      var (s, t2) :- ReadString(t1);
      Some(([c] + s, t2))
  }

  lemma HexRoundTrip(n: int)
    requires 0 <= n < 0x1_0000
    ensures var h := UnicodeEscape(n);
            && HexValue(h[2]) == n / 4096 && HexValue(h[3]) == n / 256 % 16
            && HexValue(h[4]) == n / 16 % 16 && HexValue(h[5]) == n % 16
    ensures n == n / 4096 * 4096 + n / 256 % 16 * 256 + n / 16 % 16 * 16 + n % 16
  {
    assert n / 256 == n / 4096 * 16 + n / 256 % 16;
    assert n / 16 == n / 256 * 16 + n / 16 % 16;
  }

  /** Reading an escaped character gives that character back. */
  lemma ReadEscaped(c: char, rest: string)
    ensures ReadChar(Escape(c) + rest) == Some((c, rest))
  {
    var t := Escape(c) + rest;
    assert t[|Escape(c)|..] == rest;
    if |Escape(c)| == 6 {
      HexRoundTrip(c as int);
      assert t[..6] == Escape(c);
      assert t[2..][4..] == t[6..];
    }
  }

  lemma EscapeStart(c: char)
    ensures |Escape(c)| > 0 && Escape(c)[0] != '"'
  {
  }

  /** Reading a quoted string gives that string back, for every string. */
  lemma {:induction false} ReadQuoted(s: string, rest: string)
    ensures ReadString(EscapeAll(s) + "\"" + rest) == Some((s, rest))
    decreases |s|
  {
    hide ReadChar, Escape;
    if s == "" {
    } else {
      var tail := EscapeAll(s[1..]) + "\"" + rest;
      assert EscapeAll(s) + "\"" + rest == Escape(s[0]) + tail;
      ReadEscaped(s[0], tail);
      ReadQuoted(s[1..], rest);
      EscapeStart(s[0]);
      assert (Escape(s[0]) + tail)[0] == Escape(s[0])[0];
      assert s == [s[0]] + s[1..];
    }
  }

  /** Base64 text stands in a JSON string as it is. */
  lemma {:induction false} PlainUnescaped(s: string)
    requires forall i :: 0 <= i < |s| ==> Base64.Plain(s[i])
    ensures EscapeAll(s) == s
    decreases |s|
  {
    if s != "" {
      assert Escape(s[0]) == [s[0]];
      PlainUnescaped(s[1..]);
      assert s == [s[0]] + s[1..];
    }
  }

  // ---- Messages ----

  const BEFORE_ERROR := "{\"error\":\""
  const BEFORE_TOPIC := ",\"topic\":\""
  const BEFORE_BYTES := ",\"bytes\":"

  function BytesText(b: Option<seq<byte>>): string {
    match b
    case None => "null"
    case Some(bytes) => "\"" + Base64.Encode(bytes) + "\""
  }

  /** An opened string member, its text, the closing quote, and what follows. */
  function MemberText(opening: string, s: string, rest: string): string {
    opening + (EscapeAll(s) + "\"" + rest)
  }

  /** `json.Marshal(m)`; the path is not exported. */
  function Marshal(m: Message): string {
    MemberText(BEFORE_ERROR, m.error,
               MemberText(BEFORE_TOPIC, m.topic,
                          BEFORE_BYTES + (BytesText(m.bytes) + "}")))
  }

  function Expect(literal: string, t: string): Option<string> {
    if literal <= t then Some(t[|literal|..]) else None
  }

  function ReadMember(opening: string, t: string): Option<(string, string)> {
    var t1 :- Expect(opening, t);
    ReadString(t1)
  }

  function ReadBytes(t: string): Option<(Option<seq<byte>>, string)> {
    if "null" <= t then Some((None, t[4..]))
    else
      var t1 :- Expect("\"", t);
      var (s, t2) :- ReadString(t1);
      var b :- Base64.Decode(s);
      Some((Some(b), t2))
  }

  /** `json.Unmarshal` of a message file into a message with the given path. */
  function Unmarshal(text: string, path: string): Option<Message> {
    var (error, t2) :- ReadMember(BEFORE_ERROR, text);
    var (topic, t4) :- ReadMember(BEFORE_TOPIC, t2);
    var t5 :- Expect(BEFORE_BYTES, t4);
    var (bytes, t6) :- ReadBytes(t5);
    if t6 == "}" then Some(Message(error, topic, bytes, Some(path))) else None
  }

  lemma BytesRoundTrip(b: Option<seq<byte>>, rest: string)
    ensures ReadBytes(BytesText(b) + rest) == Some((b, rest))
  {
    var t := BytesText(b) + rest;
    match b
    case None =>
      assert t[..4] == "null" && t[4..] == rest;
    case Some(bytes) =>
      var e := Base64.Encode(bytes);
      assert t[0] == '"' && t[1..] == e + "\"" + rest;
      Base64.EncodedPlain(bytes);
      PlainUnescaped(e);
      ReadQuoted(e, rest);
      Base64.RoundTrip(bytes);
  }

  lemma MemberRoundTrip(opening: string, s: string, rest: string)
    ensures ReadMember(opening, MemberText(opening, s, rest)) == Some((s, rest))
  {
    var t := EscapeAll(s) + "\"" + rest;
    assert (opening + t)[|opening|..] == t;
    ReadQuoted(s, rest);
  }

  /** A stored message is read back exactly: error, topic and bytes, nil included. */
  lemma MarshalRoundTrip(m: Message, path: string)
    ensures Unmarshal(Marshal(m), path) == Some(m.(path := Some(path)))
  {
    var tail := BytesText(m.bytes) + "}";
    assert (BEFORE_BYTES + tail)[|BEFORE_BYTES|..] == tail;
    BytesRoundTrip(m.bytes, "}");
    MemberRoundTrip(BEFORE_TOPIC, m.topic, BEFORE_BYTES + tail);
    MemberRoundTrip(BEFORE_ERROR, m.error, MemberText(BEFORE_TOPIC, m.topic, BEFORE_BYTES + tail));
    hide ReadMember, MemberText, ReadBytes, BytesText;
  }

  /** The members of a stored message, by name and in order. */
  lemma MarshalText(m: Message)
    ensures Marshal(m) == "{\"error\":\"" + EscapeAll(m.error) + "\"" + ",\"topic\":\"" + EscapeAll(m.topic) + "\""
                          + ",\"bytes\":" + BytesText(m.bytes) + "}"
  {
    hide EscapeAll, BytesText;
    var tail := BEFORE_BYTES + (BytesText(m.bytes) + "}");
    assert MemberText(BEFORE_TOPIC, m.topic, tail) == BEFORE_TOPIC + EscapeAll(m.topic) + "\"" + tail;
    assert tail == ",\"bytes\":" + BytesText(m.bytes) + "}";
  }

  /** Quotes, backslashes and line breaks are escaped by a letter or themselves; other control
      characters, and those that HTML gives a meaning, by their code. */
  lemma EscapeExamples()
    ensures EscapeAll("\"") == "\\\"" && EscapeAll("\\") == "\\\\" && EscapeAll("\n") == "\\n"
    ensures EscapeAll("<") == "\\u003c" && EscapeAll("&") == "\\u0026" && EscapeAll([8 as char]) == "\\u0008"
  {
    assert "\""[1..] == "" && "\\"[1..] == "" && "\n"[1..] == "";
    assert "<"[1..] == "" && "&"[1..] == "" && [8 as char][1..] == "";
    assert Escape('<') == "\\u003c" && Escape('&') == "\\u0026" && Escape(8 as char) == "\\u0008";
  }

  // ---- Sizes ----

  function Utf8Len(c: char): nat {
    if c as int < 0x80 then 1 else if c as int < 0x800 then 2 else if c as int < 0x1_0000 then 3 else 4
  }

  /** The number of bytes of a text on disk. */
  function TextSize(t: string): nat {
    if t == "" then 0 else Utf8Len(t[0]) + TextSize(t[1..])
  }

  lemma {:induction false} TextSizeConcat(a: string, b: string)
    ensures TextSize(a + b) == TextSize(a) + TextSize(b)
    decreases |a|
  {
    if a == "" {
      assert a + b == b;
    } else {
      assert (a + b)[1..] == a[1..] + b;
      TextSizeConcat(a[1..], b);
    }
  }

  lemma {:induction false} PlainSize(s: string)
    requires forall i :: 0 <= i < |s| ==> Base64.Plain(s[i])
    ensures TextSize(s) == |s|
    decreases |s|
  {
    if s != "" {
      PlainSize(s[1..]);
    }
  }

  function StoredSize(m: Message): nat {
    TextSize(Marshal(m))
  }

  /** What a message takes on disk besides its bytes. */
  function Overhead(m: Message): nat {
    StoredSize(m.(bytes := None))
  }

  lemma BytesTextSize(b: Option<seq<byte>>)
    ensures TextSize(BytesText(b)) == (if b.None? then 4 else 2 + 4 * ((|b.value| + 2) / 3))
  {
    if b.Some? {
      var e := Base64.Encode(b.value);
      Base64.EncodedPlain(b.value);
      Base64.EncodedLength(b.value);
      PlainSize(e);
      TextSizeConcat("\"" + e, "\"");
      TextSizeConcat("\"", e);
      assert TextSize("\"") == 1;
    } else {
      assert TextSize("null") == 4 by {
        TextSizeConcat("nu", "ll");
        assert "nu" + "ll" == "null";
        assert TextSize("nu") == 2 && TextSize("ll") == 2;
      }
    }
  }

  lemma MemberSize(opening: string, s: string, rest: string)
    ensures TextSize(MemberText(opening, s, rest)) == TextSize(opening) + TextSize(EscapeAll(s)) + 1 + TextSize(rest)
  {
    TextSizeConcat(opening, EscapeAll(s) + "\"" + rest);
    TextSizeConcat(EscapeAll(s) + "\"", rest);
    TextSizeConcat(EscapeAll(s), "\"");
    assert TextSize("\"") == 1;
  }

  lemma MarshalSize(m: Message)
    ensures StoredSize(m) == TextSize(BEFORE_ERROR) + TextSize(EscapeAll(m.error)) +
                             TextSize(BEFORE_TOPIC) + TextSize(EscapeAll(m.topic)) +
                             TextSize(BEFORE_BYTES) + TextSize(BytesText(m.bytes)) + 3
  {
    var tail := BytesText(m.bytes) + "}";
    MemberSize(BEFORE_ERROR, m.error, MemberText(BEFORE_TOPIC, m.topic, BEFORE_BYTES + tail));
    MemberSize(BEFORE_TOPIC, m.topic, BEFORE_BYTES + tail);
    TextSizeConcat(BEFORE_BYTES, tail);
    TextSizeConcat(BytesText(m.bytes), "}");
    assert TextSize("}") == 1;
    hide TextSize, MemberText, EscapeAll, BytesText;
  }

  /** The file of a message is its envelope and its bytes in base64: four bytes on disk for every
      three begun. */
  lemma StoredSizeFormula(m: Message)
    ensures StoredSize(m) == Overhead(m) + (if m.bytes.None? then 0 else 4 * ((Len(m) + 2) / 3) - 2)
  {
    MarshalSize(m);
    MarshalSize(m.(bytes := None));
    BytesTextSize(m.bytes);
    BytesTextSize(None);
    hide TextSize, EscapeAll, BytesText;
  }
}
