/** The standard base64 encoding with padding (section 4 of RFC 4648), which encoding/json uses
    for byte slices. */
module Base64 {
  import opened Broker

  function Digit(v: int): (c: char)
    requires 0 <= v < 64
    ensures c != '='
  {
    if v < 26 then ('A' as int + v) as char
    else if v < 52 then ('a' as int + v - 26) as char
    else if v < 62 then ('0' as int + v - 52) as char
    else if v == 62 then '+' else '/'
  }

  /** The alphabet of section 4 of RFC 4648. */
  lemma Alphabet()
    ensures Digit(0) == 'A' && Digit(1) == 'B' && Digit(2) == 'C' && Digit(3) == 'D'
    ensures Digit(4) == 'E' && Digit(5) == 'F' && Digit(6) == 'G' && Digit(7) == 'H'
    ensures Digit(8) == 'I' && Digit(9) == 'J' && Digit(10) == 'K' && Digit(11) == 'L'
    ensures Digit(12) == 'M' && Digit(13) == 'N' && Digit(14) == 'O' && Digit(15) == 'P'
    ensures Digit(16) == 'Q' && Digit(17) == 'R' && Digit(18) == 'S' && Digit(19) == 'T'
    ensures Digit(20) == 'U' && Digit(21) == 'V' && Digit(22) == 'W' && Digit(23) == 'X'
    ensures Digit(24) == 'Y' && Digit(25) == 'Z' && Digit(26) == 'a' && Digit(27) == 'b'
    ensures Digit(28) == 'c' && Digit(29) == 'd' && Digit(30) == 'e' && Digit(31) == 'f'
    ensures Digit(32) == 'g' && Digit(33) == 'h' && Digit(34) == 'i' && Digit(35) == 'j'
    ensures Digit(36) == 'k' && Digit(37) == 'l' && Digit(38) == 'm' && Digit(39) == 'n'
    ensures Digit(40) == 'o' && Digit(41) == 'p' && Digit(42) == 'q' && Digit(43) == 'r'
    ensures Digit(44) == 's' && Digit(45) == 't' && Digit(46) == 'u' && Digit(47) == 'v'
    ensures Digit(48) == 'w' && Digit(49) == 'x' && Digit(50) == 'y' && Digit(51) == 'z'
    ensures Digit(52) == '0' && Digit(53) == '1' && Digit(54) == '2' && Digit(55) == '3'
    ensures Digit(56) == '4' && Digit(57) == '5' && Digit(58) == '6' && Digit(59) == '7'
    ensures Digit(60) == '8' && Digit(61) == '9' && Digit(62) == '+' && Digit(63) == '/'
  {
  }

  /** The value of a base64 digit; -1 for any other character. */
  function Value(c: char): (v: int)
    ensures -1 <= v < 64
  {
    if 'A' <= c <= 'Z' then c as int - 'A' as int
    else if 'a' <= c <= 'z' then c as int - 'a' as int + 26
    else if '0' <= c <= '9' then c as int - '0' as int + 52
    else if c == '+' then 62 else if c == '/' then 63 else -1
  }

  lemma ValueOfDigit(v: int)
    requires 0 <= v < 64
    ensures Value(Digit(v)) == v
  {
  }

  function Encode(b: seq<byte>): string {
    if |b| == 0 then ""
    else if |b| == 1 then
      [Digit(b[0] / 4), Digit(b[0] % 4 * 16), '=', '=']
    else if |b| == 2 then
      [Digit(b[0] / 4), Digit(b[0] % 4 * 16 + b[1] / 16), Digit(b[1] % 16 * 4), '=']
    else
      [Digit(b[0] / 4), Digit(b[0] % 4 * 16 + b[1] / 16), Digit(b[1] % 16 * 4 + b[2] / 64), Digit(b[2] % 64)]
      + Encode(b[3..])
  }

  /** The bytes of one group of four characters; None when it is malformed. */
  function Group(c0: char, c1: char, c2: char, c3: char): (r: Option<seq<byte>>) {
    var v0, v1, v2, v3 := Value(c0), Value(c1), Value(c2), Value(c3);
    if v0 < 0 || v1 < 0 then None
    else if c2 == '=' then (if c3 == '=' then Some([v0 * 4 + v1 / 16]) else None)
    else if v2 < 0 then None
    else if c3 == '=' then Some([v0 * 4 + v1 / 16, v1 % 16 * 16 + v2 / 4])
    else if v3 < 0 then None
    else Some([v0 * 4 + v1 / 16, v1 % 16 * 16 + v2 / 4, v2 % 4 * 64 + v3])
  }

  /** Padding is allowed in the last group only. */
  function Decode(s: string): Option<seq<byte>> {
    if s == "" then Some([])
    else if |s| < 4 then None
    else
      var g :- Group(s[0], s[1], s[2], s[3]);
      if |g| < 3 then (if |s| == 4 then Some(g) else None)
      else
        var rest :- Decode(s[4..]);
        Some(g + rest)
  }

  lemma GroupOfThree(a: byte, b: byte, c: byte)
    ensures Group(Digit(a / 4), Digit(a % 4 * 16 + b / 16), Digit(b % 16 * 4 + c / 64), Digit(c % 64)) ==
            Some([a, b, c])
    ensures Group(Digit(a / 4), Digit(a % 4 * 16 + b / 16), Digit(b % 16 * 4), '=') == Some([a, b])
    ensures Group(Digit(a / 4), Digit(a % 4 * 16), '=', '=') == Some([a])
  {
    ValueOfDigit(a / 4);
    ValueOfDigit(a % 4 * 16 + b / 16);
    ValueOfDigit(a % 4 * 16);
    ValueOfDigit(b % 16 * 4 + c / 64);
    ValueOfDigit(b % 16 * 4);
    ValueOfDigit(c % 64);
    hide Digit, Value;
  }

  /** Decoding undoes encoding, for all bytes. */
  lemma {:induction false} RoundTrip(b: seq<byte>)
    ensures Decode(Encode(b)) == Some(b)
    decreases |b|
  {
    hide Group, Digit, Value;
    if |b| == 0 {
    } else if |b| < 3 {
      GroupOfThree(b[0], if |b| == 2 then b[1] else 0, 0);
      assert b == if |b| == 1 then [b[0]] else [b[0], b[1]];
    } else {
      GroupOfThree(b[0], b[1], b[2]);
      RoundTrip(b[3..]);
      assert Encode(b)[4..] == Encode(b[3..]);
      assert b == [b[0], b[1], b[2]] + b[3..];
    }
  }

  /** Four characters for every three bytes begun. */
  lemma {:induction false} EncodedLength(b: seq<byte>)
    ensures |Encode(b)| == 4 * ((|b| + 2) / 3)
    decreases |b|
  {
    if |b| >= 3 {
      EncodedLength(b[3..]);
    }
  }

  /** Characters that a JSON string holds as they are, in one byte each. */
  predicate Plain(c: char) {
    'A' <= c <= 'Z' || 'a' <= c <= 'z' || '0' <= c <= '9' || c == '+' || c == '/' || c == '='
  }

  lemma {:induction false} EncodedPlain(b: seq<byte>)
    ensures forall i :: 0 <= i < |Encode(b)| ==> Plain(Encode(b)[i])
    decreases |b|
  {
    if |b| >= 3 {
      EncodedPlain(b[3..]);
      assert Encode(b)[4..] == Encode(b[3..]);
      assert forall i :: 4 <= i < |Encode(b)| ==> Encode(b)[i] == Encode(b[3..])[i - 4];
    }
  }

  /** Test vectors of section 10 of RFC 4648: "f", "fo", "foo" and "foob". */
  lemma TestVectors()
    ensures Encode([0x66]) == "Zg==" && Encode([0x66, 0x6f]) == "Zm8="
    ensures Encode([0x66, 0x6f, 0x6f]) == "Zm9v" && Encode([0x66, 0x6f, 0x6f, 0x62]) == "Zm9vYg=="
  {
    assert [0x66, 0x6f, 0x6f, 0x62][3..] == [0x62];
    assert [0x66, 0x6f, 0x6f][3..] == [];
  }
}
