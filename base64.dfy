/**
 * Standard base64 (section 4 of RFC 4648, with `=` padding), the encoding
 * `base64.StdEncoding.EncodeToString` applies, together with a decoder that
 * inverts it, and the UTF-8 encoding Go applies when a string becomes bytes.
 */
module Base64 {
  import opened Wrappers

  type byte = x: int | 0 <= x < 256
  type sextet = x: int | 0 <= x < 64

  /** The character for a 6-bit value: `A`-`Z`, `a`-`z`, `0`-`9`, `+`, `/`. */
  function Digit(v: sextet): char {
    if v < 26 then ('A' as int + v) as char
    else if v < 52 then ('a' as int + (v - 26)) as char
    else if v < 62 then ('0' as int + (v - 52)) as char
    else if v == 62 then '+'
    else '/'
  }

  predicate IsDigit(c: char) {
    ('A' <= c <= 'Z') || ('a' <= c <= 'z') || ('0' <= c <= '9') || c == '+' || c == '/'
  }

  /** The 6-bit value of an alphabet character; the inverse of `Digit`. */
  function ValueOf(c: char): (v: sextet)
    requires IsDigit(c)
    ensures Digit(v) == c
  {
    if 'A' <= c <= 'Z' then c as int - 'A' as int
    else if 'a' <= c <= 'z' then c as int - 'a' as int + 26
    else if '0' <= c <= '9' then c as int - '0' as int + 52
    else if c == '+' then 62
    else 63
  }

  lemma DigitValue(v: sextet)
    ensures IsDigit(Digit(v)) && ValueOf(Digit(v)) == v
  {
  }

  /** Three bytes become four characters. */
  function EncodeTriple(b0: byte, b1: byte, b2: byte): string {
    [Digit(b0 / 4), Digit((b0 % 4) * 16 + b1 / 16), Digit((b1 % 16) * 4 + b2 / 64), Digit(b2 % 64)]
  }

  /** `EncodeToString`: full groups of three, then a padded tail of one or two bytes. */
  function Encode(b: seq<byte>): (r: string)
    ensures |r| == 4 * ((|b| + 2) / 3)
    decreases |b|
  {
    if |b| >= 3 then EncodeTriple(b[0], b[1], b[2]) + Encode(b[3..])
    else if |b| == 2 then [Digit(b[0] / 4), Digit((b[0] % 4) * 16 + b[1] / 16), Digit((b[1] % 16) * 4), '=']
    else if |b| == 1 then [Digit(b[0] / 4), Digit((b[0] % 4) * 16), '=', '=']
    else []
  }

  /** Decodes one group of four characters, the last group possibly padded. */
  function DecodeQuad(q: string, last: bool): Option<seq<byte>>
    requires |q| == 4
  {
    if !IsDigit(q[0]) || !IsDigit(q[1]) then None
    else
      var v0, v1 := ValueOf(q[0]), ValueOf(q[1]);
      var b0 := v0 * 4 + v1 / 16;
      if last && q[2] == '=' && q[3] == '=' then
        if v1 % 16 == 0 then Some([b0]) else None
      else if !IsDigit(q[2]) then None
      else
        var v2 := ValueOf(q[2]);
        var b1 := (v1 % 16) * 16 + v2 / 4;
        if last && q[3] == '=' then
          if v2 % 4 == 0 then Some([b0, b1]) else None
        else if !IsDigit(q[3]) then None
        else
          var v3 := ValueOf(q[3]);
          Some([b0, b1, (v2 % 4) * 64 + v3])
  }

  /** Decodes canonical, padded base64; `None` for anything else. */
  function Decode(s: string): Option<seq<byte>>
    decreases |s|
  {
    if |s| == 0 then Some([])
    else if |s| % 4 != 0 then None
    else
      match DecodeQuad(s[..4], |s| == 4)
      case None => None
      case Some(head) =>
        match Decode(s[4..])
        case None => None
        case Some(tail) => Some(head + tail)
  }

  /** A single group is decoded as the final group. */
  lemma DecodeOneQuad(q: string)
    requires |q| == 4
    ensures Decode(q) == DecodeQuad(q, true)
  {
    assert q[..4] == q;
    assert Decode(q[4..]) == Some([]);
    match DecodeQuad(q, true)
    case None =>
    case Some(head) => assert head + [] == head;
  }

  /** Decoding a group followed by more text decodes the group, then the rest. */
  lemma DecodeAppend(q: string, rest: string, head: seq<byte>, tail: seq<byte>)
    requires |q| == 4
    requires DecodeQuad(q, rest == []) == Some(head)
    requires Decode(rest) == Some(tail)
    ensures Decode(q + rest) == Some(head + tail)
  {
    var s := q + rest;
    assert |rest| % 4 == 0;
    assert s[..4] == q && s[4..] == rest;
    assert DecodeQuad(s[..4], |s| == 4) == Some(head);
    assert Decode(s[4..]) == Some(tail);
  }

  lemma TripleRoundTrip(b0: byte, b1: byte, b2: byte)
    ensures DecodeQuad(EncodeTriple(b0, b1, b2), false) == Some([b0, b1, b2])
    ensures DecodeQuad(EncodeTriple(b0, b1, b2), true) == Some([b0, b1, b2])
  {
    var q := EncodeTriple(b0, b1, b2);
    DigitValue(b0 / 4);
    DigitValue((b0 % 4) * 16 + b1 / 16);
    DigitValue((b1 % 16) * 4 + b2 / 64);
    DigitValue(b2 % 64);
    assert q[2] != '=' && q[3] != '=';
  }

  /** A two-byte tail, padded with one `=`, decodes back to its bytes. */
  lemma PairRoundTrip(b0: byte, b1: byte)
    ensures DecodeQuad(Encode([b0, b1]), true) == Some([b0, b1])
  {
    var e := Encode([b0, b1]);
    var v1 := (b0 % 4) * 16 + b1 / 16;
    var v2 := (b1 % 16) * 4;
    DigitValue(b0 / 4);
    DigitValue(v1);
    DigitValue(v2);
    assert e == [Digit(b0 / 4), Digit(v1), Digit(v2), '='];
    assert v1 / 16 == b0 % 4 && v1 % 16 == b1 / 16;
    assert v2 / 4 == b1 % 16 && v2 % 4 == 0;
  }

  /** A one-byte tail, padded with `==`, decodes back to its byte. */
  lemma SingleRoundTrip(b0: byte)
    ensures DecodeQuad(Encode([b0]), true) == Some([b0])
  {
    var e := Encode([b0]);
    DigitValue(b0 / 4);
    DigitValue((b0 % 4) * 16);
    assert e == [Digit(b0 / 4), Digit((b0 % 4) * 16), '=', '='];
  }

  /** Decoding undoes encoding, for every byte sequence. */
  lemma {:induction false} DecodeEncode(b: seq<byte>)
    ensures Decode(Encode(b)) == Some(b)
    decreases |b|
  {
    var e := Encode(b);
    if |b| >= 3 {
      DecodeEncode(b[3..]);
      TripleRoundTrip(b[0], b[1], b[2]);
      DecodeAppend(EncodeTriple(b[0], b[1], b[2]), Encode(b[3..]), [b[0], b[1], b[2]], b[3..]);
      assert b == [b[0], b[1], b[2]] + b[3..];
    } else if |b| == 2 {
      PairRoundTrip(b[0], b[1]);
      DecodeOneQuad(e);
      assert b == [b[0], b[1]];
    } else if |b| == 1 {
      SingleRoundTrip(b[0]);
      DecodeOneQuad(e);
      assert b == [b[0]];
    }
  }

  /** Every character of an encoding is an alphabet character or padding `=`. */
  lemma {:induction false} EncodeAlphabet(b: seq<byte>)
    ensures forall i :: 0 <= i < |Encode(b)| ==> IsDigit(Encode(b)[i]) || Encode(b)[i] == '='
    decreases |b|
  {
    if |b| >= 3 {
      EncodeAlphabet(b[3..]);
      var head := EncodeTriple(b[0], b[1], b[2]);
      DigitValue(b[0] / 4);
      DigitValue((b[0] % 4) * 16 + b[1] / 16);
      DigitValue((b[1] % 16) * 4 + b[2] / 64);
      DigitValue(b[2] % 64);
      assert Encode(b) == head + Encode(b[3..]);
    } else if |b| == 2 {
      DigitValue(b[0] / 4);
      DigitValue((b[0] % 4) * 16 + b[1] / 16);
      DigitValue((b[1] % 16) * 4);
    } else if |b| == 1 {
      DigitValue(b[0] / 4);
      DigitValue((b[0] % 4) * 16);
    }
  }

  /** The UTF-8 bytes of one Unicode scalar value. */
  function Utf8Char(c: char): (r: seq<byte>)
    ensures 1 <= |r| <= 4
    ensures c as int < 0x80 ==> r == [c as int]
  {
    var n := c as int;
    if n < 0x80 then [n]
    else if n < 0x800 then [0xC0 + n / 64, 0x80 + n % 64]
    else if n < 0x10000 then [0xE0 + n / 4096, 0x80 + (n / 64) % 64, 0x80 + n % 64]
    else [0xF0 + n / 262144, 0x80 + (n / 4096) % 64, 0x80 + (n / 64) % 64, 0x80 + n % 64]
  }

  /** `[]byte(s)`: the UTF-8 encoding of a string. */
  function Utf8(s: string): (r: seq<byte>)
    ensures |r| >= |s|
  {
    if s == [] then [] else Utf8Char(s[0]) + Utf8(s[1..])
  }

  /** The base64 text of a Go string, as `EncodeToString([]byte(s))` computes it. */
  function EncodeString(s: string): string {
    Encode(Utf8(s))
  }
}
