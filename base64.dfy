/** Base64 as `general_purpose::STANDARD.encode` (Rust) and
    `Buffer.toString('base64')` (Node) produce it: the alphabet of table 1 in
    section 4 of RFC 4648, every group of three bytes written as four
    characters, and a final group of one or two bytes padded with `=`.

    `Decode` is the strict decoder of the same section (padding only at the
    end, unused bits zero); it is the partner that shows `Encode` loses
    nothing. */
module Base64 {
  import opened Wrappers

  type Byte = b: int | 0 <= b < 256
  type Sextet = s: int | 0 <= s < 64

  /** The character that stands for a six-bit value. */
  function Letter(v: Sextet): char
  {
    if v < 26 then ('A' as int + v) as char
    else if v < 52 then ('a' as int + (v - 26)) as char
    else if v < 62 then ('0' as int + (v - 52)) as char
    else if v == 62 then '+'
    else '/'
  }

  /** The six-bit value a character stands for, if it is in the alphabet. */
  function Value(c: char): Option<Sextet>
  {
    if 'A' <= c <= 'Z' then Some(c as int - 'A' as int)
    else if 'a' <= c <= 'z' then Some(c as int - 'a' as int + 26)
    else if '0' <= c <= '9' then Some(c as int - '0' as int + 52)
    else if c == '+' then Some(62)
    else if c == '/' then Some(63)
    else None
  }

  lemma ValueOfLetter(v: Sextet)
    ensures Value(Letter(v)) == Some(v)
  {
  }

  /** Three bytes as four characters. */
  function Quad(b0: Byte, b1: Byte, b2: Byte): string
  {
    [Letter(b0 / 4), Letter(b0 % 4 * 16 + b1 / 16), Letter(b1 % 16 * 4 + b2 / 64), Letter(b2 % 64)]
  }

  function Encode(bytes: seq<Byte>): (text: string)
    ensures |text| == 4 * ((|bytes| + 2) / 3)
    decreases |bytes|
  {
    if |bytes| == 0 then ""
    else if |bytes| == 1 then [Letter(bytes[0] / 4), Letter(bytes[0] % 4 * 16), '=', '=']
    else if |bytes| == 2 then
      [Letter(bytes[0] / 4), Letter(bytes[0] % 4 * 16 + bytes[1] / 16), Letter(bytes[1] % 16 * 4), '=']
    else
      EncodedLength(|bytes|);
      Quad(bytes[0], bytes[1], bytes[2]) + Encode(bytes[3..])
  }

  lemma EncodedLength(n: int)
    requires n >= 3
    ensures 4 * ((n + 2) / 3) == 4 + 4 * ((n - 3 + 2) / 3)
  {
  }

  /** The bytes of the last four characters of an encoding; `=` may stand
      in the last one or two places. */
  function DecodeLast(q: string): Option<seq<Byte>>
    requires |q| == 4
  {
    var v0, v1, v2, v3 := Value(q[0]), Value(q[1]), Value(q[2]), Value(q[3]);
    if v0.None? || v1.None? then None
    else if q[2] == '=' && q[3] == '=' then
      if v1.value % 16 == 0 then Some([v0.value * 4 + v1.value / 16]) else None
    else if v2.Some? && q[3] == '=' then
      if v2.value % 4 == 0 then Some([v0.value * 4 + v1.value / 16, v1.value % 16 * 16 + v2.value / 4])
      else None
    else if v2.Some? && v3.Some? then DecodeQuad(v0.value, v1.value, v2.value, v3.value)
    else None
  }

  function DecodeQuad(v0: Sextet, v1: Sextet, v2: Sextet, v3: Sextet): Option<seq<Byte>>
  {
    Some([v0 * 4 + v1 / 16, v1 % 16 * 16 + v2 / 4, v2 % 4 * 64 + v3])
  }

  function Decode(text: string): Option<seq<Byte>>
    decreases |text|
  {
    if text == "" then Some([])
    else if |text| < 4 then None
    else if |text| == 4 then DecodeLast(text)
    else
      var v0, v1, v2, v3 := Value(text[0]), Value(text[1]), Value(text[2]), Value(text[3]);
      if v0.None? || v1.None? || v2.None? || v3.None? then None
      else
        match Decode(text[4..])
        case None => None
        case Some(rest) => Some(DecodeQuad(v0.value, v1.value, v2.value, v3.value).value + rest)
  }

  /** A six-bit value made of a high part scaled by 16 (or 4) and a low part
      below 16 (or 4) gives both parts back. */
  lemma Unpack(hi: int, lo: int, scale: int)
    requires scale == 4 || scale == 16
    requires 0 <= hi && 0 <= lo < scale
    ensures (hi * scale + lo) / scale == hi && (hi * scale + lo) % scale == lo
  {
  }

  /** The four characters of a full group are all in the alphabet and
      stand for values that give the three bytes back. */
  lemma QuadValues(b0: Byte, b1: Byte, b2: Byte)
    ensures var q := Quad(b0, b1, b2);
      Value(q[0]).Some? && Value(q[1]).Some? && Value(q[2]).Some? && Value(q[3]).Some? &&
      DecodeQuad(Value(q[0]).value, Value(q[1]).value, Value(q[2]).value, Value(q[3]).value) == Some([b0, b1, b2])
  {
    var v0, v1, v2, v3 := b0 / 4, b0 % 4 * 16 + b1 / 16, b1 % 16 * 4 + b2 / 64, b2 % 64;
    Unpack(b0 % 4, b1 / 16, 16);
    Unpack(b1 % 16, b2 / 64, 4);
    assert v0 * 4 + v1 / 16 == b0;
    assert v1 % 16 * 16 + v2 / 4 == b1;
    assert v2 % 4 * 64 + v3 == b2;
    ValueOfLetter(v0);
    ValueOfLetter(v1);
    ValueOfLetter(v2);
    ValueOfLetter(v3);
  }

  lemma PairRoundTrip(b0: Byte, b1: Byte)
    ensures DecodeLast(Encode([b0, b1])) == Some([b0, b1])
  {
    var v0, v1, v2 := b0 / 4, b0 % 4 * 16 + b1 / 16, b1 % 16 * 4;
    Unpack(b0 % 4, b1 / 16, 16);
    Unpack(b1 % 16, 0, 4);
    ValueOfLetter(v0);
    ValueOfLetter(v1);
    ValueOfLetter(v2);
  }

  lemma SingleRoundTrip(b0: Byte)
    ensures DecodeLast(Encode([b0])) == Some([b0])
  {
    Unpack(b0 % 4, 0, 16);
    ValueOfLetter(b0 / 4);
    ValueOfLetter(b0 % 4 * 16);
  }

  /** Decoding undoes encoding, for every byte string. */
  lemma {:induction false} DecodeEncode(bytes: seq<Byte>)
    ensures Decode(Encode(bytes)) == Some(bytes)
    decreases |bytes|
  {
    if |bytes| == 0 {
    } else if |bytes| == 1 {
      assert bytes == [bytes[0]];
      SingleRoundTrip(bytes[0]);
    } else if |bytes| == 2 {
      assert bytes == [bytes[0], bytes[1]];
      PairRoundTrip(bytes[0], bytes[1]);
    } else if |bytes| == 3 {
      assert bytes[3..] == [] && bytes == [bytes[0], bytes[1], bytes[2]];
      assert Encode(bytes) == Quad(bytes[0], bytes[1], bytes[2]) + "";
      QuadValues(bytes[0], bytes[1], bytes[2]);
    } else {
      DecodeEncode(bytes[3..]);
      DecodeEncodeLonger(bytes);
    }
  }

  /** The inductive step of DecodeEncode: one more group in front. */
  lemma DecodeEncodeLonger(bytes: seq<Byte>)
    requires |bytes| > 3 && Decode(Encode(bytes[3..])) == Some(bytes[3..])
    ensures Decode(Encode(bytes)) == Some(bytes)
  {
    var q, rest := Quad(bytes[0], bytes[1], bytes[2]), Encode(bytes[3..]);
    QuadValues(bytes[0], bytes[1], bytes[2]);
    DecodeFront(q, rest);
    SplitThree(bytes);
  }

  lemma SplitThree<T>(s: seq<T>)
    requires |s| >= 3
    ensures s == [s[0], s[1], s[2]] + s[3..]
  {
  }

  /** Decoding a full group in front of a non-empty rest. */
  lemma DecodeFront(q: string, rest: string)
    requires |q| == 4 && |rest| > 0
    requires Value(q[0]).Some? && Value(q[1]).Some? && Value(q[2]).Some? && Value(q[3]).Some?
    ensures Decode(q + rest) ==
      match Decode(rest)
      case None => None
      case Some(tail) => Some(DecodeQuad(Value(q[0]).value, Value(q[1]).value, Value(q[2]).value, Value(q[3]).value).value + tail)
  {
    var text := q + rest;
    assert text[0] == q[0] && text[1] == q[1] && text[2] == q[2] && text[3] == q[3];
    assert text[4..] == rest;
  }

  /** The `url` of the image part of the recognition request. */
  function DataUrl(image: seq<Byte>): string
  {
    "data:image/png;base64," + Encode(image)
  }

  /** The URL is the PNG data-URL prefix followed by text that decodes back
      to the image. */
  lemma DataUrlCarriesImage(image: seq<Byte>)
    ensures |DataUrl(image)| == 22 + 4 * ((|image| + 2) / 3)
    ensures DataUrl(image)[..22] == "data:image/png;base64,"
    ensures Decode(DataUrl(image)[22..]) == Some(image)
  {
    assert DataUrl(image)[22..] == Encode(image);
    DecodeEncode(image);
  }
}
