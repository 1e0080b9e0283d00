/** Unpadded base64url (section 5 of RFC 4648, padding left off as in its section 3.2) and the bytes
tag's text (`src/logos_bridge/codec.py`, `encode_bytes_tag`, `decode_bytes_tag`). */
module Base64 {
  import opened Wrappers

  type Byte = x: int | 0 <= x < 256

  type Sextet = x: int | 0 <= x < 64

  // ---------------------------------------------------------------- the alphabet

  predicate InAlphabet(c: char) {
    'A' <= c <= 'Z' || 'a' <= c <= 'z' || '0' <= c <= '9' || c == '-' || c == '_'
  }

  function Letter(v: Sextet): (c: char)
    ensures InAlphabet(c) && c != '='
  {
    if v < 26 then 'A' + v as char
    else if v < 52 then 'a' + (v - 26) as char
    else if v < 62 then '0' + (v - 52) as char
    else if v == 62 then '-' else '_'
  }

  function Value(c: char): Sextet
    requires InAlphabet(c)
  {
    if 'A' <= c <= 'Z' then c as int - 'A' as int
    else if 'a' <= c <= 'z' then c as int - 'a' as int + 26
    else if '0' <= c <= '9' then c as int - '0' as int + 52
    else if c == '-' then 62 else 63
  }

  lemma LetterBack(v: Sextet)
    ensures Value(Letter(v)) == v
  {
  }

  // ---------------------------------------------------------------- encoding

  /** `urlsafe_b64encode(...).rstrip("=")`. */
  function Encode(bs: seq<Byte>): string {
    if bs == [] then []
    else if |bs| == 1 then
      LastTwo(bs[0])
    else if |bs| == 2 then
      LastThree(bs[0], bs[1])
    else
      Four(bs[0], bs[1], bs[2]) + Encode(bs[3..])
  }

  function LastTwo(x: Byte): (text: string)
    ensures |text| == 2 && AllInAlphabet(text)
  {
    [Letter(x / 4), Letter(x % 4 * 16)]
  }

  function LastThree(x: Byte, y: Byte): (text: string)
    ensures |text| == 3 && AllInAlphabet(text)
  {
    [Letter(x / 4), Letter(x % 4 * 16 + y / 16), Letter(y % 16 * 4)]
  }

  /** Three bytes in four characters. */
  function Four(x: Byte, y: Byte, z: Byte): (text: string)
    ensures |text| == 4 && AllInAlphabet(text)
  {
    [Letter(x / 4), Letter(x % 4 * 16 + y / 16), Letter(y % 16 * 4 + z / 64), Letter(z % 64)]
  }

  predicate AllInAlphabet(text: string) {
    forall i :: 0 <= i < |text| ==> InAlphabet(text[i])
  }

  // ---------------------------------------------------------------- decoding

  /** A text that `_check_b64url` accepts. */
  predicate Decodable(text: string) {
    AllInAlphabet(text) && |text| % 4 != 1
  }

  /** `urlsafe_b64decode` of the text with its padding put back; bits left over are ignored. */
  function Decode(text: string): seq<Byte>
    requires Decodable(text)
  {
    if text == [] then []
    else if |text| == 2 then One(text)
    else if |text| == 3 then Two(text)
    else Three(text[..4]) + Decode(text[4..])
  }

  function One(text: string): (bs: seq<Byte>)
    requires |text| == 2 && AllInAlphabet(text)
    ensures |bs| == 1
  {
    [Value(text[0]) * 4 + Value(text[1]) / 16]
  }

  function Two(text: string): (bs: seq<Byte>)
    requires |text| == 3 && AllInAlphabet(text)
    ensures |bs| == 2
  {
    var a, b, c := Value(text[0]), Value(text[1]), Value(text[2]);
    [a * 4 + b / 16, b % 16 * 16 + c / 4]
  }

  function Three(text: string): (bs: seq<Byte>)
    requires |text| == 4 && AllInAlphabet(text)
    ensures |bs| == 3
  {
    var a, b, c, d := Value(text[0]), Value(text[1]), Value(text[2]), Value(text[3]);
    [a * 4 + b / 16, b % 16 * 16 + c / 4, c % 4 * 64 + d]
  }

  function StripPadding(text: string): string {
    if text != [] && text[|text| - 1] == '=' then StripPadding(text[..|text| - 1]) else text
  }

  /** `decode_bytes_tag` on the tag's text: trailing padding is tolerated. */
  function DecodeTagText(text: string): Option<seq<Byte>> {
    var body := StripPadding(text);
    if Decodable(body) then Some(Decode(body)) else None
  }

  // ---------------------------------------------------------------- laws

  /** The text of n bytes has ceil(4n/3) characters, all of the alphabet, never 1 mod 4. */
  lemma {:induction false} EncodedLength(bs: seq<Byte>)
    ensures |Encode(bs)| == (4 * |bs| + 2) / 3 && Decodable(Encode(bs))
  {
    if |bs| > 2 {
      EncodedLength(bs[3..]);
      FourMore(|bs| - 3);
    }
  }

  /** Three bytes more are four characters more. */
  lemma FourMore(n: nat)
    ensures (4 * (n + 3) + 2) / 3 == 4 + (4 * n + 2) / 3 && (4 * (n + 3) + 2) / 3 % 4 == (4 * n + 2) / 3 % 4
  {
    var m := 4 * n + 2;
    assert 4 * (n + 3) + 2 == m + 12;
    TwelveMore(m);
    SameModFour(m / 3);
  }

  lemma TwelveMore(m: nat)
    ensures (m + 12) / 3 == 4 + m / 3
  {
  }

  lemma SameModFour(q: nat)
    ensures (4 + q) % 4 == q % 4
  {
  }

  lemma FirstByte(x: Byte, low: int)
    requires 0 <= low < 16
    ensures x / 4 * 4 + (x % 4 * 16 + low) / 16 == x
  {
  }

  lemma SecondByte(high: int, y: Byte, low: int)
    requires 0 <= high < 4 && 0 <= low < 4
    ensures (high * 16 + y / 16) % 16 * 16 + (y % 16 * 4 + low) / 4 == y
    ensures (high * 16 + y / 16) / 16 == high
  {
    assert (high * 16 + y / 16) % 16 == y / 16;
  }

  lemma ThirdByte(high: int, z: Byte)
    requires 0 <= high < 16
    ensures (high * 4 + z / 64) % 4 * 64 + z % 64 == z
    ensures (high * 4 + z / 64) / 4 == high
  {
    assert (high * 4 + z / 64) % 4 == z / 64;
  }

  lemma OneByteBack(x: Byte)
    ensures One(LastTwo(x)) == [x]
  {
    LetterBack(x / 4);
    LetterBack(x % 4 * 16);
    FirstByte(x, 0);
  }

  lemma TwoBytesBack(x: Byte, y: Byte)
    ensures Two(LastThree(x, y)) == [x, y]
  {
    LetterBack(x / 4);
    LetterBack(x % 4 * 16 + y / 16);
    LetterBack(y % 16 * 4);
    FirstByte(x, y / 16);
    SecondByte(x % 4, y, 0);
  }

  lemma ThreeBytesBack(x: Byte, y: Byte, z: Byte)
    ensures Three(Four(x, y, z)) == [x, y, z]
  {
    LetterBack(x / 4);
    LetterBack(x % 4 * 16 + y / 16);
    LetterBack(y % 16 * 4 + z / 64);
    LetterBack(z % 64);
    FirstByte(x, y / 16);
    SecondByte(x % 4, y, z / 64);
    ThirdByte(y % 16, z);
  }

  lemma DecodeMore(four: string, rest: string)
    requires |four| == 4 && AllInAlphabet(four) && Decodable(rest)
    ensures Decodable(four + rest) && Decode(four + rest) == Three(four) + Decode(rest)
  {
    assert (four + rest)[..4] == four && (four + rest)[4..] == rest;
  }

  /** Decoding inverts encoding. */
  lemma {:induction false} RoundTrip(bs: seq<Byte>)
    ensures Decodable(Encode(bs)) && Decode(Encode(bs)) == bs
  {
    hide LastTwo, LastThree, Four, One, Two, Three;
    if |bs| == 1 {
      OneByteBack(bs[0]);
    } else if |bs| == 2 {
      TwoBytesBack(bs[0], bs[1]);
    } else if |bs| > 2 {
      var text := Encode(bs[3..]);
      RoundTrip(bs[3..]);
      ThreeBytesBack(bs[0], bs[1], bs[2]);
      DecodeMore(Four(bs[0], bs[1], bs[2]), text);
      assert bs == [bs[0], bs[1], bs[2]] + bs[3..];
    }
  }

  lemma NothingToStrip(text: string)
    requires AllInAlphabet(text)
    ensures StripPadding(text) == text
  {
  }

  /** A tag's text comes back as the bytes it was made of. */
  lemma TagRoundTrip(bs: seq<Byte>)
    ensures DecodeTagText(Encode(bs)) == Some(bs)
  {
    RoundTrip(bs);
    NothingToStrip(Encode(bs));
  }

  /** Decoding ignores trailing bits, so it is not injective. */
  lemma TrailingBitsIgnored()
    ensures Decodable("AA") && Decodable("AB") && Decode("AA") == Decode("AB") && "AA" != "AB"
  {
    assert Value('A') == 0 && Value('B') == 1;
    assert "AA"[1] != "AB"[1];
  }
}
