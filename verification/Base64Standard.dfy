/** Base64url against section 5 of RFC 4648 (`src/logos_bridge/codec.py`). */
module Base64Standard {
  import opened Wrappers
  import opened Base64
  import opened Values
  import opened Codecs
  import opened Base64Numbers

  /** The characters that may occur are those of the alphabet. */
  lemma AlphabetIs(c: char)
    ensures InAlphabet(c) <==> c in ALPHABET
  {
    if InAlphabet(c) {
      AlphabetAt(Value(c));
    }
    if i :| 0 <= i < |ALPHABET| && ALPHABET[i] == c {
      AlphabetAt(i);
    }
  }

  // ---------------------------------------------------------------- encoding

  /** The text, read as a number in base 64, is the bytes, read as one in base 256, with the padding
      bits behind them. */
  lemma {:induction false} EncodesNumber(bs: seq<Byte>)
    ensures Decodable(Encode(bs)) && TextNumber(Encode(bs)) == BytesNumber(bs) * Shift(|bs|)
  {
    hide Four, LastTwo, LastThree, TextNumber, BytesNumber, Encode;
    EncodedLength(bs);
    if |bs| < 3 {
      EncodesFew(bs);
    } else {
      var three, rest := [bs[0], bs[1], bs[2]], bs[3..];
      EncodesNumber(rest);
      EncodedLength(rest);
      ThreeBytesNumber(bs[0], bs[1], bs[2]);
      NumbersJoin(Four(bs[0], bs[1], bs[2]), Encode(rest), three, rest);
      EncodesThree(bs);
    }
  }

  lemma EncodesThree(bs: seq<Byte>)
    requires |bs| >= 3
    ensures bs == [bs[0], bs[1], bs[2]] + bs[3..] && Encode(bs) == Four(bs[0], bs[1], bs[2]) + Encode(bs[3..])
  {
    hide Four;
    FirstThree(bs);
  }

  lemma EncodesFew(bs: seq<Byte>)
    requires |bs| < 3
    ensures AllInAlphabet(Encode(bs)) && TextNumber(Encode(bs)) == BytesNumber(bs) * Shift(|bs|)
  {
    hide LastTwo, LastThree, TextNumber, BytesNumber, Encode;
    FewAre(bs);
    if |bs| == 1 {
      OneByteNumber(bs[0]);
    } else if |bs| == 2 {
      TwoBytesNumber(bs[0], bs[1]);
    } else {
      NothingIsZero();
    }
  }

  // ---------------------------------------------------------------- decoding

  /** Decoding reads the number and ignores the bits behind the last byte, whatever they are. */
  lemma {:induction false} DecodesNumber(text: string)
    requires Decodable(text)
    ensures |text| == (4 * |Decode(text)| + 2) / 3
    ensures 0 <= TextNumber(text) - BytesNumber(Decode(text)) * Shift(|Decode(text)|) < Shift(|Decode(text)|)
  {
    hide One, Two, Three, TextNumber, BytesNumber, Decode, Shift;
    DecodedLength(text);
    if |text| < 4 {
      DecodesFew(text);
    } else {
      var four, rest := text[..4], text[4..];
      DecodesNumber(rest);
      FourCharsNumber(four);
      NumbersJoin(four, rest, Three(four), Decode(rest));
      DecodesFour(text);
    }
  }

  lemma DecodesFour(text: string)
    requires Decodable(text) && |text| >= 4
    ensures text == text[..4] + text[4..] && Decode(text) == Three(text[..4]) + Decode(text[4..])
  {
  }

  lemma DecodesFew(text: string)
    requires Decodable(text) && |text| < 4
    ensures 0 <= TextNumber(text) - BytesNumber(Decode(text)) * Shift(|Decode(text)|) < Shift(|Decode(text)|)
  {
    hide One, Two, TextNumber, BytesNumber, Index;
    if |text| == 2 {
      TwoCharsNumber(text);
    } else if |text| == 3 {
      ThreeCharsNumber(text);
    } else {
      NothingIsZero();
    }
  }

  /** The documented example. */
  lemma DocumentedTag()
    ensures Encode([0xfb, 0xff]) == "-_8"
    ensures EncodeValue(Bytes([0xfb, 0xff])) == Some(Dict(map[Name("_bytes") := Str("-_8")]))
  {
    assert Letter(62) == '-' && Letter(63) == '_' && Letter(60) == '8';
  }

  // ---------------------------------------------------------------- padding

  function Pads(k: nat): string {
    seq(k, i requires 0 <= i < k => '=')
  }

  /** A tag's text is accepted exactly when it is a decodable text with any number of `=` behind it, and
      means what that text means. */
  lemma TagAccepted(text: string)
    ensures DecodeTagText(text).Some? <==> exists k: nat :: PaddedBy(text, k)
    ensures forall k: nat :: PaddedBy(text, k) ==> DecodeTagText(text) == Some(Decode(text[..|text| - k]))
  {
    var body := StripPadding(text);
    Stripped(text);
    if Decodable(body) {
      assert PaddedBy(text, |text| - |body|);
    }
    forall k: nat | PaddedBy(text, k)
      ensures body == text[..|text| - k]
    {
      PadsStripped(text[..|text| - k], k);
    }
  }

  predicate PaddedBy(text: string, k: nat) {
    k <= |text| && Decodable(text[..|text| - k]) && text == text[..|text| - k] + Pads(k)
  }

  lemma {:induction false} Stripped(text: string)
    ensures var body := StripPadding(text); |body| <= |text| && body == text[..|body|] && text == body + Pads(|text| - |body|)
  {
    if text != [] && text[|text| - 1] == '=' {
      Stripped(text[..|text| - 1]);
      var body := StripPadding(text);
      assert Pads(|text| - |body|) == Pads(|text| - 1 - |body|) + ['='];
      assert text == text[..|text| - 1] + ['='];
    }
  }

  lemma {:induction false} PadsStripped(body: string, k: nat)
    requires AllInAlphabet(body)
    ensures StripPadding(body + Pads(k)) == body
    decreases k
  {
    if k == 0 {
      assert body + Pads(0) == body;
      NothingToStrip(body);
    } else {
      PadsStripped(body, k - 1);
      assert (body + Pads(k))[..|body| + k - 1] == body + Pads(k - 1);
    }
  }
}
