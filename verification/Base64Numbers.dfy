/** Numbers in base 64 and in base 256, for base64url against its standard (section 5 of RFC 4648).

A text is the number whose digits are the places of its characters in the alphabet; bytes are the number whose digits
they are. Three bytes and four characters are the same number, and what is left over is shifted by the padding bits;
numbers join as their digits do. */
module Base64Numbers {
  import opened Wrappers
  import opened Base64
  import opened Values
  import opened Codecs

  /** Table 2 of RFC 4648. */
  const ALPHABET: string := "ABCDEFGHIJKLMNOPQRSTUVWXYZ" + "abcdefghijklmnopqrstuvwxyz" + "0123456789" + "-_"

  lemma UpperAt(v: int)
    requires 0 <= v < 26
    ensures "ABCDEFGHIJKLMNOPQRSTUVWXYZ"[v] == 'A' + v as char
  {
  }

  lemma LowerAt(v: int)
    requires 0 <= v < 26
    ensures "abcdefghijklmnopqrstuvwxyz"[v] == 'a' + v as char
  {
  }

  lemma DigitAt(v: int)
    requires 0 <= v < 10
    ensures "0123456789"[v] == '0' + v as char
  {
  }

  lemma AlphabetAt(v: Sextet)
    ensures |ALPHABET| == 64 && ALPHABET[v] == Letter(v)
  {
    if v < 26 {
      UpperAt(v);
    } else if v < 52 {
      LowerAt(v - 26);
    } else if v < 62 {
      DigitAt(v - 52);
    }
  }

  /** The place of a character in the alphabet. */
  ghost function Index(c: char): (i: nat)
    requires InAlphabet(c)
    ensures i < 64 && ALPHABET[i] == c
  {
    AlphabetAt(Value(c));
    var i :| 0 <= i < 64 && ALPHABET[i] == c;
    i
  }

  lemma IndexIsValue(c: char)
    requires InAlphabet(c)
    ensures Index(c) == Value(c)
  {
    AlphabetAt(Index(c));
    LetterBack(Index(c));
  }

  // ---------------------------------------------------------------- numbers

  /** The number with these digits, the most significant first. */
  function Number(base: nat, digits: seq<nat>): nat {
    if digits == [] then 0 else Number(base, digits[..|digits| - 1]) * base + digits[|digits| - 1]
  }

  ghost function Indices(text: string): (digits: seq<nat>)
    requires AllInAlphabet(text)
    ensures |digits| == |text|
  {
    seq(|text|, i requires 0 <= i < |text| => Index(text[i]))
  }

  /** The text as a number. */
  ghost function TextNumber(text: string): nat
    requires AllInAlphabet(text)
  {
    Number(64, Indices(text))
  }

  function Ordinals(bs: seq<Byte>): (digits: seq<nat>)
    ensures |digits| == |bs|
  {
    seq(|bs|, i requires 0 <= i < |bs| => bs[i])
  }

  /** The bytes as a number. */
  function BytesNumber(bs: seq<Byte>): nat {
    Number(256, Ordinals(bs))
  }

  /** What the padding bits of n bytes multiply the number by. */
  function Shift(n: nat): (k: nat)
    ensures k > 0
  {
    if n % 3 == 0 then 1 else if n % 3 == 1 then 16 else 4
  }

  lemma {:induction false} NumberAppends(base: nat, x: seq<nat>, y: seq<nat>)
    ensures Number(base, x + y) == Number(base, x) * Power(base, |y|) + Number(base, y)
  {
    if y == [] {
      assert x + y == x;
    } else {
      var last := |y| - 1;
      NumberAppends(base, x, y[..last]);
      assert (x + y)[..|x + y| - 1] == x + y[..last];
      Regroup(Number(base, x), Power(base, last), base, Number(base, y[..last]));
    }
  }

  lemma Regroup(n: nat, p: nat, base: nat, m: nat)
    ensures (n * p + m) * base == n * (base * p) + m * base
  {
  }

  lemma TextAppends(x: string, y: string)
    requires AllInAlphabet(x) && AllInAlphabet(y)
    ensures AllInAlphabet(x + y) && TextNumber(x + y) == TextNumber(x) * Power(64, |y|) + TextNumber(y)
  {
    hide Number, Power, Indices;
    IndicesAppend(x, y);
    NumberAppends(64, Indices(x), Indices(y));
  }

  lemma IndicesAppend(x: string, y: string)
    requires AllInAlphabet(x) && AllInAlphabet(y)
    ensures AllInAlphabet(x + y) && Indices(x + y) == Indices(x) + Indices(y)
  {
    hide Index, InAlphabet;
    forall i | 0 <= i < |x|
      ensures Indices(x + y)[i] == Indices(x)[i]
    {
    }
    forall i | 0 <= i < |y|
      ensures Indices(x + y)[|x| + i] == Indices(y)[i]
    {
    }
  }

  lemma BytesAppend(x: seq<Byte>, y: seq<Byte>)
    ensures BytesNumber(x + y) == BytesNumber(x) * Power(256, |y|) + BytesNumber(y)
  {
    hide Number, Power, Ordinals;
    OrdinalsAppend(x, y);
    NumberAppends(256, Ordinals(x), Ordinals(y));
  }

  lemma OrdinalsAppend(x: seq<Byte>, y: seq<Byte>)
    ensures Ordinals(x + y) == Ordinals(x) + Ordinals(y)
  {
  }

  lemma NumberOfOne(base: nat, a: nat)
    ensures Number(base, [a]) == a
  {
    assert Number(base, [a][..0]) == 0;
  }

  lemma NumberOfTwo(base: nat, a: nat, b: nat)
    ensures Number(base, [a, b]) == a * base + b
  {
    assert [a, b][..1] == [a];
    NumberOfOne(base, a);
  }

  lemma NumberOfThree(base: nat, a: nat, b: nat, c: nat)
    ensures Number(base, [a, b, c]) == (a * base + b) * base + c
  {
    assert [a, b, c][..2] == [a, b];
    NumberOfTwo(base, a, b);
  }

  lemma NumberOfFour(base: nat, a: nat, b: nat, c: nat, d: nat)
    ensures Number(base, [a, b, c, d]) == ((a * base + b) * base + c) * base + d
  {
    assert [a, b, c, d][..3] == [a, b, c];
    NumberOfThree(base, a, b, c);
  }

  /** The text of n bytes has as many bits as they have and the padding bits. */
  lemma {:induction false} PowersMeet(n: nat)
    ensures Power(64, (4 * n + 2) / 3) == Power(256, n) * Shift(n)
  {
    hide Power;
    if n < 3 {
      FirstPowers();
    } else {
      PowersMeet(n - 3);
      FourMore(n - 3);
      var e := (4 * (n - 3) + 2) / 3;
      FourTimes(e);
      ThreeTimes(n - 3);
      Scale(Power(256, n - 3), Shift(n));
    }
  }

  lemma FirstPowers()
    ensures Power(64, 0) == Power(256, 0) == 1 && Power(64, 2) == 4096 && Power(64, 3) == 262144
    ensures Power(256, 1) == 256 && Power(256, 2) == 65536
  {
    assert Power(64, 1) == 64 && Power(64, 3) == 64 * Power(64, 2);
  }

  lemma Scale(p: nat, k: nat)
    ensures 16777216 * (p * k) == (16777216 * p) * k
  {
  }

  lemma FourTimes(e: nat)
    ensures Power(64, e + 4) == 16777216 * Power(64, e)
  {
    assert Power(64, e + 4) == 64 * Power(64, e + 3) && Power(64, e + 3) == 64 * Power(64, e + 2);
    assert Power(64, e + 2) == 64 * Power(64, e + 1);
  }

  lemma ThreeTimes(e: nat)
    ensures Power(256, e + 3) == 16777216 * Power(256, e)
  {
    assert Power(256, e + 3) == 256 * Power(256, e + 2) && Power(256, e + 2) == 256 * Power(256, e + 1);
  }

  // ---------------------------------------------------------------- encoding

  lemma ThreeBytesNumber(x: Byte, y: Byte, z: Byte)
    ensures TextNumber(Four(x, y, z)) == BytesNumber([x, y, z])
  {
    var text := Four(x, y, z);
    forall i | 0 <= i < 4
      ensures Index(text[i]) == Value(text[i])
    {
      IndexIsValue(text[i]);
    }
    LetterBack(x / 4);
    LetterBack(x % 4 * 16 + y / 16);
    LetterBack(y % 16 * 4 + z / 64);
    LetterBack(z % 64);
    assert Indices(text) == [x / 4, x % 4 * 16 + y / 16, y % 16 * 4 + z / 64, z % 64];
    NumberOfFour(64, x / 4, x % 4 * 16 + y / 16, y % 16 * 4 + z / 64, z % 64);
    assert Ordinals([x, y, z]) == [x, y, z];
    NumberOfThree(256, x, y, z);
  }

  lemma TwoBytesNumber(x: Byte, y: Byte)
    ensures TextNumber(LastThree(x, y)) == BytesNumber([x, y]) * 4
  {
    var text := LastThree(x, y);
    forall i | 0 <= i < 3
      ensures Index(text[i]) == Value(text[i])
    {
      IndexIsValue(text[i]);
    }
    LetterBack(x / 4);
    LetterBack(x % 4 * 16 + y / 16);
    LetterBack(y % 16 * 4);
    assert Indices(text) == [x / 4, x % 4 * 16 + y / 16, y % 16 * 4];
    NumberOfThree(64, x / 4, x % 4 * 16 + y / 16, y % 16 * 4);
    assert Ordinals([x, y]) == [x, y];
    NumberOfTwo(256, x, y);
  }

  lemma OneByteNumber(x: Byte)
    ensures TextNumber(LastTwo(x)) == BytesNumber([x]) * 16
  {
    var text := LastTwo(x);
    forall i | 0 <= i < 2
      ensures Index(text[i]) == Value(text[i])
    {
      IndexIsValue(text[i]);
    }
    LetterBack(x / 4);
    LetterBack(x % 4 * 16);
    assert Indices(text) == [x / 4, x % 4 * 16];
    NumberOfTwo(64, x / 4, x % 4 * 16);
    assert Ordinals([x]) == [x];
    NumberOfOne(256, x);
  }

  lemma FirstThree<T>(bs: seq<T>)
    requires |bs| >= 3
    ensures bs == [bs[0], bs[1], bs[2]] + bs[3..]
  {
  }

  lemma NothingIsZero()
    ensures TextNumber([]) == 0 && BytesNumber([]) == 0
  {
  }

  lemma FewAre(bs: seq<Byte>)
    requires |bs| < 3
    ensures bs == [] ==> Encode(bs) == []
    ensures |bs| == 1 ==> bs == [bs[0]] && Encode(bs) == LastTwo(bs[0])
    ensures |bs| == 2 ==> bs == [bs[0], bs[1]] && Encode(bs) == LastThree(bs[0], bs[1])
  {
    hide LastTwo, LastThree;
  }

  /** Four characters in front of a text, for three bytes in front of its bytes. */
  lemma NumbersJoin(four: string, text: string, three: seq<Byte>, bs: seq<Byte>)
    requires AllInAlphabet(four) && AllInAlphabet(text) && |text| == (4 * |bs| + 2) / 3
    requires |three| == 3 && TextNumber(four) == BytesNumber(three)
    ensures AllInAlphabet(four + text) && Shift(|three + bs|) == Shift(|bs|)
    ensures TextNumber(four + text) - BytesNumber(three + bs) * Shift(|three + bs|) == TextNumber(text) - BytesNumber(bs) * Shift(|bs|)
  {
    hide TextNumber, BytesNumber, Power, Shift;
    SameShift(|bs|);
    TextAppends(four, text);
    BytesAppend(three, bs);
    PowersMeet(|bs|);
    Joins(TextNumber(four), Power(64, |text|), TextNumber(text), Power(256, |bs|), BytesNumber(bs), Shift(|bs|));
  }

  lemma SameShift(n: nat)
    ensures Shift(3 + n) == Shift(n)
  {
  }

  /** `n` in front of a number `m` that is encoded as `u`. */
  lemma Joins(n: nat, q: nat, u: nat, p: nat, m: nat, k: nat)
    requires q == p * k
    ensures n * q + u - (n * p + m) * k == u - m * k
  {
    assert n * (p * k) == (n * p) * k;
    assert (n * p + m) * k == (n * p) * k + m * k;
  }

  // ---------------------------------------------------------------- decoding

  lemma {:induction false} DecodedLength(text: string)
    requires Decodable(text)
    ensures |text| == (4 * |Decode(text)| + 2) / 3
  {
    if |text| > 3 {
      DecodedLength(text[4..]);
      FourMore(|Decode(text[4..])|);
    }
  }

  lemma FourCharsNumber(text: string)
    requires |text| == 4 && AllInAlphabet(text)
    ensures TextNumber(text) == BytesNumber(Three(text))
  {
    forall i | 0 <= i < 4
      ensures Index(text[i]) == Value(text[i])
    {
      IndexIsValue(text[i]);
    }
    var a, b, c, d := Value(text[0]), Value(text[1]), Value(text[2]), Value(text[3]);
    assert Indices(text) == [a, b, c, d];
    NumberOfFour(64, a, b, c, d);
    var bs := Three(text);
    assert Ordinals(bs) == [bs[0], bs[1], bs[2]];
    NumberOfThree(256, bs[0], bs[1], bs[2]);
  }

  lemma ThreeCharsNumber(text: string)
    requires |text| == 3 && AllInAlphabet(text)
    ensures 0 <= TextNumber(text) - BytesNumber(Two(text)) * 4 < 4
  {
    forall i | 0 <= i < 3
      ensures Index(text[i]) == Value(text[i])
    {
      IndexIsValue(text[i]);
    }
    var a, b, c := Value(text[0]), Value(text[1]), Value(text[2]);
    assert Indices(text) == [a, b, c];
    NumberOfThree(64, a, b, c);
    var bs := Two(text);
    assert Ordinals(bs) == [bs[0], bs[1]];
    NumberOfTwo(256, bs[0], bs[1]);
  }

  lemma TwoCharsNumber(text: string)
    requires |text| == 2 && AllInAlphabet(text)
    ensures 0 <= TextNumber(text) - BytesNumber(One(text)) * 16 < 16
  {
    forall i | 0 <= i < 2
      ensures Index(text[i]) == Value(text[i])
    {
      IndexIsValue(text[i]);
    }
    var a, b := Value(text[0]), Value(text[1]);
    assert Indices(text) == [a, b];
    NumberOfTwo(64, a, b);
    var bs := One(text);
    assert Ordinals(bs) == [bs[0]];
    NumberOfOne(256, bs[0]);
  }
}
