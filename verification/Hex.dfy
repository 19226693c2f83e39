/** Hexadecimal text, as bytes of UTF-8. */
module Hex {
  import opened Directory

  datatype Decoding = Decoded(bytes: Bytes) | OddLength | BadDigit(offset: nat) | Panic(offset: nat)

  const PLUS: bv8 := 0x2b

  predicate IsLowerHex(c: bv8) {
    0x30 <= c <= 0x39 || 0x61 <= c <= 0x66
  }

  predicate IsHex(c: bv8) {
    IsLowerHex(c) || 0x41 <= c <= 0x46
  }

  function Digit(n: bv8): (c: bv8)
    requires n < 16
    ensures IsLowerHex(c) && Value(c) == n
  {
    if n < 10 then 0x30 + n else 0x57 + n
  }

  function Value(c: bv8): (n: bv8)
    requires IsHex(c)
    ensures n < 16
  {
    if c <= 0x39 then c - 0x30 else if c <= 0x46 then c - 0x37 else c - 0x57
  }

  function Pair(b: bv8): Bytes {
    [Digit(b >> 4), Digit(b & 15)]
  }

  function Encode(bytes: Bytes): (s: Bytes)
    ensures |s| == 2 * |bytes|
  {
    if bytes == [] then [] else Pair(bytes[0]) + Encode(bytes[1..])
  }

  /** Every byte but a UTF-8 continuation byte starts a character. */
  predicate IsBoundary(s: Bytes, i: nat)
    requires i <= |s|
  {
    i == 0 || i == |s| || s[i] & 0xc0 != 0x80
  }

  /** The number parser takes two digits, or a plus sign and one digit. */
  predicate ParsesPair(x: bv8, y: bv8) {
    (IsHex(x) || x == PLUS) && IsHex(y)
  }

  function ParsePair(x: bv8, y: bv8): bv8
    requires ParsesPair(x, y)
  {
    if x == PLUS then Value(y) else (Value(x) << 4) | Value(y)
  }

  /** The pairs from offset i on; cutting a character in two panics, and the first problem ends it. */
  function DecodeFrom(s: Bytes, i: nat): Decoding
    requires i <= |s| && |s| % 2 == 0 && i % 2 == 0
    decreases |s| - i
  {
    if i == |s| then Decoded([])
    else if !IsBoundary(s, i) || !IsBoundary(s, i + 2) then Panic(i)
    else if !ParsesPair(s[i], s[i + 1]) then BadDigit(i)
    else
      match DecodeFrom(s, i + 2)
      case Decoded(rest) => Decoded([ParsePair(s[i], s[i + 1])] + rest)
      case failure => failure
  }

  function Decode(s: Bytes): Decoding {
    if |s| % 2 != 0 then OddLength else DecodeFrom(s, 0)
  }

  /** The fold over the bytes: two digits are appended for each. */
  method EncodeLoop(bytes: Bytes) returns (s: Bytes)
    ensures s == Encode(bytes)
  {
    s := [];
    for i := 0 to |bytes|
      invariant s == Encode(bytes[..i])
    {
      EncodeSnoc(bytes[..i], bytes[i]);
      assert bytes[..i + 1] == bytes[..i] + [bytes[i]];
      s := s + Pair(bytes[i]);
    }
    assert bytes[..|bytes|] == bytes;
  }

  lemma {:induction false} EncodeSnoc(bytes: Bytes, b: bv8)
    ensures Encode(bytes + [b]) == Encode(bytes) + Pair(b)
  {
    if bytes == [] {
    } else {
      assert (bytes + [b])[1..] == bytes[1..] + [b];
      EncodeSnoc(bytes[1..], b);
    }
  }

  lemma {:induction false} EncodedAt(bytes: Bytes, k: nat)
    requires k < |bytes|
    ensures Encode(bytes)[2 * k] == Digit(bytes[k] >> 4) && Encode(bytes)[2 * k + 1] == Digit(bytes[k] & 15)
  {
    if k == 0 {
    } else {
      EncodedAt(bytes[1..], k - 1);
    }
  }

  /** Where a pair of the encoding starts, a character starts. */
  lemma PairsStartCharacters(bytes: Bytes, k: nat)
    requires k <= |bytes|
    ensures IsBoundary(Encode(bytes), 2 * k)
  {
    if k < |bytes| {
      EncodedAt(bytes, k);
    }
  }

  lemma EncodedPairParses(bytes: Bytes, k: nat)
    requires k < |bytes|
    ensures var s := Encode(bytes);
      ParsesPair(s[2 * k], s[2 * k + 1]) && ParsePair(s[2 * k], s[2 * k + 1]) == bytes[k]
  {
    EncodedAt(bytes, k);
  }

  lemma DecodesNextPair(bytes: Bytes, k: nat)
    requires k < |bytes| && DecodeFrom(Encode(bytes), 2 * k + 2) == Decoded(bytes[k + 1..])
    ensures DecodeFrom(Encode(bytes), 2 * k) == Decoded(bytes[k..])
  {
    var s := Encode(bytes);
    PairsStartCharacters(bytes, k);
    PairsStartCharacters(bytes, k + 1);
    EncodedPairParses(bytes, k);
    assert bytes[k..] == [bytes[k]] + bytes[k + 1..];
    hide Encode, IsBoundary, ParsesPair, ParsePair;
  }

  lemma {:induction false} EncodedDecodesFrom(bytes: Bytes, k: nat)
    requires k <= |bytes|
    ensures DecodeFrom(Encode(bytes), 2 * k) == Decoded(bytes[k..])
    decreases |bytes| - k
  {
    hide Encode;
    if k == |bytes| {
    } else {
      EncodedDecodesFrom(bytes, k + 1);
      DecodesNextPair(bytes, k);
    }
  }

  /** Decoding undoes encoding. */
  lemma EncodedDecodes(bytes: Bytes)
    ensures Decode(Encode(bytes)) == Decoded(bytes)
  {
    var s := Encode(bytes);
    assert |s| % 2 == 0;
    assert DecodeFrom(s, 0) == Decoded(bytes) by {
      EncodedDecodesFrom(bytes, 0);
      assert bytes[0..] == bytes;
    }
  }

  ghost predicate PairsFrom(s: Bytes, i: nat)
    requires |s| % 2 == 0
  {
    forall k :: i <= k < |s| && k % 2 == 0 ==> ParsesPair(s[k], s[k + 1])
  }

  lemma {:induction false} DecodesFromExactly(s: Bytes, i: nat)
    requires i <= |s| && |s| % 2 == 0 && i % 2 == 0 && IsBoundary(s, i)
    ensures DecodeFrom(s, i).Decoded? <==> PairsFrom(s, i)
    decreases |s| - i
  {
    if i == |s| {
    } else {
      if IsBoundary(s, i + 2) {
        DecodesFromExactly(s, i + 2);
        if PairsFrom(s, i) {
          assert ParsesPair(s[i], s[i + 1]);
        }
      } else {
        assert !ParsesPair(s[i + 2], s[i + 3]);
      }
    }
  }

  /** What decodes: pairs of digits of either case, or of a plus sign and a digit, and nothing else. */
  lemma DecodesExactly(s: Bytes)
    ensures Decode(s).Decoded? <==> |s| % 2 == 0 && PairsFrom(s, 0)
  {
    if |s| % 2 == 0 {
      DecodesFromExactly(s, 0);
    }
  }

  ghost predicate LowerFrom(s: Bytes, i: nat) {
    forall k :: i <= k < |s| ==> IsLowerHex(s[k])
  }

  lemma JoinsAgree(p: Bytes, q: Bytes, x: Bytes, y: Bytes)
    requires |p| == |q|
    ensures p + x == q + y <==> p == q && x == y
  {
    assert (p + x)[..|p|] == p && (q + y)[..|q|] == q;
    assert (p + x)[|p|..] == x && (q + y)[|q|..] == y;
  }

  /** One pair decoded and encoded again, before a rest that decodes to `rest`. */
  lemma ReencodesPair(s: Bytes, i: nat, rest: Bytes)
    requires i + 2 <= |s| && ParsesPair(s[i], s[i + 1])
    ensures Encode([ParsePair(s[i], s[i + 1])] + rest) == s[i..]
      <==> IsLowerHex(s[i]) && IsLowerHex(s[i + 1]) && Encode(rest) == s[i + 2..]
  {
    var b := ParsePair(s[i], s[i + 1]);
    assert ([b] + rest)[1..] == rest;
    assert Encode([b] + rest) == Pair(b) + Encode(rest);
    assert s[i..] == [s[i], s[i + 1]] + s[i + 2..];
    hide *;
    JoinsAgree(Pair(b), [s[i], s[i + 1]], Encode(rest), s[i + 2..]);
  }

  lemma {:induction false} ReencodesFrom(s: Bytes, i: nat)
    requires i <= |s| && |s| % 2 == 0 && i % 2 == 0 && DecodeFrom(s, i).Decoded?
    ensures Encode(DecodeFrom(s, i).bytes) == s[i..] <==> LowerFrom(s, i)
    decreases |s| - i
  {
    if i == |s| {
    } else {
      hide Encode, ParsePair, IsLowerHex;
      ReencodesFrom(s, i + 2);
      ReencodesPair(s, i, DecodeFrom(s, i + 2).bytes);
      assert LowerFrom(s, i) <==> IsLowerHex(s[i]) && IsLowerHex(s[i + 1]) && LowerFrom(s, i + 2);
    }
  }

  /** Of the texts that decode, encoding gives back exactly those in lower-case digits only. */
  lemma DecodedEncodes(s: Bytes)
    requires Decode(s).Decoded?
    ensures Encode(Decode(s).bytes) == s <==> LowerFrom(s, 0)
  {
    ReencodesFrom(s, 0);
    assert s[0..] == s;
  }

  // ----- which text stands for which number -----

  /** The digits are in order: a larger byte has the later text, first digit first. */
  lemma TextsOrderBytes(a: bv8, b: bv8)
    requires a < b
    ensures var x, y := Encode([a]), Encode([b]);
      x[0] < y[0] || (x[0] == y[0] && x[1] < y[1])
  {
    assert Encode([a]) == Pair(a) + [] && Encode([b]) == Pair(b) + [];
    assert a >> 4 <= b >> 4;
    assert a >> 4 == b >> 4 ==> a & 15 < b & 15;
  }

  /** The lower-case digit that a character of a text stands for: a plus sign in front of a digit is a zero. */
  function Plain(c: bv8): bv8 {
    if c == PLUS then 0x30 else if 0x41 <= c <= 0x46 then c + 0x20 else c
  }

  lemma PairIsPlain(x: bv8, y: bv8)
    requires ParsesPair(x, y)
    ensures Pair(ParsePair(x, y)) == [Plain(x), Plain(y)]
  {
  }

  lemma {:induction false} DecodedFromIsPlain(s: Bytes, i: nat, k: nat)
    requires i <= k < |s| && |s| % 2 == 0 && i % 2 == 0 && DecodeFrom(s, i).Decoded?
    ensures var text := Encode(DecodeFrom(s, i).bytes);
      |text| == |s| - i && text[k - i] == Plain(s[k])
    decreases |s| - i
  {
    hide ParsePair, Plain, Pair;
    PairIsPlain(s[i], s[i + 1]);
    var b, rest := ParsePair(s[i], s[i + 1]), DecodeFrom(s, i + 2).bytes;
    assert ([b] + rest)[1..] == rest;
    assert Encode([b] + rest) == Pair(b) + Encode(rest);
    if i + 2 <= k {
      DecodedFromIsPlain(s, i + 2, k);
    } else if i + 2 < |s| {
      DecodedFromIsPlain(s, i + 2, i + 2);
    }
  }

  /** A text decodes to the bytes whose encoding spells it in lower case, with a zero for a plus sign. */
  lemma DecodedIsPlain(s: Bytes, k: nat)
    requires Decode(s).Decoded? && k < |s|
    ensures |Encode(Decode(s).bytes)| == |s| && Encode(Decode(s).bytes)[k] == Plain(s[k])
  {
    DecodedFromIsPlain(s, 0, k);
  }
}
