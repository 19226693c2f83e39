/** Length-prefixed messages: a 4-byte big-endian length, then the body. */
module Framing {
  newtype Octet = n: int | 0 <= n < 256

  type Octets = seq<Octet>

  const U32: nat := 0x1_0000_0000
  const MAX_BODY: nat := 65536

  function ToBigEndian(n: nat): (b: Octets)
    requires n < U32
    ensures |b| == 4
  {
    [(n / 0x100_0000) as Octet, (n / 0x1_0000 % 256) as Octet, (n / 256 % 256) as Octet, (n % 256) as Octet]
  }

  function FromBigEndian(b: Octets): (n: nat)
    requires |b| == 4
    ensures n < U32
  {
    b[0] as nat * 0x100_0000 + b[1] as nat * 0x1_0000 + b[2] as nat * 256 + b[3] as nat
  }

  /** Taking one byte off a number and putting it back. */
  lemma LastByte(high: nat, low: nat)
    requires low < 256
    ensures (high * 256 + low) / 256 == high && (high * 256 + low) % 256 == low
  {
  }

  lemma EncodedLengthDecodes(n: nat)
    requires n < U32
    ensures FromBigEndian(ToBigEndian(n)) == n
  {
    var low, mid := n / 256, n / 0x1_0000;
    assert mid == low / 256;
    assert n / 0x100_0000 == mid / 256;
    assert n == low * 256 + n % 256;
    assert low == mid * 256 + low % 256;
    assert mid == mid / 256 * 256 + mid % 256;
  }

  lemma DecodedLengthEncodes(b: Octets)
    requires |b| == 4
    ensures ToBigEndian(FromBigEndian(b)) == b
  {
    var one := b[0] as nat;
    var two := one * 256 + b[1] as nat;
    var three := two * 256 + b[2] as nat;
    var n := three * 256 + b[3] as nat;
    assert FromBigEndian(b) == n;
    LastByte(three, b[3] as nat);
    LastByte(two, b[2] as nat);
    LastByte(one, b[1] as nat);
    assert n / 0x1_0000 == three / 256 && n / 0x100_0000 == two / 256;
  }

  /** The length is cast to 32 bits, so a body of 2^32 bytes or more gets a header that is too small. */
  function Frame(body: Octets): Octets {
    ToBigEndian(|body| % U32) + body
  }

  lemma HeaderDigits(n: nat)
    requires n < U32
    ensures var b := ToBigEndian(n);
      && b[0] as nat == n / 0x100_0000
      && n / 0x1_0000 == b[0] as nat * 256 + b[1] as nat
      && n / 256 == n / 0x1_0000 * 256 + b[2] as nat
      && n == n / 256 * 256 + b[3] as nat
  {
    var low, mid := n / 256, n / 0x1_0000;
    assert mid == low / 256 && n / 0x100_0000 == mid / 256;
    assert low == mid * 256 + low % 256 && mid == mid / 256 * 256 + mid % 256;
  }

  lemma LengthsOrder(m: nat, n: nat) returns (i: nat)
    requires m < n < U32
    ensures i < 4 && ToBigEndian(m)[i] < ToBigEndian(n)[i]
    ensures forall j :: 0 <= j < i ==> ToBigEndian(m)[j] == ToBigEndian(n)[j]
  {
    HeaderDigits(m);
    HeaderDigits(n);
    assert m / 0x100_0000 <= n / 0x100_0000 && m / 0x1_0000 <= n / 0x1_0000 && m / 256 <= n / 256;
    var x, y := ToBigEndian(m), ToBigEndian(n);
    hide ToBigEndian;
    i := if x[0] != y[0] then 0 else if x[1] != y[1] then 1 else if x[2] != y[2] then 2 else 3;
  }

  /** The most significant byte goes first: on the wire, a shorter body has the smaller header. */
  lemma HeadersOrderLengths(a: Octets, b: Octets) returns (i: nat)
    requires |a| < |b| < U32
    ensures i < 4 && Frame(a)[..i] == Frame(b)[..i] && Frame(a)[i] < Frame(b)[i]
  {
    i := LengthsOrder(|a|, |b|);
    assert |a| % U32 == |a| && |b| % U32 == |b|;
    var x, y := ToBigEndian(|a|), ToBigEndian(|b|);
    assert Frame(a) == x + a && Frame(b) == y + b;
    hide ToBigEndian, Frame;
    assert x[..i] == y[..i];
    assert (x + a)[..i] == x[..i] && (y + b)[..i] == y[..i];
  }

  function Frames(bodies: seq<Octets>): Octets {
    if bodies == [] then [] else Frame(bodies[0]) + Frames(bodies[1..])
  }

  datatype Message = Body(bytes: Octets) | TooLarge(len: nat) | EndOfStream

  /** One read: the message or error, and what it leaves in the stream. */
  function Decode(s: Octets): (Message, Octets) {
    if |s| < 4 then (EndOfStream, [])
    else
      var len := FromBigEndian(s[..4]);
      if len > MAX_BODY then (TooLarge(len), s[4..])
      else if |s| - 4 < len then (EndOfStream, [])
      else (Body(s[4..4 + len]), s[4 + len..])
  }

  /** Reads until the stream is used up; the flag says whether it ended after a whole message. */
  function DecodeAll(s: Octets): (seq<Octets>, bool)
    decreases |s|
  {
    if s == [] then ([], true)
    else
      var (m, rest) := Decode(s);
      if !m.Body? then ([], false)
      else
        var (more, whole) := DecodeAll(rest);
        ([m.bytes] + more, whole)
  }

  class Stream {
    var data: Octets

    constructor ()
      ensures data == []
    {
      data := [];
    }

    method WriteAll(bytes: Octets)
      modifies this
      ensures data == old(data) + bytes
    {
      data := data + bytes;
    }

    /** Fill the buffer, or fail at the end of the stream. */
    method ReadExact(buf: array<Octet>) returns (ok: bool)
      modifies this, buf
      ensures ok <==> buf.Length <= |old(data)|
      ensures ok ==> buf[..] == old(data)[..buf.Length] && data == old(data)[buf.Length..]
      ensures !ok ==> data == []
    {
      var i := 0;
      while i < buf.Length && data != []
        invariant i <= buf.Length && i <= |old(data)|
        invariant buf[..i] == old(data)[..i] && data == old(data)[i..]
        decreases buf.Length - i
      {
        buf[i] := data[0];
        data := data[1..];
        i := i + 1;
      }
      ok := i == buf.Length;
    }

    method WriteMsg(body: Octets)
      modifies this
      ensures data == old(data) + Frame(body)
    {
      WriteAll(ToBigEndian(|body| % U32));
      WriteAll(body);
    }

    method ReadMsg() returns (m: Message)
      modifies this
      ensures (m, data) == Decode(old(data))
    {
      var header := new Octet[4];
      var got := ReadExact(header);
      if !got {
        return EndOfStream;
      }
      var len := FromBigEndian(header[..]);
      if len > MAX_BODY {
        return TooLarge(len);
      }
      var buf := new Octet[len];
      got := ReadExact(buf);
      if !got {
        return EndOfStream;
      }
      ghost var all := old(data);
      assert all[4..][..len] == all[4..4 + len] && all[4..][len..] == all[4 + len..];
      m := Body(buf[..]);
    }
  }

  lemma HeaderOf(body: Octets, rest: Octets)
    ensures var s := Frame(body) + rest;
      s[..4] == ToBigEndian(|body| % U32) && s[4..] == body + rest && FromBigEndian(s[..4]) == |body| % U32
  {
    var s := Frame(body) + rest;
    assert s[..4] == ToBigEndian(|body| % U32);
    EncodedLengthDecodes(|body| % U32);
  }

  /** One frame reads back as its body, leaving the rest, exactly when the body is within the limit. */
  lemma FrameReadsBack(body: Octets, rest: Octets)
    ensures Decode(Frame(body) + rest) == (Body(body), rest) <==> |body| <= MAX_BODY
  {
    var s := Frame(body) + rest;
    HeaderOf(body, rest);
    if |body| <= MAX_BODY {
      assert s[4..4 + |body|] == s[4..][..|body|] == body;
      assert s[4 + |body|..] == s[4..][|body|..] == rest;
    }
  }

  /** Above the limit and below 2^32 a body is always refused, with its true length. */
  lemma LongBodyIsRefused(body: Octets, rest: Octets)
    requires MAX_BODY < |body| < U32
    ensures Decode(Frame(body) + rest) == (TooLarge(|body|), body + rest)
  {
    HeaderOf(body, rest);
  }

  /** From 2^32 on the header wraps: the reader may take a prefix for the message and go on inside the body. */
  lemma WrappedBodyIsCutShort(body: Octets, rest: Octets)
    requires |body| >= U32 && |body| % U32 <= MAX_BODY
    ensures var len := |body| % U32;
      Decode(Frame(body) + rest) == (Body(body[..len]), body[len..] + rest)
  {
    var s, len := Frame(body) + rest, |body| % U32;
    HeaderOf(body, rest);
    assert s[4..4 + len] == s[4..][..len] == body[..len];
    assert s[4 + len..] == s[4..][len..] == body[len..] + rest;
  }

  /** A whole sequence of messages is read back, with nothing left over, exactly when each is within the limit. */
  lemma {:induction false} FramesReadBack(bodies: seq<Octets>)
    ensures DecodeAll(Frames(bodies)) == (bodies, true) <==> forall i :: 0 <= i < |bodies| ==> |bodies[i]| <= MAX_BODY
  {
    if bodies == [] {
    } else {
      var s := Frames(bodies);
      FrameReadsBack(bodies[0], Frames(bodies[1..]));
      FramesReadBack(bodies[1..]);
      if |bodies[0]| <= MAX_BODY {
        assert bodies == [bodies[0]] + bodies[1..];
      } else if Decode(s).0.Body? {
        assert |Decode(s).0.bytes| <= MAX_BODY;
        assert |DecodeAll(s).0| > 0 && DecodeAll(s).0[0] == Decode(s).0.bytes;
      }
    }
  }

  /** A stream that reads as whole messages is nothing but their frames: there is one way to read it. */
  lemma {:induction false} OnlyFramesReadBack(s: Octets)
    requires DecodeAll(s).1
    ensures s == Frames(DecodeAll(s).0)
    decreases |s|
  {
    if s == [] {
    } else {
      var (m, rest) := Decode(s);
      OnlyFramesReadBack(rest);
      DecodedFrame(s);
      var msgs, more := DecodeAll(s).0, DecodeAll(rest).0;
      assert msgs == [m.bytes] + more;
      assert msgs[0] == m.bytes && msgs[1..] == more;
    }
  }

  lemma DecodedFrame(s: Octets)
    requires Decode(s).0.Body?
    ensures Frame(Decode(s).0.bytes) + Decode(s).1 == s
  {
    var header, body := s[..4], Decode(s).0.bytes;
    DecodedLengthEncodes(header);
    assert |body| % U32 == FromBigEndian(header);
    assert Frame(body) == header + body;
  }
}
