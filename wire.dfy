/**
  Bytes on the wire: the option and result wrappers, message payloads, and the
  big-endian 64-bit integers that Netty's ByteBuf.writeLong / readLong produce
  and consume. Tunnel and session tokens travel in this form in the heads of
  RESPONSE, TRANSFER and LOCAL_DISCONNECT messages.
*/
module Wire {

  newtype byte = x: int | 0 <= x < 256

  type Bytes = seq<byte>

  datatype Option<T> = None | Some(value: T)

  datatype Result<T, E> = Ok(value: T) | Err(error: E)

  /** A message payload: raw bytes, or the UTF-8 encoding of a text (kept symbolic). */
  datatype Payload = Raw(bytes: Bytes) | Utf8(text: string)

  const EMPTY: Payload := Raw([])

  /** 2^63 and 2^64: the bounds of a Java long. */
  const LONG_HALF: int := 0x8000_0000_0000_0000
  const LONG_SPAN: int := 0x1_0000_0000_0000_0000

  predicate IsLong(x: int) {
    -LONG_HALF <= x < LONG_HALF
  }

  function Pow256(n: nat): (r: nat)
    ensures r > 0
  {
    if n == 0 then 1 else 256 * Pow256(n - 1)
  }

  lemma Pow256Eight()
    ensures Pow256(8) == LONG_SPAN
  {
    assert Pow256(1) == 256;
    assert Pow256(2) == 0x1_0000;
    assert Pow256(3) == 0x100_0000;
    assert Pow256(4) == 0x1_0000_0000;
    assert Pow256(5) == 0x100_0000_0000;
    assert Pow256(6) == 0x1_0000_0000_0000;
    assert Pow256(7) == 0x100_0000_0000_0000;
  }

  /** The low `n` bytes of `u`, most significant first. */
  function BigEndian(u: nat, n: nat): (r: Bytes)
    ensures |r| == n
  {
    if n == 0 then [] else BigEndian(u / 256, n - 1) + [(u % 256) as byte]
  }

  /** The unsigned value of a big-endian byte string. */
  function Unsigned(b: Bytes): (r: nat)
  {
    if b == [] then 0 else Unsigned(b[..|b| - 1]) * 256 + b[|b| - 1] as nat
  }

  lemma {:induction false} UnsignedBound(b: Bytes)
    ensures Unsigned(b) < Pow256(|b|)
  {
    if b != [] {
      UnsignedBound(b[..|b| - 1]);
      var hi := Unsigned(b[..|b| - 1]);
      assert hi + 1 <= Pow256(|b| - 1);
      assert hi * 256 + 256 <= Pow256(|b| - 1) * 256;
    }
  }

  /** Reading back `n` big-endian bytes yields the value written, when it fits. */
  lemma {:induction false} UnsignedOfBigEndian(u: nat, n: nat)
    requires u < Pow256(n)
    ensures Unsigned(BigEndian(u, n)) == u
  {
    if n > 0 {
      var b := BigEndian(u, n);
      var hi, lo := u / 256, u % 256;
      assert u == hi * 256 + lo;
      assert hi * 256 < Pow256(n - 1) * 256;
      assert b[..|b| - 1] == BigEndian(hi, n - 1);
      assert b[|b| - 1] as nat == lo;
      UnsignedOfBigEndian(hi, n - 1);
      assert Unsigned(b) == Unsigned(b[..|b| - 1]) * 256 + lo;
    }
  }

  /** Writing back the value read from `b` yields `b` itself. */
  lemma {:induction false} BigEndianOfUnsigned(b: Bytes)
    ensures BigEndian(Unsigned(b), |b|) == b
  {
    if b != [] {
      var init := b[..|b| - 1];
      var u := Unsigned(b);
      assert u / 256 == Unsigned(init);
      assert u % 256 == b[|b| - 1] as nat;
      BigEndianOfUnsigned(init);
      assert b == init + [b[|b| - 1]];
    }
  }

  /** ByteBuf.writeLong: the 8-byte two's-complement big-endian form of a long. */
  function EncodeLong(x: int): (r: Bytes)
    ensures |r| == 8 && Unsigned(r) == x % LONG_SPAN
  {
    Pow256Eight();
    UnsignedOfBigEndian(x % LONG_SPAN, 8);
    BigEndian(x % LONG_SPAN, 8)
  }

  /** ByteBuf.readLong on the first 8 bytes. */
  function DecodeLong(b: Bytes): (r: int)
    requires |b| >= 8
    ensures IsLong(r) && r % LONG_SPAN == Unsigned(b[..8])
  {
    UnsignedBound(b[..8]);
    Pow256Eight();
    var u := Unsigned(b[..8]);
    if u >= LONG_HALF then u - LONG_SPAN else u
  }

  lemma DecodeEncodeLong(x: int)
    requires IsLong(x)
    ensures DecodeLong(EncodeLong(x)) == x
  {
    Pow256Eight();
    var u := x % LONG_SPAN;
    UnsignedOfBigEndian(u, 8);
    assert EncodeLong(x)[..8] == EncodeLong(x);
  }

  lemma EncodeDecodeLong(b: Bytes)
    requires |b| == 8
    ensures EncodeLong(DecodeLong(b)) == b
  {
    Pow256Eight();
    UnsignedBound(b);
    assert b[..8] == b;
    var u := Unsigned(b);
    var d := DecodeLong(b);
    assert d % LONG_SPAN == u by {
      if u >= LONG_HALF {
        assert d == u - LONG_SPAN;
      } else {
        assert d == u;
      }
    }
    BigEndianOfUnsigned(b);
  }

  /**
    The TRANSFER / LOCAL_DISCONNECT head: a tunnel token then a session token,
    each read with readLong. Fewer than 16 bytes makes one of the reads throw,
    which is `None` here; bytes after the 16th are not read.
  */
  function ReadTokens(head: Bytes): (r: Option<(int, int)>)
    ensures r.Some? <==> |head| >= 16
    ensures r.Some? ==> r.value.0 == DecodeLong(head[..8]) && r.value.1 == DecodeLong(head[8..16])
  {
    if |head| < 16 then None else Some((DecodeLong(head[..8]), DecodeLong(head[8..16])))
  }

  /** The head a sender builds with two writeLong calls. */
  function TokensHead(tunnelToken: int, sessionToken: int): (r: Bytes)
    ensures |r| == 16
  {
    EncodeLong(tunnelToken) + EncodeLong(sessionToken)
  }

  lemma ReadTokensHead(tunnelToken: int, sessionToken: int, rest: Bytes)
    requires IsLong(tunnelToken) && IsLong(sessionToken)
    ensures ReadTokens(TokensHead(tunnelToken, sessionToken) + rest) == Some((tunnelToken, sessionToken))
  {
    var h := TokensHead(tunnelToken, sessionToken) + rest;
    assert h[..8] == EncodeLong(tunnelToken);
    assert h[8..16] == EncodeLong(sessionToken);
    DecodeEncodeLong(tunnelToken);
    DecodeEncodeLong(sessionToken);
  }
}
