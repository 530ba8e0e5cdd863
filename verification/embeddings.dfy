/** encodeEmbedding and decodeEmbedding (analyzer/embeddings.go). A float64 is its 64-bit
    pattern, as math.Float64bits gives it. */
module Embeddings {
  type Float = b: nat | b < 0x1_0000_0000_0000_0000

  type Byte = b: nat | b < 256

  /** The n low bytes of v, lowest first. */
  function LowBytes(v: nat, n: nat): (bs: seq<Byte>)
    ensures |bs| == n
  {
    if n == 0 then [] else [v % 256] + LowBytes(v / 256, n - 1)
  }

  function FromBytes(bs: seq<Byte>): nat {
    if bs == [] then 0 else bs[0] + 256 * FromBytes(bs[1..])
  }

  function Pow256(n: nat): nat {
    if n == 0 then 1 else 256 * Pow256(n - 1)
  }

  lemma {:induction false} FromLowBytes(v: nat, n: nat)
    requires v < Pow256(n)
    ensures FromBytes(LowBytes(v, n)) == v
  {
    if n > 0 {
      FromLowBytes(v / 256, n - 1);
      assert LowBytes(v, n)[1..] == LowBytes(v / 256, n - 1);
    }
  }

  lemma {:induction false} FromBytesBound(bs: seq<Byte>)
    ensures FromBytes(bs) < Pow256(|bs|)
  {
    if bs != [] {
      FromBytesBound(bs[1..]);
    }
  }

  lemma Pow256Of8()
    ensures Pow256(8) == 0x1_0000_0000_0000_0000
  {
    assert Pow256(2) == 0x1_0000;
    assert Pow256(4) == 256 * (256 * Pow256(2));
    assert Pow256(6) == 256 * (256 * Pow256(4));
    assert Pow256(8) == 256 * (256 * Pow256(6));
  }

  function Encode(vec: seq<Float>): (bytes: seq<Byte>)
    ensures |bytes| == 8 * |vec|
  {
    if vec == [] then [] else Encode(vec[..|vec| - 1]) + LowBytes(vec[|vec| - 1], 8)
  }

  function Uint64(bs: seq<Byte>): Float
    requires |bs| == 8
  {
    FromBytesBound(bs);
    Pow256Of8();
    FromBytes(bs)
  }

  /** A blob that is empty or no whole number of floats decodes to nothing. */
  function Decode(bytes: seq<Byte>): seq<Float> {
    if |bytes| == 0 || |bytes| % 8 != 0 then []
    else Decode(bytes[..|bytes| - 8]) + [Uint64(bytes[|bytes| - 8..])]
  }

  /** decodeEmbedding undoes encodeEmbedding. */
  lemma {:induction false} DecodeEncode(vec: seq<Float>)
    ensures Decode(Encode(vec)) == vec
  {
    hide LowBytes, FromBytes, Pow256;
    if vec != [] {
      var init, last := vec[..|vec| - 1], vec[|vec| - 1];
      DecodeEncode(init);
      Pow256Of8();
      FromLowBytes(last, 8);
      var bytes := Encode(vec);
      assert bytes[..|bytes| - 8] == Encode(init);
      assert bytes[|bytes| - 8..] == LowBytes(last, 8);
      assert vec == init + [last];
    }
  }

  lemma {:induction false} DecodeLength(bytes: seq<Byte>)
    ensures |Decode(bytes)| == if |bytes| % 8 == 0 then |bytes| / 8 else 0
  {
    if |bytes| > 0 && |bytes| % 8 == 0 {
      DecodeLength(bytes[..|bytes| - 8]);
    }
  }

  method EncodeEmbedding(vec: seq<Float>) returns (bytes: seq<Byte>)
    ensures bytes == Encode(vec)
  {
    bytes := [];
    for i := 0 to |vec|
      invariant bytes == Encode(vec[..i])
    {
      assert vec[..i + 1][..i] == vec[..i];
      bytes := bytes + LowBytes(vec[i], 8);
    }
    assert vec[..|vec|] == vec;
  }

  method DecodeEmbedding(bytes: seq<Byte>) returns (vec: seq<Float>)
    ensures vec == Decode(bytes)
  {
    vec := [];
    if |bytes| % 8 != 0 || |bytes| == 0 {
      return;
    }
    for i := 0 to |bytes| / 8
      invariant vec == Decode(bytes[..8 * i])
    {
      assert bytes[..8 * (i + 1)][..8 * i] == bytes[..8 * i];
      assert bytes[..8 * (i + 1)][8 * i..] == bytes[8 * i..8 * i + 8];
      vec := vec + [Uint64(bytes[8 * i..8 * i + 8])];
    }
    assert bytes[..|bytes|] == bytes;
  }
}
