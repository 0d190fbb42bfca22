/** Bytes, the little-endian integers of the wire formats, and bytes as bits. */
module Bytes {

  type byte = n: nat | n < 256

  const U16_LIMIT: nat := 0x1_0000
  const U32_LIMIT: nat := 0x1_0000_0000
  const U64_LIMIT: nat := 0x1_0000_0000_0000_0000

  type u16 = n: nat | n < U16_LIMIT
  type u32 = n: nat | n < U32_LIMIT

  datatype Option<+T> = None | Some(value: T)

  function Min(x: nat, y: nat): nat { if x < y then x else y }

  function Max(x: nat, y: nat): nat { if x < y then y else x }

  lemma Shift<T>(a: seq<T>, x: T, b: seq<T>)
    ensures (a + [x]) + b == a + ([x] + b)
  {}

  lemma Assoc<T>(a: seq<T>, b: seq<T>, c: seq<T>)
    ensures (a + b) + c == a + (b + c)
  {}

  /** `saturating_sub`, which is also the tick subtraction of the source. */
  function SatSub(x: nat, y: nat): nat { if x < y then 0 else x - y }

  /** The `width` little-endian bytes of `n` modulo 256^width: `to_le_bytes` after a cast. */
  function ToLe(n: nat, width: nat): (s: seq<byte>)
    ensures |s| == width
  {
    if width == 0 then [] else [n % 256] + ToLe(n / 256, width - 1)
  }

  /** `from_le_bytes`. */
  function FromLe(s: seq<byte>): nat {
    if s == [] then 0 else s[0] + 256 * FromLe(s[1..])
  }

  function Pow256(width: nat): (p: nat)
    ensures p > 0
  {
    if width == 0 then 1 else 256 * Pow256(width - 1)
  }

  lemma Pow256Values()
    ensures Pow256(2) == U16_LIMIT && Pow256(4) == U32_LIMIT && Pow256(8) == U64_LIMIT
  {
    assert Pow256(2) == 256 * Pow256(1);
    assert Pow256(3) == 256 * Pow256(2);
    assert Pow256(4) == 256 * Pow256(3);
    assert Pow256(5) == 256 * Pow256(4);
    assert Pow256(6) == 256 * Pow256(5);
    assert Pow256(7) == 256 * Pow256(6);
  }

  lemma {:induction false} LeRoundTrip(n: nat, width: nat)
    requires n < Pow256(width)
    ensures FromLe(ToLe(n, width)) == n
  {
    if width > 0 {
      LeRoundTrip(n / 256, width - 1);
      assert ToLe(n, width)[1..] == ToLe(n / 256, width - 1);
    }
  }

  lemma {:induction false} LeRoundTripBack(s: seq<byte>)
    ensures FromLe(s) < Pow256(|s|)
    ensures ToLe(FromLe(s), |s|) == s
  {
    if s != [] {
      LeRoundTripBack(s[1..]);
    }
  }

  const WIDTH16: nat := 2
  const WIDTH32: nat := 4
  const WIDTH64: nat := 8

  function Le16(n: nat): (s: seq<byte>)
    ensures |s| == 2
  {
    ToLe(n, WIDTH16)
  }

  function Le32(n: nat): (s: seq<byte>)
    ensures |s| == 4
  {
    ToLe(n, WIDTH32)
  }

  function Le64(n: nat): (s: seq<byte>)
    ensures |s| == 8
  {
    ToLe(n, WIDTH64)
  }

  lemma Le16RoundTrip(n: nat)
    requires n < U16_LIMIT
    ensures FromLe(Le16(n)) == n
  {
    Pow256Values();
    LeRoundTrip(n, WIDTH16);
  }

  lemma Le32RoundTrip(n: nat)
    requires n < U32_LIMIT
    ensures FromLe(Le32(n)) == n
  {
    Pow256Values();
    LeRoundTrip(n, WIDTH32);
  }

  lemma Le64RoundTrip(n: nat)
    requires n < U64_LIMIT
    ensures FromLe(Le64(n)) == n
  {
    Pow256Values();
    LeRoundTrip(n, WIDTH64);
  }

  lemma Le16RoundTripBack(s: seq<byte>)
    requires |s| == 2
    ensures FromLe(s) < U16_LIMIT && Le16(FromLe(s)) == s
  {
    Pow256Values();
    LeRoundTripBack(s);
  }

  lemma Le32RoundTripBack(s: seq<byte>)
    requires |s| == 4
    ensures FromLe(s) < U32_LIMIT && Le32(FromLe(s)) == s
  {
    Pow256Values();
    LeRoundTripBack(s);
  }

  // ---- Bits, least significant first ----

  function ToBits(n: nat, width: nat): (s: seq<bool>)
    ensures |s| == width
  {
    if width == 0 then [] else [n % 2 == 1] + ToBits(n / 2, width - 1)
  }

  function FromBits(s: seq<bool>): nat {
    if s == [] then 0 else (if s[0] then 1 else 0) + 2 * FromBits(s[1..])
  }

  function Pow2(width: nat): (p: nat)
    ensures p > 0
  {
    if width == 0 then 1 else 2 * Pow2(width - 1)
  }

  lemma {:induction false} BitsRoundTrip(n: nat, width: nat)
    requires n < Pow2(width)
    ensures FromBits(ToBits(n, width)) == n
  {
    if width > 0 {
      BitsRoundTrip(n / 2, width - 1);
      assert ToBits(n, width)[1..] == ToBits(n / 2, width - 1);
    }
  }

  lemma {:induction false} BitsRoundTripBack(s: seq<bool>)
    ensures FromBits(s) < Pow2(|s|)
    ensures ToBits(FromBits(s), |s|) == s
  {
    if s != [] {
      BitsRoundTripBack(s[1..]);
    }
  }

  lemma Pow2Of8()
    ensures Pow2(8) == 256
  {
    assert Pow2(4) == 2 * Pow2(3) && Pow2(5) == 2 * Pow2(4) && Pow2(6) == 2 * Pow2(5) && Pow2(7) == 2 * Pow2(6);
  }

  function ByteBits(b: byte): (s: seq<bool>)
    ensures |s| == 8
  {
    ToBits(b, 8)
  }

  lemma ByteBitsInjective(a: byte, b: byte)
    requires ByteBits(a) == ByteBits(b)
    ensures a == b
  {
    Pow2Of8();
    BitsRoundTrip(a, 8);
    BitsRoundTrip(b, 8);
  }

  /** The bits of a byte string in transmission order: byte by byte, least significant bit first. */
  function Bits(s: seq<byte>): (b: seq<bool>)
    ensures |b| == 8 * |s|
  {
    if s == [] then [] else ByteBits(s[0]) + Bits(s[1..])
  }

  lemma {:induction false} BitsConcat(s: seq<byte>, t: seq<byte>)
    ensures Bits(s + t) == Bits(s) + Bits(t)
  {
    if s == [] {
      assert s + t == t;
    } else {
      assert (s + t)[1..] == s[1..] + t;
      BitsConcat(s[1..], t);
      assert ByteBits(s[0]) + (Bits(s[1..]) + Bits(t)) == (ByteBits(s[0]) + Bits(s[1..])) + Bits(t);
    }
  }

  lemma {:induction false} BitsInjective(s: seq<byte>, t: seq<byte>)
    requires Bits(s) == Bits(t)
    ensures s == t
  {
    if s != [] {
      assert Bits(s)[..8] == ByteBits(s[0]) && Bits(t)[..8] == ByteBits(t[0]);
      assert Bits(s)[8..] == Bits(s[1..]) && Bits(t)[8..] == Bits(t[1..]);
      ByteBitsInjective(s[0], t[0]);
      BitsInjective(s[1..], t[1..]);
    }
  }

  /** The bytes whose bits are `b`: the inverse of `Bits`. */
  function FromBitString(b: seq<bool>): (s: seq<byte>)
    requires |b| % 8 == 0
    ensures 8 * |s| == |b|
    ensures Bits(s) == b
  {
    if b == [] then [] else
      Pow2Of8();
      BitsRoundTripBack(b[..8]);
      assert b == b[..8] + b[8..];
      [FromBits(b[..8])] + FromBitString(b[8..])
  }
}
