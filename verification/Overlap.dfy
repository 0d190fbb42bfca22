/**
 The last case of the double fault: a flip that shortens the claimed length by less than a checksum, so that what is
 read as the trailer is the end of the payload followed by the start of the real trailer. Whether some payload makes
 that pass depends on its length alone.
 */
module Overlap {
  import opened Bytes
  import opened Crc32c
  import opened Frames
  import opened Damage

  // ---- The register ----

  lemma {:induction false} StepsLinear(x: Word, y: Word, n: nat)
    ensures Steps(Xor(x, y), n) == Xor(Steps(x, n), Steps(y, n))
    decreases n
  {
    if n > 0 {
      StepLinear(x, y);
      StepsLinear(Step(x), Step(y), n - 1);
    }
  }

  /** While zeros are shifted out nothing is fed back. */
  lemma {:induction false} StepsShift(y: Word, k: nat)
    requires k <= 32 && forall i :: 0 <= i < k ==> !y[i]
    ensures Steps(y, k) == y[k..] + Fill(k, false)
    decreases k
  {
    if k > 0 {
      var z := Step(y);
      assert z == y[1..] + [false];
      forall i | 0 <= i < k - 1 ensures !z[i] { assert z[i] == y[i + 1]; }
      StepsShift(z, k - 1);
      assert z[k - 1..] + Fill(k - 1, false) == y[k..] + Fill(k, false);
    }
  }

  /** The difference of the two registers, complemented where the payload is read as trailer. */
  function Mixed(gap: Word, k: nat): Word
    requires k <= 32
  {
    Not(gap)[..k] + gap[k..]
  }

  /** Feeding the end of the payload brings the rest of the two trailers together. */
  predicate Collides(gap: Word, k: nat)
    requires k <= 32
  {
    forall i :: 0 <= i < 32 - k ==> !Steps(Mixed(gap, k), k)[i]
  }

  function High(r: Word, k: nat): Word
    requires k <= 32
  {
    Fill(k, false) + r[k..]
  }

  lemma FedOverlap(r: Word, gap: Word, k: nat, w: seq<bool>)
    requires k <= 32 && |w| == k && w == Not(r)[..k]
    ensures FeedBits(Xor(r, gap), w) == Xor(Steps(Mixed(gap, k), k), r[k..] + Fill(k, false))
  {
    FeedBitsPadded(Xor(r, gap), w);
    var x := Xor(Xor(r, gap), Pad(w));
    assert x == Xor(Mixed(gap, k), High(r, k));
    StepsLinear(Mixed(gap, k), High(r, k), k);
    StepsShift(High(r, k), k);
    assert High(r, k)[k..] == r[k..];
  }

  /** The overlapping trailer matches exactly when the registers collide. */
  lemma OverlapMatches(r: Word, gap: Word, k: nat, w: seq<bool>)
    requires k <= 32 && |w| == k && w == Not(r)[..k]
    ensures Not(FeedBits(Xor(r, gap), w))[..32 - k] == Not(r)[k..] <==> Collides(gap, k)
  {
    FedOverlap(r, gap, k, w);
    var s, x := Steps(Mixed(gap, k), k), FeedBits(Xor(r, gap), w);
    forall i | 0 <= i < 32 - k ensures Not(x)[i] == Not(r)[k + i] <==> !s[i] {
      assert (r[k..] + Fill(k, false))[i] == r[k + i];
    }
    assert Not(x)[..32 - k] == Not(r)[k..] <==> forall i :: 0 <= i < 32 - k ==> Not(x)[i] == Not(r)[k + i];
  }

  // ---- Two frames that differ in their length field ----

  /** The difference of the registers after two headers with the lengths `n` and `m` and the same `m` payload bytes. */
  function Gap(n: nat, m: nat): Word {
    FeedBits(ZERO, Fill(64, false) + Xor(Bits(Le32(n)), Bits(Le32(m))) + Fill(8 * m, false))
  }

  lemma XorOfParts(a: seq<bool>, x: seq<bool>, y: seq<bool>, c: seq<bool>)
    requires |x| == |y|
    ensures Xor(a + x + c, a + y + c) == Fill(|a|, false) + Xor(x, y) + Fill(|c|, false)
  {}

  lemma BitsOfThree(a: seq<byte>, b: seq<byte>, c: seq<byte>)
    ensures Bits(a + b + c) == Bits(a) + Bits(b) + Bits(c)
  {
    BitsConcat(a + b, c);
    BitsConcat(a, b);
  }

  lemma RegistersDiffer(start: seq<byte>, n: nat, m: nat, p: seq<byte>)
    requires |start| == 8 && |p| == m
    ensures Register(ONES, start + Le32(n) + p) == Xor(Register(ONES, start + Le32(m) + p), Gap(n, m))
  {
    var a, b := start + Le32(n) + p, start + Le32(m) + p;
    RegisterIsBits(ONES, a);
    RegisterIsBits(ONES, b);
    BitsOfThree(start, Le32(n), p);
    BitsOfThree(start, Le32(m), p);
    XorOfParts(Bits(start), Bits(Le32(n)), Bits(Le32(m)), Bits(p));
    FeedBitsLinear(ONES, ONES, Bits(a), Bits(b));
    XorSelf(ONES);
    XorBack(FeedBits(ONES, Bits(a)), FeedBits(ONES, Bits(b)), Gap(n, m));
  }

  lemma XorBack(x: Word, y: Word, z: Word)
    requires z == Xor(x, y)
    ensures x == Xor(y, z)
  {}

  lemma RegisterConcat(a: seq<byte>, b: seq<byte>)
    ensures Register(ONES, a + b) == FeedBits(Register(ONES, a), Bits(b))
  {
    RegisterIsBits(ONES, a + b);
    RegisterIsBits(ONES, a);
    BitsConcat(a, b);
    FeedBitsConcat(ONES, Bits(a), Bits(b));
  }

  /** An encoding after its header: the payload and the trailer. */
  lemma TailOf(f: Frame) returns (trailer: seq<byte>)
    ensures Encode(f)[HEADER_LEN..] == f.payload + trailer && |trailer| == CRC_LEN
    ensures Bits(trailer) == Checksum(Start(f) + Le32(|f.payload|) + f.payload)
  {
    var body := Header(f) + f.payload;
    assert body == Start(f) + Le32(|f.payload|) + f.payload;
    trailer := Encode(f)[|body|..];
    SplitAfter(Encode(f), Header(f), f.payload);
  }

  lemma SplitAfter(d: seq<byte>, a: seq<byte>, b: seq<byte>)
    requires |d| >= |a + b| && d[..|a + b|] == a + b
    ensures d[|a|..] == b + d[|a + b|..]
  {
    assert d == (a + b) + d[|a + b|..];
  }

  /** What would be read as the trailer: the end of the payload, then the start of the real trailer. */
  lemma OverlappingTrailer(p: seq<byte>, trailer: seq<byte>, m: nat)
    requires m < |p| < m + CRC_LEN && |trailer| == CRC_LEN
    ensures var tail := p + trailer;
            && tail[..m] == p[..m]
            && Bits(tail[m..m + CRC_LEN]) == Bits(p[m..]) + Bits(trailer)[..32 - 8 * (|p| - m)]
  {
    var s := m + CRC_LEN - |p|;
    var short, rest := trailer[..s], trailer[s..];
    assert (p + trailer)[m..m + CRC_LEN] == p[m..] + short;
    BitsConcat(p[m..], short);
    assert trailer == short + rest;
    BitsConcat(short, rest);
  }

  /** The real checksum, by way of the register after the bytes that both frames have. */
  lemma FullChecksum(start: seq<byte>, p: seq<byte>, m: nat)
    requires |start| == 8 && m <= |p|
    ensures var r := Register(ONES, start + Le32(m) + p[..m]);
            Checksum(start + Le32(|p|) + p) == Not(FeedBits(Xor(r, Gap(|p|, m)), Bits(p[m..])))
  {
    RegistersDiffer(start, |p|, m, p[..m]);
    RegisterConcat(start + Le32(|p|) + p[..m], p[m..]);
    Rejoin(start + Le32(|p|), p, m);
  }

  lemma Rejoin(a: seq<byte>, p: seq<byte>, m: nat)
    requires m <= |p|
    ensures (a + p[..m]) + p[m..] == a + p
  {}

  lemma SplitEqual(w: seq<bool>, v: seq<bool>, c: seq<bool>)
    requires |w| + |v| == |c|
    ensures w + v == c <==> w == c[..|w|] && v == c[|w|..]
  {
    assert c == c[..|w|] + c[|w|..];
    assert (w + v)[..|w|] == w && (w + v)[|w|..] == v;
  }

  /** Exactly when the overlapping trailer fits: the end of the payload is the start of the checksum, and the lengths
      collide. */
  lemma OverlapFits(f: Frame, m: nat)
    requires m < |f.payload| < m + CRC_LEN
    ensures var k := 8 * (|f.payload| - m);
            TrailerFits(f, m) <==>
              && Bits(f.payload[m..]) == Checksum(Start(f) + Le32(m) + f.payload[..m])[..k]
              && Collides(Gap(|f.payload|, m), k)
  {
    var trailer := TailOf(f);
    OverlappingTrailer(f.payload, trailer, m);
    FullChecksum(Start(f), f.payload, m);
    var k, w := 8 * (|f.payload| - m), Bits(f.payload[m..]);
    var r, gap := Register(ONES, Start(f) + Le32(m) + f.payload[..m]), Gap(|f.payload|, m);
    EqualByParts(r, gap, k, w);
  }

  lemma EqualByParts(r: Word, gap: Word, k: nat, w: seq<bool>)
    requires k <= 32 && |w| == k
    ensures w + Not(FeedBits(Xor(r, gap), w))[..32 - k] == Not(r) <==> w == Not(r)[..k] && Collides(gap, k)
  {
    SplitEqual(w, Not(FeedBits(Xor(r, gap), w))[..32 - k], Not(r));
    if w == Not(r)[..k] { OverlapMatches(r, gap, k, w); }
  }

  // ---- Which lengths are unsafe ----

  /** A payload that ends in the start of the checksum of the shorter frame. */
  lemma OverlapExists(n: nat, m: nat) returns (f: Frame)
    requires m < n < m + CRC_LEN && Collides(Gap(n, m), 8 * (n - m))
    ensures |f.payload| == n && TrailerFits(f, m)
  {
    var start := Start(Frame(0, 0, 0, []));
    var p := EndsInChecksum(start, n, m);
    f := Frame(0, 0, 0, p);
    assert Start(f) == start;
    OverlapFits(f, m);
  }

  lemma EndsInChecksum(start: seq<byte>, n: nat, m: nat) returns (p: seq<byte>)
    requires m < n < m + CRC_LEN
    ensures |p| == n && Bits(p[m..]) == Checksum(start + Le32(m) + p[..m])[..8 * (n - m)]
  {
    var bits := Checksum(start + Le32(m) + Zeros(m))[..8 * (n - m)];
    var end := FromBitString(bits);
    p := Zeros(m) + end;
    assert p[..m] == Zeros(m) && p[m..] == end;
  }

  /** Exactly which flips of the length field, with which cuts, go unnoticed for some payload of a given length: those
      that shorten the claimed length, cut exactly to it, with room for a checksum or with lengths that collide. */
  lemma {:induction false} UnsafeExactly(n: nat, at: LengthBit, len: nat)
    requires n < U32_LIMIT
    ensures var m := FlippedLength(n, at);
            Unsafe(n, at, len) <==>
              && m < n && len == MIN_FRAME_LEN + m
              && (n < m + CRC_LEN ==> Collides(Gap(n, m), 8 * (n - m)))
  {
    var m := FlippedLength(n, at);
    UnsafeShapes(n, at, len);
    if m < n < m + CRC_LEN && len == MIN_FRAME_LEN + m {
      if Unsafe(n, at, len) {
        var f: Frame :| |f.payload| == n && Decode(Damaged(Encode(f), Fault(Some(at), Some(len)))).Ok?;
        UnnoticedExactly(f, at, len);
        OverlapFits(f, m);
      }
      if Collides(Gap(n, m), 8 * (n - m)) {
        var f := OverlapExists(n, m);
        UnnoticedExactly(f, at, len);
      }
    }
  }
}
