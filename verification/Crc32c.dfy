/**
 The bit-serial CRC-32C register (Castagnoli polynomial, Appendix A of RFC 9260). A 32-bit word is
 held as its 32 bits, least significant first, so a shift right drops the head of the sequence.
 */
module Crc32c {
  import opened Bytes

  type Word = w: seq<bool> | |w| == 32 witness ToBits(0, 32)

  /** The four bytes of 0x82F63B78, the reflected polynomial, least significant first. */
  const POLY_BYTES: seq<byte> := [0x78, 0x3B, 0xF6, 0x82]

  const POLY: Word := Bits(POLY_BYTES)

  function Fill(n: nat, b: bool): (s: seq<bool>)
    ensures |s| == n && forall i :: 0 <= i < n ==> s[i] == b
  {
    seq(n, i => b)
  }

  const ONES: Word := Fill(32, true)
  const ZERO: Word := Fill(32, false)

  lemma PolyValue()
    ensures FromLe(POLY_BYTES) == 0x82F6_3B78
  {
    var s := POLY_BYTES;
    assert s[1..] == [0x3B, 0xF6, 0x82] && s[1..][1..] == [0xF6, 0x82] && s[1..][1..][1..] == [0x82];
  }

  lemma PolyTopBit()
    ensures POLY[31]
  {
    var head, last := POLY_BYTES[..3], POLY_BYTES[3..];
    assert POLY_BYTES == head + last;
    BitsConcat(head, last);
    assert Bits(last) == ByteBits(0x82) + Bits(last[1..]);
    assert ToBits(0x82, 8)[7];
  }

  // ---- The register ----

  function Xor(a: seq<bool>, b: seq<bool>): (c: seq<bool>)
    requires |a| == |b|
    ensures |c| == |a|
    ensures forall i :: 0 <= i < |a| ==> c[i] == (a[i] != b[i])
  {
    seq(|a|, i requires 0 <= i < |a| => a[i] != b[i])
  }

  function Not(a: Word): (c: Word)
    ensures forall i :: 0 <= i < 32 ==> c[i] == !a[i]
  {
    seq(32, i requires 0 <= i < 32 => !a[i])
  }

  function Shift(r: Word): Word { r[1..] + [false] }

  /** One round of the inner loop. */
  function Step(r: Word): Word {
    if r[0] then Xor(Shift(r), POLY) else Shift(r)
  }

  function Steps(r: Word, n: nat): Word
    decreases n
  {
    if n == 0 then r else Steps(Step(r), n - 1)
  }

  function Pad(w: seq<bool>): (p: Word)
    requires |w| <= 32
  {
    w + Fill(32 - |w|, false)
  }

  function FeedByte(r: Word, b: byte): Word {
    Steps(Xor(r, Pad(ByteBits(b))), |ByteBits(b)|)
  }

  function Register(r: Word, data: seq<byte>): Word
    decreases |data|
  {
    if data == [] then r else Register(FeedByte(r, data[0]), data[1..])
  }

  function Checksum(data: seq<byte>): Word {
    Not(Register(ONES, data))
  }

  /** The inner loop. */
  method Rounds(start: Word, n: nat) returns (r: Word)
    ensures r == Steps(start, n)
  {
    r := start;
    for k := 0 to n
      invariant Steps(r, n - k) == Steps(start, n)
    {
      r := Step(r);
    }
  }

  /** `crc32c`: the source's two nested loops over one register. */
  method Compute(data: seq<byte>) returns (crc: Word)
    ensures crc == Checksum(data)
  {
    crc := ONES;
    for i := 0 to |data|
      invariant Register(crc, data[i..]) == Register(ONES, data)
    {
      assert data[i..][0] == data[i] && data[i..][1..] == data[i + 1..];
      crc := Rounds(Xor(crc, Pad(ByteBits(data[i]))), 8);
    }
    crc := Not(crc);
  }

  // ---- Algebra: the step is linear, injective and keeps parity ----

  lemma StepLinear(x: Word, y: Word)
    ensures Step(Xor(x, y)) == Xor(Step(x), Step(y))
  {}

  /** Injectivity: the top bit of POLY is set, so the bit shifted out can be read back. */
  lemma StepZero(x: Word)
    ensures Step(x) == ZERO <==> x == ZERO
  {
    if Step(x) == ZERO {
      PolyTopBit();
      assert Step(x)[31] == x[0];
      assert !x[0];
      forall i | 0 < i < 32 ensures !x[i] { assert Step(x)[i - 1] == x[i]; }
    }
  }

  lemma {:induction false} StepsZero(x: Word, n: nat)
    ensures Steps(x, n) == ZERO <==> x == ZERO
    decreases n
  {
    if n > 0 {
      StepZero(x);
      StepsZero(Step(x), n - 1);
    }
  }

  // ---- The same register fed one bit at a time ----

  function FeedBit(r: Word, b: bool): Word { Step(r[0 := r[0] != b]) }

  function FeedBits(r: Word, bits: seq<bool>): Word
    decreases |bits|
  {
    if bits == [] then r else FeedBits(FeedBit(r, bits[0]), bits[1..])
  }

  lemma {:induction false} FeedBitsConcat(r: Word, a: seq<bool>, b: seq<bool>)
    ensures FeedBits(r, a + b) == FeedBits(FeedBits(r, a), b)
    decreases |a|
  {
    if a == [] {
      assert a + b == b;
    } else {
      assert (a + b)[1..] == a[1..] + b;
      FeedBitsConcat(FeedBit(r, a[0]), a[1..], b);
    }
  }

  /** Xoring up to 32 bits in at once and shifting is the same as feeding them one by one. */
  lemma {:induction false} FeedBitsPadded(r: Word, w: seq<bool>)
    requires |w| <= 32
    ensures FeedBits(r, w) == Steps(Xor(r, Pad(w)), |w|)
    decreases |w|
  {
    if w == [] {
      assert Xor(r, Pad(w)) == r;
    } else {
      var r1 := r[0 := r[0] != w[0]];
      var rest := Pad([false] + w[1..]);
      assert Xor(r, Pad(w)) == Xor(r1, rest);
      StepLinear(r1, rest);
      assert Step(rest) == Pad(w[1..]);
      FeedBitsPadded(FeedBit(r, w[0]), w[1..]);
    }
  }

  lemma {:induction false} RegisterIsBits(r: Word, data: seq<byte>)
    ensures Register(r, data) == FeedBits(r, Bits(data))
    decreases |data|
  {
    if data != [] {
      FeedBitsPadded(r, ByteBits(data[0]));
      FeedBitsConcat(r, ByteBits(data[0]), Bits(data[1..]));
      RegisterIsBits(FeedByte(r, data[0]), data[1..]);
    }
  }

  lemma {:induction false} FeedBitsLinear(r: Word, s: Word, a: seq<bool>, b: seq<bool>)
    requires |a| == |b|
    ensures FeedBits(Xor(r, s), Xor(a, b)) == Xor(FeedBits(r, a), FeedBits(s, b))
    decreases |a|
  {
    if a != [] {
      var r1, s1 := r[0 := r[0] != a[0]], s[0 := s[0] != b[0]];
      var x := Xor(r, s);
      assert x[0 := x[0] != Xor(a, b)[0]] == Xor(r1, s1);
      StepLinear(r1, s1);
      assert Xor(a, b)[1..] == Xor(a[1..], b[1..]);
      FeedBitsLinear(FeedBit(r, a[0]), FeedBit(s, b[0]), a[1..], b[1..]);
    }
  }

  const RESIDUE: Word := Steps(ONES, |ONES|)

  /** Feeding a register its own complement leaves one fixed value. */
  lemma FeedComplement(r: Word)
    ensures FeedBits(r, Not(r)) == RESIDUE
  {
    FeedBitsPadded(r, Not(r));
    assert Pad(Not(r)) == Not(r);
    assert Xor(r, Not(r)) == ONES;
  }

  /** Data followed by its own checksum drives the register to that value. */
  lemma {:induction false} ChecksumResidue(data: seq<byte>, trailer: seq<byte>)
    requires Bits(trailer) == Checksum(data)
    ensures FeedBits(ONES, Bits(data) + Bits(trailer)) == RESIDUE
  {
    FeedBitsConcat(ONES, Bits(data), Bits(trailer));
    RegisterIsBits(ONES, data);
    FeedComplement(Register(ONES, data));
  }

  lemma XorSelf(w: Word)
    ensures Xor(w, w) == ZERO
  {}

  /** Two bit strings that leave the same register differ by one that the zero register absorbs. */
  lemma EqualRegisters(a: seq<bool>, b: seq<bool>)
    requires |a| == |b| && FeedBits(ONES, a) == FeedBits(ONES, b)
    ensures FeedBits(ZERO, Xor(a, b)) == ZERO
  {
    FeedBitsLinear(ONES, ONES, a, b);
    XorSelf(ONES);
    XorSelf(FeedBits(ONES, a));
  }

  lemma {:induction false} FeedZeros(r: Word, z: seq<bool>)
    requires forall i :: 0 <= i < |z| ==> !z[i]
    ensures FeedBits(r, z) == ZERO <==> r == ZERO
    decreases |z|
  {
    if z != [] {
      StepZero(r);
      assert r[0 := r[0] != z[0]] == r;
      FeedZeros(Step(r), z[1..]);
    }
  }

  /** A nonzero bit string confined to 32 consecutive positions never brings the zero register back to zero. */
  lemma {:induction false} BurstLeavesRegisterNonzero(e: seq<bool>, p: nat)
    requires exists i :: 0 <= i < |e| && e[i]
    requires forall i :: 0 <= i < |e| && e[i] ==> p <= i < p + 32
    ensures FeedBits(ZERO, e) != ZERO
  {
    var i :| 0 <= i < |e| && e[i];
    var q := Min(p + 32, |e|);
    SplitThree(e, p, q);
    ZerosOutside(e, p, q);
    assert e[p..q][i - p];
    BurstBetweenZeros(e[..p], e[p..q], i - p, e[q..]);
  }

  lemma ZerosOutside(e: seq<bool>, p: nat, q: nat)
    requires p <= q <= |e| && forall i :: 0 <= i < |e| && e[i] ==> p <= i < q
    ensures forall k :: 0 <= k < |e[..p]| ==> !e[..p][k]
    ensures forall k :: 0 <= k < |e[q..]| ==> !e[q..][k]
  {
    forall k | 0 <= k < |e[..p]| ensures !e[..p][k] { assert e[..p][k] == e[k]; }
    forall k | 0 <= k < |e[q..]| ensures !e[q..][k] { assert e[q..][k] == e[q + k]; }
  }

  lemma SplitThree(e: seq<bool>, p: nat, q: nat)
    requires p <= q <= |e|
    ensures e == e[..p] + (e[p..q] + e[q..])
  {}

  lemma BurstBetweenZeros(head: seq<bool>, w: seq<bool>, i: nat, tail: seq<bool>)
    requires forall k :: 0 <= k < |head| ==> !head[k]
    requires forall k :: 0 <= k < |tail| ==> !tail[k]
    requires i < |w| <= 32 && w[i]
    ensures FeedBits(ZERO, head + (w + tail)) != ZERO
  {
    FeedBitsConcat(ZERO, head, w + tail);
    FeedZeros(ZERO, head);
    FeedBitsConcat(ZERO, w, tail);
    ShortBurst(w, i);
    FeedZeros(FeedBits(ZERO, w), tail);
  }

  lemma ShortBurst(w: seq<bool>, i: nat)
    requires i < |w| <= 32 && w[i]
    ensures FeedBits(ZERO, w) != ZERO
  {
    FeedBitsPadded(ZERO, w);
    var x := Xor(ZERO, Pad(w));
    assert x[i];
    StepsZero(x, |w|);
  }

  // ---- Parity ----

  /** Whether an odd number of bits is set. */
  function Odd(b: seq<bool>): bool {
    if b == [] then false else b[0] != Odd(b[1..])
  }

  lemma {:induction false} OddConcat(a: seq<bool>, b: seq<bool>)
    ensures Odd(a + b) == (Odd(a) != Odd(b))
  {
    if a == [] {
      assert a + b == b;
    } else {
      assert (a + b)[1..] == a[1..] + b;
      OddConcat(a[1..], b);
    }
  }

  lemma {:induction false} OddXor(a: seq<bool>, b: seq<bool>)
    requires |a| == |b|
    ensures Odd(Xor(a, b)) == (Odd(a) != Odd(b))
  {
    if a != [] {
      assert Xor(a, b)[1..] == Xor(a[1..], b[1..]);
      OddXor(a[1..], b[1..]);
    }
  }

  lemma {:induction false} OddZeros(z: seq<bool>)
    requires forall i :: 0 <= i < |z| ==> !z[i]
    ensures !Odd(z)
  {
    if z != [] { OddZeros(z[1..]); }
  }

  function OddBits(n: nat, width: nat): bool {
    if width == 0 then false else (n % 2 == 1) != OddBits(n / 2, width - 1)
  }

  lemma {:induction false} OddToBits(n: nat, width: nat)
    ensures Odd(ToBits(n, width)) == OddBits(n, width)
  {
    if width > 0 { OddToBits(n / 2, width - 1); }
  }

  function OddBytes(s: seq<byte>): bool {
    if s == [] then false else OddBits(s[0], 8) != OddBytes(s[1..])
  }

  lemma {:induction false} OddBitsOfBytes(s: seq<byte>)
    ensures Odd(Bits(s)) == OddBytes(s)
  {
    if s != [] {
      OddConcat(ByteBits(s[0]), Bits(s[1..]));
      OddToBits(s[0], 8);
      OddBitsOfBytes(s[1..]);
    }
  }

  lemma OddPoly()
    ensures Odd(POLY)
  {
    OddBitsOfBytes(POLY_BYTES);
    assert OddBits(0x3B, 8) && !OddBits(0x78, 8) && !OddBits(0xF6, 8) && !OddBits(0x82, 8);
    var s := POLY_BYTES;
    assert s[1..] == [0x3B, 0xF6, 0x82] && s[1..][1..] == [0xF6, 0x82] && s[1..][1..][1..] == [0x82];
  }

  /** POLY has 17 ones, so what a set bit removes by leaving the register it adds by the feedback. */
  lemma StepKeepsParity(r: Word)
    ensures Odd(Step(r)) == Odd(r)
  {
    OddConcat(r[1..], [false]);
    OddXor(Shift(r), POLY);
    OddPoly();
  }

  lemma {:induction false} StepsKeepParity(r: Word, n: nat)
    ensures Odd(Steps(r, n)) == Odd(r)
    decreases n
  {
    if n > 0 {
      StepKeepsParity(r);
      StepsKeepParity(Step(r), n - 1);
    }
  }

  lemma {:induction false} FeedBitsParity(r: Word, b: seq<bool>)
    ensures Odd(FeedBits(r, b)) == (Odd(r) != Odd(b))
    decreases |b|
  {
    if b != [] {
      StepKeepsParity(r[0 := r[0] != b[0]]);
      assert r[0 := r[0] != b[0]][1..] == r[1..];
      FeedBitsParity(FeedBit(r, b[0]), b[1..]);
    }
  }
}
