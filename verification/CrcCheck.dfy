/**
 The register on machine words: the source's shifts and exclusive-ors on 32 bits do what the register of bits does, and
 so the standard check value can be computed.
 */
module CrcCheck {
  import opened Bytes
  import opened Crc32c
  import Damage

  // ---- Bits of machine words ----

  /** Bit `i` of a machine word, from the least significant one. */
  function BitOf(r: bv32, i: nat): bool
    decreases i
  {
    if i == 0 then r & 1 == 1 else BitOf(r >> 1, i - 1)
  }

  function WordOf(r: bv32): (w: Word)
    ensures forall i :: 0 <= i < 32 ==> w[i] == BitOf(r, i)
  {
    seq(32, i requires 0 <= i < 32 => BitOf(r, i))
  }

  lemma XorHalves(x: bv32, y: bv32)
    ensures (x ^ y) >> 1 == (x >> 1) ^ (y >> 1)
  {}

  lemma XorLow(x: bv32, y: bv32)
    ensures ((x ^ y) & 1 == 1) == ((x & 1 == 1) != (y & 1 == 1))
  {}

  lemma {:induction false} XorBit(x: bv32, y: bv32, z: bv32, i: nat)
    requires z == x ^ y
    ensures BitOf(z, i) == (BitOf(x, i) != BitOf(y, i))
    decreases i
  {
    if i == 0 {
      XorLow(x, y);
    } else {
      var a, b, c := Halves(x, y, z);
      XorBit(a, b, c, i - 1);
      HalfBit(x, a, i);
      HalfBit(y, b, i);
      HalfBit(z, c, i);
    }
  }

  lemma Halves(x: bv32, y: bv32, z: bv32) returns (a: bv32, b: bv32, c: bv32)
    requires z == x ^ y
    ensures a == x >> 1 && b == y >> 1 && c == z >> 1 && c == a ^ b
  {
    a, b, c := x >> 1, y >> 1, z >> 1;
    XorHalves(x, y);
  }

  lemma HalfBit(r: bv32, half: bv32, i: nat)
    requires half == r >> 1 && i > 0
    ensures BitOf(r, i) == BitOf(half, i - 1)
  {}

  lemma NextBit(r: bv32, i: nat)
    ensures BitOf(r, i + 1) == BitOf(r >> 1, i)
  {}

  lemma TwoBits(r: bv32, i: nat)
    ensures BitOf(r, i + 2) == BitOf(r >> 2, i)
  {
    NextBit(r, i + 1);
    NextBit(r >> 1, i);
    ShiftTwice(r);
  }

  lemma ShiftTwice(r: bv32)
    ensures (r >> 1) >> 1 == r >> 2
  {}

  lemma FourBits(r: bv32, i: nat)
    ensures BitOf(r, i + 4) == BitOf(r >> 4, i)
  {
    TwoBits(r, i + 2);
    TwoBits(r >> 2, i);
    ShiftFour(r);
  }

  lemma ShiftFour(r: bv32)
    ensures (r >> 2) >> 2 == r >> 4
  {}

  lemma EightBits(r: bv32, i: nat)
    ensures BitOf(r, i + 8) == BitOf(r >> 8, i)
  {
    FourBits(r, i + 4);
    FourBits(r >> 4, i);
    ShiftEight(r);
  }

  lemma ShiftEight(r: bv32)
    ensures (r >> 4) >> 4 == r >> 8
  {}

  lemma {:induction false} ZeroBit(i: nat)
    ensures !BitOf(0, i)
    decreases i
  {
    if i > 0 { ZeroBit(i - 1); }
  }

  /** A byte has no bits beyond its eight. */
  lemma ByteEnds(b: bv32, i: nat)
    requires b >> 8 == 0 && i >= 8
    ensures !BitOf(b, i)
  {
    EightBits(b, i - 8);
    ZeroBit(i - 8);
  }

  lemma WordEnds(r: bv32)
    ensures !BitOf(r, 32)
  {
    EightBits(r, 24);
    EightBits(r >> 8, 16);
    EightBits((r >> 8) >> 8, 8);
    AllShifted(r);
    ByteEnds(((r >> 8) >> 8) >> 8, 8);
  }

  lemma AllShifted(r: bv32)
    ensures (((r >> 8) >> 8) >> 8) >> 8 == 0
  {}

  // ---- The register on machine words ----

  const POLY32: bv32 := 0x82F6_3B78

  /** One round of the inner loop, as the source writes it. */
  function Step32(r: bv32): bv32 { if r & 1 == 1 then (r >> 1) ^ POLY32 else r >> 1 }

  /** One byte: exclusive-or into the low bits, then eight rounds. */
  function Feed32(r: bv32, b: bv32): bv32 {
    Step32(Step32(Step32(Step32(Step32(Step32(Step32(Step32(r ^ b))))))))
  }

  lemma XorIs(x: bv32, y: bv32)
    ensures Xor(WordOf(x), WordOf(y)) == WordOf(x ^ y)
  {
    forall i | 0 <= i < 32 ensures Xor(WordOf(x), WordOf(y))[i] == WordOf(x ^ y)[i] { XorBit(x, y, x ^ y, i); }
  }

  lemma ShiftIs(r: bv32)
    ensures Crc32c.Shift(WordOf(r)) == WordOf(r >> 1)
  {
    WordEnds(r);
    forall i | 0 <= i < 32 ensures Crc32c.Shift(WordOf(r))[i] == WordOf(r >> 1)[i] { NextBit(r, i); }
  }

  /** The low bits of `r` are the byte `b`. */
  ghost predicate LowByte(r: bv32, b: byte) { forall j :: 0 <= j < 8 ==> ByteBits(b)[j] == BitOf(r, j) }

  lemma PadIs(b: byte, v: bv32)
    requires LowByte(v, b) && v >> 8 == 0
    ensures Pad(ByteBits(b)) == WordOf(v)
  {
    forall i | 0 <= i < 32 ensures Pad(ByteBits(b))[i] == WordOf(v)[i] { if i >= 8 { ByteEnds(v, i); } }
  }

  lemma PolyByte0()
    ensures LowByte(0x82F6_3B78, 0x78)
  {
    assert ToBits(0x78, 8) == [false, false, false, true, true, true, true, false];
    assert !BitOf(0x82F6_3B78, 0) && !BitOf(0x82F6_3B78, 1) && !BitOf(0x82F6_3B78, 2) && BitOf(0x82F6_3B78, 3);
    assert BitOf(0x82F6_3B78, 4) && BitOf(0x82F6_3B78, 5) && BitOf(0x82F6_3B78, 6) && !BitOf(0x82F6_3B78, 7);
  }

  lemma PolyByte1()
    ensures LowByte(0x0082_F63B, 0x3B)
  {
    assert ToBits(0x3B, 8) == [true, true, false, true, true, true, false, false];
    assert BitOf(0x0082_F63B, 0) && BitOf(0x0082_F63B, 1) && !BitOf(0x0082_F63B, 2) && BitOf(0x0082_F63B, 3);
    assert BitOf(0x0082_F63B, 4) && BitOf(0x0082_F63B, 5) && !BitOf(0x0082_F63B, 6) && !BitOf(0x0082_F63B, 7);
  }

  lemma PolyByte2()
    ensures LowByte(0x0000_82F6, 0xF6)
  {
    assert ToBits(0xF6, 8) == [false, true, true, false, true, true, true, true];
    assert !BitOf(0x0000_82F6, 0) && BitOf(0x0000_82F6, 1) && BitOf(0x0000_82F6, 2) && !BitOf(0x0000_82F6, 3);
    assert BitOf(0x0000_82F6, 4) && BitOf(0x0000_82F6, 5) && BitOf(0x0000_82F6, 6) && BitOf(0x0000_82F6, 7);
  }

  lemma PolyByte3()
    ensures LowByte(0x0000_0082, 0x82)
  {
    assert ToBits(0x82, 8) == [false, true, false, false, false, false, false, true];
    assert !BitOf(0x0000_0082, 0) && BitOf(0x0000_0082, 1) && !BitOf(0x0000_0082, 2) && !BitOf(0x0000_0082, 3);
    assert !BitOf(0x0000_0082, 4) && !BitOf(0x0000_0082, 5) && !BitOf(0x0000_0082, 6) && BitOf(0x0000_0082, 7);
  }

  lemma PolyShifts()
    ensures POLY32 >> 8 == 0x0082_F63B && (POLY32 >> 8) >> 8 == 0x0000_82F6
    ensures ((POLY32 >> 8) >> 8) >> 8 == 0x0000_0082
  {}

  lemma PolyIs()
    ensures POLY == WordOf(POLY32)
  {
    PolyByte0();
    PolyByte1();
    PolyByte2();
    PolyByte3();
    PolyShifts();
    forall i | 0 <= i < 32 ensures POLY[i] == WordOf(POLY32)[i] {
      Damage.BitAtIndex(POLY_BYTES, i);
      if i >= 8 { EightBits(POLY32, i - 8); }
      if i >= 16 { EightBits(POLY32 >> 8, i - 16); }
      if i >= 24 { EightBits((POLY32 >> 8) >> 8, i - 24); }
    }
  }

  /** A round on the machine word is a step of the register. */
  lemma StepIs(r: bv32)
    ensures Step(WordOf(r)) == WordOf(Step32(r))
  {
    ShiftIs(r);
    PolyIs();
    XorIs(r >> 1, POLY32);
    assert WordOf(r)[0] == (r & 1 == 1);
  }

  lemma OnesByte0()
    ensures LowByte(0xFFFF_FFFF, 0xFF)
  {
    assert ToBits(0xFF, 8) == [true, true, true, true, true, true, true, true];
    assert BitOf(0xFFFF_FFFF, 0) && BitOf(0xFFFF_FFFF, 1) && BitOf(0xFFFF_FFFF, 2) && BitOf(0xFFFF_FFFF, 3);
    assert BitOf(0xFFFF_FFFF, 4) && BitOf(0xFFFF_FFFF, 5) && BitOf(0xFFFF_FFFF, 6) && BitOf(0xFFFF_FFFF, 7);
  }

  lemma OnesByte1()
    ensures LowByte(0x00FF_FFFF, 0xFF)
  {
    assert ToBits(0xFF, 8) == [true, true, true, true, true, true, true, true];
    assert BitOf(0x00FF_FFFF, 0) && BitOf(0x00FF_FFFF, 1) && BitOf(0x00FF_FFFF, 2) && BitOf(0x00FF_FFFF, 3);
    assert BitOf(0x00FF_FFFF, 4) && BitOf(0x00FF_FFFF, 5) && BitOf(0x00FF_FFFF, 6) && BitOf(0x00FF_FFFF, 7);
  }

  lemma OnesByte2()
    ensures LowByte(0x0000_FFFF, 0xFF)
  {
    assert ToBits(0xFF, 8) == [true, true, true, true, true, true, true, true];
    assert BitOf(0x0000_FFFF, 0) && BitOf(0x0000_FFFF, 1) && BitOf(0x0000_FFFF, 2) && BitOf(0x0000_FFFF, 3);
    assert BitOf(0x0000_FFFF, 4) && BitOf(0x0000_FFFF, 5) && BitOf(0x0000_FFFF, 6) && BitOf(0x0000_FFFF, 7);
  }

  lemma OnesByte3()
    ensures LowByte(0x0000_00FF, 0xFF)
  {
    assert ToBits(0xFF, 8) == [true, true, true, true, true, true, true, true];
    assert BitOf(0x0000_00FF, 0) && BitOf(0x0000_00FF, 1) && BitOf(0x0000_00FF, 2) && BitOf(0x0000_00FF, 3);
    assert BitOf(0x0000_00FF, 4) && BitOf(0x0000_00FF, 5) && BitOf(0x0000_00FF, 6) && BitOf(0x0000_00FF, 7);
  }

  lemma OnesShifts()
    ensures 0xFFFF_FFFF as bv32 >> 8 == 0x00FF_FFFF && 0x00FF_FFFF as bv32 >> 8 == 0x0000_FFFF
    ensures 0x0000_FFFF as bv32 >> 8 == 0x0000_00FF
  {}

  lemma OnesIs()
    ensures ONES == WordOf(0xFFFF_FFFF)
  {
    OnesByte0();
    OnesByte1();
    OnesByte2();
    OnesByte3();
    OnesShifts();
    assert ToBits(0xFF, 8) == [true, true, true, true, true, true, true, true];
    forall i | 0 <= i < 32 ensures BitOf(0xFFFF_FFFF, i) {
      if i >= 8 { EightBits(0xFFFF_FFFF, i - 8); }
      if i >= 16 { EightBits(0x00FF_FFFF, i - 16); }
      if i >= 24 { EightBits(0x0000_FFFF, i - 24); }
    }
  }

  lemma NotIs(x: bv32)
    ensures Not(WordOf(x)) == WordOf(x ^ 0xFFFF_FFFF)
  {
    OnesIs();
    XorIs(x, 0xFFFF_FFFF);
    assert Not(WordOf(x)) == Xor(WordOf(x), ONES);
  }

  /** One byte through the machine word is one byte through the register. */
  lemma FeedIs(r: bv32, b: byte, v: bv32)
    requires LowByte(v, b) && v >> 8 == 0
    ensures FeedByte(WordOf(r), b) == WordOf(Feed32(r, v))
  {
    PadIs(b, v);
    XorIs(r, v);
    EightSteps(r ^ v);
  }

  lemma EightSteps(r: bv32)
    ensures Steps(WordOf(r), 8)
              == WordOf(Step32(Step32(Step32(Step32(Step32(Step32(Step32(Step32(r)))))))))
  {
    var r1 := OneStep(r, 8);
    var r2 := OneStep(r1, 7);
    var r3 := OneStep(r2, 6);
    var r4 := OneStep(r3, 5);
    var r5 := OneStep(r4, 4);
    var r6 := OneStep(r5, 3);
    var r7 := OneStep(r6, 2);
    var r8 := OneStep(r7, 1);
  }

  lemma OneStep(r: bv32, n: nat) returns (r': bv32)
    requires n > 0
    ensures r' == Step32(r) && Steps(WordOf(r), n) == Steps(WordOf(r'), n - 1)
  {
    r' := Step32(r);
    StepIs(r);
  }

  // ---- The check value ----

  /** The ASCII string "123456789". */
  const DIGITS: seq<byte> := [0x31, 0x32, 0x33, 0x34, 0x35, 0x36, 0x37, 0x38, 0x39]

  /** The register after one more byte, from one machine word to the next. */
  lemma Fed(r: bv32, b: byte, v: bv32, r': bv32, rest: seq<byte>)
    requires LowByte(v, b) && v >> 8 == 0 && Feed32(r, v) == r'
    ensures Register(WordOf(r), [b] + rest) == Register(WordOf(r'), rest)
  {
    FeedIs(r, b, v);
    assert ([b] + rest)[1..] == rest;
  }

  lemma Digit1(rest: seq<byte>)
    ensures Register(WordOf(0xFFFF_FFFF), [0x31] + rest) == Register(WordOf(0x6F0A_661C), rest)
  {
    assert ToBits(0x31, 8) == [true, false, false, false, true, true, false, false];
    assert BitOf(0x0000_0031, 0) && !BitOf(0x0000_0031, 1) && !BitOf(0x0000_0031, 2) && !BitOf(0x0000_0031, 3);
    assert BitOf(0x0000_0031, 4) && BitOf(0x0000_0031, 5) && !BitOf(0x0000_0031, 6) && !BitOf(0x0000_0031, 7);
    Fed(0xFFFF_FFFF, 0x31, 0x31, 0x6F0A_661C, rest);
  }

  lemma Digit2(rest: seq<byte>)
    ensures Register(WordOf(0x6F0A_661C), [0x32] + rest) == Register(WordOf(0x8CAA_3B9F), rest)
  {
    assert ToBits(0x32, 8) == [false, true, false, false, true, true, false, false];
    assert !BitOf(0x0000_0032, 0) && BitOf(0x0000_0032, 1) && !BitOf(0x0000_0032, 2) && !BitOf(0x0000_0032, 3);
    assert BitOf(0x0000_0032, 4) && BitOf(0x0000_0032, 5) && !BitOf(0x0000_0032, 6) && !BitOf(0x0000_0032, 7);
    Fed(0x6F0A_661C, 0x32, 0x32, 0x8CAA_3B9F, rest);
  }

  lemma Digit3(rest: seq<byte>)
    ensures Register(WordOf(0x8CAA_3B9F), [0x33] + rest) == Register(WordOf(0xEF84_D04D), rest)
  {
    assert ToBits(0x33, 8) == [true, true, false, false, true, true, false, false];
    assert BitOf(0x0000_0033, 0) && BitOf(0x0000_0033, 1) && !BitOf(0x0000_0033, 2) && !BitOf(0x0000_0033, 3);
    assert BitOf(0x0000_0033, 4) && BitOf(0x0000_0033, 5) && !BitOf(0x0000_0033, 6) && !BitOf(0x0000_0033, 7);
    Fed(0x8CAA_3B9F, 0x33, 0x33, 0xEF84_D04D, rest);
  }

  lemma Digit4(rest: seq<byte>)
    ensures Register(WordOf(0xEF84_D04D), [0x34] + rest) == Register(WordOf(0x09C5_0B11), rest)
  {
    assert ToBits(0x34, 8) == [false, false, true, false, true, true, false, false];
    assert !BitOf(0x0000_0034, 0) && !BitOf(0x0000_0034, 1) && BitOf(0x0000_0034, 2) && !BitOf(0x0000_0034, 3);
    assert BitOf(0x0000_0034, 4) && BitOf(0x0000_0034, 5) && !BitOf(0x0000_0034, 6) && !BitOf(0x0000_0034, 7);
    Fed(0xEF84_D04D, 0x34, 0x34, 0x09C5_0B11, rest);
  }

  lemma Digit5(rest: seq<byte>)
    ensures Register(WordOf(0x09C5_0B11), [0x35] + rest) == Register(WordOf(0xE72E_DCCA), rest)
  {
    assert ToBits(0x35, 8) == [true, false, true, false, true, true, false, false];
    assert BitOf(0x0000_0035, 0) && !BitOf(0x0000_0035, 1) && BitOf(0x0000_0035, 2) && !BitOf(0x0000_0035, 3);
    assert BitOf(0x0000_0035, 4) && BitOf(0x0000_0035, 5) && !BitOf(0x0000_0035, 6) && !BitOf(0x0000_0035, 7);
    Fed(0x09C5_0B11, 0x35, 0x35, 0xE72E_DCCA, rest);
  }

  lemma Digit6(rest: seq<byte>)
    ensures Register(WordOf(0xE72E_DCCA), [0x36] + rest) == Register(WordOf(0xBECA_8E79), rest)
  {
    assert ToBits(0x36, 8) == [false, true, true, false, true, true, false, false];
    assert !BitOf(0x0000_0036, 0) && BitOf(0x0000_0036, 1) && BitOf(0x0000_0036, 2) && !BitOf(0x0000_0036, 3);
    assert BitOf(0x0000_0036, 4) && BitOf(0x0000_0036, 5) && !BitOf(0x0000_0036, 6) && !BitOf(0x0000_0036, 7);
    Fed(0xE72E_DCCA, 0x36, 0x36, 0xBECA_8E79, rest);
  }

  lemma Digit7(rest: seq<byte>)
    ensures Register(WordOf(0xBECA_8E79), [0x37] + rest) == Register(WordOf(0xEDBD_6815), rest)
  {
    assert ToBits(0x37, 8) == [true, true, true, false, true, true, false, false];
    assert BitOf(0x0000_0037, 0) && BitOf(0x0000_0037, 1) && BitOf(0x0000_0037, 2) && !BitOf(0x0000_0037, 3);
    assert BitOf(0x0000_0037, 4) && BitOf(0x0000_0037, 5) && !BitOf(0x0000_0037, 6) && !BitOf(0x0000_0037, 7);
    Fed(0xBECA_8E79, 0x37, 0x37, 0xEDBD_6815, rest);
  }

  lemma Digit8(rest: seq<byte>)
    ensures Register(WordOf(0xEDBD_6815), [0x38] + rest) == Register(WordOf(0x9F78_7F65), rest)
  {
    assert ToBits(0x38, 8) == [false, false, false, true, true, true, false, false];
    assert !BitOf(0x0000_0038, 0) && !BitOf(0x0000_0038, 1) && !BitOf(0x0000_0038, 2) && BitOf(0x0000_0038, 3);
    assert BitOf(0x0000_0038, 4) && BitOf(0x0000_0038, 5) && !BitOf(0x0000_0038, 6) && !BitOf(0x0000_0038, 7);
    Fed(0xEDBD_6815, 0x38, 0x38, 0x9F78_7F65, rest);
  }

  lemma Digit9(rest: seq<byte>)
    ensures Register(WordOf(0x9F78_7F65), [0x39] + rest) == Register(WordOf(0x1CF9_6D7C), rest)
  {
    assert ToBits(0x39, 8) == [true, false, false, true, true, true, false, false];
    assert BitOf(0x0000_0039, 0) && !BitOf(0x0000_0039, 1) && !BitOf(0x0000_0039, 2) && BitOf(0x0000_0039, 3);
    assert BitOf(0x0000_0039, 4) && BitOf(0x0000_0039, 5) && !BitOf(0x0000_0039, 6) && !BitOf(0x0000_0039, 7);
    Fed(0x9F78_7F65, 0x39, 0x39, 0x1CF9_6D7C, rest);
  }

  lemma Digits1To3(rest: seq<byte>)
    ensures Register(WordOf(0xFFFF_FFFF), [0x31, 0x32, 0x33] + rest)
              == Register(WordOf(0xEF84_D04D), rest)
  {
    assert [0x31, 0x32, 0x33] + rest == [0x31] + ([0x32] + ([0x33] + rest));
    Digit1([0x32] + ([0x33] + rest));
    Digit2([0x33] + rest);
    Digit3(rest);
  }

  lemma Digits4To6(rest: seq<byte>)
    ensures Register(WordOf(0xEF84_D04D), [0x34, 0x35, 0x36] + rest)
              == Register(WordOf(0xBECA_8E79), rest)
  {
    assert [0x34, 0x35, 0x36] + rest == [0x34] + ([0x35] + ([0x36] + rest));
    Digit4([0x35] + ([0x36] + rest));
    Digit5([0x36] + rest);
    Digit6(rest);
  }

  lemma Digits7To9(rest: seq<byte>)
    ensures Register(WordOf(0xBECA_8E79), [0x37, 0x38, 0x39] + rest)
              == Register(WordOf(0x1CF9_6D7C), rest)
  {
    assert [0x37, 0x38, 0x39] + rest == [0x37] + ([0x38] + ([0x39] + rest));
    Digit7([0x38] + ([0x39] + rest));
    Digit8([0x39] + rest);
    Digit9(rest);
  }

  lemma DigitsRegister()
    ensures Register(ONES, DIGITS) == WordOf(0x1CF9_6D7C)
  {
    OnesIs();
    var last: seq<byte> := [0x37, 0x38, 0x39];
    var mid: seq<byte> := [0x34, 0x35, 0x36];
    assert DIGITS == [0x31, 0x32, 0x33] + (mid + last) && last == last + [];
    Digits1To3(mid + last);
    Digits4To6(last);
    Digits7To9([]);
  }

  /** The check value of CRC-32C: the checksum of "123456789" is 0xE3069283. */
  lemma CheckValue()
    ensures Checksum(DIGITS) == WordOf(0xE306_9283)
  {
    DigitsRegister();
    NotIs(0x1CF9_6D7C);
    assert 0x1CF9_6D7C as bv32 ^ 0xFFFF_FFFF == 0xE306_9283;
  }
}
