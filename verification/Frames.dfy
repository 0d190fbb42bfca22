/** The frame layer: a versioned header, a payload and a CRC-32C trailer. */
module Frames {
  import opened Bytes
  import opened Crc32c

  const VERSION: byte := 1
  const HEADER_LEN: nat := 12
  const CRC_LEN: nat := 4
  const MIN_FRAME_LEN: nat := 16

  datatype Frame = Frame(frameType: byte, sequence: u32, flags: u16, payload: seq<byte>)

  datatype DecodeError =
    | TooShort(len: nat)
    | UnsupportedVersion(found: byte)
    | LengthMismatch(declared: nat, available: nat)
    | ChecksumMismatch(computed: Word, claimed: Word)

  datatype DecodeResult = Ok(frame: Frame) | Err(error: DecodeError)

  function Header(f: Frame): (h: seq<byte>)
    ensures |h| == HEADER_LEN
  {
    [VERSION, f.frameType] + Le32(f.sequence) + Le16(f.flags) + Le32(|f.payload|)
  }

  /** `data` followed by its CRC-32C, little-endian. */
  function Seal(data: seq<byte>): (s: seq<byte>)
    ensures |s| == |data| + CRC_LEN && s[..|data|] == data && Bits(s[|data|..]) == Checksum(data)
  {
    data + FromBitString(Checksum(data))
  }

  function Encode(f: Frame): seq<byte> {
    Seal(Header(f) + f.payload)
  }

  /** `encode`, appending to the output piece by piece. */
  method EncodeFrame(f: Frame) returns (out: seq<byte>)
    ensures out == Encode(f)
  {
    out := [VERSION];
    out := out + [f.frameType];
    out := out + Le32(f.sequence);
    out := out + Le16(f.flags);
    out := out + Le32(|f.payload|);
    out := out + f.payload;
    assert out == Header(f) + f.payload;
    var crc := Compute(out);
    out := out + FromBitString(crc);
  }

  function Decode(d: seq<byte>): DecodeResult {
    if |d| < MIN_FRAME_LEN then Err(TooShort(|d|))
    else if d[0] != VERSION then Err(UnsupportedVersion(d[0]))
    else
      var declared := FromLe(d[8..12]);
      var available := |d| - HEADER_LEN - CRC_LEN;
      if declared != available then Err(LengthMismatch(declared, available))
      else
        var end := HEADER_LEN + available;
        var claimed: Word := Bits(d[end..]);
        var computed := Checksum(d[..end]);
        if computed != claimed then Err(ChecksumMismatch(computed, claimed))
        else Ok(Fields(d))
  }

  function Fields(d: seq<byte>): Frame
    requires |d| >= MIN_FRAME_LEN
  {
    Le32RoundTripBack(d[2..6]);
    Le16RoundTripBack(d[6..8]);
    Frame(d[1], FromLe(d[2..6]), FromLe(d[6..8]), d[HEADER_LEN..|d| - CRC_LEN])
  }

  // ---- decode accepts exactly the encodings ----

  lemma HeaderFields(f: Frame, d: seq<byte>)
    requires |d| >= MIN_FRAME_LEN && d[..HEADER_LEN] == Header(f)
    ensures d[0] == VERSION && d[1] == f.frameType
    ensures d[2..6] == Le32(f.sequence) && d[6..8] == Le16(f.flags) && d[8..12] == Le32(|f.payload|)
  {
    var h := d[..HEADER_LEN];
    assert h[0] == VERSION && h[1] == f.frameType;
    assert d[2..6] == h[2..6] && d[6..8] == h[6..8] && d[8..12] == h[8..12];
  }

  lemma {:induction false} RoundTrip(f: Frame)
    requires |f.payload| < U32_LIMIT
    ensures Decode(Encode(f)) == Ok(f)
  {
    var d := Encode(f);
    var body := Header(f) + f.payload;
    assert d[..HEADER_LEN] == body[..HEADER_LEN] == Header(f);
    HeaderFields(f, d);
    Le32RoundTrip(f.sequence);
    Le16RoundTrip(f.flags);
    Le32RoundTrip(|f.payload|);
    assert d[HEADER_LEN..|d| - CRC_LEN] == body[HEADER_LEN..] == f.payload;
  }

  lemma HeaderOfFields(d: seq<byte>)
    requires |d| >= MIN_FRAME_LEN && d[0] == VERSION && FromLe(d[8..12]) == |d| - MIN_FRAME_LEN
    ensures |Fields(d).payload| < U32_LIMIT
    ensures d[..|d| - CRC_LEN] == Header(Fields(d)) + Fields(d).payload
  {
    Le32RoundTripBack(d[2..6]);
    Le16RoundTripBack(d[6..8]);
    Le32RoundTripBack(d[8..12]);
    assert Header(Fields(d)) == [d[0], d[1]] + d[2..6] + d[6..8] + d[8..12];
    assert d[..12] == [d[0], d[1]] + d[2..6] + d[6..8] + d[8..12];
    assert d[..|d| - CRC_LEN] == d[..12] + d[12..|d| - CRC_LEN];
  }

  lemma SealUnique(d: seq<byte>)
    requires |d| >= CRC_LEN && Bits(d[|d| - CRC_LEN..]) == Checksum(d[..|d| - CRC_LEN])
    ensures Seal(d[..|d| - CRC_LEN]) == d
  {
    var end := |d| - CRC_LEN;
    var s := Seal(d[..end]);
    BitsInjective(s[end..], d[end..]);
    assert s == s[..end] + s[end..] && d == d[..end] + d[end..];
  }

  lemma {:induction false} AcceptsOnlyEncodings(d: seq<byte>)
    requires Decode(d).Ok?
    ensures |Decode(d).frame.payload| < U32_LIMIT
    ensures Encode(Decode(d).frame) == d
  {
    HeaderOfFields(d);
    SealUnique(d);
  }

  // ---- What the checksum detects ----

  lemma AcceptedResidue(d: seq<byte>)
    requires Decode(d).Ok?
    ensures FeedBits(ONES, Bits(d)) == RESIDUE
  {
    var end := |d| - CRC_LEN;
    ChecksumResidue(d[..end], d[end..]);
    BitsConcat(d[..end], d[end..]);
    assert d == d[..end] + d[end..];
  }

  lemma AcceptedPairCancels(d: seq<byte>, e: seq<byte>)
    requires Decode(d).Ok? && Decode(e).Ok? && |d| == |e|
    ensures FeedBits(ZERO, Xor(Bits(d), Bits(e))) == ZERO
  {
    AcceptedResidue(d);
    AcceptedResidue(e);
    EqualRegisters(Bits(d), Bits(e));
  }

  /** Burst detection: an error confined to 32 consecutive bits of a valid frame, anywhere in it
      (the trailer included), is always rejected. */
  lemma {:induction false} BurstDetected(d: seq<byte>, e: seq<byte>, p: nat)
    requires Decode(d).Ok? && |e| == |d| && e != d
    requires forall i :: 0 <= i < |Bits(d)| && Bits(d)[i] != Bits(e)[i] ==> p <= i < p + 32
    ensures Decode(e).Err?
  {
    if Decode(e).Ok? {
      var x := Xor(Bits(d), Bits(e));
      AcceptedPairCancels(d, e);
      if forall i :: 0 <= i < |x| ==> !x[i] {
        assert Bits(d) == Bits(e);
        BitsInjective(d, e);
      }
      BurstLeavesRegisterNonzero(x, p);
    }
  }

  /** Every valid encoding has an even number of one bits. */
  lemma {:induction false} AcceptedParity(d: seq<byte>)
    requires Decode(d).Ok?
    ensures !Odd(Bits(d))
  {
    AcceptedResidue(d);
    FeedBitsParity(ONES, Bits(d));
    StepsKeepParity(ONES, |ONES|);
  }

  /** Odd-weight detection: any odd number of flipped bits is rejected. */
  lemma {:induction false} OddWeightDetected(d: seq<byte>, e: seq<byte>)
    requires Decode(d).Ok? && |e| == |d|
    requires Odd(Xor(Bits(d), Bits(e)))
    ensures Decode(e).Err?
  {
    if Decode(e).Ok? {
      AcceptedParity(d);
      AcceptedParity(e);
      OddXor(Bits(d), Bits(e));
    }
  }
}
