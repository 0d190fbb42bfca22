/** What the channel may do to the bytes of a datagram, and what `decode` makes of the result. */
module Damage {
  import opened Bytes
  import opened Crc32c
  import opened Frames

  /** One copy's fate: at most one flipped bit, then at most one truncation. */
  datatype Fault = Fault(flip: Option<BitAt>, cut: Option<nat>)

  type BitIndex = b: nat | b < 8

  datatype BitAt = BitAt(offset: nat, bit: BitIndex)

  /** `b ^ (1 << bit)`. */
  function FlipBit(b: byte, bit: BitIndex): byte {
    BitsRoundTripBack(ByteBits(b)[bit := !ByteBits(b)[bit]]);
    Pow2Of8();
    FromBits(ByteBits(b)[bit := !ByteBits(b)[bit]])
  }

  /** Flips one bit; the offset is taken modulo the length, and an empty datagram is left alone. */
  function Flip(bytes: seq<byte>, f: BitAt): (r: seq<byte>)
    ensures |r| == |bytes|
  {
    if bytes == [] then bytes else
      var offset := f.offset % |bytes|;
      bytes[offset := FlipBit(bytes[offset], f.bit)]
  }

  function Cut(bytes: seq<byte>, len: nat): seq<byte> { bytes[..Min(len, |bytes|)] }

  /** The bytes of one emitted copy. */
  function Damaged(bytes: seq<byte>, fault: Fault): seq<byte> {
    var flipped := match fault.flip case None => bytes case Some(f) => Flip(bytes, f);
    match fault.cut case None => flipped case Some(len) => Cut(flipped, len)
  }

  // ---- A flipped bit ----

  lemma FlipBitBits(b: byte, bit: BitIndex)
    ensures ByteBits(FlipBit(b, bit)) == ByteBits(b)[bit := !ByteBits(b)[bit]]
  {
    BitsRoundTripBack(ByteBits(b)[bit := !ByteBits(b)[bit]]);
  }

  lemma {:induction false} ByteAt(s: seq<byte>, k: nat)
    requires k < |s|
    ensures Bits(s)[8 * k..8 * k + 8] == ByteBits(s[k])
  {
    if k > 0 {
      ByteAt(s[1..], k - 1);
      assert Bits(s)[8 * k..8 * k + 8] == Bits(s[1..])[8 * (k - 1)..8 * (k - 1) + 8];
    }
  }

  lemma BitAtIndex(s: seq<byte>, i: nat)
    requires i < |Bits(s)|
    ensures Bits(s)[i] == ByteBits(s[i / 8])[i % 8]
  {
    ByteAt(s, i / 8);
    assert Bits(s)[i] == Bits(s)[8 * (i / 8)..8 * (i / 8) + 8][i % 8];
  }

  /** A flip changes the datagram in exactly one bit. */
  lemma FlipChangesOneBit(bytes: seq<byte>, f: BitAt, i: nat)
    requires bytes != [] && i < |Bits(bytes)|
    ensures Bits(Flip(bytes, f))[i] != Bits(bytes)[i] <==> i == 8 * (f.offset % |bytes|) + f.bit
  {
    var offset := f.offset % |bytes|;
    BitAtIndex(bytes, i);
    BitAtIndex(Flip(bytes, f), i);
    FlipBitBits(bytes[offset], f.bit);
  }

  lemma FlipDetected(f: Frame, at: BitAt)
    requires |f.payload| < U32_LIMIT
    ensures Decode(Flip(Encode(f), at)).Err?
  {
    var d := Encode(f);
    var e := Flip(d, at);
    var p := 8 * (at.offset % |d|) + at.bit;
    RoundTrip(f);
    forall i: nat | i < |Bits(d)| ensures Bits(d)[i] != Bits(e)[i] <==> i == p { FlipChangesOneBit(d, at, i); }
    assert Bits(d)[p] != Bits(e)[p];
    BurstDetected(d, e, p);
  }

  // ---- A truncation ----

  /** The length field that `decode` reads. */
  function LengthField(d: seq<byte>): nat
    requires |d| >= HEADER_LEN
  {
    FromLe(d[8..12])
  }

  /** A copy cut short is accepted only if its length field says exactly the new length. */
  lemma CutNeedsLength(d: seq<byte>)
    requires Decode(d).Ok?
    ensures |d| >= MIN_FRAME_LEN && LengthField(d) == |d| - MIN_FRAME_LEN
  {}

  lemma EncodedLengthField(f: Frame)
    requires |f.payload| < U32_LIMIT
    ensures |Encode(f)| == MIN_FRAME_LEN + |f.payload| && LengthField(Encode(f)) == |f.payload|
  {
    RoundTrip(f);
  }

  predicate InLengthField(d: seq<byte>, at: BitAt) {
    d != [] && 8 <= at.offset % |d| < 12
  }

  predicate CutsShort(d: seq<byte>, fault: Fault) {
    fault.cut.Some? && fault.cut.value < |d|
  }

  /** The one combination that can go unnoticed: a flip in the length field of a copy that is also cut short. */
  predicate DoubleFault(d: seq<byte>, fault: Fault) {
    fault.flip.Some? && InLengthField(d, fault.flip.value) && CutsShort(d, fault)
  }

  /** No flip and no truncation. */
  predicate Untouched(d: seq<byte>, fault: Fault) { fault.flip.None? && !CutsShort(d, fault) }

  lemma CutDetected(f: Frame, fault: Fault)
    requires |f.payload| < U32_LIMIT && CutsShort(Encode(f), fault)
    requires fault.flip.Some? ==> !InLengthField(Encode(f), fault.flip.value)
    ensures Decode(Damaged(Encode(f), fault)).Err?
  {
    EncodedLengthField(f);
    CutDetectedOf(Encode(f), |f.payload|, fault);
  }

  lemma CutDetectedOf(d: seq<byte>, n: nat, fault: Fault)
    requires |d| == MIN_FRAME_LEN + n && LengthField(d) == n && CutsShort(d, fault)
    requires fault.flip.Some? ==> !InLengthField(d, fault.flip.value)
    ensures Decode(Damaged(d, fault)).Err?
  {
    var e := Damaged(d, fault);
    if |e| >= MIN_FRAME_LEN { assert e[8..12] == d[8..12]; }
    if Decode(e).Ok? { CutNeedsLength(e); }
  }

  /** Channel and frame compose: unless a copy suffers both a flip in its length field and a truncation, it decodes
      to the frame that was sent exactly when it is untouched, and is rejected otherwise. */
  lemma {:induction false} CopyIsAuthentic(f: Frame, fault: Fault)
    requires |f.payload| < U32_LIMIT
    requires !DoubleFault(Encode(f), fault)
    ensures var r := Decode(Damaged(Encode(f), fault));
            if Untouched(Encode(f), fault) then r == Ok(f) else r.Err?
  {
    var d := Encode(f);
    if CutsShort(d, fault) {
      CutDetected(f, fault);
    } else if fault.flip.Some? {
      FlipDetected(f, fault.flip.value);
      assert Damaged(d, fault) == Flip(d, fault.flip.value);
    } else {
      RoundTrip(f);
      assert Damaged(d, fault) == d;
    }
  }

  // ---- Which error is reported ----

  /** Which error a flipped bit is reported as: by the field it lies in. */
  lemma FlipError(f: Frame, at: BitAt)
    requires |f.payload| < U32_LIMIT
    ensures var d := Encode(f);
            var r, offset := Decode(Flip(d, at)), at.offset % |d|;
            && r.Err?
            && (offset == 0 <==> r.error.UnsupportedVersion?) && (8 <= offset < 12 <==> r.error.LengthMismatch?)
            && (offset == 0 || 8 <= offset < 12 || r.error.ChecksumMismatch?)
  {
    var d := Encode(f);
    var e, offset := Flip(d, at), at.offset % |d|;
    EncodedLengthField(f);
    RoundTrip(f);
    FlipDetected(f, at);
    FlipBitChanges(d[offset], at.bit);
    if 8 <= offset < 12 {
      assert d[8..12][offset - 8] != e[8..12][offset - 8];
      FieldInjective(d[8..12], e[8..12]);
    } else {
      assert e[8..12] == d[8..12];
    }
  }

  lemma FlipBitChanges(b: byte, bit: BitIndex)
    ensures FlipBit(b, bit) != b
  {
    FlipBitBits(b, bit);
  }

  lemma FieldInjective(a: seq<byte>, b: seq<byte>)
    requires |a| == |b| == 4 && a != b
    ensures FromLe(a) != FromLe(b)
  {
    Le32RoundTripBack(a);
    Le32RoundTripBack(b);
  }

  /** Which error a truncated copy is reported as: by its length. */
  lemma CutError(f: Frame, len: nat)
    requires |f.payload| < U32_LIMIT && len < |Encode(f)|
    ensures Decode(Cut(Encode(f), len))
              == Err(if len < MIN_FRAME_LEN then TooShort(len) else LengthMismatch(|f.payload|, len - MIN_FRAME_LEN))
  {
    EncodedLengthField(f);
    EncodedVersion(f);
    CutErrorOf(Encode(f), |f.payload|, len);
  }

  lemma CutErrorOf(d: seq<byte>, n: nat, len: nat)
    requires |d| == MIN_FRAME_LEN + n && d[0] == VERSION && LengthField(d) == n && len < |d|
    ensures Decode(Cut(d, len))
              == Err(if len < MIN_FRAME_LEN then TooShort(len) else LengthMismatch(n, len - MIN_FRAME_LEN))
  {
    if len >= MIN_FRAME_LEN {
      assert Cut(d, len)[8..12] == d[8..12];
      WrongLength(Cut(d, len), n);
    }
  }

  lemma EncodedVersion(f: Frame)
    ensures |Encode(f)| >= MIN_FRAME_LEN && Encode(f)[0] == VERSION
  {
    assert Encode(f)[0] == Header(f)[0];
  }

  lemma WrongLength(d: seq<byte>, n: nat)
    requires |d| >= MIN_FRAME_LEN && d[0] == VERSION && LengthField(d) == n != |d| - MIN_FRAME_LEN
    ensures Decode(d) == Err(LengthMismatch(n, |d| - MIN_FRAME_LEN))
  {}

  // ---- The exception is real ----

  lemma FlipBitTwice(b: byte, bit: BitIndex)
    ensures FlipBit(FlipBit(b, bit), bit) == b
  {
    var c := FlipBit(b, bit);
    FlipBitBits(b, bit);
    FlipBitBits(c, bit);
    assert ByteBits(FlipBit(c, bit)) == ByteBits(b);
    ByteBitsInjective(FlipBit(c, bit), b);
  }

  /** A bit of the length field. */
  type LengthBit = at: BitAt | 8 <= at.offset < 12 witness BitAt(8, 0)

  /** The length field of a frame with `n` payload bytes after the flip. */
  function FlippedField(n: nat, at: LengthBit): (field: seq<byte>)
    ensures |field| == 4
  {
    Le32(n)[at.offset - 8 := FlipBit(Le32(n)[at.offset - 8], at.bit)]
  }

  function FlippedLength(n: nat, at: LengthBit): (m: nat)
    ensures m < U32_LIMIT
  {
    Le32RoundTripBack(FlippedField(n, at));
    FromLe(FlippedField(n, at))
  }

  lemma FlippedBack(n: nat, at: LengthBit)
    requires n < U32_LIMIT
    ensures FlippedField(FlippedLength(n, at), at) == Le32(n) && FlippedLength(FlippedLength(n, at), at) == n
  {
    var j := at.offset - 8;
    Le32RoundTripBack(FlippedField(n, at));
    FlipBitTwice(Le32(n)[j], at.bit);
    Le32RoundTrip(n);
  }

  /** The eight bytes before the length field. */
  function Start(f: Frame): (s: seq<byte>)
    ensures |s| == 8
  {
    [VERSION, f.frameType] + Le32(f.sequence) + Le16(f.flags)
  }

  /** An encoding in three parts: before the length field, the field, and after it. */
  lemma EncodedParts(f: Frame)
    ensures |Encode(f)| == MIN_FRAME_LEN + |f.payload|
    ensures Encode(f) == Start(f) + Le32(|f.payload|) + Encode(f)[HEADER_LEN..]
    ensures f.payload <= Encode(f)[HEADER_LEN..]
  {
    var d, body := Encode(f), Header(f) + f.payload;
    assert d[..HEADER_LEN] == body[..HEADER_LEN] == Header(f) == Start(f) + Le32(|f.payload|);
    assert d == d[..HEADER_LEN] + d[HEADER_LEN..];
    assert f.payload == body[HEADER_LEN..] == d[HEADER_LEN..|body|];
  }

  lemma FlipInField(a: seq<byte>, b: seq<byte>, c: seq<byte>, at: LengthBit)
    requires |a| == 8 && |b| == 4
    ensures Flip(a + b + c, at) == a + b[at.offset - 8 := FlipBit(b[at.offset - 8], at.bit)] + c
  {
    var d := a + b + c;
    assert at.offset % |d| == at.offset;
    assert d[at.offset] == b[at.offset - 8];
  }

  /** An encoding with its length field flipped. */
  lemma FlippedEncoding(f: Frame, at: LengthBit)
    ensures Flip(Encode(f), at) == Start(f) + FlippedField(|f.payload|, at) + Encode(f)[HEADER_LEN..]
  {
    EncodedParts(f);
    FlipInField(Start(f), Le32(|f.payload|), Encode(f)[HEADER_LEN..], at);
  }

  /** A frame whose payload holds the payload of `inner`, then the checksum of `inner`, then anything. */
  function Disguise(inner: Frame, suffix: seq<byte>): Frame {
    inner.(payload := Encode(inner)[HEADER_LEN..] + suffix)
  }

  /** The damage that is not noticed: for every frame `inner`, a longer frame that a flip in the length field and
      the matching truncation turn into the encoding of `inner`. */
  lemma {:induction false} FalseAccept(inner: Frame, at: LengthBit, suffix: seq<byte>)
    requires |inner.payload| < U32_LIMIT && FlippedLength(|inner.payload|, at) == |inner.payload| + CRC_LEN + |suffix|
    ensures var f := Disguise(inner, suffix);
            && |f.payload| == FlippedLength(|inner.payload|, at) && f != inner
            && Decode(Damaged(Encode(f), Fault(Some(at), Some(|Encode(inner)|)))) == Ok(inner)
  {
    var f, m := Disguise(inner, suffix), |inner.payload|;
    var d, tail := Encode(inner), Encode(f)[HEADER_LEN..];
    EncodedParts(inner);
    EncodedParts(f);
    FlippedBack(m, at);
    FlippedEncoding(f, at);
    CutAt(Start(inner) + Le32(m), d[HEADER_LEN..], tail);
    RoundTrip(inner);
  }

  lemma CutAt(a: seq<byte>, b: seq<byte>, tail: seq<byte>)
    requires b <= tail
    ensures Cut(a + tail, |a + b|) == a + b
  {}

  /** Some frame with `n` payload bytes is taken for another one after this flip and this cut. */
  ghost predicate Unsafe(n: nat, at: LengthBit, len: nat) {
    exists f: Frame :: |f.payload| == n && Decode(Damaged(Encode(f), Fault(Some(at), Some(len)))).Ok?
  }

  /** A copy damaged in its length field can pass only if it is cut to the length that the field then claims. */
  lemma AcceptedOnlyAtFlippedLength(f: Frame, at: LengthBit, len: nat)
    requires |f.payload| < U32_LIMIT && Decode(Damaged(Encode(f), Fault(Some(at), Some(len)))).Ok?
    ensures len == MIN_FRAME_LEN + FlippedLength(|f.payload|, at) && FlippedLength(|f.payload|, at) < |f.payload|
  {
    var d := Encode(f);
    var e := Damaged(d, Fault(Some(at), Some(len)));
    EncodedParts(f);
    FlipDetected(f, at);
    FlippedEncoding(f, at);
    CutOfFlip(d, at, len);
    CutNeedsLength(e);
    FieldOf(Start(f), FlippedField(|f.payload|, at), d[HEADER_LEN..], len);
  }

  lemma CutOfFlip(d: seq<byte>, at: LengthBit, len: nat)
    ensures var e := Damaged(d, Fault(Some(at), Some(len)));
            if len < |d| then e == Cut(Flip(d, at), len) && |e| == len else e == Flip(d, at)
  {}

  lemma FieldOf(a: seq<byte>, b: seq<byte>, c: seq<byte>, len: nat)
    requires |a| == 8 && |b| == 4
    ensures len >= 12 ==> Cut(a + b + c, len)[8..12] == b
  {
    if len >= 12 { assert Cut(a + b + c, len)[8..12] == (a + b + c)[8..12] == b; }
  }

  /** What `decode` makes of a start, a length field and as many bytes as the field says with a trailer. */
  lemma DecodesByChecksum(a: seq<byte>, m: nat, rest: seq<byte>)
    requires |a| == 8 && a[0] == VERSION && m < U32_LIMIT && |rest| == m + CRC_LEN
    ensures Decode(a + Le32(m) + rest).Ok? <==> Bits(rest[m..]) == Checksum(a + Le32(m) + rest[..m])
  {
    var e := a + Le32(m) + rest;
    Le32RoundTrip(m);
    assert e[8..12] == Le32(m);
    assert e[HEADER_LEN + m..] == rest[m..];
    assert e[..HEADER_LEN + m] == a + Le32(m) + rest[..m];
  }

  /** The damaged copy, cut where its flipped length field says. */
  lemma CutCopyIs(f: Frame, at: LengthBit)
    requires |f.payload| < U32_LIMIT && FlippedLength(|f.payload|, at) < |f.payload|
    ensures var m, tail := FlippedLength(|f.payload|, at), Encode(f)[HEADER_LEN..];
            && m + CRC_LEN < |tail|
            && Damaged(Encode(f), Fault(Some(at), Some(MIN_FRAME_LEN + m))) == Start(f) + Le32(m) + tail[..m + CRC_LEN]
  {
    var d := Encode(f);
    EncodedParts(f);
    FlippedEncoding(f, at);
    Le32RoundTripBack(FlippedField(|f.payload|, at));
    CutCopyOf(d, at, Start(f), FlippedLength(|f.payload|, at), d[HEADER_LEN..]);
  }

  lemma CutCopyOf(d: seq<byte>, at: LengthBit, start: seq<byte>, m: nat, tail: seq<byte>)
    requires |start| == 8 && m + CRC_LEN < |tail| && |d| == HEADER_LEN + |tail| && Flip(d, at) == start + Le32(m) + tail
    ensures Damaged(d, Fault(Some(at), Some(MIN_FRAME_LEN + m))) == start + Le32(m) + tail[..m + CRC_LEN]
  {
    CutOfFlip(d, at, MIN_FRAME_LEN + m);
    CutAt(start + Le32(m), tail[..m + CRC_LEN], tail);
  }

  /** The bytes where the trailer would be are the checksum of what would be before it. */
  predicate TrailerFits(f: Frame, m: nat) {
    var tail := Encode(f)[HEADER_LEN..];
    m + CRC_LEN <= |tail| && Bits(tail[m..m + CRC_LEN]) == Checksum(Start(f) + Le32(m) + tail[..m])
  }

  lemma CutCopyDecodes(f: Frame, at: LengthBit)
    requires |f.payload| < U32_LIMIT && FlippedLength(|f.payload|, at) < |f.payload|
    ensures var m := FlippedLength(|f.payload|, at);
            Decode(Damaged(Encode(f), Fault(Some(at), Some(MIN_FRAME_LEN + m)))).Ok? <==> TrailerFits(f, m)
  {
    var m, tail := FlippedLength(|f.payload|, at), Encode(f)[HEADER_LEN..];
    CutCopyIs(f, at);
    DecodesByChecksum(Start(f), m, tail[..m + CRC_LEN]);
    assert tail[..m + CRC_LEN][m..] == tail[m..m + CRC_LEN] && tail[..m + CRC_LEN][..m] == tail[..m];
  }

  /** A frame whose payload is torn off to its first `m` bytes. */
  function TornTo(f: Frame, m: nat): Frame
    requires m <= |f.payload|
  {
    f.(payload := f.payload[..m])
  }

  /** An accepted cut copy is the frame that was sent with a shorter payload. */
  lemma CutCopyIsTorn(f: Frame, m: nat, tail: seq<byte>)
    requires m <= |f.payload| < U32_LIMIT && f.payload <= tail && m + CRC_LEN <= |tail|
    ensures var e := Start(f) + Le32(m) + tail[..m + CRC_LEN];
            Decode(e).Ok? ==> Decode(e).frame == TornTo(f, m)
  {
    var f', e := TornTo(f, m), Start(f) + Le32(m) + tail[..m + CRC_LEN];
    assert e[..HEADER_LEN] == Start(f) + Le32(m);
    HeaderFields(f', e);
    Le32RoundTrip(f.sequence);
    Le16RoundTrip(f.flags);
    PayloadOf(Start(f) + Le32(m), f.payload, m, tail);
  }

  lemma PayloadOf(start: seq<byte>, payload: seq<byte>, m: nat, tail: seq<byte>)
    requires |start| == HEADER_LEN && payload <= tail && m <= |payload| && m + CRC_LEN <= |tail|
    ensures var e := start + tail[..m + CRC_LEN];
            |e| == MIN_FRAME_LEN + m && e[HEADER_LEN..|e| - CRC_LEN] == payload[..m]
  {}

  /** Exactly when a copy with a flipped length bit and a cut goes unnoticed, and as what, for every frame, bit and
      cut: the flip shortens the claimed length, the cut is exactly to it, and the bytes that come to stand where the
      trailer is read happen to be the checksum; and then the copy is taken for the same frame with less payload. */
  lemma {:induction false} UnnoticedExactly(f: Frame, at: LengthBit, len: nat)
    requires |f.payload| < U32_LIMIT
    ensures var m := FlippedLength(|f.payload|, at);
            var r := Decode(Damaged(Encode(f), Fault(Some(at), Some(len))));
            && (r.Ok? <==> m < |f.payload| && len == MIN_FRAME_LEN + m && TrailerFits(f, m))
            && (r.Ok? ==> r.frame == TornTo(f, m))
  {
    var m := FlippedLength(|f.payload|, at);
    var e := Damaged(Encode(f), Fault(Some(at), Some(len)));
    if Decode(e).Ok? { AcceptedOnlyAtFlippedLength(f, at, len); }
    if m < |f.payload| { CutCopyDecodes(f, at); }
    if Decode(e).Ok? {
      CutCopyIs(f, at);
      EncodedParts(f);
      CutCopyIsTorn(f, m, Encode(f)[HEADER_LEN..]);
    }
  }

  /** `g` is `f`, or `f` with less payload. */
  predicate TornFrame(g: Frame, f: Frame) { g == f.(payload := g.payload) && g.payload <= f.payload }

  /** Whatever the channel does to a copy of a frame, what decodes is that frame, whole or torn. */
  lemma {:induction false} CopyIsTorn(f: Frame, fault: Fault)
    requires |f.payload| < U32_LIMIT
    ensures var r := Decode(Damaged(Encode(f), fault)); r.Ok? ==> TornFrame(r.frame, f)
  {
    var d := Encode(f);
    if DoubleFault(d, fault) {
      var at: LengthBit := BitAt(fault.flip.value.offset % |d|, fault.flip.value.bit);
      SameFlip(d, fault.flip.value, at);
      UnnoticedExactly(f, at, fault.cut.value);
    } else {
      CopyIsAuthentic(f, fault);
    }
  }

  lemma SameFlip(d: seq<byte>, f: BitAt, at: BitAt)
    requires d != [] && at == BitAt(f.offset % |d|, f.bit)
    ensures Flip(d, f) == Flip(d, at)
  {
    assert at.offset % |d| == at.offset;
  }

  function Zeros(n: nat): (z: seq<byte>)
    ensures |z| == n
  {
    if n == 0 then [] else [0] + Zeros(n - 1)
  }

  /** Which flips of the length field, with which cuts, can go unnoticed for some payload of a given length: only those
      that shorten the claimed length and cut exactly to it, and all of these that make room for a checksum. */
  lemma {:induction false} UnsafeShapes(n: nat, at: LengthBit, len: nat)
    requires n < U32_LIMIT
    ensures Unsafe(n, at, len) ==> FlippedLength(n, at) < n && len == MIN_FRAME_LEN + FlippedLength(n, at)
    ensures FlippedLength(n, at) + CRC_LEN <= n && len == MIN_FRAME_LEN + FlippedLength(n, at) ==> Unsafe(n, at, len)
  {
    var m := FlippedLength(n, at);
    if Unsafe(n, at, len) {
      var f: Frame :| |f.payload| == n && Decode(Damaged(Encode(f), Fault(Some(at), Some(len)))).Ok?;
      UnnoticedExactly(f, at, len);
    }
    if m + CRC_LEN <= n && len == MIN_FRAME_LEN + m {
      var payload, suffix := Zeros(m), Zeros(n - m - CRC_LEN);
      var inner := Frame(0, 0, 0, payload);
      FlippedBack(n, at);
      EncodedLengthField(inner);
      FalseAccept(inner, at, suffix);
    }
  }
}
