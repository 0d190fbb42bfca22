/** The transport sub-header carried in every frame payload, and whole transport segments on the wire. */
module Segments {
  import opened Bytes
  import Frames

  const MAX_SACK_RANGES: nat := 4
  const FIXED_LEN: nat := 10
  const RANGE_LEN: nat := 8

  /** An inclusive range of byte offsets held out of order. */
  datatype SackRange = SackRange(start: nat, end: nat)

  datatype SegmentHeader = SegmentHeader(ack: nat, finAck: bool, window: nat, sack: seq<SackRange>)

  function EncodeRanges(rs: seq<SackRange>): (s: seq<byte>)
    ensures |s| == RANGE_LEN * |rs|
  {
    if rs == [] then [] else Le32(rs[0].start) + Le32(rs[0].end) + EncodeRanges(rs[1..])
  }

  function FixedPart(h: SegmentHeader): (s: seq<byte>)
    ensures |s| == FIXED_LEN
  {
    Le32(h.ack) + [if h.finAck then 1 else 0] + [Min(|h.sack|, MAX_SACK_RANGES)] + Le32(h.window)
  }

  function EncodeHeader(h: SegmentHeader): seq<byte> {
    FixedPart(h) + EncodeRanges(h.sack[..Min(|h.sack|, MAX_SACK_RANGES)])
  }

  /** `SegmentHeader::encode`: appends to the caller's buffer. */
  method AppendHeader(h: SegmentHeader, out: seq<byte>) returns (r: seq<byte>)
    ensures r == out + EncodeHeader(h)
  {
    var count := Min(|h.sack|, MAX_SACK_RANGES);
    r := out + Le32(h.ack);
    r := r + [if h.finAck then 1 else 0];
    r := r + [count];
    r := r + Le32(h.window);
    assert r == out + FixedPart(h);
    var taken := h.sack[..count];
    for i := 0 to count
      invariant r + EncodeRanges(taken[i..]) == out + EncodeHeader(h)
    {
      assert taken[i..][1..] == taken[i + 1..];
      r := r + Le32(h.sack[i].start);
      r := r + Le32(h.sack[i].end);
    }
  }

  function DecodeRanges(d: seq<byte>, count: nat): (rs: seq<SackRange>)
    requires |d| >= RANGE_LEN * count
    ensures |rs| == count
  {
    if count == 0 then []
    else [SackRange(FromLe(d[..4]), FromLe(d[4..8]))] + DecodeRanges(d[8..], count - 1)
  }

  function DecodeHeader(d: seq<byte>): Option<(SegmentHeader, seq<byte>)> {
    if |d| < FIXED_LEN then None
    else
      var count: nat := d[5];
      if |d| < FIXED_LEN + count * RANGE_LEN then None
      else
        var h := SegmentHeader(FromLe(d[..4]), d[4] != 0, FromLe(d[6..10]), DecodeRanges(d[FIXED_LEN..], count));
        Some((h, d[FIXED_LEN + count * RANGE_LEN..]))
  }

  /** `SegmentHeader::decode`, reading the ranges with an advancing offset. */
  method ReadHeader(d: seq<byte>) returns (r: Option<(SegmentHeader, seq<byte>)>)
    ensures r == DecodeHeader(d)
  {
    if |d| < FIXED_LEN {
      return None;
    }
    var ack, finAck, count, window := FromLe(d[..4]), d[4] != 0, d[5], FromLe(d[6..10]);
    if |d| < FIXED_LEN + count * RANGE_LEN {
      return None;
    }
    var sack, offset := [], FIXED_LEN;
    for i := 0 to count
      invariant offset == FIXED_LEN + i * RANGE_LEN
      invariant sack + DecodeRanges(d[offset..], count - i) == DecodeRanges(d[FIXED_LEN..], count)
    {
      assert d[offset..][..4] == d[offset..offset + 4] && d[offset..][4..8] == d[offset + 4..offset + 8];
      assert d[offset..][8..] == d[offset + 8..];
      sack := sack + [SackRange(FromLe(d[offset..offset + 4]), FromLe(d[offset + 4..offset + 8]))];
      offset := offset + RANGE_LEN;
    }
    assert sack == DecodeRanges(d[FIXED_LEN..], count);
    return Some((SegmentHeader(ack, finAck, window, sack), d[offset..]));
  }

  // ---- Round trip ----

  predicate RangesFit(rs: seq<SackRange>) {
    forall i :: 0 <= i < |rs| ==> rs[i].start < U32_LIMIT && rs[i].end < U32_LIMIT
  }

  /** Every field fits its place on the wire. */
  predicate HeaderFits(h: SegmentHeader) {
    h.ack < U32_LIMIT && h.window < U32_LIMIT && |h.sack| <= MAX_SACK_RANGES && RangesFit(h.sack)
  }

  lemma {:induction false} RangesRoundTrip(rs: seq<SackRange>, rest: seq<byte>)
    requires RangesFit(rs)
    ensures DecodeRanges(EncodeRanges(rs) + rest, |rs|) == rs
  {
    if rs != [] {
      var a, b, more := Le32(rs[0].start), Le32(rs[0].end), EncodeRanges(rs[1..]);
      ThreeParts(a, b, more, rest);
      Le32RoundTrip(rs[0].start);
      Le32RoundTrip(rs[0].end);
      RangesRoundTrip(rs[1..], rest);
    }
  }

  lemma ThreeParts(a: seq<byte>, b: seq<byte>, c: seq<byte>, rest: seq<byte>)
    requires |a| == 4 && |b| == 4
    ensures var d := a + b + c + rest;
            d[..4] == a && d[4..8] == b && d[8..] == c + rest
  {}

  lemma HeaderRoundTrip(h: SegmentHeader, rest: seq<byte>)
    requires HeaderFits(h)
    ensures DecodeHeader(EncodeHeader(h) + rest) == Some((h, rest))
  {
    var d := EncodeHeader(h) + rest;
    assert h.sack[..|h.sack|] == h.sack;
    var f := FixedPart(h);
    assert f[..4] == Le32(h.ack) && f[6..10] == Le32(h.window);
    assert d[..4] == f[..4] && d[4] == f[4] && d[5] == f[5] && d[6..10] == f[6..10];
    Le32RoundTrip(h.ack);
    Le32RoundTrip(h.window);
    assert d[FIXED_LEN..] == EncodeRanges(h.sack) + rest;
    RangesRoundTrip(h.sack, rest);
    assert d[FIXED_LEN + |h.sack| * RANGE_LEN..] == rest;
  }

  // ---- Whole segments ----

  /** A frame as the transport reads it: the sequence field, the three flags it looks at, the header and the data. */
  datatype Segment = Segment(seqNo: nat, syn: bool, ack: bool, fin: bool, header: SegmentHeader, data: seq<byte>)

  function Flags(g: Segment): u16 {
    (if g.syn then 1 else 0) + (if g.ack then 2 else 0) + (if g.fin then 4 else 0)
  }

  function SegmentFrame(g: Segment): Frames.Frame {
    Frames.Frame(0, g.seqNo % U32_LIMIT, Flags(g), EncodeHeader(g.header) + g.data)
  }

  function EncodeSegment(g: Segment): seq<byte> {
    Frames.Encode(SegmentFrame(g))
  }

  /** The transport's reading of a decoded frame. */
  function ParseFrame(f: Frames.Frame): Option<Segment> {
    match DecodeHeader(f.payload)
    case None => None
    case Some((h, data)) =>
      Some(Segment(f.sequence, f.flags % 2 == 1, f.flags / 2 % 2 == 1, f.flags / 4 % 2 == 1, h, data))
  }

  /** What `on_datagram` extracts before acting; None is a datagram it drops. */
  function ParseSegment(d: seq<byte>): Option<Segment> {
    match Frames.Decode(d)
    case Err(_) => None
    case Ok(f) => ParseFrame(f)
  }

  predicate SegmentFits(g: Segment) {
    g.seqNo < U32_LIMIT && HeaderFits(g.header) && |g.data| < U32_LIMIT - 100
  }

  lemma FrameRoundTrip(g: Segment)
    requires SegmentFits(g)
    ensures ParseFrame(SegmentFrame(g)) == Some(g)
  {
    HeaderRoundTrip(g.header, g.data);
  }

  lemma {:induction false} SegmentRoundTrip(g: Segment)
    requires SegmentFits(g)
    ensures ParseSegment(EncodeSegment(g)) == Some(g)
  {
    FrameRoundTrip(g);
    var f := SegmentFrame(g);
    assert |f.payload| < U32_LIMIT;
    Frames.RoundTrip(f);
  }
}
