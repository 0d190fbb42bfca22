/** Length-prefixed messages over a byte stream, reassembled however the stream is chunked. */
module Framing {
  import opened Bytes

  const LEN_PREFIX: nat := 4

  function FrameMsg(payload: seq<byte>): seq<byte> {
    Le32(|payload|) + payload
  }

  /** The concatenation of the framed messages. */
  function FrameAll(ms: seq<seq<byte>>): seq<byte> {
    if ms == [] then [] else FrameMsg(ms[0]) + FrameAll(ms[1..])
  }

  /** What `drain_frames` yields from a buffer, and what it leaves. */
  datatype Drained = Drained(frames: seq<seq<byte>>, rest: seq<byte>)

  /** The buffer starts with a whole frame. */
  predicate HasFrame(buf: seq<byte>) {
    |buf| >= LEN_PREFIX && |buf| >= LEN_PREFIX + FromLe(buf[..LEN_PREFIX])
  }

  function Head(buf: seq<byte>): seq<byte>
    requires HasFrame(buf)
  {
    buf[LEN_PREFIX..LEN_PREFIX + FromLe(buf[..LEN_PREFIX])]
  }

  function Tail(buf: seq<byte>): (t: seq<byte>)
    requires HasFrame(buf)
    ensures |t| < |buf|
  {
    buf[LEN_PREFIX + FromLe(buf[..LEN_PREFIX])..]
  }

  function Drain(buf: seq<byte>): Drained
    decreases |buf|
  {
    if !HasFrame(buf) then Drained([], buf)
    else Drained([Head(buf)] + Drain(Tail(buf)).frames, Drain(Tail(buf)).rest)
  }

  class FrameReader {
    var buf: seq<byte>

    constructor ()
      ensures buf == []
    {
      buf := [];
    }

    method Feed(bytes: seq<byte>)
      modifies this
      ensures buf == old(buf) + bytes
    {
      buf := buf + bytes;
    }

    /** `drain_frames`: takes whole frames off the front until none is left. */
    method DrainFrames() returns (frames: seq<seq<byte>>)
      modifies this
      ensures frames == Drain(old(buf)).frames && buf == Drain(old(buf)).rest
    {
      frames := [];
      while HasFrame(buf)
        invariant frames + Drain(buf).frames == Drain(old(buf)).frames && Drain(buf).rest == Drain(old(buf)).rest
        decreases |buf|
      {
        Shift(frames, Head(buf), Drain(Tail(buf)).frames);
        frames := frames + [Head(buf)];
        buf := Tail(buf);
      }
    }
  }

  // ---- Conservation ----

  lemma FrameOfHead(buf: seq<byte>)
    requires HasFrame(buf)
    ensures FrameMsg(Head(buf)) + Tail(buf) == buf
  {
    Le32RoundTripBack(buf[..LEN_PREFIX]);
    assert buf == buf[..LEN_PREFIX] + Head(buf) + Tail(buf);
  }

  /** The bytes of a buffer are its frames, framed again, followed by the rest; no whole frame is left behind. */
  lemma {:induction false} DrainConserves(buf: seq<byte>)
    ensures FrameAll(Drain(buf).frames) + Drain(buf).rest == buf
    ensures !HasFrame(Drain(buf).rest)
    decreases |buf|
  {
    if HasFrame(buf) {
      FrameOfHead(buf);
      DrainConserves(Tail(buf));
      var fs, rest := Drain(Tail(buf)).frames, Drain(Tail(buf)).rest;
      FrameAllCons(Head(buf), fs);
      Assoc(FrameMsg(Head(buf)), FrameAll(fs), rest);
    }
  }

  lemma FrameAllCons(f: seq<byte>, fs: seq<seq<byte>>)
    ensures FrameAll([f] + fs) == FrameMsg(f) + FrameAll(fs)
  {
    assert ([f] + fs)[1..] == fs;
  }

  // ---- Chunking independence ----

  lemma HeadExtends(a: seq<byte>, b: seq<byte>)
    requires HasFrame(a)
    ensures HasFrame(a + b) && Head(a + b) == Head(a) && Tail(a + b) == Tail(a) + b
  {
    assert (a + b)[..LEN_PREFIX] == a[..LEN_PREFIX];
  }

  /** Draining in the middle of a stream changes nothing: what comes out later continues what came out before. */
  lemma {:induction false} DrainSplit(a: seq<byte>, b: seq<byte>)
    ensures Drain(a + b) == Drained(Drain(a).frames + Drain(Drain(a).rest + b).frames, Drain(Drain(a).rest + b).rest)
    decreases |a|
  {
    if HasFrame(a) {
      HeadExtends(a, b);
      DrainSplit(Tail(a), b);
    }
  }

  datatype ReaderOp = FeedOp(bytes: seq<byte>) | DrainOp

  /** Runs feeds and drains; collects every frame yielded. */
  function RunReader(buf: seq<byte>, ops: seq<ReaderOp>): Drained
    decreases |ops|
  {
    if ops == [] then Drained([], buf)
    else match ops[0]
      case FeedOp(bytes) => RunReader(buf + bytes, ops[1..])
      case DrainOp =>
        var r := RunReader(Drain(buf).rest, ops[1..]);
        Drained(Drain(buf).frames + r.frames, r.rest)
  }

  function Fed(ops: seq<ReaderOp>): seq<byte> {
    if ops == [] then [] else (if ops[0].FeedOp? then ops[0].bytes else []) + Fed(ops[1..])
  }

  lemma {:induction false} RunReaderFrom(buf: seq<byte>, ops: seq<ReaderOp>)
    ensures var r := RunReader(buf, ops);
            Drained(r.frames + Drain(r.rest).frames, Drain(r.rest).rest) == Drain(buf + Fed(ops))
    decreases |ops|
  {
    if ops == [] {
      assert buf + Fed(ops) == buf;
    } else if ops[0].FeedOp? {
      RunReaderFrom(buf + ops[0].bytes, ops[1..]);
      Assoc(buf, ops[0].bytes, Fed(ops[1..]));
    } else {
      var d := Drain(buf);
      RunReaderFrom(d.rest, ops[1..]);
      assert Fed(ops) == Fed(ops[1..]);
      DrainSplit(buf, Fed(ops));
      var r := RunReader(d.rest, ops[1..]);
      Assoc(d.frames, r.frames, Drain(r.rest).frames);
    }
  }

  /** However a stream is cut into feeds, with drains anywhere in between, the frames yielded are those of one
      feed and one drain, once a last drain has run. */
  lemma ChunkingIndependence(ops: seq<ReaderOp>)
    ensures var r := RunReader([], ops);
            Drained(r.frames + Drain(r.rest).frames, Drain(r.rest).rest) == Drain(Fed(ops))
  {
    RunReaderFrom([], ops);
    assert [] + Fed(ops) == Fed(ops);
  }

  // ---- Reading back what was framed ----

  lemma {:induction false} FrameAllConcat(a: seq<seq<byte>>, b: seq<seq<byte>>)
    ensures FrameAll(a + b) == FrameAll(a) + FrameAll(b)
    decreases |a|
  {
    if a == [] {
      assert a + b == b;
    } else {
      assert (a + b)[1..] == a[1..] + b;
      FrameAllConcat(a[1..], b);
      assert FrameMsg(a[0]) + (FrameAll(a[1..]) + FrameAll(b)) == (FrameMsg(a[0]) + FrameAll(a[1..])) + FrameAll(b);
    }
  }

  /** Two framed messages at the start of the same bytes are the same message. */
  lemma FrameUnique(f: seq<byte>, s: seq<byte>, m: seq<byte>, t: seq<byte>)
    requires FrameMsg(f) + s <= FrameMsg(m) + t && |f| < U32_LIMIT && |m| < U32_LIMIT
    ensures f == m && s <= t
  {
    var x, y := FrameMsg(f) + s, FrameMsg(m) + t;
    assert x[..4] == Le32(|f|) && y[..4] == Le32(|m|);
    assert x[..4] == y[..4];
    Le32RoundTrip(|f|);
    Le32RoundTrip(|m|);
    assert x[4..4 + |f|] == f && y[4..4 + |f|] == m;
    assert x[4 + |f|..] == s && y[4 + |f|..] == t;
    assert x == y[..|x|];
    assert s == t[..|s|];
  }

  /** Frames read from a prefix of a framed stream are the first messages of the stream. */
  lemma {:induction false} FramesPrefix(fs: seq<seq<byte>>, rest: seq<byte>, ms: seq<seq<byte>>)
    requires FrameAll(fs) + rest <= FrameAll(ms) && |FrameAll(ms)| < U32_LIMIT
    ensures fs <= ms
    decreases |fs|
  {
    if fs != [] {
      assert |FrameAll(fs)| >= |FrameMsg(fs[0])| >= 4;
      assert ms != [];
      assert FrameAll(fs) + rest == FrameMsg(fs[0]) + (FrameAll(fs[1..]) + rest);
      FrameUnique(fs[0], FrameAll(fs[1..]) + rest, ms[0], FrameAll(ms[1..]));
      FramesPrefix(fs[1..], rest, ms[1..]);
      assert fs == [fs[0]] + fs[1..] && ms == [ms[0]] + ms[1..];
    }
  }
}
