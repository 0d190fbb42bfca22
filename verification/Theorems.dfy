/** What the invariant means: the properties of every state of every run. */
module Theorems {
  import opened Bytes
  import opened Segments
  import opened Rto
  import opened Transport
  import opened Network
  import opened SendSafety
  import opened Sack
  import opened ReceiveSafety
  import opened Endpoint
  import opened Session
  import opened Safety

  /** Both sides of a state of a run, in either order. */
  ghost predicate InRun(t: seq<System>, i: nat, x: Side, y: Side) {
    IsRun(t) && i < |t| && ((x == t[i].a && y == t[i].b) || (x == t[i].b && y == t[i].a))
  }

  lemma PairInRun(t: seq<System>, i: nat, x: Side, y: Side) returns (cx: seq<nat>, cy: seq<nat>)
    requires InRun(t, i, x, y)
    ensures PairOk(x, y, cx, cy)
    ensures HandshakeOk(x, y) || HandshakeOk(y, x)
  {
    RunKeepsInv(t, i);
    var ca, cb :| InvWith(t[i], ca, cb);
    PairSwap(t[i].a, t[i].b, ca, cb);
    if x == t[i].a && y == t[i].b { cx, cy := ca, cb; } else { cx, cy := cb, ca; }
  }

  // ---- Stream safety ----

  /** Everything a side has ever delivered, taken by the application or not, is exactly the first
      `expected_seq` bytes of what the peer's application sent, whatever the network did and whoever failed. */
  lemma StreamSafety(t: seq<System>, i: nat, x: Side, y: Side)
    requires InRun(t, i, x, y)
    ensures y.conn.rx.expectedSeq <= |x.stream|
    ensures y.recvd + y.conn.rx.delivered == x.stream[..y.conn.rx.expectedSeq]
  {
    var cx, cy := PairInRun(t, i, x, y);
  }

  // ---- Sender tiling and acknowledgement bracket ----

  /** `data` is what the stream holds from offset `k` on. */
  predicate BytesAt(stream: seq<byte>, k: nat, data: seq<byte>) {
    k + |data| <= |stream| && data == stream[k..k + |data|]
  }

  /** Consecutive unacknowledged segments cover [base, end) of the stream without gap or overlap. */
  ghost predicate TilesRange(u: seq<Unacked>, base: nat, end: nat, stream: seq<byte>) {
    && (u == [] ==> base == end)
    && (u != [] ==> u[0].seqNo == base && u[|u| - 1].seqNo + |u[|u| - 1].data| == end)
    && (forall i :: 0 <= i < |u| - 1 ==> u[i].seqNo + |u[i].data| == u[i + 1].seqNo)
    && (forall i :: 0 <= i < |u| ==> u[i].data != [] && BytesAt(stream, u[i].seqNo, u[i].data))
  }

  lemma TiledCovers(c: Conn, stream: seq<byte>, cuts: seq<nat>)
    requires SenderOk(c, stream, cuts) && c.state != Failed
    ensures TilesRange(c.tx.unacked, c.tx.sendBase, c.tx.nextSeq, stream)
  {
    var u := c.tx.unacked;
    forall i | 0 <= i < |u| ensures u[i].data != [] && BytesAt(stream, u[i].seqNo, u[i].data) {
      TiledPiece(c, stream, cuts, i);
    }
    forall i | 0 <= i < |u| - 1 ensures u[i].seqNo + |u[i].data| == u[i + 1].seqNo {
      TiledJoin(u, c.tx.sendBase, stream, cuts, i);
    }
    if u != [] { TiledEnds(u, c.tx.sendBase, stream, cuts); }
  }

  lemma TiledPiece(c: Conn, stream: seq<byte>, cuts: seq<nat>, i: nat)
    requires SenderOk(c, stream, cuts) && c.state != Failed && i < |c.tx.unacked|
    ensures var u := c.tx.unacked[i]; u.data != [] && BytesAt(stream, u.seqNo, u.data)
  {
    var u := c.tx.unacked;
    UnackedNonempty(c, stream, cuts);
    assert SegmentAt(stream, cuts, |cuts| - 1 - |u| + i, u[i].seqNo, u[i].data);
  }

  lemma TiledJoin(u: seq<Unacked>, base: nat, stream: seq<byte>, cuts: seq<nat>, i: nat)
    requires Tiled(u, base, stream, cuts) && i + 1 < |u|
    ensures u[i].seqNo + |u[i].data| == u[i + 1].seqNo
  {
    var b := |cuts| - 1 - |u|;
    assert SegmentAt(stream, cuts, b + i, u[i].seqNo, u[i].data);
    assert SegmentAt(stream, cuts, b + (i + 1), u[i + 1].seqNo, u[i + 1].data);
  }

  lemma TiledEnds(u: seq<Unacked>, base: nat, stream: seq<byte>, cuts: seq<nat>)
    requires Tiled(u, base, stream, cuts) && u != []
    ensures u[0].seqNo == base && u[|u| - 1].seqNo + |u[|u| - 1].data| == cuts[|cuts| - 1]
  {
    var b := |cuts| - 1 - |u|;
    assert SegmentAt(stream, cuts, b + 0, u[0].seqNo, u[0].data);
    assert SegmentAt(stream, cuts, b + (|u| - 1), u[|u| - 1].seqNo, u[|u| - 1].data);
  }

  lemma {:induction false} TilesAdvance(u: seq<Unacked>, base: nat, end: nat, stream: seq<byte>)
    requires TilesRange(u, base, end, stream) && u != []
    ensures base < end
    decreases |u|
  {
    if |u| > 1 {
      var rest := u[1..];
      assert forall i :: 0 <= i < |rest| ==> rest[i] == u[i + 1];
      TilesAdvance(rest, u[1].seqNo, end, stream);
    }
  }

  lemma SenderTiling(t: seq<System>, i: nat, x: Side, y: Side)
    requires InRun(t, i, x, y)
    ensures x.conn.state != Failed ==> TilesRange(x.conn.tx.unacked, x.conn.tx.sendBase, x.conn.tx.nextSeq, x.stream)
    ensures x.conn.tx.sendBase <= y.conn.rx.expectedSeq <= x.conn.tx.nextSeq <= |x.stream|
    ensures x.conn.tx.sendQueue == x.stream[x.conn.tx.nextSeq..]
  {
    var cx, cy := PairInRun(t, i, x, y);
    Bracket(x, y, cx);
    if x.conn.state != Failed { TiledCovers(x.conn, x.stream, cx); }
  }

  lemma AckCutsNoSegment(x: Side, y: Side, cuts: seq<nat>, ack: nat, k: nat)
    requires Direction(x, y, cuts) && Acked(y.sent, ack) && x.conn.state != Failed && k < |x.conn.tx.unacked|
    ensures var u := x.conn.tx.unacked[k]; u.seqNo < ack ==> u.seqNo + |u.data| <= ack
  {
    var u := x.conn.tx.unacked;
    TiledSegments(u, x.conn.tx.sendBase, x.stream, cuts);
    NoCutInside(x.stream, cuts, x.conn.tx.nextSeq, u[k].seqNo, u[k].data, ack);
  }

  /** An acknowledgement in flight never covers an undelivered byte, and it never cuts a segment in two:
      every entry that starts below it also ends at or below it. */
  lemma AcksAreSafe(t: seq<System>, i: nat, x: Side, y: Side, g: Segment)
    requires InRun(t, i, x, y) && g in y.sent && x.conn.state != Failed
    ensures g.header.ack <= y.conn.rx.expectedSeq
    ensures forall k :: 0 <= k < |x.conn.tx.unacked| && x.conn.tx.unacked[k].seqNo < g.header.ack ==>
              x.conn.tx.unacked[k].seqNo + |x.conn.tx.unacked[k].data| <= g.header.ack
  {
    var cx, cy := PairInRun(t, i, x, y);
    assert Acked(y.sent, g.header.ack);
    forall k | 0 <= k < |x.conn.tx.unacked| && x.conn.tx.unacked[k].seqNo < g.header.ack
      ensures x.conn.tx.unacked[k].seqNo + |x.conn.tx.unacked[k].data| <= g.header.ack
    {
      AckCutsNoSegment(x, y, cx, g.header.ack, k);
    }
  }

  // ---- Selective acknowledgement ----

  /** A marked segment is wholly delivered or wholly buffered at the peer. */
  predicate WhollyHeld(rx: Rx, u: Unacked) {
    u.seqNo + |u.data| <= rx.expectedSeq || (u.seqNo in rx.recvBuffer && rx.recvBuffer[u.seqNo] == u.data)
  }

  lemma SegmentUnique(stream: seq<byte>, cuts: seq<nat>, last: nat, k: nat, d: seq<byte>, e: seq<byte>)
    requires IsCuts(cuts, last) && IsSegment(stream, cuts, k, d) && IsSegment(stream, cuts, k, e)
    ensures d == e
  {
    var i :| SegmentAt(stream, cuts, i, k, d);
    var j :| SegmentAt(stream, cuts, j, k, e);
    CutOrder(cuts, last, i, j);
    CutOrder(cuts, last, j, i);
  }

  lemma MarkedIsHeld(x: Side, y: Side, cuts: seq<nat>, k: nat)
    requires Direction(x, y, cuts) && x.conn.state != Failed && k < |x.conn.tx.unacked| && x.conn.tx.unacked[k].sacked
    ensures WhollyHeld(y.conn.rx, x.conn.tx.unacked[k])
  {
    var u, rx := x.conn.tx.unacked, y.conn.rx;
    var last := x.conn.tx.nextSeq;
    assert SegmentAt(x.stream, cuts, |cuts| - 1 - |u| + k, u[k].seqNo, u[k].data);
    NoCutInside(x.stream, cuts, last, u[k].seqNo, u[k].data, rx.expectedSeq);
    assert HeldAt(rx, u[k].seqNo);
    if u[k].seqNo in rx.recvBuffer {
      SegmentUnique(x.stream, cuts, last, u[k].seqNo, u[k].data, rx.recvBuffer[u[k].seqNo]);
    }
  }

  lemma OldestUnmarked(x: Side, y: Side, cuts: seq<nat>)
    requires Direction(x, y, cuts) && x.conn.state != Failed && x.conn.tx.unacked != []
    ensures !x.conn.tx.unacked[0].sacked && x.conn.tx.unacked[0].seqNo == x.conn.tx.sendBase
  {
    TiledStarts(x.conn.tx.unacked, x.conn.tx.sendBase, x.stream, cuts);
  }

  /** SACK soundness: a marked segment is held by the peer, and the oldest segment is never marked. */
  lemma SackSoundness(t: seq<System>, i: nat, x: Side, y: Side)
    requires InRun(t, i, x, y) && x.conn.state != Failed
    ensures forall k :: 0 <= k < |x.conn.tx.unacked| && x.conn.tx.unacked[k].sacked ==>
              k > 0 && WhollyHeld(y.conn.rx, x.conn.tx.unacked[k])
  {
    var cx, cy := PairInRun(t, i, x, y);
    var u := x.conn.tx.unacked;
    forall k | 0 <= k < |u| && u[k].sacked ensures k > 0 && WhollyHeld(y.conn.rx, u[k]) {
      OldestUnmarked(x, y, cx);
      MarkedIsHeld(x, y, cx, k);
    }
  }

  // ---- Receive buffer ----

  /** Buffered data lies strictly beyond the cumulative point, does not overlap and is authentic; the advertised
      ranges are the first at most four maximal runs held. */
  lemma ReceiveBufferHygiene(t: seq<System>, i: nat, x: Side, y: Side)
    requires InRun(t, i, x, y)
    ensures var rx := y.conn.rx;
            && (forall k :: k in rx.recvBuffer ==> rx.expectedSeq < k && BytesAt(x.stream, k, rx.recvBuffer[k]))
            && Clean(rx.recvBuffer)
            && FirstRuns(rx.recvBuffer, MAX_SACK_RANGES, Runs(rx.recvBuffer, MAX_SACK_RANGES))
            && (forall z: nat :: InRanges(Runs(rx.recvBuffer, MAX_SACK_RANGES), z) ==> rx.expectedSeq < z)
  {
    var cx, cy := PairInRun(t, i, x, y);
    var rx, last := y.conn.rx, x.conn.tx.nextSeq;
    ReceiverClean(rx, y.recvd, x.stream, cx, last);
    RunsAreMaximal(rx.recvBuffer, MAX_SACK_RANGES);
    forall z: nat | InRanges(Runs(rx.recvBuffer, MAX_SACK_RANGES), z) ensures rx.expectedSeq < z {
      AdvertisedHeld(rx, y.recvd, x.stream, cx, last, MAX_SACK_RANGES, z);
    }
  }

  // ---- Teardown ----

  /** If neither side sends after `close`: a side that sees the peer as closed has all of the peer's bytes, and
      a side that is closed has delivered and been delivered everything and its own FIN has been seen. */
  lemma TeardownSoundness(t: seq<System>, i: nat, x: Side, y: Side)
    requires InRun(t, i, x, y) && !x.late && !y.late
    ensures y.conn.rx.peerFinSeen ==> y.recvd + y.conn.rx.delivered == x.stream
    ensures x.conn.state == Closed ==>
              && y.recvd + y.conn.rx.delivered == x.stream
              && x.recvd + x.conn.rx.delivered == y.stream
              && y.conn.rx.peerFinSeen && x.conn.rx.peerFinSeen
  {
    var cx, cy := PairInRun(t, i, x, y);
    assert x.stream[..|x.stream|] == x.stream && y.stream[..|y.stream|] == y.stream;
  }

  // ---- Flow control and the wire ----

  /** In-flight bytes never exceed what the peer is willing to buffer, or one probe byte. */
  lemma AdmissionOverRuns(t: seq<System>, i: nat, x: Side, y: Side)
    requires InRun(t, i, x, y)
    ensures InFlight(x.conn.tx.unacked) <= Max(y.conn.config.recvWindowCapacity, 1)
  {
    var cx, cy := PairInRun(t, i, x, y);
  }

  lemma SentFits(x: Side, y: Side, cx: seq<nat>, cy: seq<nat>, g: Segment)
    requires PairOk(x, y, cx, cy) && g in x.sent
    ensures SegmentFits(g)
  {
    Bracket(x, y, cx);
    Bracket(y, x, cy);
    assert Acked(x.sent, g.header.ack);
    if g.data != [] { NoCutInside(x.stream, cx, x.conn.tx.nextSeq, g.seqNo, g.data, 0); }
    var rs := g.header.sack;
    forall k | 0 <= k < |rs| ensures rs[k].start < U32_LIMIT && rs[k].end < U32_LIMIT {
      assert rs[k] in rs && InRange(rs[k], rs[k].end);
      assert Reported(x.sent, rs[k].end);
    }
  }

  /** Nothing wraps around on the wire: each segment ever sent is read back exactly as it was meant. */
  lemma {:induction false} WireFaithful(t: seq<System>, i: nat, x: Side, y: Side, g: Segment)
    requires InRun(t, i, x, y) && g in x.sent
    ensures ParseSegment(EncodeSegment(g)) == Some(g)
  {
    var cx, cy := PairInRun(t, i, x, y);
    SentFits(x, y, cx, cy, g);
    SegmentRoundTrip(g);
  }

  // ---- Congestion control and the timer ----

  /** AIMD over every run: the window keeps at least one segment and the threshold at least two, so the increment of
      congestion avoidance is between a byte and a segment, and a data timeout always re-enters slow start. */
  lemma CongestionOverRuns(t: seq<System>, i: nat, x: Side, y: Side)
    requires InRun(t, i, x, y)
    ensures x.conn.config.segmentSize <= x.conn.tx.cwnd <= MAX_U32
    ensures 2 * x.conn.config.segmentSize <= x.conn.tx.ssthresh <= MAX_U32
    ensures 1 <= Increment(x.conn.config, x.conn.tx.cwnd) <= x.conn.config.segmentSize
    ensures x.conn.Open() && DataTimedOut(x.conn) ==> TickData(x.conn).conn.tx.cwnd < TickData(x.conn).conn.tx.ssthresh
    ensures x.conn.config.minRto <= x.conn.rto.Current() <= x.conn.config.maxRto
  {
    var cx, cy := PairInRun(t, i, x, y);
    IncrementBounds(x.conn.config, x.conn.tx.cwnd);
    CurrentBounds(x.conn.rto);
    if x.conn.Open() && DataTimedOut(x.conn) { TimeoutRestartsSlowStart(x.conn); }
  }

  // ---- Handshake ----

  /** Neither side is open before the other has taken part in the handshake. */
  lemma HandshakeAgreement(t: seq<System>, i: nat)
    requires IsRun(t) && i < |t|
    ensures WasOpen(t[i].a.conn) ==> t[i].b.conn.state != Listening
    ensures WasOpen(t[i].b.conn) ==> t[i].a.conn.state != SynSent
  {
    RunKeepsInv(t, i);
  }
}
