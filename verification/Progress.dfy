/** No stuck hole: a retransmission sweep always resends the oldest byte, and one round trip gets it acknowledged. */
module Progress {
  import opened Bytes
  import opened Segments
  import opened Transport
  import opened Network
  import opened SendSafety
  import opened ReceiveSafety
  import opened Endpoint
  import opened Session
  import opened Safety
  import opened Theorems

  /** While data of `x` is outstanding its peer is in a state that takes data, unless it has failed. */
  lemma PeerTakesData(x: Side, y: Side, cx: seq<nat>, cy: seq<nat>)
    requires PairOk(x, y, cx, cy) && (HandshakeOk(x, y) || HandshakeOk(y, x))
    requires x.conn.Open() && x.conn.tx.unacked != [] && !x.late
    ensures y.conn.state == SynReceived || y.conn.Open() || y.conn.state == Failed
  {
    CutOrder(cx, x.conn.tx.nextSeq, |cx| - 1 - |x.conn.tx.unacked|, |cx| - 1);
  }

  /** The frame that the sweep sends for the oldest segment. */
  function OldestFrame(c: Conn): Segment
    requires c.tx.unacked != []
  {
    Data(c.config, c.rx, c.tx.unacked[0].seqNo, c.tx.unacked[0].data)
  }

  lemma SweepResendsOldest(c: Conn, now: nat)
    requires c.Open() && c.tx.unacked != [] && !c.tx.unacked[0].sacked && DataTimedOut(AdvanceClock(c, now))
    ensures OldestFrame(c) in OnTick(c, now).out
  {
    var c1 := AdvanceClock(c, now);
    var out := TickData(c1).out;
    assert out[0] == OldestFrame(c);
    assert out[0] in out;
  }

  lemma TickStaysOpen(c: Conn, now: nat)
    requires EndpointOk(c) && c.Open() && OnTick(c, now).conn.state != Failed
    ensures OnTick(c, now).conn.Open()
  {
    var c1 := AdvanceClock(c, now);
    TickDataKeepsControl(c1);
    var c2 := TickData(c1).conn;
    var c3 := TickFin(c2).conn;
    SendLoopQuiet(c3);
  }

  lemma PeerAnswers(y: Side, now: nat, g: Segment)
    requires y.conn.state == SynReceived || y.conn.Open()
    requires g.ack && !g.syn && !g.fin && g.data != []
    ensures Processed(y.conn, now, g)
    ensures exists r :: r in OnSegment(y.conn, now, g).out && r.ack && !r.syn && !r.fin
              && r.header.ack == OnSegment(y.conn, now, g).conn.rx.expectedSeq
  {
    var c1 := AdoptWindow(y.conn, now, g.header.window);
    var hs := Handshake(c1, g).0;
    var acked := ApplyAck(hs.conn, g.header);
    ApplyAckBuilt(hs.conn, g.header);
    var c2 := acked.conn.(rx := ReceiveSegment(acked.conn.rx, g));
    DrainBuilt(c2);
    var r := PureAck(c2, false);
    assert r in acked.out + [r] + DrainAndMaybeFin(c2).out;
    assert r in OnSegment(y.conn, now, g).out;
  }

  lemma AckAdvances(c: Conn, now: nat, r: Segment)
    requires c.Open() && r.ack && !r.syn && !r.fin && r.header.ack > c.tx.sendBase
    ensures OnSegment(c, now, r).conn.tx.sendBase == r.header.ack
  {
    var c1 := AdoptWindow(c, now, r.header.window);
    ApplyAckFin(c1, r.header);
    var acked := ApplyAck(c1, r.header);
    DrainQuiet(acked.conn.(rx := ReceiveSegment(acked.conn.rx, r)));
  }

  lemma TakenPast(rx: Rx, g: Segment, recvd: seq<byte>, stream: seq<byte>, cuts: seq<nat>, last: nat)
    requires ReceiverOk(rx, recvd, stream, cuts) && IsCuts(cuts, last)
    requires IsSegment(stream, cuts, g.seqNo, g.data) && g.data != [] && g.seqNo <= rx.expectedSeq
    ensures ReceiveSegment(rx, g).expectedSeq > g.seqNo
  {
    DeliverKeeps(rx, g.seqNo, g.data, recvd, stream, cuts, last);
  }

  /** Receiving the oldest outstanding segment takes the peer past it. */
  lemma OldestFrameIsTaken(x: Side, y: Side, cuts: seq<nat>, now: nat)
    requires Direction(x, y, cuts) && x.conn.state != Failed && x.conn.tx.unacked != []
    requires y.conn.state == SynReceived || y.conn.Open()
    ensures OnSegment(y.conn, now, OldestFrame(x.conn)).conn.rx.expectedSeq > x.conn.tx.sendBase
  {
    var g := OldestFrame(x.conn);
    OldestUnmarked(x, y, cuts);
    UnackedNonempty(x.conn, x.stream, cuts);
    Bracket(x, y, cuts);
    assert IsSegment(x.stream, cuts, g.seqNo, g.data) by {
      TiledSegments(x.conn.tx.unacked, x.conn.tx.sendBase, x.stream, cuts);
    }
    TakenPast(y.conn.rx, g, y.recvd, x.stream, cuts, x.conn.tx.nextSeq);
    PeerAnswers(y, now, g);
    OnSegmentBuilt(y.conn, now, g);
  }

  /** In every run: when the data timer of an open side fires and the side does not give up, the sweep sends the
      bytes at `send_base`; delivering that frame to a peer that has not failed produces an acknowledgement whose
      delivery strictly advances `send_base`. */
  lemma NoStuckHole(t: seq<System>, i: nat, x: Side, y: Side, now: nat, later: nat, last: nat)
    requires InRun(t, i, x, y) && !x.late
    requires x.conn.Open() && x.conn.tx.unacked != [] && DataTimedOut(AdvanceClock(x.conn, now))
    requires Apply(x, Tick(now)).conn.state != Failed && y.conn.state != Failed
    ensures var x1 := Apply(x, Tick(now));
            var g := OldestFrame(x.conn);
            && g.seqNo == x.conn.tx.sendBase && g in x1.sent
            && exists r :: r in Effect(y.conn, Receive(later, g)).out
                 && Apply(x1, Receive(last, r)).conn.tx.sendBase > x.conn.tx.sendBase
  {
    var cx, cy := PairInRun(t, i, x, y);
    OldestUnmarked(x, y, cx);
    PeerTakesData(x, y, cx, cy);
    SweepResendsOldest(x.conn, now);
    TickStaysOpen(x.conn, now);
    OnTickQuiet(x.conn, now);
    var x1, g := Apply(x, Tick(now)), OldestFrame(x.conn);
    UnackedNonempty(x.conn, x.stream, cx);
    PeerAnswers(y, later, g);
    OldestFrameIsTaken(x, y, cx, later);
    var r :| r in OnSegment(y.conn, later, g).out && r.ack && !r.syn && !r.fin
             && r.header.ack == OnSegment(y.conn, later, g).conn.rx.expectedSeq;
    AckAdvances(x1.conn, last, r);
    assert r in Effect(y.conn, Receive(later, g)).out;
  }
}
