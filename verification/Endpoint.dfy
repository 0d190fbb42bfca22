/** What one endpoint keeps by itself, whatever arrives: its control state, congestion window and admission. */
module Endpoint {
  import opened Bytes
  import opened Segments
  import opened Rto
  import opened Transport

  /** RFC 5681 style bounds: at least one segment of window, at least two of threshold, both in 32 bits. */
  predicate CongestionOk(config: Config, tx: Tx) {
    config.segmentSize <= tx.cwnd <= MAX_U32 && 2 * config.segmentSize <= tx.ssthresh <= MAX_U32
  }

  /** Holds at every point inside a step of the endpoint. */
  predicate ControlOk(c: Conn) {
    && CongestionOk(c.config, c.tx)
    && c.rto.Valid() && c.rto.minRto == c.config.minRto && c.rto.maxRto == c.config.maxRto
    && (c.state == SynSent || c.state == SynReceived ==> c.handshake.Some?)
    && (c.handshake.Some? ==> c.handshake.value.attempts >= 1)
    && (c.tx.finPending.Some? ==>
          !c.tx.finAcked && c.tx.finPending.value.attempts >= 1 && (c.state == Closing || c.state == Failed))
    && (c.state == Closing || c.state == Closed ==> c.tx.closeRequested)
    && (c.state == Closed ==> c.tx.finAcked && c.rx.peerFinSeen)
  }

  /** Holds between the steps of the endpoint. */
  predicate EndpointOk(c: Conn) {
    ControlOk(c) && (c.state == Closing ==> !(c.tx.finAcked && c.rx.peerFinSeen))
  }

  // ---- Congestion window ----

  /** In congestion avoidance the increment is at least a byte and at most a segment, so its cast to u32 is exact. */
  lemma {:induction false} IncrementBounds(config: Config, cwnd: nat)
    requires cwnd >= config.segmentSize
    ensures 1 <= Increment(config, cwnd) <= config.segmentSize
  {
    var seg: nat := config.segmentSize;
    MulOrder(seg, seg, cwnd);
    var q := seg * seg / cwnd;
    MulOrder(cwnd, seg + 1, q);
    assert cwnd * q <= seg * seg;
    assert cwnd * (seg + 1) == seg * cwnd + cwnd;
  }

  lemma MulOrder(d: nat, x: nat, y: nat)
    ensures x <= y ==> d * x <= d * y
  {}

  lemma GrowKeepsCongestion(config: Config, tx: Tx, acked: nat)
    requires CongestionOk(config, tx)
    ensures tx.cwnd <= Grow(config, tx, acked) <= MAX_U32
  {}

  /** AIMD over every segment and timeout: the window never falls below a segment, the threshold never below two,
      and a timeout always re-enters slow start. */
  lemma TimeoutRestartsSlowStart(c: Conn)
    requires ControlOk(c) && c.Open() && DataTimedOut(c)
    ensures var tx := TickData(c).conn.tx;
            tx.cwnd == c.config.segmentSize < 2 * c.config.segmentSize <= tx.ssthresh
  {}

  // ---- Each step keeps the control invariant ----

  lemma {:induction false} SendLoopKeepsControl(c: Conn)
    requires ControlOk(c)
    ensures ControlOk(SendLoop(c).conn)
    ensures SendLoop(c).conn == c.(tx := c.tx.(sendQueue := SendLoop(c).conn.tx.sendQueue,
              nextSeq := SendLoop(c).conn.tx.nextSeq, unacked := SendLoop(c).conn.tx.unacked))
    ensures c.tx.unacked <= SendLoop(c).conn.tx.unacked && c.tx.nextSeq <= SendLoop(c).conn.tx.nextSeq
    decreases |c.tx.sendQueue|
  {
    var cap := Allowance(c.tx);
    if c.tx.sendQueue != [] && cap != 0 {
      SendLoopKeepsControl(Admit(c, Min(Min(c.config.segmentSize, |c.tx.sendQueue|), cap)));
    }
  }

  lemma DrainKeepsEndpoint(c: Conn)
    requires ControlOk(c)
    ensures EndpointOk(DrainAndMaybeFin(c).conn)
    ensures DrainAndMaybeFin(c).conn.rx == c.rx
  {
    SendLoopKeepsControl(c);
  }

  lemma {:induction false} AcknowledgeKeepsRto(u: seq<Unacked>, rto: Estimator, now: nat, ack: nat)
    requires rto.Valid()
    ensures var r := Acknowledge(u, rto, now, ack).1;
            r.Valid() && r.minRto == rto.minRto && r.maxRto == rto.maxRto
    decreases |u|
  {
    if u != [] && u[0].seqNo < ack {
      var rto' := if u[0].retransmitCount == 0 then rto.OnSample(SatSub(now, u[0].sentAt)) else rto;
      AcknowledgeKeepsRto(u[1..], rto', now, ack);
    }
  }

  lemma NewAckKeepsControl(c: Conn, ack: nat)
    requires ControlOk(c) && c.Open() && ack > c.tx.sendBase
    ensures ControlOk(NewAck(c, ack)) && NewAck(c, ack).Open()
  {
    AcknowledgeKeepsRto(c.tx.unacked, c.rto, c.now, ack);
    GrowKeepsCongestion(c.config, c.tx, ack - c.tx.sendBase);
  }

  lemma MarkKeepsControl(c: Conn, h: SegmentHeader)
    requires ControlOk(c) && c.Open()
    ensures ControlOk(ApplySackAndFin(c, h))
  {}

  lemma FastRetransmitKeepsControl(c: Conn)
    requires ControlOk(c) && c.Open() && c.tx.unacked != []
    ensures ControlOk(FastRetransmit(c).conn)
  {}

  lemma ApplyAckKeepsControl(c: Conn, h: SegmentHeader)
    requires ControlOk(c) && c.Open()
    ensures ControlOk(ApplyAck(c, h).conn)
  {
    if h.ack > c.tx.sendBase {
      NewAckKeepsControl(c, h.ack);
      MarkKeepsControl(NewAck(c, h.ack), h);
    } else if h.ack == c.tx.sendBase && c.tx.unacked != [] {
      if c.tx.dupAckCount + 1 == c.config.fastRetransmitDupAcks {
        FastRetransmitKeepsControl(c);
      } else {
        MarkKeepsControl(c.(tx := c.tx.(dupAckCount := c.tx.dupAckCount + 1)), h);
      }
    } else {
      MarkKeepsControl(c, h);
    }
  }

  lemma HandshakeKeepsEndpoint(c: Conn, g: Segment)
    requires EndpointOk(c)
    ensures EndpointOk(Handshake(c, g).0.conn)
  {}

  lemma ProcessOpenKeepsEndpoint(c: Conn, g: Segment)
    requires ControlOk(c) && c.Open()
    ensures EndpointOk(ProcessOpen(c, g).conn)
  {
    var acked := if g.ack then ApplyAck(c, g.header) else Outcome(c, []);
    ApplyAckKeepsControl(c, g.header);
    var c1 := acked.conn.(rx := ReceiveSegment(acked.conn.rx, g));
    ReceiveKeepsFinSeen(acked.conn.rx, g);
    DrainKeepsEndpoint(c1);
  }

  lemma ReceiveKeepsFinSeen(rx: Rx, g: Segment)
    ensures ReceiveSegment(rx, g).peerFinSeen == (rx.peerFinSeen || g.fin)
  {
    var end := g.seqNo + |g.data|;
    if g.seqNo <= rx.expectedSeq < end {
      DrainBufferKeepsFinSeen(rx.(delivered := rx.delivered + g.data[rx.expectedSeq - g.seqNo..], expectedSeq := end));
    }
  }

  lemma {:induction false} DrainBufferKeepsFinSeen(rx: Rx)
    ensures DrainBuffer(rx).peerFinSeen == rx.peerFinSeen
    decreases rx.recvBuffer.Keys
  {
    if rx.expectedSeq in rx.recvBuffer {
      DrainBufferKeepsFinSeen(TakeInOrder(rx, rx.recvBuffer[rx.expectedSeq]));
    }
  }

  lemma OnSegmentKeepsEndpoint(c: Conn, now: nat, g: Segment)
    requires EndpointOk(c)
    ensures EndpointOk(OnSegment(c, now, g).conn)
  {
    var c1 := AdoptWindow(c, now, g.header.window);
    HandshakeKeepsEndpoint(c1, g);
    var (hs, done) := Handshake(c1, g);
    if hs.conn.Open() { ProcessOpenKeepsEndpoint(hs.conn, g); }
  }

  lemma TickDataKeepsControl(c: Conn)
    requires ControlOk(c) && c.Open()
    ensures ControlOk(TickData(c).conn)
    ensures TickData(c).conn.state == c.state || TickData(c).conn.state == Failed
  {}

  lemma TickFinKeepsControl(c: Conn)
    requires ControlOk(c) && c.Open()
    ensures ControlOk(TickFin(c).conn)
    ensures TickFin(c).conn.state == c.state || TickFin(c).conn.state == Failed
  {}

  lemma TickHandshakeKeepsEndpoint(c: Conn)
    requires EndpointOk(c) && (c.state == SynSent || c.state == SynReceived)
    ensures EndpointOk(TickHandshake(c).conn)
  {}

  lemma OnTickKeepsEndpoint(c: Conn, now: nat)
    requires EndpointOk(c)
    ensures EndpointOk(OnTick(c, now).conn)
  {
    var c1 := AdvanceClock(c, now);
    if c1.state == SynSent || c1.state == SynReceived {
      TickHandshakeKeepsEndpoint(c1);
    } else if c1.Open() {
      TickDataKeepsControl(c1);
      var c2 := TickData(c1).conn;
      if c2.state != Failed {
        TickFinKeepsControl(c2);
        DrainKeepsEndpoint(TickFin(c2).conn);
      }
    }
  }

  lemma SendKeepsEndpoint(c: Conn, now: nat, data: seq<byte>)
    requires EndpointOk(c)
    ensures EndpointOk(Send(c, now, data).conn)
  {
    var c1 := AdvanceClock(c, now);
    DrainKeepsEndpoint(c1.(tx := c1.tx.(sendQueue := c1.tx.sendQueue + data)));
  }

  lemma CloseKeepsEndpoint(c: Conn, now: nat)
    requires EndpointOk(c)
    ensures EndpointOk(Close(c, now).conn)
  {
    var c1 := AdvanceClock(c, now);
    DrainKeepsEndpoint(c1.(tx := c1.tx.(closeRequested := true)));
  }

  // ---- Admission ----

  lemma {:induction false} InFlightConcat(u: seq<Unacked>, v: seq<Unacked>)
    ensures InFlight(u + v) == InFlight(u) + InFlight(v)
    decreases |u|
  {
    if u == [] {
      assert u + v == v;
    } else {
      assert (u + v)[1..] == u[1..] + v;
      InFlightConcat(u[1..], v);
    }
  }

  /** One admission pass leaves at most what was in flight, or the effective window, or a one-byte probe. */
  lemma {:induction false} AdmissionBound(c: Conn)
    ensures var limit := Min(c.tx.peerWindow, c.tx.cwnd);
            InFlight(SendLoop(c).conn.tx.unacked) <= Max(Max(InFlight(c.tx.unacked), limit), 1)
    decreases |c.tx.sendQueue|
  {
    var cap := Allowance(c.tx);
    if c.tx.sendQueue != [] && cap != 0 {
      var len := Min(Min(c.config.segmentSize, |c.tx.sendQueue|), cap);
      AdmitAdds(c, len);
      AdmissionBound(Admit(c, len));
    }
  }

  /** Exactly when a pass leaves no more in flight than the effective window: it was not exceeded before, and there was
      no occasion for a probe into a closed window. */
  lemma {:induction false} AdmissionWithinExactly(c: Conn)
    ensures InFlight(SendLoop(c).conn.tx.unacked) <= EffectiveWindow(c.tx) <==>
              && InFlight(c.tx.unacked) <= EffectiveWindow(c.tx)
              && (EffectiveWindow(c.tx) > 0 || c.tx.sendQueue == [])
    decreases |c.tx.sendQueue|
  {
    var cap := Allowance(c.tx);
    if c.tx.sendQueue != [] && cap != 0 {
      var len := Min(Min(c.config.segmentSize, |c.tx.sendQueue|), cap);
      AdmitAdds(c, len);
      AdmissionWithinExactly(Admit(c, len));
    }
  }

  lemma AdmitAdds(c: Conn, len: nat)
    requires len <= |c.tx.sendQueue|
    ensures InFlight(Admit(c, len).tx.unacked) == InFlight(c.tx.unacked) + len
  {
    var added := [Unacked(c.tx.nextSeq, c.tx.sendQueue[..len], c.now, 0, false)];
    InFlightConcat(c.tx.unacked, added);
    assert InFlight(added) == len + InFlight(added[1..]);
  }

  /** The pass stops only when the queue is empty or the window is used up. */
  lemma {:induction false} AdmissionExhausts(c: Conn)
    ensures SendLoop(c).conn.tx.sendQueue == [] || Allowance(SendLoop(c).conn.tx) == 0
    decreases |c.tx.sendQueue|
  {
    var cap := Allowance(c.tx);
    if c.tx.sendQueue != [] && cap != 0 {
      AdmissionExhausts(Admit(c, Min(Min(c.config.segmentSize, |c.tx.sendQueue|), cap)));
    }
  }

  lemma InFlightSuffix(u: seq<Unacked>, n: nat)
    requires n <= |u|
    ensures InFlight(u[n..]) <= InFlight(u)
  {
    InFlightConcat(u[..n], u[n..]);
    assert u == u[..n] + u[n..];
  }

  lemma {:induction false} InFlightSame(u: seq<Unacked>, v: seq<Unacked>)
    requires |u| == |v| && forall i :: 0 <= i < |u| ==> u[i].data == v[i].data
    ensures InFlight(u) == InFlight(v)
    decreases |u|
  {
    if u != [] { InFlightSame(u[1..], v[1..]); }
  }

  lemma {:induction false} AcknowledgeSuffix(u: seq<Unacked>, rto: Estimator, now: nat, ack: nat) returns (n: nat)
    ensures n <= |u| && Acknowledge(u, rto, now, ack).0 == u[n..]
    decreases |u|
  {
    if u == [] || u[0].seqNo >= ack {
      n := 0;
    } else {
      var rto' := if u[0].retransmitCount == 0 then rto.OnSample(SatSub(now, u[0].sentAt)) else rto;
      var k := AcknowledgeSuffix(u[1..], rto', now, ack);
      n := k + 1;
      assert u[1..][k..] == u[n..];
    }
  }

  lemma ApplyAckShrinksInFlight(c: Conn, h: SegmentHeader)
    ensures InFlight(ApplyAck(c, h).conn.tx.unacked) <= InFlight(c.tx.unacked)
    ensures ApplyAck(c, h).conn.tx.peerWindow == c.tx.peerWindow
  {
    var u := c.tx.unacked;
    if h.ack > c.tx.sendBase {
      var n := AcknowledgeSuffix(u, c.rto, c.now, h.ack);
      InFlightSuffix(u, n);
      InFlightSame(u[n..], MarkSacked(u[n..], h.sack));
    } else {
      InFlightSame(u, MarkSacked(u, h.sack));
      if u != [] { InFlightSame(u, u[0 := Retransmitted(u[0], c.now)]); }
    }
  }

  lemma DrainAdmission(c: Conn, limit: nat)
    requires InFlight(c.tx.unacked) <= Max(limit, 1) && (c.Open() ==> c.tx.peerWindow <= limit)
    ensures InFlight(DrainAndMaybeFin(c).conn.tx.unacked) <= Max(limit, 1)
    ensures DrainAndMaybeFin(c).conn.Open() ==> c.Open()
    ensures DrainAndMaybeFin(c).conn.tx.peerWindow == c.tx.peerWindow
  {
    AdmissionBound(c);
    SendLoopFrame(c);
  }

  lemma {:induction false} SendLoopFrame(c: Conn)
    ensures SendLoop(c).conn.tx.peerWindow == c.tx.peerWindow && SendLoop(c).conn.state == c.state
    ensures SendLoop(c).conn.tx.cwnd == c.tx.cwnd && SendLoop(c).conn.tx.closeRequested == c.tx.closeRequested
    decreases |c.tx.sendQueue|
  {
    var cap := Allowance(c.tx);
    if c.tx.sendQueue != [] && cap != 0 {
      SendLoopFrame(Admit(c, Min(Min(c.config.segmentSize, |c.tx.sendQueue|), cap)));
    }
  }
}
