/** Handshake, teardown and flow control: what two endpoints keep together beside the streams. */
module Session {
  import opened Bytes
  import opened Segments
  import opened Rto
  import opened Transport
  import opened Network
  import opened ReceiveSafety
  import opened Endpoint

  ghost predicate FinSent(sent: set<Segment>) { exists g :: g in sent && g.fin }

  ghost predicate FinIn(out: seq<Segment>) { exists g :: g in out && g.fin }

  /** The connection is or has been open. */
  predicate WasOpen(c: Conn) { c.state == Established || c.state == Closing || c.state == Closed }

  // ---- What a step of one endpoint may do to its FIN and its state ----

  /** Close was requested and everything queued has been sent and acknowledged. */
  predicate AllSettled(c: Conn) {
    c.tx.closeRequested && c.tx.sendQueue == [] && c.tx.unacked == [] && c.state != Failed
  }

  /** A FIN leaves only when one is pending, or when everything queued has been sent and acknowledged. */
  ghost predicate FinStep(c: Conn, r: Outcome) {
    && (c.tx.closeRequested ==> r.conn.tx.closeRequested)
    && (FinIn(r.out) ==> c.tx.finPending.Some? || AllSettled(r.conn))
    && (r.conn.tx.finPending.Some? ==> c.tx.finPending.Some? || FinIn(r.out))
  }

  /** A step that no segment caused: it opens nothing. */
  ghost predicate QuietStep(c: Conn, r: Outcome) {
    && FinStep(c, r)
    && (r.conn.tx.finAcked ==> c.tx.finAcked)
    && r.conn.tx.sendBase == c.tx.sendBase
    && (WasOpen(r.conn) ==> WasOpen(c))
    && (r.conn.Open() ==> c.Open())
    && (r.conn.state == Listening ==> c.state == Listening && r.out == [])
    && (r.conn.state == SynSent ==> c.state == SynSent && forall g :: g in r.out ==> !g.ack)
    && (r.conn.state == SynReceived ==> c.state == SynReceived)
  }

  lemma {:induction false} SendLoopQuiet(c: Conn)
    ensures var r := SendLoop(c);
            && r.conn.tx.closeRequested == c.tx.closeRequested && r.conn.tx.finPending == c.tx.finPending
            && r.conn.tx.finAcked == c.tx.finAcked && r.conn.tx.sendBase == c.tx.sendBase
            && r.conn.state == c.state && r.conn.rx == c.rx
            && !FinIn(r.out)
    decreases |c.tx.sendQueue|
  {
    var cap := Allowance(c.tx);
    if c.tx.sendQueue != [] && cap != 0 {
      SendLoopQuiet(Admit(c, Min(Min(c.config.segmentSize, |c.tx.sendQueue|), cap)));
    }
  }

  lemma DrainQuiet(c: Conn)
    ensures QuietStep(c, DrainAndMaybeFin(c))
  {
    SendLoopQuiet(c);
    var sent := TrySendMore(c);
    var fin := MaybeSendFin(sent.conn);
    if FinDue(sent.conn) { assert Fin(fin.conn) in DrainAndMaybeFin(c).out; }
  }

  lemma {:induction false} SweepOutQuiet(h: SegmentHeader, u: seq<Unacked>)
    ensures !FinIn(SweepOut(h, u))
    decreases |u|
  {
    if u != [] { SweepOutQuiet(h, u[1..]); }
  }

  lemma TickDataQuiet(c: Conn)
    requires c.Open()
    ensures QuietStep(c, TickData(c)) && !FinIn(TickData(c).out)
    ensures TickData(c).conn.tx.finPending == c.tx.finPending
    ensures TickData(c).conn.tx.closeRequested == c.tx.closeRequested
  {
    SweepOutQuiet(HeaderOf(c.config, c.rx, false), c.tx.unacked);
  }

  lemma TickFinQuiet(c: Conn)
    requires c.Open()
    ensures QuietStep(c, TickFin(c)) && (FinIn(TickFin(c).out) ==> c.tx.finPending.Some?)
    ensures TickFin(c).conn.tx.finPending.Some? ==> c.tx.finPending.Some?
  {}

  lemma TickOpenQuiet(c: Conn)
    requires c.Open()
    ensures QuietStep(c, TickOpen(c))
  {
    TickDataQuiet(c);
    var data := TickData(c);
    if data.conn.state != Failed {
      var fin := TickFin(data.conn);
      TickFinQuiet(data.conn);
      if fin.conn.state != Failed {
        DrainQuiet(fin.conn);
        var rest := DrainAndMaybeFin(fin.conn);
        FinInConcat(data.out + fin.out, rest.out);
        FinInConcat(data.out, fin.out);
      } else {
        FinInConcat(data.out, fin.out);
      }
    }
  }

  lemma FinInConcat(a: seq<Segment>, b: seq<Segment>)
    ensures FinIn(a + b) <==> FinIn(a) || FinIn(b)
  {
    if FinIn(a) { var g :| g in a && g.fin; assert g in a + b; }
    if FinIn(b) { var g :| g in b && g.fin; assert g in a + b; }
  }

  lemma OnTickQuiet(c: Conn, now: nat)
    ensures QuietStep(c, OnTick(c, now))
  {
    var c1 := AdvanceClock(c, now);
    if c1.Open() { TickOpenQuiet(c1); }
  }

  lemma SendQuiet(c: Conn, now: nat, data: seq<byte>)
    ensures QuietStep(c, Send(c, now, data))
  {
    var c1 := AdvanceClock(c, now);
    DrainQuiet(c1.(tx := c1.tx.(sendQueue := c1.tx.sendQueue + data)));
  }

  lemma CloseQuiet(c: Conn, now: nat)
    ensures QuietStep(c, Close(c, now))
  {
    var c1 := AdvanceClock(c, now);
    DrainQuiet(c1.(tx := c1.tx.(closeRequested := true)));
  }

  /** A step caused by segment `g`. */
  ghost predicate SegmentStep(c: Conn, g: Segment, r: Outcome) {
    && FinStep(c, r)
    && (r.conn.tx.finAcked ==> c.tx.finAcked || g.header.finAck)
    && r.conn.tx.sendBase >= c.tx.sendBase
    && (WasOpen(r.conn) ==> WasOpen(c) || (c.state == SynSent && g.syn && g.ack) || (c.state == SynReceived && g.ack))
    && (r.conn.Open() ==> r.conn.tx.peerWindow == g.header.window)
    && (r.conn.state == Listening ==> c.state == Listening && r.out == [])
    && (r.conn.state == SynSent ==> c.state == SynSent && r.out == [])
    && (r.conn.state == SynReceived ==> c.state == SynReceived || c.state == Listening)
  }

  lemma ApplyAckFin(c: Conn, h: SegmentHeader)
    requires c.Open()
    ensures var r := ApplyAck(c, h);
            && r.conn.tx.closeRequested == c.tx.closeRequested && !FinIn(r.out)
            && (r.conn.tx.finPending.Some? ==> c.tx.finPending.Some?)
            && (r.conn.tx.finAcked ==> c.tx.finAcked || h.finAck)
            && r.conn.tx.sendBase == Max(c.tx.sendBase, h.ack)
            && WasOpen(r.conn) && r.conn.tx.peerWindow == c.tx.peerWindow
  {}

  /** An acknowledgement, a reply without FIN, then the sends: the FIN behaviour is that of the sends. */
  lemma ChainStep(c: Conn, g: Segment, acked: Outcome, c1: Conn, reply: seq<Segment>, rest: Outcome)
    requires c.Open() && acked.conn.tx == c1.tx && !FinIn(acked.out) && !FinIn(reply)
    requires acked.conn.tx.closeRequested == c.tx.closeRequested
    requires acked.conn.tx.finPending.Some? ==> c.tx.finPending.Some?
    requires acked.conn.tx.finAcked ==> c.tx.finAcked || g.header.finAck
    requires acked.conn.tx.sendBase >= c.tx.sendBase
    requires QuietStep(c1, rest) && WasOpen(rest.conn) && rest.conn.tx.peerWindow == g.header.window
    ensures SegmentStep(c, g, Outcome(rest.conn, acked.out + reply + rest.out))
  {
    FinInConcat(acked.out, reply);
    FinInConcat(acked.out + reply, rest.out);
  }

  lemma ProcessOpenStep(c: Conn, g: Segment)
    requires c.Open() && c.tx.peerWindow == g.header.window
    ensures SegmentStep(c, g, ProcessOpen(c, g)) && WasOpen(ProcessOpen(c, g).conn)
  {
    var acked := if g.ack then ApplyAck(c, g.header) else Outcome(c, []);
    ApplyAckFin(c, g.header);
    var c1 := acked.conn.(rx := ReceiveSegment(acked.conn.rx, g));
    var reply := if g.data != [] || g.fin then [PureAck(c1, g.fin)] else [];
    DrainQuiet(c1);
    DrainStaysOpen(c1);
    ChainStep(c, g, acked, c1, reply, DrainAndMaybeFin(c1));
  }

  lemma DrainStaysOpen(c: Conn)
    requires WasOpen(c)
    ensures WasOpen(DrainAndMaybeFin(c).conn) && DrainAndMaybeFin(c).conn.tx.peerWindow == c.tx.peerWindow
  {
    SendLoopFrame(c);
  }

  lemma OnSegmentStep(c: Conn, now: nat, g: Segment)
    ensures SegmentStep(c, g, OnSegment(c, now, g))
  {
    var c1 := AdoptWindow(c, now, g.header.window);
    var (hs, done) := Handshake(c1, g);
    assert !FinIn(hs.out);
    if Processed(c, now, g) {
      ProcessOpenStep(hs.conn, g);
      FinInConcat(hs.out, ProcessOpen(hs.conn, g).out);
    }
  }

  // ---- Handshake: `a` connects, `b` listens ----

  ghost predicate HandshakeOk(a: Side, b: Side) {
    && a.conn.state != Listening && a.conn.state != SynReceived && b.conn.state != SynSent
    && (forall g :: g in a.sent && g.ack ==> a.conn.state != SynSent)
    && (forall g :: g in b.sent ==> b.conn.state != Listening)
    && (WasOpen(a.conn) ==> b.conn.state != Listening)
    && (WasOpen(b.conn) ==> a.conn.state != SynSent)
  }

  // ---- Teardown: `x` sends the FIN, `y` sees it ----

  ghost predicate TeardownOk(x: Side, y: Side) {
    && (FinSent(x.sent) ==> x.conn.tx.closeRequested)
    && (FinSent(x.sent) && !x.late ==> x.conn.tx.sendBase == x.conn.tx.nextSeq == |x.stream| == y.conn.rx.expectedSeq)
    && (x.conn.tx.finPending.Some? ==> FinSent(x.sent))
    && (y.conn.rx.peerFinSeen ==> FinSent(x.sent))
    && (forall g :: g in y.sent && g.header.finAck ==> y.conn.rx.peerFinSeen)
    && (x.conn.tx.finAcked ==> y.conn.rx.peerFinSeen)
  }

  // ---- Flow control: `x` sends, `y` advertises ----

  ghost predicate FlowOk(x: Side, y: Side) {
    var capacity := y.conn.config.recvWindowCapacity;
    && (forall g :: g in y.sent ==> g.header.window <= capacity)
    && (x.conn.Open() ==> x.conn.tx.peerWindow <= capacity)
    && InFlight(x.conn.tx.unacked) <= Max(capacity, 1)
  }

  // ---- Everything on the wire fits its fields ----

  ghost predicate Sized(unacked: seq<Unacked>, size: nat) {
    forall i :: 0 <= i < |unacked| ==> |unacked[i].data| <= size
  }

  /** Data segments are at most one segment long, and control segments carry at most the acknowledged point. */
  ghost predicate OutSized(out: seq<Segment>, size: nat, base: nat) {
    forall g :: g in out ==> |g.data| <= size && (g.data == [] ==> g.seqNo <= base)
  }

  ghost predicate WireOk(x: Side) {
    var size := x.conn.config.segmentSize;
    && Sized(x.conn.tx.unacked, size)
    && forall g :: g in x.sent ==>
         |g.data| <= size && (g.data == [] ==> g.seqNo <= x.conn.tx.sendBase) && RangesNonempty(g.header.sack)
  }

  ghost predicate RangesNonempty(rs: seq<SackRange>) {
    |rs| <= MAX_SACK_RANGES && forall i :: 0 <= i < |rs| ==> rs[i].start <= rs[i].end
  }

  ghost predicate SizedStep(r: Outcome) {
    && Sized(r.conn.tx.unacked, r.conn.config.segmentSize)
    && OutSized(r.out, r.conn.config.segmentSize, r.conn.tx.sendBase)
  }

  lemma {:induction false} SendLoopSized(c: Conn)
    requires Sized(c.tx.unacked, c.config.segmentSize)
    ensures Sized(SendLoop(c).conn.tx.unacked, c.config.segmentSize)
    ensures OutSized(SendLoop(c).out, c.config.segmentSize, c.tx.sendBase)
    ensures SendLoop(c).conn.config == c.config && SendLoop(c).conn.tx.sendBase == c.tx.sendBase
    decreases |c.tx.sendQueue|
  {
    var cap := Allowance(c.tx);
    if c.tx.sendQueue != [] && cap != 0 {
      SendLoopSized(Admit(c, Min(Min(c.config.segmentSize, |c.tx.sendQueue|), cap)));
    }
  }

  lemma DrainSized(c: Conn)
    requires Sized(c.tx.unacked, c.config.segmentSize)
    ensures SizedStep(DrainAndMaybeFin(c))
    ensures DrainAndMaybeFin(c).conn.config == c.config && DrainAndMaybeFin(c).conn.tx.sendBase == c.tx.sendBase
  {
    SendLoopSized(c);
  }

  lemma AcknowledgeSized(u: seq<Unacked>, rto: Estimator, now: nat, ack: nat, size: nat)
    requires Sized(u, size)
    ensures Sized(Acknowledge(u, rto, now, ack).0, size)
  {
    var n := AcknowledgeSuffix(u, rto, now, ack);
  }

  lemma ApplyAckSized(c: Conn, h: SegmentHeader)
    requires Sized(c.tx.unacked, c.config.segmentSize)
    requires forall i :: 0 <= i < |c.tx.unacked| ==> c.tx.unacked[i].data != []
    ensures SizedStep(ApplyAck(c, h)) && ApplyAck(c, h).conn.config == c.config
  {
    if h.ack > c.tx.sendBase {
      AcknowledgeSized(c.tx.unacked, c.rto, c.now, h.ack, c.config.segmentSize);
    }
  }

  lemma {:induction false} SweepOutSized(h: SegmentHeader, u: seq<Unacked>, size: nat, base: nat)
    requires Sized(u, size) && forall i :: 0 <= i < |u| ==> u[i].data != []
    ensures OutSized(SweepOut(h, u), size, base)
    decreases |u|
  {
    if u != [] { SweepOutSized(h, u[1..], size, base); }
  }

  lemma TickDataSized(c: Conn)
    requires Sized(c.tx.unacked, c.config.segmentSize)
    requires forall i :: 0 <= i < |c.tx.unacked| ==> c.tx.unacked[i].data != []
    ensures SizedStep(TickData(c)) && TickData(c).conn.tx.sendBase == c.tx.sendBase
    ensures TickData(c).conn.config == c.config
  {
    SweepOutSized(HeaderOf(c.config, c.rx, false), c.tx.unacked, c.config.segmentSize, c.tx.sendBase);
  }

  lemma TickFinSized(c: Conn)
    requires Sized(c.tx.unacked, c.config.segmentSize)
    ensures SizedStep(TickFin(c)) && TickFin(c).conn.tx.sendBase == c.tx.sendBase && TickFin(c).conn.config == c.config
  {}

  lemma TickOpenSized(c: Conn)
    requires Sized(c.tx.unacked, c.config.segmentSize)
    requires forall i :: 0 <= i < |c.tx.unacked| ==> c.tx.unacked[i].data != []
    ensures SizedStep(TickOpen(c)) && TickOpen(c).conn.tx.sendBase == c.tx.sendBase
  {
    TickDataSized(c);
    var data := TickData(c);
    TickFinSized(data.conn);
    DrainSized(TickFin(data.conn).conn);
  }

  lemma ProcessOpenSized(c: Conn, g: Segment)
    requires c.Open() && Sized(c.tx.unacked, c.config.segmentSize)
    requires forall i :: 0 <= i < |c.tx.unacked| ==> c.tx.unacked[i].data != []
    ensures SizedStep(ProcessOpen(c, g)) && ProcessOpen(c, g).conn.config == c.config
  {
    var acked := if g.ack then ApplyAck(c, g.header) else Outcome(c, []);
    ApplyAckSized(c, g.header);
    var c1 := acked.conn.(rx := ReceiveSegment(acked.conn.rx, g));
    DrainSized(c1);
  }

  lemma EffectSized(c: Conn, act: Action)
    requires Sized(c.tx.unacked, c.config.segmentSize)
    requires c.state != Failed ==> forall i :: 0 <= i < |c.tx.unacked| ==> c.tx.unacked[i].data != []
    ensures SizedStep(Effect(c, act))
  {
    match act {
      case Receive(now, g) => OnSegmentSized(c, now, g);
      case Garbage(now) =>
      case Tick(now) => OnTickSized(c, now);
      case AppSend(now, data) => DrainSized(AdvanceClock(c, now).(tx := c.tx.(sendQueue := c.tx.sendQueue + data)));
      case AppClose(now) => DrainSized(AdvanceClock(c, now).(tx := c.tx.(closeRequested := true)));
      case AppRecv =>
    }
  }

  lemma OnSegmentSized(c: Conn, now: nat, g: Segment)
    requires Sized(c.tx.unacked, c.config.segmentSize)
    requires c.state != Failed ==> forall i :: 0 <= i < |c.tx.unacked| ==> c.tx.unacked[i].data != []
    ensures SizedStep(OnSegment(c, now, g))
  {
    var c1 := AdoptWindow(c, now, g.header.window);
    HandshakeSized(c1, g);
    if Processed(c, now, g) { ProcessOpenSized(Handshake(c1, g).0.conn, g); }
  }

  lemma HandshakeSized(c: Conn, g: Segment)
    ensures var hs := Handshake(c, g).0;
            && hs.conn.tx == c.tx && hs.conn.config == c.config && (hs.conn.state == Failed ==> c.state == Failed)
            && OutSized(hs.out, c.config.segmentSize, c.tx.sendBase)
  {}

  lemma OnTickSized(c: Conn, now: nat)
    requires Sized(c.tx.unacked, c.config.segmentSize)
    requires c.state != Failed ==> forall i :: 0 <= i < |c.tx.unacked| ==> c.tx.unacked[i].data != []
    ensures SizedStep(OnTick(c, now))
  {
    if c.Open() { TickOpenSized(AdvanceClock(c, now)); }
  }
}
