/**
 Teardown makes progress: a FIN is sent as soon as everything before it is settled, it is always answered, and the
 answer settles it.
 */
module TeardownProgress {
  import opened Bytes
  import opened Segments
  import opened Transport
  import opened Network
  import opened ReceiveSafety
  import opened Endpoint
  import opened Session
  import opened Theorems

  /** A FIN as the transport builds it. */
  predicate BareFin(g: Segment) { g.fin && g.ack && !g.syn && g.data == [] }

  /** The acknowledgement of a FIN. */
  predicate FinAnswer(r: Segment) { r.header.finAck && r.ack && !r.syn && !r.fin && r.data == [] }

  // ---- A FIN is answered ----

  lemma ProcessOpenAnswersFin(c: Conn, g: Segment) returns (r: Segment)
    requires g.fin
    ensures r in ProcessOpen(c, g).out && FinAnswer(r) && r.seqNo == ProcessOpen(c, g).conn.tx.sendBase
  {
    var acked := if g.ack then ApplyAck(c, g.header) else Outcome(c, []);
    var c1 := acked.conn.(rx := ReceiveSegment(acked.conn.rx, g));
    r := PureAck(c1, true);
    assert r in acked.out + [r];
    DrainQuiet(c1);
  }

  /** An endpoint that is open, closed or about to open answers every FIN with an acknowledgement of it, however often
      it arrives, and has seen it afterwards. */
  lemma FinAnswered(c: Conn, now: nat, g: Segment) returns (r: Segment)
    requires BareFin(g) && (c.Open() || c.state == Closed || c.state == SynReceived)
    requires c.state == Closed ==> c.rx.peerFinSeen
    ensures r in OnSegment(c, now, g).out && FinAnswer(r) && r.seqNo == OnSegment(c, now, g).conn.tx.sendBase
    ensures OnSegment(c, now, g).conn.rx.peerFinSeen
  {
    OnSegmentBuilt(c, now, g);
    var c1 := AdoptWindow(c, now, g.header.window);
    if c.state == Closed {
      r := PureAck(c1, true);
    } else {
      ReceiveKeepsFinSeen(c.rx, g);
      r := ProcessOpenAnswersFin(Handshake(c1, g).0.conn, g);
    }
  }

  /** When the FIN's timer fires with an attempt left, the FIN goes out again. */
  lemma FinResent(c: Conn, now: nat) returns (g: Segment)
    requires c.Open() && c.tx.unacked == [] && FinTimedOut(AdvanceClock(c, now))
    requires c.tx.finPending.value.attempts < c.config.maxRetries
    ensures g in OnTick(c, now).out && BareFin(g) && g.seqNo == c.tx.sendBase
  {
    g := TickFin(AdvanceClock(c, now)).out[0];
  }

  // ---- The answer settles it ----

  /** The acknowledgement of a FIN settles it, and closes the side if the peer's FIN has been seen. */
  lemma AnswerSettles(c: Conn, now: nat, r: Segment)
    requires EndpointOk(c) && c.state == Closing && FinAnswer(r) && c.tx.unacked == []
    ensures var c' := OnSegment(c, now, r).conn;
            c'.tx.finAcked && c'.tx.finPending.None? && c'.state == if c.rx.peerFinSeen then Closed else Closing
  {
    var c1 := AdoptWindow(c, now, r.header.window);
    var c2 := ApplyAck(c1, r.header).conn;
    assert c2.tx.finAcked && c2.tx.finPending.None? && c2.rx == c.rx;
    assert c2.state == if c.rx.peerFinSeen then Closed else Closing;
    assert ReceiveSegment(c2.rx, r) == c2.rx;
    DrainAfterSettling(c2);
  }

  lemma DrainAfterSettling(c: Conn)
    requires c.tx.finAcked && c.tx.finPending.None? && c.state == if c.rx.peerFinSeen then Closed else Closing
    ensures var c' := DrainAndMaybeFin(c).conn; c'.tx.finAcked && c'.tx.finPending.None? && c'.state == c.state
  {
    SendLoopQuiet(c);
  }

  // ---- Nothing is left waiting that could be sent ----

  /** No data that the window admits is queued, and no FIN is owed. */
  predicate NothingOwed(c: Conn) {
    c.Open() ==> (c.tx.sendQueue == [] || Allowance(c.tx) == 0) && !FinDue(c)
  }

  lemma DrainOwesNothing(c: Conn)
    ensures NothingOwed(DrainAndMaybeFin(c).conn)
  {
    AdmissionExhausts(c);
    SendLoopQuiet(c);
  }

  lemma EffectOwesNothing(c: Conn, act: Action)
    requires NothingOwed(c)
    ensures NothingOwed(Effect(c, act).conn)
  {
    match act {
      case Receive(now, g) => OnSegmentOwesNothing(c, now, g);
      case Garbage(now) =>
      case Tick(now) => OnTickOwesNothing(c, now);
      case AppSend(now, data) => DrainOwesNothing(AdvanceClock(c,
                                                               now).(tx := c.tx.(sendQueue := c.tx.sendQueue + data)));
      case AppClose(now) => DrainOwesNothing(AdvanceClock(c, now).(tx := c.tx.(closeRequested := true)));
      case AppRecv =>
    }
  }

  lemma OnSegmentOwesNothing(c: Conn, now: nat, g: Segment)
    ensures NothingOwed(OnSegment(c, now, g).conn)
  {
    var c1 := AdoptWindow(c, now, g.header.window);
    var hs := Handshake(c1, g).0.conn;
    if Processed(c, now, g) {
      var acked := if g.ack then ApplyAck(hs, g.header) else Outcome(hs, []);
      DrainOwesNothing(acked.conn.(rx := ReceiveSegment(acked.conn.rx, g)));
    }
  }

  lemma OnTickOwesNothing(c: Conn, now: nat)
    ensures NothingOwed(OnTick(c, now).conn)
  {
    var c1 := AdvanceClock(c, now);
    if c1.Open() { TickOpenOwesNothing(c1); }
  }

  lemma TickOpenOwesNothing(c: Conn)
    ensures NothingOwed(TickOpen(c).conn)
  {
    var c1 := TickData(c).conn;
    if c1.state != Failed {
      var c2 := TickFin(c1).conn;
      if c2.state != Failed { DrainOwesNothing(c2); }
    }
  }

  lemma {:induction false} RunOwesNothing(t: seq<System>, i: nat)
    requires IsRun(t) && i < |t|
    ensures NothingOwed(t[i].a.conn) && NothingOwed(t[i].b.conn)
  {
    assert StepAt(t, i);
    if i > 0 {
      RunOwesNothing(t, i - 1);
      NextOwesNothing(t[i - 1], t[i]);
    }
  }

  lemma NextOwesNothing(s: System, s': System)
    requires NothingOwed(s.a.conn) && NothingOwed(s.b.conn) && Next(s, s')
    ensures NothingOwed(s'.a.conn) && NothingOwed(s'.b.conn)
  {
    var act: Action :| (Enabled(s.a, s.b.sent, act) && s' == System(Apply(s.a, act), s.b))
                       || (Enabled(s.b, s.a.sent, act) && s' == System(s.a, Apply(s.b, act)));
    EffectOwesNothing(s.a.conn, act);
    EffectOwesNothing(s.b.conn, act);
  }

  /** In every run: an open side never holds back data that the window admits, and once its application has closed and
      everything is acknowledged its FIN is out. */
  lemma NothingHeldBack(t: seq<System>, i: nat, x: Side, y: Side)
    requires InRun(t, i, x, y) && x.conn.Open()
    ensures x.conn.tx.sendQueue == []
            || (x.conn.tx.unacked != []
                && Min(x.conn.tx.peerWindow, x.conn.tx.cwnd) <= InFlight(x.conn.tx.unacked))
    ensures x.conn.tx.closeRequested && x.conn.tx.sendQueue == [] && x.conn.tx.unacked == [] ==>
        x.conn.state == Closing || x.conn.tx.finAcked
  {
    RunOwesNothing(t, i);
    var cx, cy := PairInRun(t, i, x, y);
  }

  // ---- Every FIN in the network is bare ----

  ghost predicate FinsBare(out: seq<Segment>) { forall g :: g in out && g.fin ==> BareFin(g) }

  lemma DrainFinsBare(c: Conn)
    ensures FinsBare(DrainAndMaybeFin(c).out)
  {
    SendLoopQuiet(c);
  }

  lemma EffectFinsBare(c: Conn, act: Action)
    ensures FinsBare(Effect(c, act).out)
  {
    match act {
      case Receive(now, g) => OnSegmentFinsBare(c, now, g);
      case Garbage(now) =>
      case Tick(now) => OnTickFinsBare(c, now);
      case AppSend(now, data) => DrainFinsBare(AdvanceClock(c, now).(tx := c.tx.(sendQueue := c.tx.sendQueue + data)));
      case AppClose(now) => DrainFinsBare(AdvanceClock(c, now).(tx := c.tx.(closeRequested := true)));
      case AppRecv =>
    }
  }

  lemma OnSegmentFinsBare(c: Conn, now: nat, g: Segment)
    ensures FinsBare(OnSegment(c, now, g).out)
  {
    var hs := Handshake(AdoptWindow(c, now, g.header.window), g).0.conn;
    if Processed(c, now, g) {
      var acked := if g.ack then ApplyAck(hs, g.header) else Outcome(hs, []);
      ApplyAckFin(hs, g.header);
      DrainFinsBare(acked.conn.(rx := ReceiveSegment(acked.conn.rx, g)));
    }
  }

  lemma OnTickFinsBare(c: Conn, now: nat)
    ensures FinsBare(OnTick(c, now).out)
  {
    var c1 := AdvanceClock(c, now);
    if c1.Open() { TickOpenFinsBare(c1); }
  }

  lemma TickOpenFinsBare(c: Conn)
    ensures FinsBare(TickOpen(c).out)
  {
    TickDataFinsBare(c);
    var c1 := TickData(c).conn;
    TickFinFinsBare(c1);
    DrainFinsBare(TickFin(c1).conn);
  }

  lemma TickDataFinsBare(c: Conn)
    ensures FinsBare(TickData(c).out)
  {
    SweepOutQuiet(HeaderOf(c.config, c.rx, false), c.tx.unacked);
  }

  lemma TickFinFinsBare(c: Conn)
    ensures FinsBare(TickFin(c).out)
  {}

  ghost predicate SentFinsBare(sent: set<Segment>) { forall g :: g in sent && g.fin ==> BareFin(g) }

  lemma {:induction false} RunFinsBare(t: seq<System>, i: nat)
    requires IsRun(t) && i < |t|
    ensures SentFinsBare(t[i].a.sent) && SentFinsBare(t[i].b.sent)
  {
    assert StepAt(t, i);
    if i > 0 {
      RunFinsBare(t, i - 1);
      NextFinsBare(t[i - 1], t[i]);
    }
  }

  lemma NextFinsBare(s: System, s': System)
    requires SentFinsBare(s.a.sent) && SentFinsBare(s.b.sent) && Next(s, s')
    ensures SentFinsBare(s'.a.sent) && SentFinsBare(s'.b.sent)
  {
    var act: Action :| (Enabled(s.a, s.b.sent, act) && s' == System(Apply(s.a, act), s.b))
                       || (Enabled(s.b, s.a.sent, act) && s' == System(s.a, Apply(s.b, act)));
    EffectFinsBare(s.a.conn, act);
    EffectFinsBare(s.b.conn, act);
  }

  // ---- In every run ----

  /** While `x` waits for its FIN, nothing of it is outstanding, the FIN is in the network, and its peer, unless it has
      failed, is in a state that answers. */
  lemma FinWaits(t: seq<System>, i: nat, x: Side, y: Side)
    requires InRun(t, i, x, y) && !x.late && x.conn.state == Closing && x.conn.tx.finPending.Some?
    ensures FinSent(x.sent) && x.conn.tx.unacked == [] && EndpointOk(x.conn) && EndpointOk(y.conn)
    ensures y.conn.state == Failed || y.conn.state == SynReceived || y.conn.Open() || y.conn.state == Closed
  {
    var cx, cy := PairInRun(t, i, x, y);
    TiledCovers(x.conn, x.stream, cx);
    if x.conn.tx.unacked != [] {
      TilesAdvance(x.conn.tx.unacked, x.conn.tx.sendBase, x.conn.tx.nextSeq, x.stream);
    }
  }

  /** Teardown progress: in every run, when a side waits for its FIN, delivering that FIN to a peer that has not failed
      produces an acknowledgement of it, and delivering that settles the FIN, and closes the side if it has seen the
      peer's. */
  lemma FinSettles(t: seq<System>, i: nat, x: Side, y: Side, g: Segment, later: nat, last: nat) returns (r: Segment)
    requires InRun(t, i, x, y) && !x.late && x.conn.state == Closing && x.conn.tx.finPending.Some?
    requires g in x.sent && g.fin && y.conn.state != Failed
    ensures r in Effect(y.conn, Receive(later, g)).out && Apply(y, Receive(later, g)).conn.rx.peerFinSeen
    ensures var x' := Apply(x, Receive(last, r)).conn;
            && x'.tx.finAcked && x'.tx.finPending.None?
            && x'.state == if x.conn.rx.peerFinSeen then Closed else Closing
  {
    FinWaits(t, i, x, y);
    RunFinsBare(t, i);
    r := FinAnswered(y.conn, later, g);
    AnswerSettles(x.conn, last, r);
  }
}
