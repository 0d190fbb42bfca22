/** The invariant of every run of two endpoints over the hostile network. */
module Safety {
  import opened Bytes
  import opened Segments
  import opened Transport
  import opened Network
  import opened SendSafety
  import opened Sack
  import opened ReceiveSafety
  import opened Endpoint
  import opened Session

  /** Everything kept between two sides, apart from their roles in the handshake. */
  ghost predicate PairOk(x: Side, y: Side, cx: seq<nat>, cy: seq<nat>) {
    && Direction(x, y, cx) && Direction(y, x, cy)
    && EndpointOk(x.conn) && EndpointOk(y.conn)
    && TeardownOk(x, y) && TeardownOk(y, x)
    && FlowOk(x, y) && FlowOk(y, x)
    && WireOk(x) && WireOk(y)
    && |x.stream| < U32_LIMIT && |y.stream| < U32_LIMIT
  }

  ghost predicate InvWith(s: System, ca: seq<nat>, cb: seq<nat>) {
    PairOk(s.a, s.b, ca, cb) && HandshakeOk(s.a, s.b)
  }

  /** The invariant: some segment boundaries explain the state of both directions. */
  ghost predicate Inv(s: System) {
    exists ca, cb :: InvWith(s, ca, cb)
  }

  // ---- Steps ----

  lemma EffectStep(c: Conn, act: Action)
    ensures if act.Receive? then SegmentStep(c, act.g, Effect(c, act)) else QuietStep(c, Effect(c, act))
  {
    match act {
      case Receive(now, g) => OnSegmentStep(c, now, g);
      case Garbage(now) =>
      case Tick(now) => OnTickQuiet(c, now);
      case AppSend(now, data) => SendQuiet(c, now, data);
      case AppClose(now) => CloseQuiet(c, now);
      case AppRecv =>
    }
  }

  lemma EffectKeepsEndpoint(c: Conn, act: Action)
    requires EndpointOk(c)
    ensures EndpointOk(Effect(c, act).conn)
  {
    match act {
      case Receive(now, g) => OnSegmentKeepsEndpoint(c, now, g);
      case Garbage(now) =>
      case Tick(now) => OnTickKeepsEndpoint(c, now);
      case AppSend(now, data) => SendKeepsEndpoint(c, now, data);
      case AppClose(now) => CloseKeepsEndpoint(c, now);
      case AppRecv =>
    }
  }

  /** The cumulative points of a direction are ordered: acknowledged, delivered, sent, queued. */
  lemma Bracket(x: Side, y: Side, cuts: seq<nat>)
    requires Direction(x, y, cuts)
    ensures x.conn.tx.sendBase <= y.conn.rx.expectedSeq <= x.conn.tx.nextSeq <= |x.stream|
  {
    CutsBound(cuts, x.conn.tx.nextSeq, y.conn.rx.expectedSeq);
  }

  lemma TeardownOutgoing(x: Side, y: Side, act: Action, cuts: seq<nat>, cuts': seq<nat>)
    requires Direction(x, y, cuts) && TeardownOk(x, y) && Enabled(x, y.sent, act)
    requires cuts <= cuts' && Direction(Apply(x, act), y, cuts')
    ensures TeardownOk(Apply(x, act), y)
  {
    var x', r := Apply(x, act), Effect(x.conn, act);
    EffectStep(x.conn, act);
    Bracket(x, y, cuts);
    Bracket(x', y, cuts');
    assert FinSent(x.sent) ==> FinSent(x'.sent);
    if FinIn(r.out) {
      var g :| g in r.out && g.fin;
      assert g in x'.sent;
    }
    assert FinSent(x'.sent) ==> FinSent(x.sent) || FinIn(r.out);
    if FinSent(x.sent) {
      assert x.conn.tx.nextSeq <= x'.conn.tx.nextSeq by {
        assert cuts'[|cuts| - 1] == x.conn.tx.nextSeq;
        CutsBound(cuts', x'.conn.tx.nextSeq, x.conn.tx.nextSeq);
      }
    }
  }

  lemma TeardownIncoming(y: Side, x: Side, act: Action, cuts: seq<nat>)
    requires Direction(y, x, cuts) && TeardownOk(y, x) && Enabled(x, y.sent, act) && EndpointOk(x.conn)
    requires Direction(y, Apply(x, act), cuts)
    ensures TeardownOk(y, Apply(x, act))
  {
    var x' := Apply(x, act);
    EffectBuilt(x.conn, act);
    if act.Receive? {
      ReceiveKeepsFinSeen(x.conn.rx, act.g);
      DeliverKeeps(x.conn.rx, act.g.seqNo, act.g.data, x.recvd, y.stream, cuts, y.conn.tx.nextSeq);
    }
    Bracket(y, x', cuts);
  }

  /** An unacknowledged segment is never empty. */
  lemma UnackedNonempty(c: Conn, stream: seq<byte>, cuts: seq<nat>)
    requires SenderOk(c, stream, cuts) && c.state != Failed
    ensures forall i :: 0 <= i < |c.tx.unacked| ==> c.tx.unacked[i].data != []
  {
    var u := c.tx.unacked;
    forall i | 0 <= i < |u| ensures u[i].data != [] {
      var j := |cuts| - 1 - |u| + i;
      assert SegmentAt(stream, cuts, j, u[i].seqNo, u[i].data);
      CutOrder(cuts, c.tx.nextSeq, j, j + 1);
    }
  }

  lemma BuiltRangesNonempty(g: Segment, config: Config, rx: Rx, recvd: seq<byte>, stream: seq<byte>, cuts: seq<nat>,
                            last: nat)
    requires BuiltFrom(g, config, rx) && ReceiverOk(rx, recvd, stream, cuts) && IsCuts(cuts, last)
    ensures RangesNonempty(g.header.sack)
  {
    ReceiverClean(rx, recvd, stream, cuts, last);
    RunsAreMaximal(rx.recvBuffer, MAX_SACK_RANGES);
    var rs := g.header.sack;
    forall i | 0 <= i < |rs| ensures rs[i].start <= rs[i].end { assert MaximalRun(rx.recvBuffer, rs[i]); }
  }

  lemma WireKept(x: Side, y: Side, act: Action, cx: seq<nat>, cy: seq<nat>)
    requires Direction(x, y, cx) && Direction(y, x, cy) && WireOk(x) && EndpointOk(x.conn)
    requires Direction(y, Apply(x, act), cy)
    ensures WireOk(Apply(x, act))
  {
    var x', r := Apply(x, act), Effect(x.conn, act);
    if x.conn.state != Failed { UnackedNonempty(x.conn, x.stream, cx); }
    EffectSized(x.conn, act);
    EffectBuilt(x.conn, act);
    EffectStep(x.conn, act);
    forall g | g in r.out ensures RangesNonempty(g.header.sack) {
      if BuiltFrom(g, x.conn.config, x.conn.rx) {
        BuiltRangesNonempty(g, x.conn.config, x.conn.rx, x.recvd, y.stream, cy, y.conn.tx.nextSeq);
      } else {
        BuiltRangesNonempty(g, x.conn.config, x'.conn.rx, x'.recvd, y.stream, cy, y.conn.tx.nextSeq);
      }
    }
  }

  lemma FlowIncoming(y: Side, x: Side, act: Action)
    requires FlowOk(y, x) && EndpointOk(x.conn)
    ensures FlowOk(y, Apply(x, act))
  {
    var x', r := Apply(x, act), Effect(x.conn, act);
    EffectBuilt(x.conn, act);
    forall g | g in r.out ensures g.header.window <= x.conn.config.recvWindowCapacity {
      if BuiltFrom(g, x.conn.config, x.conn.rx) {
        BuiltWindow(g, x.conn.config, x.conn.rx);
      } else {
        BuiltWindow(g, x.conn.config, r.conn.rx);
      }
    }
  }

  lemma BuiltWindow(g: Segment, config: Config, rx: Rx)
    requires BuiltFrom(g, config, rx)
    ensures g.header.window <= config.recvWindowCapacity
  {}

  lemma ProcessOpenAdmission(c: Conn, g: Segment, limit: nat)
    requires c.Open() && c.tx.peerWindow <= limit && InFlight(c.tx.unacked) <= Max(limit, 1)
    ensures InFlight(ProcessOpen(c, g).conn.tx.unacked) <= Max(limit, 1)
  {
    var acked := if g.ack then ApplyAck(c, g.header) else Outcome(c, []);
    ApplyAckShrinksInFlight(c, g.header);
    DrainAdmission(acked.conn.(rx := ReceiveSegment(acked.conn.rx, g)), limit);
  }

  lemma TickOpenAdmission(c: Conn, limit: nat)
    requires c.Open() && c.tx.peerWindow <= limit && InFlight(c.tx.unacked) <= Max(limit, 1)
    ensures InFlight(TickOpen(c).conn.tx.unacked) <= Max(limit, 1)
    ensures TickOpen(c).conn.tx.peerWindow == c.tx.peerWindow
  {
    var c2 := TickData(c).conn;
    TickDataAdmission(c);
    var c3 := TickFin(c2).conn;
    TickFinAdmission(c2);
    DrainAdmission(c3, limit);
  }

  lemma TickDataAdmission(c: Conn)
    ensures InFlight(TickData(c).conn.tx.unacked) <= InFlight(c.tx.unacked)
    ensures TickData(c).conn.tx.peerWindow == c.tx.peerWindow
  {
    InFlightSame(c.tx.unacked, Sweep(c.tx.unacked, c.now));
  }

  lemma TickFinAdmission(c: Conn)
    ensures TickFin(c).conn.tx.unacked == c.tx.unacked && TickFin(c).conn.tx.peerWindow == c.tx.peerWindow
  {}

  lemma EffectAdmission(c: Conn, act: Action, limit: nat)
    requires InFlight(c.tx.unacked) <= Max(limit, 1) && (c.Open() ==> c.tx.peerWindow <= limit)
    requires act.Receive? ==> act.g.header.window <= limit
    ensures InFlight(Effect(c, act).conn.tx.unacked) <= Max(limit, 1)
    ensures Effect(c, act).conn.Open() ==> Effect(c, act).conn.tx.peerWindow <= limit
  {
    match act {
      case Receive(now, g) => ReceiveAdmission(c, now, g, limit);
      case Garbage(now) =>
      case Tick(now) => TickAdmission(c, now, limit);
      case AppSend(now, data) => AppAdmission(c, act, limit);
      case AppClose(now) => AppAdmission(c, act, limit);
      case AppRecv =>
    }
  }

  lemma ReceiveAdmission(c: Conn, now: nat, g: Segment, limit: nat)
    requires InFlight(c.tx.unacked) <= Max(limit, 1) && g.header.window <= limit
    ensures var c' := OnSegment(c, now, g).conn;
            InFlight(c'.tx.unacked) <= Max(limit, 1) && (c'.Open() ==> c'.tx.peerWindow <= limit)
  {
    OnSegmentStep(c, now, g);
    var c1 := AdoptWindow(c, now, g.header.window);
    if Processed(c, now, g) { ProcessOpenAdmission(Handshake(c1, g).0.conn, g, limit); }
  }

  lemma TickAdmission(c: Conn, now: nat, limit: nat)
    requires InFlight(c.tx.unacked) <= Max(limit, 1) && (c.Open() ==> c.tx.peerWindow <= limit)
    ensures var c' := OnTick(c, now).conn;
            InFlight(c'.tx.unacked) <= Max(limit, 1) && (c'.Open() ==> c'.tx.peerWindow <= limit)
  {
    if c.Open() { TickOpenAdmission(AdvanceClock(c, now), limit); }
  }

  lemma AppAdmission(c: Conn, act: Action, limit: nat)
    requires InFlight(c.tx.unacked) <= Max(limit, 1) && (c.Open() ==> c.tx.peerWindow <= limit)
    requires act.AppSend? || act.AppClose?
    ensures InFlight(Effect(c, act).conn.tx.unacked) <= Max(limit, 1)
    ensures Effect(c, act).conn.Open() ==> Effect(c, act).conn.tx.peerWindow <= limit
  {
    var c1 := AdvanceClock(c, act.now);
    DrainAdmission(if act.AppSend? then c1.(tx := c1.tx.(sendQueue := c1.tx.sendQueue + act.data))
                   else c1.(tx := c1.tx.(closeRequested := true)), limit);
  }

  /** An action of either side keeps everything but the handshake roles. */
  lemma PairKept(x: Side, y: Side, cx: seq<nat>, cy: seq<nat>, act: Action) returns (cx': seq<nat>)
    requires PairOk(x, y, cx, cy) && Enabled(x, y.sent, act)
    ensures PairOk(Apply(x, act), y, cx', cy)
  {
    cx' := OutgoingKept(x, y, cx, act);
    IncomingKept(y, x, cy, act);
    EffectKeepsEndpoint(x.conn, act);
    TeardownOutgoing(x, y, act, cx, cx');
    TeardownIncoming(y, x, act, cy);
    WireKept(x, y, act, cx, cy);
    FlowIncoming(y, x, act);
    EffectAdmission(x.conn, act, y.conn.config.recvWindowCapacity);
  }

  lemma HandshakeKeptByA(a: Side, b: Side, act: Action)
    requires HandshakeOk(a, b) && Enabled(a, b.sent, act)
    ensures HandshakeOk(Apply(a, act), b)
  {
    EffectStep(a.conn, act);
  }

  lemma HandshakeKeptByB(a: Side, b: Side, act: Action)
    requires HandshakeOk(a, b) && Enabled(b, a.sent, act)
    ensures HandshakeOk(a, Apply(b, act))
  {
    EffectStep(b.conn, act);
  }

  lemma PairSwap(x: Side, y: Side, cx: seq<nat>, cy: seq<nat>)
    requires PairOk(x, y, cx, cy)
    ensures PairOk(y, x, cy, cx)
  {}

  lemma {:induction false} NextKeepsInv(s: System, s': System)
    requires Inv(s) && Next(s, s')
    ensures Inv(s')
  {
    var ca, cb :| InvWith(s, ca, cb);
    var act: Action :|
      || (Enabled(s.a, s.b.sent, act) && s' == System(Apply(s.a, act), s.b))
      || (Enabled(s.b, s.a.sent, act) && s' == System(s.a, Apply(s.b, act)));
    if Enabled(s.a, s.b.sent, act) && s' == System(Apply(s.a, act), s.b) {
      var ca' := PairKept(s.a, s.b, ca, cb, act);
      HandshakeKeptByA(s.a, s.b, act);
      assert InvWith(s', ca', cb);
    } else {
      PairSwap(s.a, s.b, ca, cb);
      var cb' := PairKept(s.b, s.a, cb, ca, act);
      PairSwap(s'.b, s'.a, cb', ca);
      HandshakeKeptByB(s.a, s.b, act);
      assert InvWith(s', ca, cb');
    }
  }

  // ---- Initial state and runs ----

  lemma NewDirection(x: Side, y: Side)
    requires x.stream == [] && x.conn.tx.sendQueue == [] && x.conn.tx.nextSeq == x.conn.tx.sendBase == 0
    requires x.conn.tx.unacked == []
    requires y.recvd == [] && y.conn.rx == Rx(0, map[], [], false)
    requires forall g :: g in x.sent ==> g.data == []
    requires forall g :: g in y.sent ==> g.header.ack == 0 && g.header.sack == []
    ensures Direction(x, y, [0])
  {
    assert forall z: nat :: !Reported(y.sent, z);
  }

  lemma InitHolds(configA: Config, nowA: nat, configB: Config, nowB: nat)
    ensures Inv(Init(configA, nowA, configB, nowB))
  {
    var s := Init(configA, nowA, configB, nowB);
    NewDirection(s.a, s.b);
    NewDirection(s.b, s.a);
    assert !FinSent(s.a.sent) && !FinSent(s.b.sent);
    assert PairOk(s.a, s.b, [0], [0]);
    assert InvWith(s, [0], [0]);
  }

  /** The invariant holds in every state of every run. */
  lemma {:induction false} RunKeepsInv(t: seq<System>, i: nat)
    requires IsRun(t) && i < |t|
    ensures Inv(t[i])
  {
    if i > 0 { RunKeepsInv(t, i - 1); }
    StepKeepsInv(t, i);
  }

  lemma StepKeepsInv(t: seq<System>, i: nat)
    requires i < |t| && StepAt(t, i) && (i > 0 ==> Inv(t[i - 1]))
    ensures Inv(t[i])
  {
    if i == 0 {
      var configA, nowA, configB, nowB :| t[0] == Init(configA, nowA, configB, nowB);
      InitHolds(configA, nowA, configB, nowB);
    } else {
      NextKeepsInv(t[i - 1], t[i]);
    }
  }
}
