/**
 What survives torn deliveries. Segment boundaries do not: a torn segment leaves the receiver in the middle of one.
 But everything sent, unacknowledged or buffered is still a piece of the stream at its own offset, and that alone
 keeps what is delivered an exact prefix of what was sent.
 */
module TornSafety {
  import opened Bytes
  import opened Segments
  import opened Frames
  import opened Damage
  import opened Rto
  import opened Transport
  import opened Network
  import opened TornNetwork
  import opened ReceiveSafety
  import opened Endpoint
  import opened Session
  import opened Safety

  // ---- Pieces of the stream ----

  /** `data` is not empty and is what the stream holds from offset `k` on. */
  ghost predicate IsPiece(stream: seq<byte>, k: nat, data: seq<byte>) {
    data != [] && k + |data| <= |stream| && data == stream[k..k + |data|]
  }

  lemma PieceGrows(stream: seq<byte>, more: seq<byte>, k: nat, data: seq<byte>)
    requires IsPiece(stream, k, data)
    ensures IsPiece(stream + more, k, data)
  {
    assert (stream + more)[k..k + |data|] == stream[k..k + |data|];
  }

  lemma PieceTorn(stream: seq<byte>, k: nat, data: seq<byte>, prefix: seq<byte>)
    requires IsPiece(stream, k, data) && prefix <= data && prefix != []
    ensures IsPiece(stream, k, prefix)
  {
    assert prefix == data[..|prefix|] == stream[k..k + |prefix|];
  }

  ghost predicate PiecesOnly(u: seq<Unacked>, stream: seq<byte>) {
    forall i :: 0 <= i < |u| ==> IsPiece(stream, u[i].seqNo, u[i].data)
  }

  ghost predicate CarriesPieces(out: seq<Segment>, stream: seq<byte>) {
    forall g :: g in out && g.data != [] ==> IsPiece(stream, g.seqNo, g.data)
  }

  ghost predicate SentPieces(sent: set<Segment>, stream: seq<byte>) {
    forall g :: g in sent && g.data != [] ==> IsPiece(stream, g.seqNo, g.data)
  }

  // ---- The sender ----

  ghost predicate SendsPieces(c: Conn, stream: seq<byte>) {
    && c.tx.nextSeq <= |stream| && c.tx.sendQueue == stream[c.tx.nextSeq..]
    && PiecesOnly(c.tx.unacked, stream)
  }

  ghost predicate PieceStep(r: Outcome, stream: seq<byte>) {
    SendsPieces(r.conn, stream) && CarriesPieces(r.out, stream)
  }

  lemma AdmitPieces(c: Conn, len: nat, stream: seq<byte>)
    requires SendsPieces(c, stream) && 0 < len <= |c.tx.sendQueue|
    ensures SendsPieces(Admit(c, len), stream) && IsPiece(stream, c.tx.nextSeq, c.tx.sendQueue[..len])
  {
    assert c.tx.sendQueue[..len] == stream[c.tx.nextSeq..c.tx.nextSeq + len];
    assert c.tx.sendQueue[len..] == stream[c.tx.nextSeq + len..];
  }

  lemma {:induction false} SendLoopPieces(c: Conn, stream: seq<byte>)
    requires SendsPieces(c, stream)
    ensures PieceStep(SendLoop(c), stream)
    decreases |c.tx.sendQueue|
  {
    var cap := Allowance(c.tx);
    if c.tx.sendQueue != [] && cap != 0 {
      var len := Min(Min(c.config.segmentSize, |c.tx.sendQueue|), cap);
      AdmitPieces(c, len, stream);
      SendLoopPieces(Admit(c, len), stream);
    }
  }

  lemma DrainPieces(c: Conn, stream: seq<byte>)
    requires SendsPieces(c, stream)
    ensures PieceStep(DrainAndMaybeFin(c), stream)
  {
    SendLoopPieces(c, stream);
  }

  /** Changing when and how often segments were sent, or which are marked, changes none of their bytes. */
  lemma SamePieces(u: seq<Unacked>, u': seq<Unacked>, stream: seq<byte>)
    requires PiecesOnly(u, stream) && |u'| == |u|
    requires forall i :: 0 <= i < |u| ==> u'[i].seqNo == u[i].seqNo && u'[i].data == u[i].data
    ensures PiecesOnly(u', stream)
  {}

  lemma NewAckPieces(c: Conn, ack: nat, stream: seq<byte>)
    requires SendsPieces(c, stream) && ack > c.tx.sendBase
    ensures SendsPieces(NewAck(c, ack), stream)
  {
    var n := AcknowledgeSuffix(c.tx.unacked, c.rto, c.now, ack);
  }

  lemma MarkPieces(c: Conn, h: SegmentHeader, stream: seq<byte>)
    requires SendsPieces(c, stream)
    ensures SendsPieces(ApplySackAndFin(c, h), stream)
  {
    SamePieces(c.tx.unacked, MarkSacked(c.tx.unacked, h.sack), stream);
  }

  lemma FastRetransmitPieces(c: Conn, stream: seq<byte>)
    requires SendsPieces(c, stream) && c.tx.unacked != []
    ensures PieceStep(FastRetransmit(c), stream)
  {
    var u := c.tx.unacked;
    SamePieces(u, u[0 := Retransmitted(u[0], c.now)], stream);
  }

  lemma ApplyAckPieces(c: Conn, h: SegmentHeader, stream: seq<byte>)
    requires SendsPieces(c, stream)
    ensures PieceStep(ApplyAck(c, h), stream)
  {
    if h.ack > c.tx.sendBase {
      NewAckPieces(c, h.ack, stream);
      MarkPieces(NewAck(c, h.ack), h, stream);
    } else if h.ack == c.tx.sendBase && c.tx.unacked != [] {
      if c.tx.dupAckCount + 1 == c.config.fastRetransmitDupAcks {
        FastRetransmitPieces(c, stream);
      } else {
        MarkPieces(c.(tx := c.tx.(dupAckCount := c.tx.dupAckCount + 1)), h, stream);
      }
    } else {
      MarkPieces(c, h, stream);
    }
  }

  lemma ProcessOpenPieces(c: Conn, g: Segment, stream: seq<byte>)
    requires SendsPieces(c, stream)
    ensures PieceStep(ProcessOpen(c, g), stream)
  {
    var acked := if g.ack then ApplyAck(c, g.header) else Outcome(c, []);
    if g.ack { ApplyAckPieces(c, g.header, stream); }
    DrainPieces(acked.conn.(rx := ReceiveSegment(acked.conn.rx, g)), stream);
  }

  lemma OnSegmentPieces(c: Conn, now: nat, g: Segment, stream: seq<byte>)
    requires SendsPieces(c, stream)
    ensures PieceStep(OnSegment(c, now, g), stream)
  {
    var hs := Handshake(AdoptWindow(c, now, g.header.window), g).0;
    assert PieceStep(hs, stream);
    ProcessOpenPieces(hs.conn, g, stream);
  }

  lemma {:induction false} SweepOutPieces(h: SegmentHeader, u: seq<Unacked>, stream: seq<byte>)
    requires PiecesOnly(u, stream)
    ensures CarriesPieces(SweepOut(h, u), stream)
    decreases |u|
  {
    if u != [] { SweepOutPieces(h, u[1..], stream); }
  }

  lemma TickDataPieces(c: Conn, stream: seq<byte>)
    requires SendsPieces(c, stream)
    ensures PieceStep(TickData(c), stream)
  {
    SweepOutPieces(HeaderOf(c.config, c.rx, false), c.tx.unacked, stream);
    SamePieces(c.tx.unacked, Sweep(c.tx.unacked, c.now), stream);
  }

  lemma TickFinPieces(c: Conn, stream: seq<byte>)
    requires SendsPieces(c, stream)
    ensures PieceStep(TickFin(c), stream)
  {}

  lemma OnTickPieces(c: Conn, now: nat, stream: seq<byte>)
    requires SendsPieces(c, stream)
    ensures PieceStep(OnTick(c, now), stream)
  {
    var c1 := AdvanceClock(c, now);
    if c1.Open() {
      TickDataPieces(c1, stream);
      var c2 := TickData(c1).conn;
      TickFinPieces(c2, stream);
      DrainPieces(TickFin(c2).conn, stream);
    }
  }

  lemma QueueMorePieces(c: Conn, data: seq<byte>, stream: seq<byte>)
    requires SendsPieces(c, stream)
    ensures SendsPieces(c.(tx := c.tx.(sendQueue := c.tx.sendQueue + data)), stream + data)
  {
    var u := c.tx.unacked;
    forall i | 0 <= i < |u| ensures IsPiece(stream + data, u[i].seqNo, u[i].data) {
      PieceGrows(stream, data, u[i].seqNo, u[i].data);
    }
    assert (stream + data)[c.tx.nextSeq..] == stream[c.tx.nextSeq..] + data;
  }

  /** The stream after an action. */
  function StreamAfter(x: Side, act: Action): seq<byte> { Apply(x, act).stream }

  lemma EffectPieces(x: Side, act: Action)
    requires SendsPieces(x.conn, x.stream)
    ensures PieceStep(Effect(x.conn, act), StreamAfter(x, act))
  {
    var c := x.conn;
    match act {
      case Receive(now, g) => OnSegmentPieces(c, now, g, x.stream);
      case Garbage(now) =>
      case Tick(now) => OnTickPieces(c, now, x.stream);
      case AppSend(now, data) =>
        QueueMorePieces(AdvanceClock(c, now), data, x.stream);
        DrainPieces(AdvanceClock(c, now).(tx := c.tx.(sendQueue := c.tx.sendQueue + data)), x.stream + data);
      case AppClose(now) => DrainPieces(AdvanceClock(c, now).(tx := c.tx.(closeRequested := true)), x.stream);
      case AppRecv =>
    }
  }

  lemma SentPiecesGrow(x: Side, act: Action)
    requires SendsPieces(x.conn, x.stream) && SentPieces(x.sent, x.stream)
    ensures SentPieces(Apply(x, act).sent, StreamAfter(x, act))
  {
    EffectPieces(x, act);
    var more := if act.AppSend? then act.data else [];
    assert StreamAfter(x, act) == x.stream + more;
    forall g | g in Apply(x, act).sent && g.data != [] ensures IsPiece(x.stream + more, g.seqNo, g.data) {
      if g in x.sent { PieceGrows(x.stream, more, g.seqNo, g.data); }
    }
  }

  // ---- The receiver ----

  /** What was delivered is a prefix of the stream, and what is buffered are pieces of it, wherever they lie. */
  ghost predicate Receives(rx: Rx, recvd: seq<byte>, stream: seq<byte>) {
    && rx.expectedSeq <= |stream| && recvd + rx.delivered == stream[..rx.expectedSeq]
    && forall k :: k in rx.recvBuffer ==> IsPiece(stream, k, rx.recvBuffer[k])
  }

  lemma ReceivesMore(rx: Rx, recvd: seq<byte>, stream: seq<byte>, more: seq<byte>)
    requires Receives(rx, recvd, stream)
    ensures Receives(rx, recvd, stream + more)
  {
    assert (stream + more)[..rx.expectedSeq] == stream[..rx.expectedSeq];
    forall k | k in rx.recvBuffer ensures IsPiece(stream + more, k, rx.recvBuffer[k]) {
      PieceGrows(stream, more, k, rx.recvBuffer[k]);
    }
  }

  /** Delivering what the stream holds at the cumulative point. */
  lemma DeliverPiece(rx: Rx, recvd: seq<byte>, stream: seq<byte>, v: seq<byte>)
    requires Receives(rx, recvd, stream) && IsPiece(stream, rx.expectedSeq, v)
    ensures Receives(rx.(delivered := rx.delivered + v, expectedSeq := rx.expectedSeq + |v|), recvd, stream)
  {
    StreamAppends(stream, rx.expectedSeq, |v|);
    Assoc(recvd, rx.delivered, v);
  }

  lemma {:induction false} DrainBufferReceives(rx: Rx, recvd: seq<byte>, stream: seq<byte>)
    requires Receives(rx, recvd, stream)
    ensures Receives(DrainBuffer(rx), recvd, stream) && rx.expectedSeq <= DrainBuffer(rx).expectedSeq
    decreases rx.recvBuffer.Keys
  {
    if rx.expectedSeq in rx.recvBuffer {
      var v := rx.recvBuffer[rx.expectedSeq];
      DeliverPiece(rx, recvd, stream, v);
      DrainBufferReceives(TakeInOrder(rx, v), recvd, stream);
    }
  }

  lemma DeliverReceives(rx: Rx, seqNo: nat, data: seq<byte>, recvd: seq<byte>, stream: seq<byte>)
    requires Receives(rx, recvd, stream) && (data != [] ==> IsPiece(stream, seqNo, data))
    ensures var rx' := DeliverData(rx, seqNo, data);
            Receives(rx', recvd, stream) && rx.expectedSeq <= rx'.expectedSeq
  {
    if data != [] && seqNo <= rx.expectedSeq < seqNo + |data| {
      var v := data[rx.expectedSeq - seqNo..];
      assert v == stream[rx.expectedSeq..seqNo + |data|];
      DeliverPiece(rx, recvd, stream, v);
      DrainBufferReceives(rx.(delivered := rx.delivered + v, expectedSeq := seqNo + |data|), recvd, stream);
    }
  }

  /** A segment that reaches over the cumulative point is not lost, even if its first part was delivered before: the
      point moves to its end at least. */
  lemma OverlapIsDelivered(c: Conn, now: nat, g: Segment)
    requires c.Open() && g.data != [] && g.seqNo <= c.rx.expectedSeq
    ensures OnSegment(c, now, g).conn.rx.expectedSeq >= Max(c.rx.expectedSeq, g.seqNo + |g.data|)
  {
    var c1 := AdoptWindow(c, now, g.header.window);
    ProcessOpenOverlap(Handshake(c1, g).0.conn, g);
  }

  lemma ProcessOpenOverlap(c: Conn, g: Segment)
    requires g.data != [] && g.seqNo <= c.rx.expectedSeq
    ensures ProcessOpen(c, g).conn.rx.expectedSeq >= Max(c.rx.expectedSeq, g.seqNo + |g.data|)
  {
    var acked := if g.ack then ApplyAck(c, g.header) else Outcome(c, []);
    assert acked.conn.rx == c.rx;
    DeliverOverlap(c.rx, g.seqNo, g.data);
    SendLoopQuiet(acked.conn.(rx := ReceiveSegment(acked.conn.rx, g)));
  }

  lemma DeliverOverlap(rx: Rx, seqNo: nat, data: seq<byte>)
    requires data != [] && seqNo <= rx.expectedSeq
    ensures DeliverData(rx, seqNo, data).expectedSeq >= Max(rx.expectedSeq, seqNo + |data|)
  {
    var end := seqNo + |data|;
    if end > rx.expectedSeq {
      DrainBufferGrows(rx.(delivered := rx.delivered + data[rx.expectedSeq - seqNo..], expectedSeq := end));
    }
  }

  lemma {:induction false} DrainBufferGrows(rx: Rx)
    ensures DrainBuffer(rx).expectedSeq >= rx.expectedSeq
    decreases rx.recvBuffer.Keys
  {
    if rx.expectedSeq in rx.recvBuffer { DrainBufferGrows(TakeInOrder(rx, rx.recvBuffer[rx.expectedSeq])); }
  }

  /** A segment that may come, whole or torn, is a piece of the stream or carries no data. */
  lemma ComesPiece(g: Segment, sent: set<Segment>, stream: seq<byte>)
    requires Comes(g, sent) && SentPieces(sent, stream)
    ensures g.data != [] ==> IsPiece(stream, g.seqNo, g.data)
  {
    var h :| h in sent && TornFrom(g, h);
    if g.data != [] { PieceTorn(stream, h.seqNo, h.data, g.data); }
  }

  lemma EffectReceives(x: Side, y: Side, act: Action)
    requires Receives(x.conn.rx, x.recvd, y.stream) && SentPieces(y.sent, y.stream) && TornEnabled(x, y.sent, act)
    requires x.conn.state == Closed ==> x.conn.rx.peerFinSeen
    ensures Receives(Apply(x, act).conn.rx, Apply(x, act).recvd, y.stream)
    ensures x.conn.rx.expectedSeq <= Apply(x, act).conn.rx.expectedSeq
  {
    EffectBuilt(x.conn, act);
    if act.Receive? {
      ComesPiece(act.g, y.sent, y.stream);
      DeliverReceives(x.conn.rx, act.g.seqNo, act.g.data, x.recvd, y.stream);
    }
    assert act.AppRecv? ==> (x.recvd + x.conn.rx.delivered) + [] == x.recvd + x.conn.rx.delivered;
  }

  // ---- Headers ----

  /** Ranges that lie below `limit`, each with its start before its end. */
  ghost predicate RangesBelow(rs: seq<SackRange>, limit: nat) {
    forall i :: 0 <= i < |rs| ==> rs[i].start <= rs[i].end < limit
  }

  ghost predicate BufferBelow(m: Buffer, limit: nat) {
    forall k :: k in m ==> k + |m[k]| <= limit
  }

  lemma {:induction false} ExtendRunBelow(m: Buffer, end: nat, limit: nat)
    requires BufferBelow(m, limit) && end < limit
    ensures end <= ExtendRun(m, end).0 < limit && BufferBelow(ExtendRun(m, end).1, limit)
    decreases m.Keys
  {
    if m.Keys != {} {
      var k: nat := MinKey(m.Keys);
      if k == end + 1 { ExtendRunBelow(m - {k}, k + |m[k]| - 1, limit); }
    }
  }

  lemma {:induction false} RunsBelow(m: Buffer, n: nat, limit: nat)
    requires BufferBelow(m, limit)
    ensures RangesBelow(Runs(m, n), limit) && |Runs(m, n)| <= n
    decreases n
  {
    if n > 0 && m.Keys != {} {
      var k: nat := MinKey(m.Keys);
      ExtendRunBelow(m - {k}, k + |m[k]| - 1, limit);
      RunsBelow(FirstRun(m).2, n - 1, limit);
    }
  }

  /** Every field of the header fits its place, with offsets below `limit`. */
  ghost predicate HeaderBelow(h: SegmentHeader, capacity: nat, limit: nat) {
    h.ack <= limit && h.window <= capacity && |h.sack| <= MAX_SACK_RANGES && RangesBelow(h.sack, limit)
  }

  lemma BuiltHeaderBelow(g: Segment, config: Config, rx: Rx, recvd: seq<byte>, stream: seq<byte>)
    requires BuiltFrom(g, config, rx) && Receives(rx, recvd, stream)
    ensures HeaderBelow(g.header, config.recvWindowCapacity, |stream|) && g.header.ack == rx.expectedSeq
  {
    RunsBelow(rx.recvBuffer, MAX_SACK_RANGES, |stream|);
  }

  // ---- The invariant ----

  /** What `x` sent is acknowledged by nothing that `y` has not delivered. */
  ghost predicate AcksDelivered(x: Side, y: Side) {
    && x.conn.tx.sendBase <= y.conn.rx.expectedSeq
    && forall g :: g in y.sent ==> g.header.ack <= y.conn.rx.expectedSeq
  }

  /** Everything `x` sent has the size and the header of a segment that fits the wire. */
  ghost predicate SentFits(x: Side, limit: nat) {
    && Sized(x.conn.tx.unacked, x.conn.config.segmentSize)
    && forall g :: g in x.sent ==>
         && |g.data| <= x.conn.config.segmentSize && (g.data == [] ==> g.seqNo <= x.conn.tx.sendBase)
         && HeaderBelow(g.header, x.conn.config.recvWindowCapacity, limit)
  }

  ghost predicate TornDirection(x: Side, y: Side) {
    && SendsPieces(x.conn, x.stream) && SentPieces(x.sent, x.stream)
    && Receives(y.conn.rx, y.recvd, x.stream)
    && AcksDelivered(x, y) && SentFits(x, |y.stream|) && FlowOk(x, y)
    && EndpointOk(x.conn) && |x.stream| < U32_LIMIT
  }

  ghost predicate TornPair(x: Side, y: Side) { TornDirection(x, y) && TornDirection(y, x) }

  lemma SendBaseStep(c: Conn, act: Action)
    ensures var base := Effect(c, act).conn.tx.sendBase;
            c.tx.sendBase <= base <= if act.Receive? then Max(c.tx.sendBase, act.g.header.ack) else c.tx.sendBase
  {
    EffectStep(c, act);
    if act.Receive? && Processed(c, act.now, act.g) {
      var c1 := Handshake(AdoptWindow(c, act.now, act.g.header.window), act.g).0.conn;
      ProcessOpenBase(c1, act.g);
    }
  }

  lemma ProcessOpenBase(c: Conn, g: Segment)
    requires c.Open()
    ensures ProcessOpen(c, g).conn.tx.sendBase <= Max(c.tx.sendBase, g.header.ack)
  {
    var acked := if g.ack then ApplyAck(c, g.header) else Outcome(c, []);
    ApplyAckFin(c, g.header);
    DrainQuiet(acked.conn.(rx := ReceiveSegment(acked.conn.rx, g)));
  }

  /** The headers of an action are built from the receive side before it or after it. */
  lemma EffectHeaders(x: Side, y: Side, act: Action, g: Segment)
    requires Receives(x.conn.rx, x.recvd, y.stream) && SentPieces(y.sent, y.stream) && TornEnabled(x, y.sent, act)
    requires EndpointOk(x.conn) && g in Effect(x.conn, act).out
    ensures HeaderBelow(g.header, x.conn.config.recvWindowCapacity, |y.stream|)
    ensures g.header.ack <= Apply(x, act).conn.rx.expectedSeq
  {
    var x' := Apply(x, act);
    EffectReceives(x, y, act);
    EffectBuilt(x.conn, act);
    if BuiltFrom(g, x.conn.config, x.conn.rx) {
      BuiltHeaderBelow(g, x.conn.config, x.conn.rx, x.recvd, y.stream);
    } else {
      BuiltHeaderBelow(g, x.conn.config, x'.conn.rx, x'.recvd, y.stream);
    }
  }

  lemma SentFitsKept(x: Side, y: Side, act: Action)
    requires TornPair(x, y) && TornEnabled(x, y.sent, act)
    ensures SentFits(Apply(x, act), |y.stream|)
  {
    var x', r := Apply(x, act), Effect(x.conn, act);
    EffectSized(x.conn, act);
    SendBaseStep(x.conn, act);
    EffectBuilt(x.conn, act);
    forall g | g in x'.sent
      ensures |g.data| <= x'.conn.config.segmentSize && (g.data == [] ==> g.seqNo <= x'.conn.tx.sendBase)
      ensures HeaderBelow(g.header, x'.conn.config.recvWindowCapacity, |y.stream|)
    {
      if g !in x.sent { EffectHeaders(x, y, act, g); }
    }
  }

  lemma OutgoingTorn(x: Side, y: Side, act: Action)
    requires TornPair(x, y) && TornEnabled(x, y.sent, act)
    ensures TornDirection(Apply(x, act), y)
  {
    var x' := Apply(x, act);
    EffectPieces(x, act);
    SentPiecesGrow(x, act);
    ReceivesMore(y.conn.rx, y.recvd, x.stream, if act.AppSend? then act.data else []);
    assert x'.stream == x.stream + if act.AppSend? then act.data else [];
    SendBaseStep(x.conn, act);
    if act.Receive? {
      var h :| h in y.sent && TornFrom(act.g, h);
    }
    SentFitsKept(x, y, act);
    EffectKeepsEndpoint(x.conn, act);
    EffectAdmission(x.conn, act, y.conn.config.recvWindowCapacity);
  }

  lemma IncomingTorn(y: Side, x: Side, act: Action)
    requires TornPair(x, y) && TornEnabled(x, y.sent, act)
    ensures TornDirection(y, Apply(x, act))
  {
    var x' := Apply(x, act);
    EffectReceives(x, y, act);
    FlowIncoming(y, x, act);
    forall g | g in x'.sent ensures g.header.ack <= x'.conn.rx.expectedSeq {
      if g !in x.sent { EffectHeaders(x, y, act, g); }
    }
  }

  lemma TornPairKept(x: Side, y: Side, act: Action)
    requires TornPair(x, y) && TornEnabled(x, y.sent, act)
    ensures TornPair(Apply(x, act), y)
  {
    OutgoingTorn(x, y, act);
    IncomingTorn(y, x, act);
  }

  lemma TornNextKeeps(s: System, s': System)
    requires TornPair(s.a, s.b) && TornNext(s, s')
    ensures TornPair(s'.a, s'.b)
  {
    var act: Action :| (TornEnabled(s.a, s.b.sent, act) && s' == System(Apply(s.a, act), s.b))
                       || (TornEnabled(s.b, s.a.sent, act) && s' == System(s.a, Apply(s.b, act)));
    if TornEnabled(s.a, s.b.sent, act) && s' == System(Apply(s.a, act), s.b) {
      TornPairKept(s.a, s.b, act);
    } else {
      TornPairKept(s.b, s.a, act);
    }
  }

  lemma TornInitHolds(configA: Config, nowA: nat, configB: Config, nowB: nat)
    ensures var s := Init(configA, nowA, configB, nowB); TornPair(s.a, s.b)
  {}

  lemma TornStepKeeps(t: seq<System>, i: nat)
    requires i < |t| && TornStepAt(t, i) && (i > 0 ==> TornPair(t[i - 1].a, t[i - 1].b))
    ensures TornPair(t[i].a, t[i].b)
  {
    if i == 0 {
      var configA, nowA, configB, nowB :| t[0] == Init(configA, nowA, configB, nowB);
      TornInitHolds(configA, nowA, configB, nowB);
    } else {
      TornNextKeeps(t[i - 1], t[i]);
    }
  }

  /** Everything kept through torn deliveries holds in every state of every run. */
  lemma {:induction false} TornRunKeeps(t: seq<System>, i: nat)
    requires IsTornRun(t) && i < |t|
    ensures TornPair(t[i].a, t[i].b)
  {
    if i > 0 { TornRunKeeps(t, i - 1); }
    TornStepKeeps(t, i);
  }

  // ---- What it means ----

  /** Both sides of a state of a run with torn deliveries, in either order. */
  ghost predicate InTornRun(t: seq<System>, i: nat, x: Side, y: Side) {
    IsTornRun(t) && i < |t| && ((x == t[i].a && y == t[i].b) || (x == t[i].b && y == t[i].a))
  }

  /** Stream safety under every behaviour of the channel, torn deliveries included: what a side has ever delivered is
      exactly the first `expected_seq` bytes of what the peer's application sent. */
  lemma TornStreamSafety(t: seq<System>, i: nat, x: Side, y: Side)
    requires InTornRun(t, i, x, y)
    ensures y.conn.rx.expectedSeq <= |x.stream| < U32_LIMIT
    ensures y.recvd + y.conn.rx.delivered == x.stream[..y.conn.rx.expectedSeq]
  {
    TornRunKeeps(t, i);
  }

  /** Nothing acknowledges, or counts as acknowledged, a byte that was not delivered, up to the acknowledged point. */
  lemma TornAckBracket(t: seq<System>, i: nat, x: Side, y: Side)
    requires InTornRun(t, i, x, y)
    ensures x.conn.tx.sendBase <= y.conn.rx.expectedSeq
    ensures forall g :: g in y.sent ==> g.header.ack <= y.conn.rx.expectedSeq
  {
    TornRunKeeps(t, i);
  }

  /** Flow and congestion control do not depend on what is delivered: bytes in flight are at most the peer's capacity or
      one probe byte, the windows keep their least sizes, and the armed timeout its limits. */
  lemma TornFlowAndCongestion(t: seq<System>, i: nat, x: Side, y: Side)
    requires InTornRun(t, i, x, y)
    ensures InFlight(x.conn.tx.unacked) <= Max(y.conn.config.recvWindowCapacity, 1)
    ensures x.conn.config.segmentSize <= x.conn.tx.cwnd <= MAX_U32
    ensures 2 * x.conn.config.segmentSize <= x.conn.tx.ssthresh <= MAX_U32
    ensures x.conn.config.minRto <= x.conn.rto.Current() <= x.conn.config.maxRto
  {
    TornRunKeeps(t, i);
    CurrentBounds(x.conn.rto);
  }

  lemma PairSentFits(x: Side, y: Side, g: Segment)
    requires TornPair(x, y) && g in x.sent
    ensures SegmentFits(g) && RangesNonempty(g.header.sack)
  {
    assert g.data != [] ==> IsPiece(x.stream, g.seqNo, g.data);
  }

  /** Nothing wraps around on the wire even then. */
  lemma TornWireFaithful(t: seq<System>, i: nat, x: Side, y: Side, g: Segment)
    requires InTornRun(t, i, x, y) && g in x.sent
    ensures SegmentFits(g) && ParseSegment(EncodeSegment(g)) == Some(g)
  {
    TornRunKeeps(t, i);
    PairSentFits(x, y, g);
    SegmentRoundTrip(g);
  }

  // ---- From bytes ----

  /** A prefix of an encoded header and data reads as that header with a prefix of the data, or not at all. */
  lemma PrefixReads(h: SegmentHeader, data: seq<byte>, q: seq<byte>)
    requires HeaderFits(h) && q <= EncodeHeader(h) + data
    ensures match DecodeHeader(q)
            case None => true
            case Some((header, rest)) => header == h && rest <= data
  {
    var p := EncodeHeader(h);
    assert h.sack[..|h.sack|] == h.sack && |p| == FIXED_LEN + |h.sack| * RANGE_LEN;
    if |q| >= |p| {
      var rest := q[|p|..];
      assert q == p + rest && rest == data[..|rest|];
      HeaderRoundTrip(h, rest);
    } else if |q| >= FIXED_LEN {
      assert q[5] == p[5] == |h.sack|;
    }
  }

  /** What a copy of a fitting segment parses as, whatever happened to it: that segment, whole or torn, or nothing. */
  lemma CopyParses(g: Segment, fault: Fault)
    requires SegmentFits(g)
    ensures match ParseSegment(Damaged(EncodeSegment(g), fault))
            case None => true
            case Some(got) => TornFrom(got, g)
  {
    var f := SegmentFrame(g);
    CopyIsTorn(f, fault);
    FrameRoundTrip(g);
    HeaderRoundTrip(g.header, g.data);
    match Decode(Damaged(EncodeSegment(g), fault)) {
      case Err(_) =>
      case Ok(f') => PrefixReads(g.header, g.data, f'.payload);
    }
  }

  /** What a datagram amounts to. */
  function ActionOf(now: nat, d: seq<byte>): Action {
    match ParseSegment(d)
    case None => Garbage(now)
    case Some(g) => Receive(now, g)
  }

  /** Every copy the channel can emit of anything a side ever sent, whatever bits were flipped and wherever it was cut,
      amounts to an action of the network with torn deliveries: an intact copy to its segment, and a damaged one to an
      unreadable datagram, unless it has both a flip in the length field and a truncation. */
  lemma EveryCopyActs(t: seq<System>, i: nat, x: Side, y: Side, g: Segment, fault: Fault, now: nat)
    requires InTornRun(t, i, x, y) && g in x.sent
    ensures var d := Damaged(EncodeSegment(g), fault);
            && OnDatagram(y.conn, now, d) == Effect(y.conn, ActionOf(now, d))
            && TornEnabled(y, x.sent, ActionOf(now, d))
            && (Untouched(EncodeSegment(g), fault) ==> ActionOf(now, d) == Receive(now, g))
            && (!Untouched(EncodeSegment(g), fault) && !DoubleFault(EncodeSegment(g), fault) ==>
                  ActionOf(now, d) == Garbage(now))
  {
    TornRunKeeps(t, i);
    PairSentFits(x, y, g);
    CopyParses(g, fault);
    if !DoubleFault(EncodeSegment(g), fault) { DamagedCopy(g, fault); }
  }

  /** A copy of a fitting segment without that double fault parses as the segment exactly when it is untouched. */
  lemma DamagedCopy(g: Segment, fault: Fault)
    requires SegmentFits(g) && !DoubleFault(EncodeSegment(g), fault)
    ensures ParseSegment(Damaged(EncodeSegment(g), fault))
              == if Untouched(EncodeSegment(g), fault) then Some(g) else None
  {
    FrameRoundTrip(g);
    CopyIsAuthentic(SegmentFrame(g), fault);
  }
}
