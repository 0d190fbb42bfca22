/**
 What one transport endpoint does, as functions on the value of its state. The class in Connection.dfy
 is proved against these functions, and every run of two endpoints is reasoned about through them.

 An endpoint's state is split into what it sends (Tx) and what it receives (Rx). The source's ordered
 map of unacknowledged segments is a sequence in key order, and its receive buffer a map.
 */
module Transport {
  import opened Bytes
  import opened Segments
  import opened Rto

  const MAX_U32: nat := 0xFFFF_FFFF

  datatype ConfigFields = ConfigFields(
    segmentSize: nat, recvWindowCapacity: nat, minRto: nat, maxRto: nat, maxRetries: nat, fastRetransmitDupAcks: nat)

  type Config = c: ConfigFields |
    1 <= c.segmentSize < 0x8000_0000 && c.recvWindowCapacity < U32_LIMIT && c.minRto <= c.maxRto
    witness ConfigFields(512, 8192, 2, 500, 12, 3)

  datatype State = Listening | SynSent | SynReceived | Established | Closing | Closed | Failed

  datatype Control = Control(sentAt: nat, attempts: nat)

  datatype Unacked = Unacked(seqNo: nat, data: seq<byte>, sentAt: nat, retransmitCount: nat, sacked: bool)

  /** Out-of-order data by byte offset; an empty segment is never buffered. */
  type Buffer = m: map<nat, seq<byte>> | forall k :: k in m ==> m[k] != [] witness map[]

  datatype Tx = Tx(
    sendQueue: seq<byte>, nextSeq: nat, sendBase: nat, unacked: seq<Unacked>,
    closeRequested: bool, finPending: Option<Control>, finAcked: bool,
    peerWindow: nat, cwnd: nat, ssthresh: nat, dupAckCount: nat)

  datatype Rx = Rx(expectedSeq: nat, recvBuffer: Buffer, delivered: seq<byte>, peerFinSeen: bool)

  datatype Conn = Conn(
    config: Config, state: State, now: nat, rto: Estimator, handshake: Option<Control>, tx: Tx, rx: Rx)
  {
    predicate Open() { state == Established || state == Closing }
  }

  /** A new endpoint state and the segments sent on the way to it, in order. */
  datatype Outcome = Outcome(conn: Conn, out: seq<Segment>)

  function SatAdd(x: nat, y: nat): nat { Min(x + y, MAX_U32) }

  // ---- Building segments ----

  lemma HasMin(s: set<nat>)
    requires s != {}
    ensures exists k :: k in s && forall j :: j in s ==> k <= j
  {
    var x :| x in s;
    if s != {x} {
      var rest := s - {x};
      HasMin(rest);
      var m :| m in rest && forall j :: j in rest ==> m <= j;
      var k := if m < x then m else x;
      assert forall j :: j in s ==> j == x || j in rest;
      assert k in s && forall j :: j in s ==> k <= j;
    }
  }

  function MinKey(s: set<nat>): (k: nat)
    requires s != {}
    ensures k in s && forall j :: j in s ==> k <= j
  {
    HasMin(s);
    var k :| k in s && forall j :: j in s ==> k <= j;
    k
  }

  function SumLengths(m: map<nat, seq<byte>>): nat
    decreases m.Keys
  {
    if m.Keys == {} then 0 else
      var k := MinKey(m.Keys);
      |m[k]| + SumLengths(m - {k})
  }

  function AdvertisedWindow(config: Config, rx: Rx): nat {
    SatSub(config.recvWindowCapacity, SumLengths(rx.recvBuffer) + |rx.delivered|)
  }

  /** Absorbs every buffered segment that continues the run ending at `end`. */
  function ExtendRun(m: Buffer, end: nat): (nat, Buffer)
    decreases m.Keys
  {
    if m.Keys == {} then (end, m) else
      var k := MinKey(m.Keys);
      if k == end + 1 then ExtendRun(m - {k}, k + |m[k]| - 1) else (end, m)
  }

  /** The first run held: its start, its end, and the buffer above it. */
  function FirstRun(m: Buffer): (nat, nat, Buffer)
    requires m.Keys != {}
  {
    var start: nat := MinKey(m.Keys);
    var (end, rest) := ExtendRun(m - {start}, start + |m[start]| - 1);
    (start, end, rest)
  }

  /** The first `n` maximal runs held in the buffer. */
  function Runs(m: Buffer, n: nat): seq<SackRange>
    decreases n
  {
    if n == 0 || m.Keys == {} then [] else
      var (start, end, rest) := FirstRun(m);
      [SackRange(start, end)] + Runs(rest, n - 1)
  }

  function HeaderOf(config: Config, rx: Rx, finAck: bool): SegmentHeader {
    SegmentHeader(rx.expectedSeq, finAck, AdvertisedWindow(config, rx), Runs(rx.recvBuffer, MAX_SACK_RANGES))
  }

  function Syn(c: Conn): Segment { Segment(0, true, false, false, HeaderOf(c.config, c.rx, false), []) }

  function SynAck(c: Conn): Segment { Segment(0, true, true, false, HeaderOf(c.config, c.rx, false), []) }

  function HandshakeAck(c: Conn): Segment { Segment(0, false, true, false, HeaderOf(c.config, c.rx, false), []) }

  function Fin(c: Conn): Segment { Segment(c.tx.sendBase, false, true, true, HeaderOf(c.config, c.rx, false), []) }

  function PureAck(c: Conn, finAck: bool): Segment {
    Segment(c.tx.sendBase, false, true, false, HeaderOf(c.config, c.rx, finAck), [])
  }

  function Data(config: Config, rx: Rx, seqNo: nat, data: seq<byte>): Segment {
    Segment(seqNo, false, true, false, HeaderOf(config, rx, false), data)
  }

  // ---- Sending ----

  function InFlight(unacked: seq<Unacked>): nat {
    if unacked == [] then 0 else |unacked[0].data| + InFlight(unacked[1..])
  }

  function EffectiveWindow(tx: Tx): nat { Min(tx.peerWindow, tx.cwnd) }

  /** How many bytes the next segment may carry. */
  function Allowance(tx: Tx): nat {
    var inFlight := InFlight(tx.unacked);
    var available := SatSub(EffectiveWindow(tx), inFlight);
    if inFlight == 0 then Max(available, 1) else available
  }

  function SendLoop(c: Conn): Outcome
    decreases |c.tx.sendQueue|
  {
    var cap := Allowance(c.tx);
    if c.tx.sendQueue == [] || cap == 0 then Outcome(c, []) else
      var len := Min(Min(c.config.segmentSize, |c.tx.sendQueue|), cap);
      var r := SendLoop(Admit(c, len));
      Outcome(r.conn, [Data(c.config, c.rx, c.tx.nextSeq, c.tx.sendQueue[..len])] + r.out)
  }

  /** Moves the next `len` queued bytes into a new unacknowledged segment. */
  function Admit(c: Conn, len: nat): Conn
    requires len <= |c.tx.sendQueue|
  {
    var seg := Unacked(c.tx.nextSeq, c.tx.sendQueue[..len], c.now, 0, false);
    c.(tx := c.tx.(sendQueue := c.tx.sendQueue[len..], nextSeq := c.tx.nextSeq + len, unacked := c.tx.unacked + [seg]))
  }

  function TrySendMore(c: Conn): Outcome {
    if c.Open() then SendLoop(c) else Outcome(c, [])
  }

  predicate FinDue(c: Conn) {
    && c.tx.closeRequested && c.tx.finPending.None? && !c.tx.finAcked && c.state == Established
    && c.tx.sendQueue == [] && c.tx.unacked == []
  }

  function MaybeSendFin(c: Conn): Outcome {
    if FinDue(c) then
      var c' := c.(state := Closing, tx := c.tx.(finPending := Some(Control(c.now, 1))));
      Outcome(c', [Fin(c')])
    else Outcome(c, [])
  }

  function CheckFullyClosed(c: Conn): Conn {
    if c.state == Closing && c.tx.finAcked && c.rx.peerFinSeen then c.(state := Closed) else c
  }

  function DrainAndMaybeFin(c: Conn): Outcome {
    var sent := TrySendMore(c);
    var fin := MaybeSendFin(sent.conn);
    Outcome(CheckFullyClosed(fin.conn), sent.out + fin.out)
  }

  function AdvanceClock(c: Conn, now: nat): Conn { c.(now := Max(c.now, now)) }

  function Send(c: Conn, now: nat, data: seq<byte>): Outcome {
    var c1 := AdvanceClock(c, now);
    DrainAndMaybeFin(c1.(tx := c1.tx.(sendQueue := c1.tx.sendQueue + data)))
  }

  function Close(c: Conn, now: nat): Outcome {
    var c1 := AdvanceClock(c, now);
    DrainAndMaybeFin(c1.(tx := c1.tx.(closeRequested := true)))
  }

  // ---- Receiving ----

  /** Drops the segments that start below `ack`, sampling the round trip of those sent once. */
  function Acknowledge(unacked: seq<Unacked>, rto: Estimator, now: nat, ack: nat): (seq<Unacked>, Estimator)
    decreases |unacked|
  {
    if unacked == [] || unacked[0].seqNo >= ack then (unacked, rto) else
      var rto' := if unacked[0].retransmitCount == 0 then rto.OnSample(SatSub(now, unacked[0].sentAt)) else rto;
      Acknowledge(unacked[1..], rto', now, ack)
  }

  /** Congestion-avoidance increment: about one segment per round trip. */
  function Increment(config: Config, cwnd: nat): nat {
    Max(config.segmentSize * config.segmentSize / Max(cwnd, 1), 1)
  }

  function Grow(config: Config, tx: Tx, acked: nat): nat {
    if tx.cwnd < tx.ssthresh then SatAdd(tx.cwnd, acked) else SatAdd(tx.cwnd, Increment(config, tx.cwnd))
  }

  function HalvedThreshold(config: Config, cwnd: nat): nat { Max(cwnd / 2, 2 * config.segmentSize) }

  predicate InRange(r: SackRange, x: nat) { r.start <= x <= r.end }

  predicate InRanges(rs: seq<SackRange>, x: nat) { exists r :: r in rs && InRange(r, x) }

  function MarkSacked(unacked: seq<Unacked>, rs: seq<SackRange>): (u: seq<Unacked>)
    ensures |u| == |unacked|
    ensures forall i :: 0 <= i < |u| ==>
        u[i] == unacked[i].(sacked := unacked[i].sacked || InRanges(rs, unacked[i].seqNo))
  {
    seq(|unacked|, i requires 0 <= i < |unacked| =>
      unacked[i].(sacked := unacked[i].sacked || InRanges(rs, unacked[i].seqNo)))
  }

  /** The part of `apply_ack` common to fresh and duplicate acknowledgements. */
  function ApplySackAndFin(c: Conn, h: SegmentHeader): Conn {
    var c1 := c.(tx := c.tx.(unacked := MarkSacked(c.tx.unacked, h.sack)));
    if h.finAck then CheckFullyClosed(c1.(tx := c1.tx.(finAcked := true, finPending := None))) else c1
  }

  function Retransmitted(u: Unacked, now: nat): Unacked {
    u.(retransmitCount := u.retransmitCount + 1, sentAt := now)
  }

  /** An acknowledgement that advances `send_base`. */
  function NewAck(c: Conn, ack: nat): Conn
    requires ack > c.tx.sendBase
  {
    var (unacked, rto) := Acknowledge(c.tx.unacked, c.rto, c.now, ack);
    c.(rto := rto, tx := c.tx.(unacked := unacked, sendBase := ack, dupAckCount := 0,
                               cwnd := Grow(c.config, c.tx, ack - c.tx.sendBase)))
  }

  /** The duplicate acknowledgement that triggers a fast retransmit of the oldest segment. */
  function FastRetransmit(c: Conn): Outcome
    requires c.tx.unacked != []
  {
    var threshold := HalvedThreshold(c.config, c.tx.cwnd);
    var oldest := c.tx.unacked[0];
    var c' := c.(tx := c.tx.(dupAckCount := 0, ssthresh := threshold, cwnd := threshold,
                             unacked := c.tx.unacked[0 := Retransmitted(oldest, c.now)]));
    Outcome(c', [Data(c.config, c.rx, oldest.seqNo, oldest.data)])
  }

  function ApplyAck(c: Conn, h: SegmentHeader): Outcome {
    if h.ack > c.tx.sendBase then Outcome(ApplySackAndFin(NewAck(c, h.ack), h), [])
    else if h.ack == c.tx.sendBase && c.tx.unacked != [] then
      if c.tx.dupAckCount + 1 == c.config.fastRetransmitDupAcks then FastRetransmit(c)
      else Outcome(ApplySackAndFin(c.(tx := c.tx.(dupAckCount := c.tx.dupAckCount + 1)), h), [])
    else Outcome(ApplySackAndFin(c, h), [])
  }

  /** The receive side after taking segment `v` at the cumulative point. */
  function TakeInOrder(rx: Rx, v: seq<byte>): Rx {
    rx.(expectedSeq := rx.expectedSeq + |v|, recvBuffer := rx.recvBuffer - {rx.expectedSeq},
        delivered := rx.delivered + v)
  }

  /** Moves every buffered segment that is now in order to the application. */
  function DrainBuffer(rx: Rx): Rx
    decreases rx.recvBuffer.Keys
  {
    if rx.expectedSeq in rx.recvBuffer then DrainBuffer(TakeInOrder(rx, rx.recvBuffer[rx.expectedSeq])) else rx
  }

  function DeliverData(rx: Rx, seqNo: nat, data: seq<byte>): Rx {
    var end := seqNo + |data|;
    if data == [] || end <= rx.expectedSeq then rx
    else if seqNo <= rx.expectedSeq then
      DrainBuffer(rx.(delivered := rx.delivered + data[rx.expectedSeq - seqNo..], expectedSeq := end))
    else rx.(recvBuffer := rx.recvBuffer[seqNo := data])
  }

  /** What a segment does to the receive side of an open endpoint. */
  function ReceiveSegment(rx: Rx, g: Segment): Rx {
    var rx1 := DeliverData(rx, g.seqNo, g.data);
    if g.fin then rx1.(peerFinSeen := true) else rx1
  }

  function CompleteHandshake(c: Conn): Conn {
    var rto := match c.handshake
      case Some(h) => if h.attempts == 1 then c.rto.OnSample(SatSub(c.now, h.sentAt)) else c.rto
      case None => c.rto;
    c.(handshake := None, rto := rto, state := Established)
  }

  /** The handshake part of `on_datagram`; the flag tells whether it returns early. */
  function Handshake(c: Conn, g: Segment): (Outcome, bool) {
    if c.state == Listening && g.syn && !g.ack then
      var c' := c.(state := SynReceived, handshake := Some(Control(c.now, 1)));
      (Outcome(c', [SynAck(c')]), true)
    else if c.state == SynReceived && g.syn && !g.ack then (Outcome(c, [SynAck(c)]), true)
    else if c.state == SynSent && g.syn && g.ack then
      var c' := CompleteHandshake(c);
      (Outcome(c', [HandshakeAck(c')]), false)
    else if c.state == SynReceived && g.ack && !g.syn then (Outcome(CompleteHandshake(c), []), false)
    else if c.Open() && g.syn && g.ack then (Outcome(c, [HandshakeAck(c)]), false)
    else (Outcome(c, []), false)
  }

  /** The shared block of `on_datagram` for an open endpoint. */
  function ProcessOpen(c: Conn, g: Segment): Outcome {
    var acked := if g.ack then ApplyAck(c, g.header) else Outcome(c, []);
    var c1 := acked.conn.(rx := ReceiveSegment(acked.conn.rx, g));
    var reply := if g.data != [] || g.fin then [PureAck(c1, g.fin)] else [];
    var rest := DrainAndMaybeFin(c1);
    Outcome(rest.conn, acked.out + reply + rest.out)
  }

  function AdoptWindow(c: Conn, now: nat, window: nat): Conn {
    var c1 := AdvanceClock(c, now);
    c1.(tx := c1.tx.(peerWindow := window))
  }

  function OnSegment(c: Conn, now: nat, g: Segment): Outcome {
    var c1 := AdoptWindow(c, now, g.header.window);
    if c1.state == Closed && g.fin then Outcome(c1, [PureAck(c1, true)]) else
      var (hs, done) := Handshake(c1, g);
      if done || !hs.conn.Open() then hs else
        var r := ProcessOpen(hs.conn, g);
        Outcome(r.conn, hs.out + r.out)
  }

  function OnDatagram(c: Conn, now: nat, d: seq<byte>): Outcome {
    match ParseSegment(d)
    case None => Outcome(AdvanceClock(c, now), [])
    case Some(g) => OnSegment(c, now, g)
  }

  // ---- Timers ----

  function TickHandshake(c: Conn): Outcome {
    if c.handshake.None? || SatSub(c.now, c.handshake.value.sentAt) < c.rto.Current() then Outcome(c, []) else
      var attempts := c.handshake.value.attempts + 1;
      if attempts > c.config.maxRetries then Outcome(c.(state := Failed, handshake := None), [])
      else
        var c' := c.(handshake := Some(Control(c.now, attempts)), rto := c.rto.OnTimeout());
        Outcome(c', [if c.state == SynSent then Syn(c') else SynAck(c')])
  }

  /** The retransmission sweep over the unacknowledged segments. */
  function Sweep(unacked: seq<Unacked>, now: nat): (u: seq<Unacked>)
    ensures |u| == |unacked|
    ensures forall i :: 0 <= i < |u| ==>
        u[i] == (if unacked[i].sacked then unacked[i] else Retransmitted(unacked[i], now))
  {
    seq(|unacked|, i requires 0 <= i < |unacked| =>
      if unacked[i].sacked then unacked[i] else Retransmitted(unacked[i], now))
  }

  /** The frames of the sweep, all with the one header built before it. */
  function SweepOut(h: SegmentHeader, unacked: seq<Unacked>): seq<Segment> {
    if unacked == [] then []
    else if unacked[0].sacked then SweepOut(h, unacked[1..])
    else [Segment(unacked[0].seqNo, false, true, false, h, unacked[0].data)] + SweepOut(h, unacked[1..])
  }

  /** Some segment would be resent more than `maxRetries` times. */
  predicate SweepFails(unacked: seq<Unacked>, maxRetries: nat) {
    && unacked != []
    && ((!unacked[0].sacked && unacked[0].retransmitCount + 1 > maxRetries) || SweepFails(unacked[1..], maxRetries))
  }

  predicate DataTimedOut(c: Conn) {
    c.tx.unacked != [] && SatSub(c.now, c.tx.unacked[0].sentAt) >= c.rto.Current()
  }

  /** The data timer: on expiry, congestion response and retransmission of everything not selectively acknowledged. */
  function TickData(c: Conn): Outcome {
    if !DataTimedOut(c) then Outcome(c, []) else
      var out := SweepOut(HeaderOf(c.config, c.rx, false), c.tx.unacked);
      var failed := SweepFails(c.tx.unacked, c.config.maxRetries);
      var tx := c.tx.(ssthresh := HalvedThreshold(c.config, c.tx.cwnd), cwnd := c.config.segmentSize, dupAckCount := 0,
                      unacked := if failed then [] else Sweep(c.tx.unacked, c.now));
      Outcome(c.(rto := c.rto.OnTimeout(), tx := tx, state := if failed then Failed else c.state), out)
  }

  predicate FinTimedOut(c: Conn) {
    c.tx.finPending.Some? && SatSub(c.now, c.tx.finPending.value.sentAt) >= c.rto.Current()
  }

  function TickFin(c: Conn): Outcome {
    if !FinTimedOut(c) then Outcome(c, []) else
      var attempts := c.tx.finPending.value.attempts + 1;
      if attempts > c.config.maxRetries then Outcome(c.(state := Failed, tx := c.tx.(finPending := None)), [])
      else
        var c' := c.(rto := c.rto.OnTimeout(), tx := c.tx.(finPending := Some(Control(c.now, attempts))));
        Outcome(c', [Fin(c')])
  }

  function TickOpen(c: Conn): Outcome {
    var data := TickData(c);
    if data.conn.state == Failed then data else
      var fin := TickFin(data.conn);
      if fin.conn.state == Failed then Outcome(fin.conn, data.out + fin.out) else
        var rest := DrainAndMaybeFin(fin.conn);
        Outcome(rest.conn, data.out + fin.out + rest.out)
  }

  function OnTick(c: Conn, now: nat): Outcome {
    var c1 := AdvanceClock(c, now);
    if c1.state == SynSent || c1.state == SynReceived then TickHandshake(c1)
    else if c1.Open() then TickOpen(c1)
    else Outcome(c1, [])
  }

  // ---- Construction ----

  function Blank(config: Config, now: nat, state: State): Conn {
    Conn(config, state, now, New(config.minRto, config.maxRto), None,
         Tx([], 0, 0, [], false, None, false, config.segmentSize, Max(2 * config.segmentSize, 1), MAX_U32, 0),
         Rx(0, map[], [], false))
  }

  function Connect(config: Config, now: nat): Outcome {
    var c := Blank(config, now, SynSent).(handshake := Some(Control(now, 1)));
    Outcome(c, [Syn(c)])
  }

  function Listen(config: Config, now: nat): Conn { Blank(config, now, Listening) }
}
