/** The receiving half of the stream invariant: what every step of the receiver keeps. */
module ReceiveSafety {
  import opened Bytes
  import opened Segments
  import opened Transport
  import opened Network
  import opened SendSafety
  import opened Sack

  // ---- The receive buffer ----

  /** As ReceiverOk, while buffered data may have become in order. */
  ghost predicate Draining(rx: Rx, recvd: seq<byte>, stream: seq<byte>, cuts: seq<nat>) {
    && rx.expectedSeq in cuts && rx.expectedSeq <= |stream|
    && recvd + rx.delivered == stream[..rx.expectedSeq]
    && forall k :: k in rx.recvBuffer ==> rx.expectedSeq <= k && IsSegment(stream, cuts, k, rx.recvBuffer[k])
  }

  /** The receiver only gains: no byte it ever held is given up. */
  ghost predicate HoldsMore(rx: Rx, rx': Rx) {
    && rx.expectedSeq <= rx'.expectedSeq
    && forall x :: HeldAt(rx, x) ==> HeldAt(rx', x)
  }

  lemma TakeInOrderKeeps(rx: Rx, v: seq<byte>, recvd: seq<byte>, stream: seq<byte>, cuts: seq<nat>, last: nat)
    requires Draining(rx, recvd, stream, cuts) && IsCuts(cuts, last)
    requires IsSegment(stream, cuts, rx.expectedSeq, v)
    ensures Draining(TakeInOrder(rx, v), recvd, stream, cuts)
    ensures HoldsMore(rx, TakeInOrder(rx, v)) && HeldAt(TakeInOrder(rx, v), rx.expectedSeq)
  {
    var e: nat := rx.expectedSeq;
    var rx1 := TakeInOrder(rx, v);
    NoCutInside(stream, cuts, last, e, v, e);
    StreamAppends(stream, e, |v|);
    assert recvd + rx1.delivered == (recvd + rx.delivered) + v;
    forall k | k in rx1.recvBuffer ensures rx1.expectedSeq <= k && IsSegment(stream, cuts, k, rx1.recvBuffer[k]) {
      assert rx1.recvBuffer[k] == rx.recvBuffer[k];
      NoCutInside(stream, cuts, last, k, rx.recvBuffer[k], e);
      NoCutInside(stream, cuts, last, e, v, k);
    }
  }

  lemma StreamAppends(stream: seq<byte>, e: nat, n: nat)
    requires e + n <= |stream|
    ensures stream[..e] + stream[e..e + n] == stream[..e + n]
  {}

  lemma HoldsMoreTransitive(rx: Rx, rx1: Rx, rx2: Rx)
    requires HoldsMore(rx, rx1) && HoldsMore(rx1, rx2)
    ensures HoldsMore(rx, rx2)
  {}

  lemma {:induction false} DrainBufferKeeps(rx: Rx, recvd: seq<byte>, stream: seq<byte>, cuts: seq<nat>, last: nat)
    requires Draining(rx, recvd, stream, cuts) && IsCuts(cuts, last)
    ensures ReceiverOk(DrainBuffer(rx), recvd, stream, cuts)
    ensures HoldsMore(rx, DrainBuffer(rx))
    ensures DrainBuffer(rx).peerFinSeen == rx.peerFinSeen
    decreases rx.recvBuffer.Keys
  {
    var e: nat := rx.expectedSeq;
    if e in rx.recvBuffer {
      var rx1 := TakeInOrder(rx, rx.recvBuffer[e]);
      TakeInOrderKeeps(rx, rx.recvBuffer[e], recvd, stream, cuts, last);
      DrainBufferKeeps(rx1, recvd, stream, cuts, last);
      HoldsMoreTransitive(rx, rx1, DrainBuffer(rx1));
    }
  }

  lemma DeliverKeeps(rx: Rx, seqNo: nat, data: seq<byte>, recvd: seq<byte>, stream: seq<byte>, cuts: seq<nat>,
                     last: nat)
    requires ReceiverOk(rx, recvd, stream, cuts) && IsCuts(cuts, last)
    requires data != [] ==> IsSegment(stream, cuts, seqNo, data)
    ensures ReceiverOk(DeliverData(rx, seqNo, data), recvd, stream, cuts)
    ensures HoldsMore(rx, DeliverData(rx, seqNo, data))
    ensures DeliverData(rx, seqNo, data).peerFinSeen == rx.peerFinSeen
    ensures data != [] ==> HeldAt(DeliverData(rx, seqNo, data), seqNo)
  {
    if data != [] && seqNo + |data| > rx.expectedSeq {
      NoCutInside(stream, cuts, last, seqNo, data, rx.expectedSeq);
      if seqNo <= rx.expectedSeq {
        DeliverNext(rx, data, recvd, stream, cuts, last);
      } else {
        BufferKeeps(rx, seqNo, data, recvd, stream, cuts);
      }
    }
  }

  /** The segment at the cumulative point is delivered, with everything buffered behind it. */
  lemma DeliverNext(rx: Rx, data: seq<byte>, recvd: seq<byte>, stream: seq<byte>, cuts: seq<nat>, last: nat)
    requires ReceiverOk(rx, recvd, stream, cuts) && IsCuts(cuts, last) && data != []
    requires IsSegment(stream, cuts, rx.expectedSeq, data)
    ensures var rx' := DeliverData(rx, rx.expectedSeq, data);
            && ReceiverOk(rx', recvd, stream, cuts) && HoldsMore(rx, rx')
            && rx'.peerFinSeen == rx.peerFinSeen && HeldAt(rx', rx.expectedSeq)
  {
    DeliverInOrder(rx, data);
    var rx1 := TakeInOrder(rx, data);
    TakeInOrderKeeps(rx, data, recvd, stream, cuts, last);
    DrainBufferKeeps(rx1, recvd, stream, cuts, last);
    HoldsMoreTransitive(rx, rx1, DrainBuffer(rx1));
  }

  /** A segment beyond the cumulative point is buffered. */
  lemma BufferKeeps(rx: Rx, seqNo: nat, data: seq<byte>, recvd: seq<byte>, stream: seq<byte>, cuts: seq<nat>)
    requires ReceiverOk(rx, recvd, stream, cuts) && IsSegment(stream, cuts, seqNo, data) && rx.expectedSeq < seqNo
    requires data != []
    ensures var rx' := rx.(recvBuffer := rx.recvBuffer[seqNo := data]);
            ReceiverOk(rx', recvd, stream, cuts) && HoldsMore(rx, rx') && HeldAt(rx', seqNo)
  {}

  lemma RemoveAbsent(m: Buffer, k: nat)
    requires k !in m
    ensures m - {k} == m
  {}

  lemma DeliverInOrder(rx: Rx, data: seq<byte>)
    requires data != [] && rx.expectedSeq !in rx.recvBuffer
    ensures DeliverData(rx, rx.expectedSeq, data) == DrainBuffer(TakeInOrder(rx, data))
  {
    assert data[0..] == data;
    RemoveAbsent(rx.recvBuffer, rx.expectedSeq);
  }

  lemma ReceiverClean(rx: Rx, recvd: seq<byte>, stream: seq<byte>, cuts: seq<nat>, last: nat)
    requires ReceiverOk(rx, recvd, stream, cuts) && IsCuts(cuts, last)
    ensures Clean(rx.recvBuffer)
  {
    var m := rx.recvBuffer;
    forall j, k | j in m && k in m && j < k ensures j + |m[j]| <= k {
      NoCutInside(stream, cuts, last, k, m[k], 0);
      NoCutInside(stream, cuts, last, j, m[j], k);
    }
  }

  /** An advertised range lies beyond the cumulative point, inside what the peer sent, and every segment
      boundary in it starts a segment that is held. */
  lemma AdvertisedHeld(rx: Rx, recvd: seq<byte>, stream: seq<byte>, cuts: seq<nat>, last: nat, n: nat, x: nat)
    requires ReceiverOk(rx, recvd, stream, cuts) && IsCuts(cuts, last)
    requires InRanges(Runs(rx.recvBuffer, n), x)
    ensures rx.expectedSeq < x < last && (x in cuts ==> x in rx.recvBuffer)
  {
    ReceiverClean(rx, recvd, stream, cuts, last);
    RangesCovered(rx.recvBuffer, n, x);
    var k :| k in rx.recvBuffer && k <= x < k + |rx.recvBuffer[k]|;
    InsideSegment(stream, cuts, last, k, rx.recvBuffer[k], x);
  }

  lemma InsideSegment(stream: seq<byte>, cuts: seq<nat>, last: nat, k: nat, data: seq<byte>, x: nat)
    requires IsCuts(cuts, last) && IsSegment(stream, cuts, k, data) && k <= x < k + |data|
    ensures x < last && (x in cuts ==> x == k)
  {
    NoCutInside(stream, cuts, last, k, data, 0);
    if x in cuts { NoCutInside(stream, cuts, last, k, data, x); }
  }

  // ---- Acknowledgements ----

  lemma AcksFollow(sent: set<Segment>, rx: Rx, rx': Rx, cuts: seq<nat>)
    requires AcksOk(sent, rx, cuts) && HoldsMore(rx, rx')
    ensures AcksOk(sent, rx', cuts)
  {}

  /** Sending headers built from the current receive side keeps the acknowledgement invariant. */
  lemma EmitKeepsAcks(sent: set<Segment>, out: set<Segment>, config: Config, rx: Rx, recvd: seq<byte>,
                      stream: seq<byte>, cuts: seq<nat>, last: nat)
    requires ReceiverOk(rx, recvd, stream, cuts) && IsCuts(cuts, last) && AcksOk(sent, rx, cuts)
    requires forall g :: g in out ==> BuiltFrom(g, config, rx)
    ensures AcksOk(sent + out, rx, cuts)
  {
    var all := sent + out;
    forall x: nat | Reported(all, x)
      ensures x < last && (x in cuts ==> HeldAt(rx, x))
      ensures Reported(sent, x) || x > rx.expectedSeq
    {
      var g :| g in all && InRanges(g.header.sack, x);
      if g in out {
        AdvertisedHeld(rx, recvd, stream, cuts, last, MAX_SACK_RANGES, x);
      } else {
        assert Reported(sent, x);
      }
    }
    forall x: nat | Acked(all, x) ensures x in cuts && x <= rx.expectedSeq && !Reported(all, x) {
      if !Acked(sent, x) {
        var g :| g in all && g.header.ack == x;
        assert g in out && x == rx.expectedSeq;
        assert !HeldAt(rx, x);
      }
    }
  }

  // ---- Headers are always built from the receive side before or after the step ----

  lemma {:induction false} SendLoopBuilt(c: Conn)
    ensures AllBuiltFrom(SendLoop(c).out, c.config, c.rx)
    ensures SendLoop(c).conn.rx == c.rx && SendLoop(c).conn.config == c.config && SendLoop(c).conn.state == c.state
    decreases |c.tx.sendQueue|
  {
    var cap := Allowance(c.tx);
    if c.tx.sendQueue != [] && cap != 0 {
      SendLoopBuilt(Admit(c, Min(Min(c.config.segmentSize, |c.tx.sendQueue|), cap)));
    }
  }

  lemma DrainBuilt(c: Conn)
    ensures AllBuiltFrom(DrainAndMaybeFin(c).out, c.config, c.rx)
    ensures DrainAndMaybeFin(c).conn.rx == c.rx && DrainAndMaybeFin(c).conn.config == c.config
  {
    SendLoopBuilt(c);
  }

  lemma ApplyAckBuilt(c: Conn, h: SegmentHeader)
    ensures AllBuiltFrom(ApplyAck(c, h).out, c.config, c.rx)
    ensures ApplyAck(c, h).conn.rx == c.rx && ApplyAck(c, h).conn.config == c.config
  {}

  lemma {:induction false} SweepOutBuilt(config: Config, rx: Rx, u: seq<Unacked>)
    ensures AllBuiltFrom(SweepOut(HeaderOf(config, rx, false), u), config, rx)
    decreases |u|
  {
    if u != [] { SweepOutBuilt(config, rx, u[1..]); }
  }

  lemma TickDataBuilt(c: Conn)
    ensures AllBuiltFrom(TickData(c).out, c.config, c.rx)
    ensures TickData(c).conn.rx == c.rx && TickData(c).conn.config == c.config
  {
    SweepOutBuilt(c.config, c.rx, c.tx.unacked);
  }

  lemma TickFinBuilt(c: Conn)
    ensures AllBuiltFrom(TickFin(c).out, c.config, c.rx)
    ensures TickFin(c).conn.rx == c.rx && TickFin(c).conn.config == c.config
  {}

  lemma OnTickBuilt(c: Conn, now: nat)
    ensures AllBuiltFrom(OnTick(c, now).out, c.config, c.rx)
    ensures OnTick(c, now).conn.rx == c.rx && OnTick(c, now).conn.config == c.config
  {
    var c1 := AdvanceClock(c, now);
    if c1.Open() {
      var c2 := TickData(c1).conn;
      TickDataBuilt(c1);
      TickFinBuilt(c2);
      DrainBuilt(TickFin(c2).conn);
    }
  }

  lemma ProcessOpenBuilt(c: Conn, g: Segment)
    ensures ProcessOpen(c, g).conn.rx == ReceiveSegment(c.rx, g) && ProcessOpen(c, g).conn.config == c.config
    ensures forall s :: s in ProcessOpen(c, g).out ==>
              BuiltFrom(s, c.config, c.rx) || BuiltFrom(s, c.config, ReceiveSegment(c.rx, g))
  {
    var acked := if g.ack then ApplyAck(c, g.header) else Outcome(c, []);
    ApplyAckBuilt(c, g.header);
    var c1 := acked.conn.(rx := ReceiveSegment(acked.conn.rx, g));
    DrainBuilt(c1);
  }

  /** Whether the segment reaches the shared block of an open endpoint. */
  predicate Processed(c: Conn, now: nat, g: Segment) {
    var c1 := AdoptWindow(c, now, g.header.window);
    !(c1.state == Closed && g.fin) && !Handshake(c1, g).1 && Handshake(c1, g).0.conn.Open()
  }

  lemma OnSegmentBuilt(c: Conn, now: nat, g: Segment)
    requires c.state == Closed ==> c.rx.peerFinSeen
    ensures var r := OnSegment(c, now, g);
            && r.conn.config == c.config
            && r.conn.rx == (if Processed(c, now, g) then ReceiveSegment(c.rx, g) else c.rx)
            && forall s :: s in r.out ==> BuiltFrom(s, c.config, c.rx) || BuiltFrom(s, c.config, r.conn.rx)
  {
    var c1 := AdoptWindow(c, now, g.header.window);
    if Processed(c, now, g) { ProcessOpenBuilt(Handshake(c1, g).0.conn, g); }
  }

  // ---- Any action of the receiving side ----

  /** Every action of `x` keeps the direction from `y` to `x`. */
  lemma IncomingKept(y: Side, x: Side, cuts: seq<nat>, act: Action)
    requires Direction(y, x, cuts) && Enabled(x, y.sent, act)
    requires x.conn.state == Closed ==> x.conn.rx.peerFinSeen
    ensures Direction(y, Apply(x, act), cuts)
  {
    var c, x' := x.conn, Apply(x, act);
    EffectBuilt(c, act);
    if act.Receive? {
      DeliverKeeps(c.rx, act.g.seqNo, act.g.data, x.recvd, y.stream, cuts, y.conn.tx.nextSeq);
    }
    assert act.AppRecv? ==> (x.recvd + c.rx.delivered) + [] == x.recvd + c.rx.delivered;
    TwoPhase(y, x, x', cuts, AsSet(Effect(c, act).out));
  }

  /** The receive side after an action. */
  function RxAfter(c: Conn, act: Action): Rx {
    match act
    case Receive(now, g) => if Processed(c, now, g) then ReceiveSegment(c.rx, g) else c.rx
    case AppRecv => c.rx.(delivered := [])
    case _ => c.rx
  }

  lemma EffectBuilt(c: Conn, act: Action)
    requires c.state == Closed ==> c.rx.peerFinSeen
    ensures var r := Effect(c, act);
            && r.conn.config == c.config && r.conn.rx == RxAfter(c, act)
            && forall g :: g in r.out ==> BuiltFrom(g, c.config, c.rx) || BuiltFrom(g, c.config, r.conn.rx)
  {
    match act {
      case Receive(now, g) => OnSegmentBuilt(c, now, g);
      case Garbage(now) =>
      case Tick(now) => OnTickBuilt(c, now);
      case AppSend(now, data) =>
        var c1 := AdvanceClock(c, now);
        DrainBuilt(c1.(tx := c1.tx.(sendQueue := c1.tx.sendQueue + data)));
      case AppClose(now) =>
        var c1 := AdvanceClock(c, now);
        DrainBuilt(c1.(tx := c1.tx.(closeRequested := true)));
      case AppRecv =>
    }
  }

  /** A step whose headers come from the receive side before it or after it. */
  lemma TwoPhase(y: Side, x: Side, x': Side, cuts: seq<nat>, out: set<Segment>)
    requires Direction(y, x, cuts)
    requires ReceiverOk(x'.conn.rx, x'.recvd, y.stream, cuts) && HoldsMore(x.conn.rx, x'.conn.rx)
    requires x'.sent == x.sent + out
    requires forall g :: g in out ==> BuiltFrom(g, x.conn.config, x.conn.rx) || BuiltFrom(g, x.conn.config, x'.conn.rx)
    ensures Direction(y, x', cuts)
  {
    var config, rx, rx', last := x.conn.config, x.conn.rx, x'.conn.rx, y.conn.tx.nextSeq;
    var before := set g | g in out && BuiltFrom(g, config, rx);
    var after := out - before;
    EmitKeepsAcks(x.sent, before, config, rx, x.recvd, y.stream, cuts, last);
    AcksFollow(x.sent + before, rx, rx', cuts);
    EmitKeepsAcks(x.sent + before, after, config, rx', x'.recvd, y.stream, cuts, last);
    assert x'.sent == x.sent + before + after;
    SentGrows(y.conn.tx, x.sent, x'.sent);
  }

  lemma SentGrows(tx: Tx, sent: set<Segment>, sent': set<Segment>)
    requires sent <= sent' && MarksOk(tx.unacked, sent) && Acked(sent, tx.sendBase)
    ensures MarksOk(tx.unacked, sent') && Acked(sent', tx.sendBase)
  {
    forall i | 0 <= i < |tx.unacked| && tx.unacked[i].sacked ensures Reported(sent', tx.unacked[i].seqNo) {
      var g :| g in sent && InRanges(g.header.sack, tx.unacked[i].seqNo);
      assert g in sent';
    }
  }
}
