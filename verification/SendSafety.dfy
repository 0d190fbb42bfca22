/** The sending half of the stream invariant: what every step of the sender keeps. */
module SendSafety {
  import opened Bytes
  import opened Segments
  import opened Rto
  import opened Transport
  import opened Network

  // ---- Boundaries ----

  lemma CutIndex(cuts: seq<nat>, x: nat) returns (i: nat)
    requires x in cuts
    ensures i < |cuts| && cuts[i] == x
  {
    i :| 0 <= i < |cuts| && cuts[i] == x;
  }

  lemma CutOrder(cuts: seq<nat>, last: nat, i: nat, j: nat)
    requires IsCuts(cuts, last) && i < |cuts| && j < |cuts|
    ensures i < j <==> cuts[i] < cuts[j]
  {}

  /** No boundary lies inside a segment. */
  lemma NoCutInside(stream: seq<byte>, cuts: seq<nat>, last: nat, k: nat, data: seq<byte>, x: nat)
    requires IsCuts(cuts, last) && IsSegment(stream, cuts, k, data) && x in cuts
    ensures x <= k || x >= k + |data|
    ensures k in cuts && k + |data| in cuts && k + |data| <= last && data != []
  {
    var i :| SegmentAt(stream, cuts, i, k, data);
    var j := CutIndex(cuts, x);
    CutOrder(cuts, last, i, i + 1);
    CutOrder(cuts, last, i + 1, |cuts| - 1);
    CutOrder(cuts, last, i + 1, j);
    CutOrder(cuts, last, j, i);
  }

  lemma CutsBound(cuts: seq<nat>, last: nat, x: nat)
    requires IsCuts(cuts, last) && x in cuts
    ensures x <= last
  {
    var i := CutIndex(cuts, x);
    if i < |cuts| - 1 { assert cuts[i] < cuts[|cuts| - 1]; }
  }

  lemma SegmentGrows(stream: seq<byte>, cuts: seq<nat>, stream': seq<byte>, cuts': seq<nat>, k: nat, data: seq<byte>)
    requires stream <= stream' && cuts <= cuts' && IsSegment(stream, cuts, k, data)
    ensures IsSegment(stream', cuts', k, data)
  {
    var i :| SegmentAt(stream, cuts, i, k, data);
    assert stream'[k..k + |data|] == stream[k..k + |data|];
    assert SegmentAt(stream', cuts', i, k, data);
  }

  /** Extending the stream and the boundaries keeps everything known about the receiver and the network. */
  lemma PeerGrows(x: set<Segment>, y: Side, stream: seq<byte>, cuts: seq<nat>, stream': seq<byte>, cuts': seq<nat>,
                  last: nat, last': nat)
    requires stream <= stream' && cuts <= cuts' && IsCuts(cuts, last) && IsCuts(cuts', last')
    requires ReceiverOk(y.conn.rx, y.recvd, stream, cuts) && DataOk(x, stream, cuts) && AcksOk(y.sent, y.conn.rx, cuts)
    ensures ReceiverOk(y.conn.rx, y.recvd, stream', cuts') && DataOk(x, stream', cuts')
    ensures AcksOk(y.sent, y.conn.rx, cuts')
  {
    var rx := y.conn.rx;
    forall k | k in rx.recvBuffer ensures IsSegment(stream', cuts', k, rx.recvBuffer[k]) {
      SegmentGrows(stream, cuts, stream', cuts', k, rx.recvBuffer[k]);
    }
    assert stream'[..rx.expectedSeq] == stream[..rx.expectedSeq];
    var e := CutIndex(cuts, rx.expectedSeq);
    assert cuts'[e] == rx.expectedSeq;
    forall g | g in x && g.data != [] ensures IsSegment(stream', cuts', g.seqNo, g.data) {
      SegmentGrows(stream, cuts, stream', cuts', g.seqNo, g.data);
    }
    AcksGrow(y.sent, rx, cuts, cuts', last, last');
  }

  lemma AcksGrow(sent: set<Segment>, rx: Rx, cuts: seq<nat>, cuts': seq<nat>, last: nat, last': nat)
    requires cuts <= cuts' && IsCuts(cuts, last) && IsCuts(cuts', last')
    requires AcksOk(sent, rx, cuts)
    ensures AcksOk(sent, rx, cuts')
  {
    assert last <= last' by { assert cuts'[|cuts| - 1] == last; CutsBound(cuts', last', last); }
    forall x | Acked(sent, x) ensures x in cuts' {
      var i := CutIndex(cuts, x);
      assert cuts'[i] == x;
    }
    forall x | Reported(sent, x) && x in cuts' ensures HeldAt(rx, x) {
      var i := CutIndex(cuts', x);
      CutOrder(cuts', last', |cuts| - 1, i);
      assert x == cuts[i];
    }
  }

  // ---- The sender's micro-steps ----

  /** What the sender's own steps keep, given what the peer has sent. */
  ghost predicate Sending(c: Conn, stream: seq<byte>, cuts: seq<nat>, peerSent: set<Segment>) {
    SenderOk(c, stream, cuts) && MarksOk(c.tx.unacked, peerSent) && Acked(peerSent, c.tx.sendBase)
  }

  ghost predicate AllSegments(out: seq<Segment>, stream: seq<byte>, cuts: seq<nat>) {
    forall g :: g in out && g.data != [] ==> IsSegment(stream, cuts, g.seqNo, g.data)
  }

  lemma AcknowledgeDrops(unacked: seq<Unacked>, rto: Estimator, now: nat, ack: nat, n: nat)
    requires n <= |unacked|
    requires forall i :: 0 <= i < n ==> unacked[i].seqNo < ack
    requires n < |unacked| ==> unacked[n].seqNo >= ack
    ensures Acknowledge(unacked, rto, now, ack).0 == unacked[n..]
    decreases n
  {
    if n > 0 {
      var rto' := if unacked[0].retransmitCount == 0 then rto.OnSample(SatSub(now, unacked[0].sentAt)) else rto;
      AcknowledgeDrops(unacked[1..], rto', now, ack, n - 1);
      assert unacked[1..][n - 1..] == unacked[n..];
    }
  }

  lemma TiledStarts(u: seq<Unacked>, base: nat, stream: seq<byte>, cuts: seq<nat>)
    requires Tiled(u, base, stream, cuts)
    ensures forall i :: 0 <= i < |u| ==> u[i].seqNo == cuts[|cuts| - 1 - |u| + i]
  {
    forall i | 0 <= i < |u| ensures u[i].seqNo == cuts[|cuts| - 1 - |u| + i] {
      assert SegmentAt(stream, cuts, |cuts| - 1 - |u| + i, u[i].seqNo, u[i].data);
    }
  }

  lemma TiledSuffix(u: seq<Unacked>, base: nat, stream: seq<byte>, cuts: seq<nat>, n: nat)
    requires Tiled(u, base, stream, cuts) && n <= |u|
    ensures Tiled(u[n..], cuts[|cuts| - 1 - |u| + n], stream, cuts)
  {
    var v := u[n..];
    forall i | 0 <= i < |v|
      ensures SegmentAt(stream, cuts, |cuts| - 1 - |v| + i, v[i].seqNo, v[i].data)
    {
      assert SegmentAt(stream, cuts, |cuts| - 1 - |u| + (n + i), u[n + i].seqNo, u[n + i].data);
    }
  }

  /** A cumulative acknowledgement at a boundary drops whole segments and leaves a tiling from there on. */
  lemma NewAckTiles(c: Conn, ack: nat, stream: seq<byte>, cuts: seq<nat>) returns (n: nat)
    requires IsCuts(cuts, c.tx.nextSeq) && Tiled(c.tx.unacked, c.tx.sendBase, stream, cuts)
    requires ack in cuts && ack > c.tx.sendBase
    ensures n <= |c.tx.unacked| && NewAck(c, ack).tx.unacked == c.tx.unacked[n..]
    ensures Tiled(NewAck(c, ack).tx.unacked, ack, stream, cuts)
  {
    var m := CutIndex(cuts, ack);
    var u := c.tx.unacked;
    var b := |cuts| - 1 - |u|;
    CutOrder(cuts, c.tx.nextSeq, b, m);
    n := m - b;
    TiledStarts(u, c.tx.sendBase, stream, cuts);
    forall i | 0 <= i < n ensures u[i].seqNo < ack { assert cuts[b + i] < cuts[m]; }
    AcknowledgeDrops(u, c.rto, c.now, ack, n);
    TiledSuffix(u, c.tx.sendBase, stream, cuts, n);
  }

  lemma ApplyAckKeeps(c: Conn, g: Segment, stream: seq<byte>, cuts: seq<nat>, peerSent: set<Segment>, rx: Rx)
    requires Sending(c, stream, cuts, peerSent) && c.Open()
    requires g in peerSent && AcksOk(peerSent, rx, cuts)
    ensures Sending(ApplyAck(c, g.header).conn, stream, cuts, peerSent)
    ensures AllSegments(ApplyAck(c, g.header).out, stream, cuts)
    ensures ApplyAck(c, g.header).conn.state != Failed
  {
    var h := g.header;
    assert Acked(peerSent, h.ack);
    if h.ack > c.tx.sendBase {
      var n := NewAckTiles(c, h.ack, stream, cuts);
      var c1 := NewAck(c, h.ack);
      assert forall i :: 0 <= i < |c1.tx.unacked| ==> c1.tx.unacked[i] == c.tx.unacked[n + i];
      MarkKeeps(c1, g, stream, cuts, peerSent);
    } else if h.ack == c.tx.sendBase && c.tx.unacked != [] {
      if c.tx.dupAckCount + 1 == c.config.fastRetransmitDupAcks {
        FastRetransmitKeeps(c, stream, cuts, peerSent);
      } else {
        MarkKeeps(c.(tx := c.tx.(dupAckCount := c.tx.dupAckCount + 1)), g, stream, cuts, peerSent);
      }
    } else {
      MarkKeeps(c, g, stream, cuts, peerSent);
    }
  }

  lemma MarkKeeps(c: Conn, g: Segment, stream: seq<byte>, cuts: seq<nat>, peerSent: set<Segment>)
    requires Sending(c, stream, cuts, peerSent) && c.Open() && g in peerSent
    ensures Sending(ApplySackAndFin(c, g.header), stream, cuts, peerSent)
    ensures ApplySackAndFin(c, g.header).state != Failed
  {
    var u := MarkSacked(c.tx.unacked, g.header.sack);
    RetileSame(c.tx.unacked, u, c.tx.sendBase, stream, cuts);
    forall i | 0 <= i < |u| && u[i].sacked ensures Reported(peerSent, u[i].seqNo) {
      assert u[i].seqNo == c.tx.unacked[i].seqNo;
    }
  }

  lemma FastRetransmitKeeps(c: Conn, stream: seq<byte>, cuts: seq<nat>, peerSent: set<Segment>)
    requires Sending(c, stream, cuts, peerSent) && c.Open() && c.tx.unacked != []
    ensures Sending(FastRetransmit(c).conn, stream, cuts, peerSent)
    ensures AllSegments(FastRetransmit(c).out, stream, cuts)
    ensures FastRetransmit(c).conn.state != Failed
  {
    var u := c.tx.unacked;
    RetileSame(u, u[0 := Retransmitted(u[0], c.now)], c.tx.sendBase, stream, cuts);
    assert SegmentAt(stream, cuts, |cuts| - 1 - |u| + 0, u[0].seqNo, u[0].data);
  }

  /** Retransmission bookkeeping does not disturb the tiling. */
  lemma RetileSame(u: seq<Unacked>, u': seq<Unacked>, base: nat, stream: seq<byte>, cuts: seq<nat>)
    requires Tiled(u, base, stream, cuts) && |u'| == |u|
    requires forall i :: 0 <= i < |u| ==> u'[i].seqNo == u[i].seqNo && u'[i].data == u[i].data
    ensures Tiled(u', base, stream, cuts)
  {
    forall i | 0 <= i < |u'|
      ensures SegmentAt(stream, cuts, |cuts| - 1 - |u'| + i, u'[i].seqNo, u'[i].data)
    {
      assert SegmentAt(stream, cuts, |cuts| - 1 - |u| + i, u[i].seqNo, u[i].data);
    }
  }

  lemma AdmitKeeps(c: Conn, len: nat, stream: seq<byte>, cuts: seq<nat>, peerSent: set<Segment>)
    requires Sending(c, stream, cuts, peerSent) && c.Open() && 0 < len <= |c.tx.sendQueue|
    ensures var cuts' := cuts + [c.tx.nextSeq + len];
            && Sending(Admit(c, len), stream, cuts', peerSent)
            && IsSegment(stream, cuts', c.tx.nextSeq, c.tx.sendQueue[..len])
  {
    var cuts' := cuts + [c.tx.nextSeq + len];
    var c' := Admit(c, len);
    var data := c.tx.sendQueue[..len];
    assert data == stream[c.tx.nextSeq..c.tx.nextSeq + len];
    assert c'.tx.sendQueue == stream[c'.tx.nextSeq..];
    CutsExtend(cuts, c.tx.nextSeq, c.tx.nextSeq + len);
    TiledExtend(c.tx.unacked, c.tx.sendBase, stream, cuts, c.tx.nextSeq, Unacked(c.tx.nextSeq, data, c.now, 0, false));
  }

  lemma CutsExtend(cuts: seq<nat>, last: nat, next: nat)
    requires IsCuts(cuts, last) && last < next
    ensures IsCuts(cuts + [next], next)
  {
    var cuts' := cuts + [next];
    forall i, j | 0 <= i < j < |cuts'| ensures cuts'[i] < cuts'[j] {
      if j == |cuts| { CutsBound(cuts, last, cuts[i]); }
    }
  }

  lemma TiledExtend(u: seq<Unacked>, base: nat, stream: seq<byte>, cuts: seq<nat>, last: nat, seg: Unacked)
    requires Tiled(u, base, stream, cuts) && IsCuts(cuts, last) && seg.seqNo == last
    requires last + |seg.data| <= |stream| && seg.data == stream[last..last + |seg.data|]
    ensures var cuts' := cuts + [last + |seg.data|];
            Tiled(u + [seg], base, stream, cuts') && IsSegment(stream, cuts', last, seg.data)
  {
    var cuts', u' := cuts + [last + |seg.data|], u + [seg];
    assert SegmentAt(stream, cuts', |cuts| - 1, last, seg.data);
    forall i | 0 <= i < |u'|
      ensures SegmentAt(stream, cuts', |cuts'| - 1 - |u'| + i, u'[i].seqNo, u'[i].data)
    {
      if i < |u| { assert SegmentAt(stream, cuts, |cuts| - 1 - |u| + i, u[i].seqNo, u[i].data); }
    }
  }

  lemma {:induction false} SendLoopKeeps(c: Conn, stream: seq<byte>, cuts: seq<nat>, peerSent: set<Segment>)
    returns (cuts': seq<nat>)
    requires Sending(c, stream, cuts, peerSent) && c.Open()
    ensures cuts <= cuts'
    ensures Sending(SendLoop(c).conn, stream, cuts', peerSent)
    ensures AllSegments(SendLoop(c).out, stream, cuts')
    ensures SendLoop(c).conn.state == c.state
    decreases |c.tx.sendQueue|
  {
    var cap := Allowance(c.tx);
    if c.tx.sendQueue == [] || cap == 0 {
      cuts' := cuts;
    } else {
      var len := Min(Min(c.config.segmentSize, |c.tx.sendQueue|), cap);
      AdmitKeeps(c, len, stream, cuts, peerSent);
      var mid := cuts + [c.tx.nextSeq + len];
      cuts' := SendLoopKeeps(Admit(c, len), stream, mid, peerSent);
      SegmentGrows(stream, mid, stream, cuts', c.tx.nextSeq, c.tx.sendQueue[..len]);
    }
  }

  lemma DrainKeeps(c: Conn, stream: seq<byte>, cuts: seq<nat>, peerSent: set<Segment>)
    returns (cuts': seq<nat>)
    requires Sending(c, stream, cuts, peerSent)
    ensures cuts <= cuts'
    ensures Sending(DrainAndMaybeFin(c).conn, stream, cuts', peerSent)
    ensures AllSegments(DrainAndMaybeFin(c).out, stream, cuts')
  {
    if c.Open() {
      cuts' := SendLoopKeeps(c, stream, cuts, peerSent);
    } else {
      cuts' := cuts;
    }
  }

  lemma {:induction false} SweepOutSegments(h: SegmentHeader, u: seq<Unacked>, stream: seq<byte>, cuts: seq<nat>)
    requires forall i :: 0 <= i < |u| ==> IsSegment(stream, cuts, u[i].seqNo, u[i].data)
    ensures AllSegments(SweepOut(h, u), stream, cuts)
    decreases |u|
  {
    if u != [] { SweepOutSegments(h, u[1..], stream, cuts); }
  }

  lemma TiledSegments(u: seq<Unacked>, base: nat, stream: seq<byte>, cuts: seq<nat>)
    requires Tiled(u, base, stream, cuts)
    ensures forall i :: 0 <= i < |u| ==> IsSegment(stream, cuts, u[i].seqNo, u[i].data)
  {
    forall i | 0 <= i < |u| ensures IsSegment(stream, cuts, u[i].seqNo, u[i].data) {
      assert SegmentAt(stream, cuts, |cuts| - 1 - |u| + i, u[i].seqNo, u[i].data);
    }
  }

  lemma TickDataKeeps(c: Conn, stream: seq<byte>, cuts: seq<nat>, peerSent: set<Segment>)
    requires Sending(c, stream, cuts, peerSent) && c.Open()
    ensures Sending(TickData(c).conn, stream, cuts, peerSent)
    ensures AllSegments(TickData(c).out, stream, cuts)
  {
    if DataTimedOut(c) {
      var u := c.tx.unacked;
      TiledSegments(u, c.tx.sendBase, stream, cuts);
      SweepOutSegments(HeaderOf(c.config, c.rx, false), u, stream, cuts);
      SweepKeeps(u, c.now, c.tx.sendBase, stream, cuts, peerSent);
      SendingFrame(c, TickData(c).conn, stream, cuts, peerSent);
    }
  }

  lemma SweepKeeps(u: seq<Unacked>, now: nat, base: nat, stream: seq<byte>, cuts: seq<nat>, peerSent: set<Segment>)
    requires Tiled(u, base, stream, cuts) && MarksOk(u, peerSent)
    ensures Tiled(Sweep(u, now), base, stream, cuts) && MarksOk(Sweep(u, now), peerSent)
  {
    RetileSame(u, Sweep(u, now), base, stream, cuts);
  }

  /** Only the unacknowledged segments, the queue and the cumulative points matter to the sender's invariant. */
  lemma SendingFrame(c: Conn, c': Conn, stream: seq<byte>, cuts: seq<nat>, peerSent: set<Segment>)
    requires Sending(c, stream, cuts, peerSent)
    requires c'.tx.nextSeq == c.tx.nextSeq && c'.tx.sendQueue == c.tx.sendQueue && c'.tx.sendBase == c.tx.sendBase
    requires c'.state == Failed || Tiled(c'.tx.unacked, c'.tx.sendBase, stream, cuts)
    requires MarksOk(c'.tx.unacked, peerSent)
    ensures Sending(c', stream, cuts, peerSent)
  {}

  lemma OnTickKeeps(c: Conn, now: nat, stream: seq<byte>, cuts: seq<nat>, peerSent: set<Segment>)
    returns (cuts': seq<nat>)
    requires Sending(c, stream, cuts, peerSent)
    ensures cuts <= cuts'
    ensures Sending(OnTick(c, now).conn, stream, cuts', peerSent)
    ensures AllSegments(OnTick(c, now).out, stream, cuts')
  {
    cuts' := cuts;
    var c1 := AdvanceClock(c, now);
    if c1.Open() {
      TickDataKeeps(c1, stream, cuts, peerSent);
      var c2 := TickData(c1).conn;
      var c3 := TickFin(c2).conn;
      if c2.state != Failed && c3.state != Failed {
        cuts' := DrainKeeps(c3, stream, cuts, peerSent);
        AllSegmentsGrow(TickData(c1).out, stream, cuts, cuts');
      }
    }
  }

  lemma AllSegmentsGrow(out: seq<Segment>, stream: seq<byte>, cuts: seq<nat>, cuts': seq<nat>)
    requires cuts <= cuts' && AllSegments(out, stream, cuts)
    ensures AllSegments(out, stream, cuts')
  {
    forall g | g in out && g.data != [] ensures IsSegment(stream, cuts', g.seqNo, g.data) {
      SegmentGrows(stream, cuts, stream, cuts', g.seqNo, g.data);
    }
  }

  lemma OnSegmentKeeps(c: Conn, now: nat, g: Segment, stream: seq<byte>, cuts: seq<nat>, peerSent: set<Segment>, rx: Rx)
    returns (cuts': seq<nat>)
    requires Sending(c, stream, cuts, peerSent)
    requires g in peerSent && AcksOk(peerSent, rx, cuts)
    ensures cuts <= cuts'
    ensures Sending(OnSegment(c, now, g).conn, stream, cuts', peerSent)
    ensures AllSegments(OnSegment(c, now, g).out, stream, cuts')
  {
    cuts' := cuts;
    var c1 := AdoptWindow(c, now, g.header.window);
    if !(c1.state == Closed && g.fin) {
      var (hs, done) := Handshake(c1, g);
      assert Sending(hs.conn, stream, cuts, peerSent);
      if !done && hs.conn.Open() {
        cuts' := ProcessOpenKeeps(hs.conn, g, stream, cuts, peerSent, rx);
        AllSegmentsGrow(hs.out, stream, cuts, cuts');
      }
    }
  }

  lemma ProcessOpenKeeps(c: Conn, g: Segment, stream: seq<byte>, cuts: seq<nat>, peerSent: set<Segment>, rx: Rx)
    returns (cuts': seq<nat>)
    requires Sending(c, stream, cuts, peerSent) && c.Open()
    requires g in peerSent && AcksOk(peerSent, rx, cuts)
    ensures cuts <= cuts'
    ensures Sending(ProcessOpen(c, g).conn, stream, cuts', peerSent)
    ensures AllSegments(ProcessOpen(c, g).out, stream, cuts')
  {
    var acked := if g.ack then ApplyAck(c, g.header) else Outcome(c, []);
    if g.ack { ApplyAckKeeps(c, g, stream, cuts, peerSent, rx); }
    var c1 := acked.conn.(rx := ReceiveSegment(acked.conn.rx, g));
    cuts' := DrainKeeps(c1, stream, cuts, peerSent);
    AllSegmentsGrow(acked.out, stream, cuts, cuts');
  }

  // ---- Any action of the sending side ----

  lemma ActionKeeps(x: Side, act: Action, cuts: seq<nat>, peerSent: set<Segment>, rx: Rx)
    returns (cuts': seq<nat>)
    requires Sending(x.conn, x.stream, cuts, peerSent) && DataOk(x.sent, x.stream, cuts)
    requires Enabled(x, peerSent, act) && AcksOk(peerSent, rx, cuts)
    ensures cuts <= cuts' && x.stream <= Apply(x, act).stream
    ensures Sending(Apply(x, act).conn, Apply(x, act).stream, cuts', peerSent)
    ensures DataOk(Apply(x, act).sent, Apply(x, act).stream, cuts')
  {
    var x' := Apply(x, act);
    var stream := x'.stream;
    var c := x.conn;
    cuts' := cuts;
    match act {
      case Receive(now, g) =>
        cuts' := OnSegmentKeeps(c, now, g, stream, cuts, peerSent, rx);
      case Garbage(now) =>
      case Tick(now) =>
        cuts' := OnTickKeeps(c, now, stream, cuts, peerSent);
      case AppSend(now, data) =>
        cuts' := SendKeeps(x, now, data, cuts, peerSent);
      case AppClose(now) =>
        var c1 := AdvanceClock(c, now);
        cuts' := DrainKeeps(c1.(tx := c1.tx.(closeRequested := true)), stream, cuts, peerSent);
      case AppRecv =>
    }
    assert AllSegments(Effect(c, act).out, stream, cuts');
    forall g | g in x'.sent && g.data != [] ensures IsSegment(stream, cuts', g.seqNo, g.data) {
      if g in x.sent { SegmentGrows(x.stream, cuts, stream, cuts', g.seqNo, g.data); }
    }
  }

  lemma SendKeeps(x: Side, now: nat, data: seq<byte>, cuts: seq<nat>, peerSent: set<Segment>)
    returns (cuts': seq<nat>)
    requires Sending(x.conn, x.stream, cuts, peerSent)
    ensures cuts <= cuts'
    ensures Sending(Send(x.conn, now, data).conn, x.stream + data, cuts', peerSent)
    ensures AllSegments(Send(x.conn, now, data).out, x.stream + data, cuts')
  {
    var stream := x.stream + data;
    var c1 := AdvanceClock(x.conn, now);
    var c2 := c1.(tx := c1.tx.(sendQueue := c1.tx.sendQueue + data));
    assert c2.tx.sendQueue == stream[c2.tx.nextSeq..];
    if c2.state != Failed {
      var u := c2.tx.unacked;
      forall i | 0 <= i < |u|
        ensures SegmentAt(stream, cuts, |cuts| - 1 - |u| + i, u[i].seqNo, u[i].data)
      {
        assert SegmentAt(x.stream, cuts, |cuts| - 1 - |u| + i, u[i].seqNo, u[i].data);
      }
    }
    cuts' := DrainKeeps(c2, stream, cuts, peerSent);
  }

  /** Every action of `x` keeps the direction from `x` to `y`. */
  lemma {:induction false} OutgoingKept(x: Side, y: Side, cuts: seq<nat>, act: Action) returns (cuts': seq<nat>)
    requires Direction(x, y, cuts) && Enabled(x, y.sent, act)
    ensures cuts <= cuts' && Direction(Apply(x, act), y, cuts')
  {
    cuts' := ActionKeeps(x, act, cuts, y.sent, y.conn.rx);
    var x' := Apply(x, act);
    PeerGrows(x.sent, y, x.stream, cuts, x'.stream, cuts', x.conn.tx.nextSeq, x'.conn.tx.nextSeq);
  }
}
