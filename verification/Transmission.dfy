/** What is put on the wire: everything admitted, at once, and on a timeout exactly what the peer has not reported. */
module Transmission {
  import opened Bytes
  import opened Segments
  import opened Transport
  import opened Network
  import opened ReceiveSafety
  import opened Endpoint
  import opened Theorems

  // ---- Everything admitted is transmitted ----

  /** `out` carries the bytes of `u` at its offset. */
  ghost predicate Carries(out: seq<Segment>, u: Unacked) {
    exists g :: g in out && g.seqNo == u.seqNo && g.data == u.data && g.ack && !g.syn && !g.fin
  }

  /** An entry as it is when first sent. */
  predicate FirstSent(u: Unacked, now: nat) { u.sentAt == now && u.retransmitCount == 0 && !u.sacked }

  /** Every entry from offset `from` on was first sent in this step, and is on the wire. */
  ghost predicate Transmitted(r: Outcome, from: nat) {
    forall i :: 0 <= i < |r.conn.tx.unacked| && r.conn.tx.unacked[i].seqNo >= from ==>
      FirstSent(r.conn.tx.unacked[i], r.conn.now) && Carries(r.out, r.conn.tx.unacked[i])
  }

  /** Nothing unacknowledged lies at or beyond the next offset. */
  ghost predicate AllBelow(u: seq<Unacked>, next: nat) { forall i :: 0 <= i < |u| ==> u[i].seqNo < next }

  lemma SendLoopTransmits(c: Conn, from: nat)
    requires AllBelow(c.tx.unacked, from)
    ensures Transmitted(SendLoop(c), from)
  {
    SendLoopSendsNew(c);
    SentAreTransmitted(SendLoop(c), c.tx.unacked, from);
  }

  lemma SentAreTransmitted(r: Outcome, before: seq<Unacked>, from: nat)
    requires AllBelow(before, from) && before <= r.conn.tx.unacked && |r.out| == |r.conn.tx.unacked| - |before|
    requires forall i :: 0 <= i < |r.out| ==> SentAs(r.conn.tx.unacked[|before| + i], r.out[i], r.conn.now)
    ensures Transmitted(r, from)
  {
    var u, n := r.conn.tx.unacked, |before|;
    forall i | n <= i < |u| ensures FirstSent(u[i], r.conn.now) && Carries(r.out, u[i]) {
      assert SentAs(u[n + (i - n)], r.out[i - n], r.conn.now);
      assert r.out[i - n] in r.out;
    }
    assert forall i :: 0 <= i < n ==> u[i] == before[i];
  }

  /** `r` appends entries to `u`, each first sent at `now` and starting at `next` or later, and sends a segment for
      each, in order. */
  ghost predicate SendsNew(u: seq<Unacked>, next: nat, now: nat, r: Outcome) {
    && r.conn.now == now && next <= r.conn.tx.nextSeq
    && u <= r.conn.tx.unacked && |r.out| == |r.conn.tx.unacked| - |u|
    && forall i :: 0 <= i < |r.out| ==> SentAs(r.conn.tx.unacked[|u| + i], r.out[i], now) && r.out[i].seqNo >= next
  }

  lemma {:induction false} SendLoopSendsNew(c: Conn)
    ensures SendsNew(c.tx.unacked, c.tx.nextSeq, c.now, SendLoop(c))
    decreases |c.tx.sendQueue|
  {
    var cap := Allowance(c.tx);
    if c.tx.sendQueue != [] && cap != 0 {
      var len := Min(Min(c.config.segmentSize, |c.tx.sendQueue|), cap);
      var c1 := Admit(c, len);
      SendLoopSendsNew(c1);
      var first := Data(c.config, c.rx, c.tx.nextSeq, c.tx.sendQueue[..len]);
      PrependSent(c.tx.unacked, c1.tx.unacked[|c.tx.unacked|], first, c.tx.nextSeq, c1.tx.nextSeq, c.now, SendLoop(c1));
    }
  }

  /** One more segment in front. */
  lemma PrependSent(u: seq<Unacked>, entry: Unacked, first: Segment, next: nat, next1: nat, now: nat, r: Outcome)
    requires SentAs(entry, first, now) && first.seqNo >= next && next <= next1 && SendsNew(u + [entry], next1, now, r)
    ensures SendsNew(u, next, now, Outcome(r.conn, [first] + r.out))
  {
    var out, n := [first] + r.out, |u|;
    assert r.conn.tx.unacked[n] == (u + [entry])[n];
    forall i | 0 <= i < |out| ensures SentAs(r.conn.tx.unacked[n + i], out[i], now) && out[i].seqNo >= next {
      if i > 0 {
        var k := i - 1;
        assert out[i] == r.out[k] && SentAs(r.conn.tx.unacked[|u + [entry]| + k], r.out[k], now);
      }
    }
  }

  predicate SentAs(u: Unacked, g: Segment, now: nat) {
    FirstSent(u, now) && g.seqNo == u.seqNo && g.data == u.data && g.ack && !g.syn && !g.fin
  }

  lemma MoreOut(r: Outcome, before: seq<Segment>, after: seq<Segment>, c: Conn, from: nat)
    requires Transmitted(r, from) && c.tx.unacked == r.conn.tx.unacked && c.now == r.conn.now
    ensures Transmitted(Outcome(c, before + r.out + after), from)
  {
    var u := r.conn.tx.unacked;
    forall i | 0 <= i < |u| && u[i].seqNo >= from ensures Carries(before + r.out + after, u[i]) {
      assert Carries(r.out, u[i]);
      var g :| g in r.out && g.seqNo == u[i].seqNo && g.data == u[i].data && g.ack && !g.syn && !g.fin;
      assert g in before + r.out + after;
    }
  }

  lemma DrainTransmits(c: Conn, from: nat, before: seq<Segment>)
    requires AllBelow(c.tx.unacked, from)
    ensures Transmitted(Outcome(DrainAndMaybeFin(c).conn, before + DrainAndMaybeFin(c).out), from)
  {
    var sent := TrySendMore(c);
    if c.Open() { SendLoopTransmits(c, from); }
    var fin := MaybeSendFin(sent.conn).out;
    MoreOut(sent, before, fin, DrainAndMaybeFin(c).conn, from);
    Assoc(before, sent.out, fin);
  }

  lemma ApplyAckBelow(c: Conn, h: SegmentHeader, next: nat)
    requires AllBelow(c.tx.unacked, next)
    ensures AllBelow(ApplyAck(c, h).conn.tx.unacked, next)
  {
    if TriggersFastRetransmit(c, h) {
      var u := c.tx.unacked;
      assert ApplyAck(c, h).conn.tx.unacked == u[0 := Retransmitted(u[0], c.now)];
    } else {
      var n := AckLeaves(c, h);
    }
  }

  lemma OnSegmentTransmits(c: Conn, now: nat, g: Segment, from: nat)
    requires AllBelow(c.tx.unacked, from)
    ensures Transmitted(OnSegment(c, now, g), from)
  {
    var c1 := AdoptWindow(c, now, g.header.window);
    var hs := Handshake(c1, g).0;
    if Processed(c, now, g) {
      var acked := if g.ack then ApplyAck(hs.conn, g.header) else Outcome(hs.conn, []);
      ApplyAckBelow(hs.conn, g.header, from);
      var c2 := acked.conn.(rx := ReceiveSegment(acked.conn.rx, g));
      var reply := if g.data != [] || g.fin then [PureAck(c2, g.fin)] else [];
      DrainTransmits(c2, from, hs.out + (acked.out + reply));
      Assoc(hs.out, acked.out + reply, DrainAndMaybeFin(c2).out);
    }
  }

  lemma OnTickTransmits(c: Conn, now: nat, from: nat)
    requires AllBelow(c.tx.unacked, from)
    ensures Transmitted(OnTick(c, now), from)
  {
    var c1 := AdvanceClock(c, now);
    if c1.Open() { TickOpenTransmits(c1, from); }
  }

  lemma TickOpenTransmits(c: Conn, from: nat)
    requires AllBelow(c.tx.unacked, from)
    ensures Transmitted(TickOpen(c), from)
  {
    TickDataUnacked(c);
    var data := TickData(c);
    TickFinKeepsQueue(data.conn);
    var fin := TickFin(data.conn);
    if data.conn.state != Failed && fin.conn.state != Failed { DrainTransmits(fin.conn, from, data.out + fin.out); }
  }

  lemma EffectTransmits(c: Conn, act: Action, from: nat)
    requires AllBelow(c.tx.unacked, from)
    ensures Transmitted(Effect(c, act), from)
  {
    match act {
      case Receive(now, g) => OnSegmentTransmits(c, now, g, from);
      case Garbage(now) =>
      case Tick(now) => OnTickTransmits(c, now, from);
      case AppSend(now, data) =>
        DrainTransmits(AdvanceClock(c, now).(tx := c.tx.(sendQueue := c.tx.sendQueue + data)), from, []);
      case AppClose(now) => DrainTransmits(AdvanceClock(c, now).(tx := c.tx.(closeRequested := true)), from, []);
      case AppRecv =>
    }
    assert [] + Effect(c, act).out == Effect(c, act).out;
  }

  /** In every run, whatever an action newly takes from the queue is on the wire at once, as a data segment, and its
      timer starts then. */
  lemma AdmittedIsSent(t: seq<System>, i: nat, x: Side, y: Side, act: Action)
    requires InRun(t, i, x, y) && x.conn.state != Failed
    ensures Transmitted(Effect(x.conn, act), x.conn.tx.nextSeq)
  {
    var cx, cy := PairInRun(t, i, x, y);
    TiledCovers(x.conn, x.stream, cx);
    TilesBelow(x.conn.tx.unacked, x.conn.tx.sendBase, x.conn.tx.nextSeq, x.stream);
    EffectTransmits(x.conn, act, x.conn.tx.nextSeq);
  }

  lemma {:induction false} TilesBelow(u: seq<Unacked>, base: nat, end: nat, stream: seq<byte>)
    requires TilesRange(u, base, end, stream)
    ensures AllBelow(u, end) && base <= end
    decreases |u|
  {
    if u != [] {
      var rest := u[1..];
      assert forall i :: 0 <= i < |rest| ==> rest[i] == u[i + 1];
      TilesBelow(rest, u[0].seqNo + |u[0].data|, end, stream);
      forall i | 0 <= i < |u| ensures u[i].seqNo < end { if i > 0 { assert u[i] == rest[i - 1]; } }
    }
  }

  // ---- Selective acknowledgements are used ----

  /** Some range of the header covers the offset. */
  predicate Covers(h: SegmentHeader, k: nat) {
    exists j :: 0 <= j < |h.sack| && h.sack[j].start <= k <= h.sack[j].end
  }

  predicate TriggersFastRetransmit(c: Conn, h: SegmentHeader) {
    h.ack == c.tx.sendBase && c.tx.unacked != [] && c.tx.dupAckCount + 1 == c.config.fastRetransmitDupAcks
  }

  /** Unless it triggers a fast retransmission, a header marks exactly the remaining segments that its ranges cover, and
      leaves older marks. */
  lemma MarksExactly(c: Conn, h: SegmentHeader) returns (n: nat)
    requires !TriggersFastRetransmit(c, h)
    ensures var u, u' := c.tx.unacked, ApplyAck(c, h).conn.tx.unacked;
            && n <= |u| && |u'| == |u| - n && (h.ack <= c.tx.sendBase ==> n == 0)
            && forall k :: 0 <= k < |u'| ==>
                 u'[k] == u[n + k].(sacked := u[n + k].sacked || Covers(h, u[n + k].seqNo))
  {
    n := AckLeaves(c, h);
    MarkedByCover(c.tx.unacked[n..], h);
  }

  /** What an acknowledgement leaves, before the ranges mark it. */
  lemma AckLeaves(c: Conn, h: SegmentHeader) returns (n: nat)
    requires !TriggersFastRetransmit(c, h)
    ensures n <= |c.tx.unacked| && (h.ack <= c.tx.sendBase ==> n == 0)
    ensures ApplyAck(c, h).conn.tx.unacked == MarkSacked(c.tx.unacked[n..], h.sack)
  {
    n := 0;
    if h.ack > c.tx.sendBase {
      n := AcknowledgeSuffix(c.tx.unacked, c.rto, c.now, h.ack);
    } else {
      assert c.tx.unacked[0..] == c.tx.unacked;
    }
  }

  lemma MarkedByCover(u: seq<Unacked>, h: SegmentHeader)
    ensures forall k :: 0 <= k < |u| ==>
              MarkSacked(u, h.sack)[k] == u[k].(sacked := u[k].sacked || Covers(h, u[k].seqNo))
  {
    forall k | 0 <= k < |u| ensures InRanges(h.sack, u[k].seqNo) <==> Covers(h, u[k].seqNo) {
      SameCover(h, u[k].seqNo);
    }
  }

  lemma SameCover(h: SegmentHeader, k: nat)
    ensures InRanges(h.sack, k) <==> Covers(h, k)
  {
    if InRanges(h.sack, k) {
      var r :| r in h.sack && InRange(r, k);
      var j :| 0 <= j < |h.sack| && h.sack[j] == r;
    }
    if Covers(h, k) {
      var j :| 0 <= j < |h.sack| && h.sack[j].start <= k <= h.sack[j].end;
      assert h.sack[j] in h.sack && InRange(h.sack[j], k);
    }
  }

  /** A sweep sends every unmarked segment and no other. */
  lemma {:induction false} SweepSendsUnmarked(h: SegmentHeader, u: seq<Unacked>)
    ensures forall i :: 0 <= i < |u| && !u[i].sacked ==> Carries(SweepOut(h, u), u[i])
    ensures forall g :: g in SweepOut(h, u) ==> HasUnmarkedAt(u, g.seqNo)
    decreases |u|
  {
    if u != [] {
      var rest, out := u[1..], SweepOut(h, u);
      SweepSendsUnmarked(h, rest);
      forall i | 0 <= i < |u| && !u[i].sacked ensures Carries(out, u[i]) {
        if i == 0 {
          assert out[0] in out;
        } else {
          assert u[i] == rest[i - 1];
          CarriesTail(h, u, u[i]);
        }
      }
      forall g | g in out ensures HasUnmarkedAt(u, g.seqNo) {
        if g in SweepOut(h, rest) {
          var k :| 0 <= k < |rest| && !rest[k].sacked && rest[k].seqNo == g.seqNo;
          assert u[k + 1] == rest[k];
        }
      }
    }
  }

  lemma CarriesTail(h: SegmentHeader, u: seq<Unacked>, e: Unacked)
    requires u != [] && Carries(SweepOut(h, u[1..]), e)
    ensures Carries(SweepOut(h, u), e)
  {
    var g :| g in SweepOut(h, u[1..]) && g.seqNo == e.seqNo && g.data == e.data && g.ack && !g.syn && !g.fin;
    assert g in SweepOut(h, u);
  }

  /** Some unmarked segment starts at `k`. */
  predicate HasUnmarkedAt(u: seq<Unacked>, k: nat) {
    exists i :: 0 <= i < |u| && !u[i].sacked && u[i].seqNo == k
  }

  /** Data on the wire is new, or starts an unmarked segment. */
  ghost predicate SendsNeeded(out: seq<Segment>, u: seq<Unacked>, next: nat) {
    forall g :: g in out && g.data != [] ==> g.seqNo >= next || HasUnmarkedAt(u, g.seqNo)
  }

  lemma DrainSendsNew(c: Conn, u: seq<Unacked>, next: nat)
    requires next <= c.tx.nextSeq
    ensures SendsNeeded(DrainAndMaybeFin(c).out, u, next)
  {
    SendLoopSendsNew(c);
  }

  lemma ApplyAckSendsOldest(c: Conn, h: SegmentHeader)
    requires c.tx.unacked != [] ==> !c.tx.unacked[0].sacked
    ensures SendsNeeded(ApplyAck(c, h).out, c.tx.unacked, c.tx.nextSeq)
    ensures ApplyAck(c, h).conn.tx.nextSeq == c.tx.nextSeq
  {
    if TriggersFastRetransmit(c, h) {
      assert ApplyAck(c, h).out[0].seqNo == c.tx.unacked[0].seqNo;
    }
  }

  lemma EffectSendsNeeded(c: Conn, act: Action)
    requires c.tx.unacked != [] ==> !c.tx.unacked[0].sacked
    ensures SendsNeeded(Effect(c, act).out, c.tx.unacked, c.tx.nextSeq)
  {
    var u, next := c.tx.unacked, c.tx.nextSeq;
    match act {
      case Receive(now, g) => OnSegmentSendsNeeded(c, now, g);
      case Garbage(now) =>
      case Tick(now) => OnTickSendsNeeded(c, now);
      case AppSend(now, data) =>
        DrainSendsNew(AdvanceClock(c, now).(tx := c.tx.(sendQueue := c.tx.sendQueue + data)), u, next);
      case AppClose(now) => DrainSendsNew(AdvanceClock(c, now).(tx := c.tx.(closeRequested := true)), u, next);
      case AppRecv =>
    }
  }

  lemma OnSegmentSendsNeeded(c: Conn, now: nat, g: Segment)
    requires c.tx.unacked != [] ==> !c.tx.unacked[0].sacked
    ensures SendsNeeded(OnSegment(c, now, g).out, c.tx.unacked, c.tx.nextSeq)
  {
    var hs := Handshake(AdoptWindow(c, now, g.header.window), g).0;
    if Processed(c, now, g) { ProcessOpenSendsNeeded(hs.conn, g); }
  }

  lemma ProcessOpenSendsNeeded(c: Conn, g: Segment)
    requires c.tx.unacked != [] ==> !c.tx.unacked[0].sacked
    ensures SendsNeeded(ProcessOpen(c, g).out, c.tx.unacked, c.tx.nextSeq)
  {
    var acked := if g.ack then ApplyAck(c, g.header) else Outcome(c, []);
    ApplyAckSendsOldest(c, g.header);
    DrainSendsNew(acked.conn.(rx := ReceiveSegment(acked.conn.rx, g)), c.tx.unacked, c.tx.nextSeq);
  }

  lemma OnTickSendsNeeded(c: Conn, now: nat)
    ensures SendsNeeded(OnTick(c, now).out, c.tx.unacked, c.tx.nextSeq)
  {
    var c1 := AdvanceClock(c, now);
    if c1.Open() { TickOpenSendsNeeded(c1); }
  }

  lemma TickOpenSendsNeeded(c: Conn)
    ensures SendsNeeded(TickOpen(c).out, c.tx.unacked, c.tx.nextSeq)
  {
    SweepSendsUnmarked(HeaderOf(c.config, c.rx, false), c.tx.unacked);
    var c1 := TickData(c).conn;
    DrainSendsNew(TickFin(c1).conn, c.tx.unacked, c.tx.nextSeq);
  }

  // ---- Marks stay ----

  /** Each old entry that is still there was there before, and has kept its mark. */
  ghost predicate KeepsMarks(u: seq<Unacked>, u': seq<Unacked>, next: nat) {
    forall i :: 0 <= i < |u'| && u'[i].seqNo < next ==> WasThere(u, u'[i])
  }

  ghost predicate WasThere(u: seq<Unacked>, e: Unacked) {
    exists j :: 0 <= j < |u| && u[j].seqNo == e.seqNo && (u[j].sacked ==> e.sacked)
  }

  lemma SendLoopKeepsMarks(c: Conn, u: seq<Unacked>, next: nat)
    requires KeepsMarks(u, c.tx.unacked, next) && next <= c.tx.nextSeq
    ensures KeepsMarks(u, SendLoop(c).conn.tx.unacked, next)
  {
    SendLoopAppends(c);
    AppendKeepsMarks(u, c.tx.unacked, SendLoop(c).conn.tx.unacked, next);
  }

  lemma SendLoopAppends(c: Conn)
    ensures var u, u' := c.tx.unacked, SendLoop(c).conn.tx.unacked;
            u <= u' && forall i :: |u| <= i < |u'| ==> u'[i].seqNo >= c.tx.nextSeq
    ensures c.tx.nextSeq <= SendLoop(c).conn.tx.nextSeq
  {
    SendLoopSendsNew(c);
    var r, n := SendLoop(c), |c.tx.unacked|;
    var u' := r.conn.tx.unacked;
    forall i | n <= i < |u'| ensures u'[i].seqNo >= c.tx.nextSeq {
      assert SentAs(u'[n + (i - n)], r.out[i - n], c.now);
    }
  }

  lemma AppendKeepsMarks(u: seq<Unacked>, w: seq<Unacked>, w': seq<Unacked>, next: nat)
    requires KeepsMarks(u, w, next) && w <= w' && forall i :: |w| <= i < |w'| ==> w'[i].seqNo >= next
    ensures KeepsMarks(u, w', next)
  {
    forall i | 0 <= i < |w'| && w'[i].seqNo < next ensures WasThere(u, w'[i]) { assert w'[i] == w[i]; }
  }

  lemma DrainKeepsMarks(c: Conn, u: seq<Unacked>, next: nat)
    requires KeepsMarks(u, c.tx.unacked, next) && next <= c.tx.nextSeq
    ensures KeepsMarks(u, DrainAndMaybeFin(c).conn.tx.unacked, next)
    ensures c.tx.nextSeq <= DrainAndMaybeFin(c).conn.tx.nextSeq
  {
    SendLoopKeepsMarks(c, u, next);
    SendLoopAppends(c);
  }

  /** The same entries, with marks only added. */
  lemma SameEntries(u: seq<Unacked>, u': seq<Unacked>, n: nat, next: nat)
    requires n + |u'| == |u|
    requires forall k :: 0 <= k < |u'| ==> u'[k].seqNo == u[n + k].seqNo && (u[n + k].sacked ==> u'[k].sacked)
    ensures KeepsMarks(u, u', next)
  {
    forall i | 0 <= i < |u'| ensures WasThere(u, u'[i]) { assert u'[i].seqNo == u[n + i].seqNo; }
  }

  lemma ApplyAckKeepsMarks(c: Conn, h: SegmentHeader, next: nat)
    ensures KeepsMarks(c.tx.unacked, ApplyAck(c, h).conn.tx.unacked, next)
  {
    var u := c.tx.unacked;
    if TriggersFastRetransmit(c, h) {
      SameEntries(u, u[0 := Retransmitted(u[0], c.now)], 0, next);
    } else {
      var n := AckLeaves(c, h);
      SameEntries(u, MarkSacked(u[n..], h.sack), n, next);
    }
  }

  lemma OnSegmentKeepsMarks(c: Conn, now: nat, g: Segment)
    ensures KeepsMarks(c.tx.unacked, OnSegment(c, now, g).conn.tx.unacked, c.tx.nextSeq)
    ensures c.tx.nextSeq <= OnSegment(c, now, g).conn.tx.nextSeq
  {
    var hs := Handshake(AdoptWindow(c, now, g.header.window), g).0;
    SameEntries(c.tx.unacked, c.tx.unacked, 0, c.tx.nextSeq);
    if Processed(c, now, g) { ProcessOpenKeepsMarks(hs.conn, g); }
  }

  lemma ProcessOpenKeepsMarks(c: Conn, g: Segment)
    ensures KeepsMarks(c.tx.unacked, ProcessOpen(c, g).conn.tx.unacked, c.tx.nextSeq)
    ensures c.tx.nextSeq <= ProcessOpen(c, g).conn.tx.nextSeq
  {
    var u, next := c.tx.unacked, c.tx.nextSeq;
    var acked := if g.ack then ApplyAck(c, g.header) else Outcome(c, []);
    if g.ack { ApplyAckKeepsMarks(c, g.header, next); } else { SameEntries(u, u, 0, next); }
    AckKeepsNext(c, g.header);
    DrainKeepsMarks(acked.conn.(rx := ReceiveSegment(acked.conn.rx, g)), u, next);
  }

  lemma AckKeepsNext(c: Conn, h: SegmentHeader)
    ensures ApplyAck(c, h).conn.tx.nextSeq == c.tx.nextSeq
  {}

  lemma TickOpenKeepsMarks(c: Conn)
    ensures KeepsMarks(c.tx.unacked, TickOpen(c).conn.tx.unacked, c.tx.nextSeq)
    ensures c.tx.nextSeq <= TickOpen(c).conn.tx.nextSeq
  {
    var u, next := c.tx.unacked, c.tx.nextSeq;
    TickDataKeepsMarks(c);
    var c1 := TickData(c).conn;
    TickFinKeepsQueue(c1);
    var c2 := TickFin(c1).conn;
    if c1.state != Failed && c2.state != Failed { DrainKeepsMarks(c2, u, next); }
  }

  lemma TickDataKeepsMarks(c: Conn)
    ensures KeepsMarks(c.tx.unacked, TickData(c).conn.tx.unacked, c.tx.nextSeq)
    ensures TickData(c).conn.tx.nextSeq == c.tx.nextSeq
  {
    TickDataUnacked(c);
    KeptOrSwept(c.tx.unacked, TickData(c).conn.tx.unacked, c.now, c.tx.nextSeq);
  }

  lemma KeptOrSwept(u: seq<Unacked>, w: seq<Unacked>, now: nat, next: nat)
    requires w == u || w == [] || w == Sweep(u, now)
    ensures KeepsMarks(u, w, next)
  {
    if w == u {
      SameEntries(u, u, 0, next);
    } else if w != [] {
      SweepKeepsMarks(u, now, next);
    }
  }

  lemma SweepKeepsMarks(u: seq<Unacked>, now: nat, next: nat)
    ensures KeepsMarks(u, Sweep(u, now), next)
  {
    SameEntries(u, Sweep(u, now), 0, next);
  }

  lemma TickDataUnacked(c: Conn)
    ensures var w := TickData(c).conn.tx.unacked;
            w == c.tx.unacked || w == [] || w == Sweep(c.tx.unacked, c.now)
    ensures TickData(c).conn.tx.nextSeq == c.tx.nextSeq
  {}

  lemma TickFinKeepsQueue(c: Conn)
    ensures TickFin(c).conn.tx.unacked == c.tx.unacked && TickFin(c).conn.tx.nextSeq == c.tx.nextSeq
  {}

  lemma EffectKeepsMarks(c: Conn, act: Action)
    ensures KeepsMarks(c.tx.unacked, Effect(c, act).conn.tx.unacked, c.tx.nextSeq)
    ensures c.tx.nextSeq <= Effect(c, act).conn.tx.nextSeq
  {
    var u, next := c.tx.unacked, c.tx.nextSeq;
    SameEntries(u, u, 0, next);
    match act {
      case Receive(now, g) => OnSegmentKeepsMarks(c, now, g);
      case Garbage(now) =>
      case Tick(now) => if c.Open() { TickOpenKeepsMarks(AdvanceClock(c, now)); }
      case AppSend(now, data) =>
        DrainKeepsMarks(AdvanceClock(c, now).(tx := c.tx.(sendQueue := c.tx.sendQueue + data)), u, next);
      case AppClose(now) => DrainKeepsMarks(AdvanceClock(c, now).(tx := c.tx.(closeRequested := true)), u, next);
      case AppRecv =>
    }
  }

  // ---- In every run ----

  /** Every entry of a sender has its own offset. */
  lemma {:induction false} TilesDistinct(u: seq<Unacked>, base: nat, end: nat, stream: seq<byte>, i: nat, j: nat)
    requires TilesRange(u, base, end, stream) && i < j < |u|
    ensures u[i].seqNo < u[j].seqNo
    decreases j
  {
    if j > i + 1 { TilesDistinct(u, base, end, stream, i, j - 1); }
    assert u[j - 1].seqNo + |u[j - 1].data| == u[j - 1 + 1].seqNo;
  }

  /** No unmarked segment starts where a marked one does. */
  lemma MarkedIsAlone(u: seq<Unacked>, base: nat, end: nat, stream: seq<byte>, k: nat)
    requires TilesRange(u, base, end, stream) && k < |u| && u[k].sacked
    ensures !HasUnmarkedAt(u, u[k].seqNo)
  {
    forall i | 0 <= i < |u| && u[i].seqNo == u[k].seqNo ensures u[i].sacked {
      if i < k { TilesDistinct(u, base, end, stream, i, k); }
      if k < i { TilesDistinct(u, base, end, stream, k, i); }
    }
  }

  /** The offset `k` is of data already sent, and no unmarked segment starts there. */
  ghost predicate Reported(c: Conn, k: nat) {
    k < c.tx.nextSeq && (c.state != Failed ==> !HasUnmarkedAt(c.tx.unacked, k))
  }

  lemma EffectKeepsReported(c: Conn, act: Action, k: nat)
    requires Reported(c, k) && c.state != Failed
    ensures Reported(Effect(c, act).conn, k)
  {
    EffectKeepsMarks(c, act);
    var u' := Effect(c, act).conn.tx.unacked;
    forall i | 0 <= i < |u'| && u'[i].seqNo == k ensures u'[i].sacked {
      assert WasThere(c.tx.unacked, u'[i]);
      var j :| 0 <= j < |c.tx.unacked| && c.tx.unacked[j].seqNo == k && (c.tx.unacked[j].sacked ==> u'[i].sacked);
    }
  }

  /** What the state of one side gives for its unacknowledged segments. */
  lemma SideTiles(t: seq<System>, i: nat, x: Side, y: Side)
    requires InRun(t, i, x, y) && x.conn.state != Failed
    ensures TilesRange(x.conn.tx.unacked, x.conn.tx.sendBase, x.conn.tx.nextSeq, x.stream)
    ensures x.conn.tx.unacked != [] ==> !x.conn.tx.unacked[0].sacked
  {
    var cx, cy := PairInRun(t, i, x, y);
    TiledCovers(x.conn, x.stream, cx);
    if x.conn.tx.unacked != [] { OldestUnmarked(x, y, cx); }
  }

  /** A marked segment is reported. */
  lemma MarkedIsReported(t: seq<System>, i: nat, x: Side, y: Side, k: nat)
    requires InRun(t, i, x, y) && x.conn.state != Failed && k < |x.conn.tx.unacked| && x.conn.tx.unacked[k].sacked
    ensures Reported(x.conn, x.conn.tx.unacked[k].seqNo)
  {
    SideTiles(t, i, x, y);
    var u := x.conn.tx.unacked;
    MarkedIsAlone(u, x.conn.tx.sendBase, x.conn.tx.nextSeq, x.stream, k);
    TilesBelow(u, x.conn.tx.sendBase, x.conn.tx.nextSeq, x.stream);
  }

  /** One side of a state of a run. */
  function SideOf(s: System, connects: bool): Side { if connects then s.a else s.b }

  lemma FailedStays(c: Conn, act: Action)
    requires c.state == Failed
    ensures Effect(c, act).conn.state == Failed && Effect(c, act).conn.tx.nextSeq == c.tx.nextSeq
    ensures Effect(c, act).out == []
  {}

  lemma {:induction false} FailedForGood(t: seq<System>, i: nat, j: nat, connects: bool)
    requires IsRun(t) && i <= j < |t| && SideOf(t[i], connects).conn.state == Failed
    ensures SideOf(t[j], connects).conn.state == Failed
    decreases j
  {
    assert StepAt(t, j);
    if i < j {
      FailedForGood(t, i, j - 1, connects);
      NextKeepsFailed(t[j - 1], t[j], connects);
    }
  }

  lemma NextKeepsFailed(s: System, s': System, connects: bool)
    requires Next(s, s') && SideOf(s, connects).conn.state == Failed
    ensures SideOf(s', connects).conn.state == Failed
  {
    var act: Action :| (Enabled(s.a, s.b.sent, act) && s' == System(Apply(s.a, act), s.b))
                       || (Enabled(s.b, s.a.sent, act) && s' == System(s.a, Apply(s.b, act)));
    FailedStays(SideOf(s, connects).conn, act);
  }

  /** Once reported, reported in every later state. */
  lemma {:induction false} ReportedForGood(t: seq<System>, i: nat, j: nat, connects: bool, k: nat)
    requires IsRun(t) && i <= j < |t| && Reported(SideOf(t[i], connects).conn, k)
    ensures Reported(SideOf(t[j], connects).conn, k)
    decreases j
  {
    assert StepAt(t, j);
    if i < j {
      ReportedForGood(t, i, j - 1, connects, k);
      NextKeepsReported(t[j - 1], t[j], connects, k);
    }
  }

  lemma NextKeepsReported(s: System, s': System, connects: bool, k: nat)
    requires Next(s, s') && Reported(SideOf(s, connects).conn, k)
    ensures Reported(SideOf(s', connects).conn, k)
  {
    var act: Action :| (Enabled(s.a, s.b.sent, act) && s' == System(Apply(s.a, act), s.b))
                       || (Enabled(s.b, s.a.sent, act) && s' == System(s.a, Apply(s.b, act)));
    var c := SideOf(s, connects).conn;
    if c.state == Failed { FailedStays(c, act); } else { EffectKeepsReported(c, act, k); }
  }

  /** Selective acknowledgement pays: in every run, a segment once marked is never sent again, by whatever action and in
      whatever later state. */
  lemma MarkedNeverResent(t: seq<System>, i: nat, j: nat, connects: bool, m: nat, act: Action)
    requires IsRun(t) && i <= j < |t|
    requires var c := SideOf(t[i], connects).conn; m < |c.tx.unacked| && c.tx.unacked[m].sacked
    ensures forall g :: g in Effect(SideOf(t[j], connects).conn, act).out && g.data != [] ==>
              g.seqNo != SideOf(t[i], connects).conn.tx.unacked[m].seqNo
  {
    var c := SideOf(t[j], connects).conn;
    if c.state == Failed {
      FailedStays(c, act);
    } else if SideOf(t[i], connects).conn.state == Failed {
      FailedForGood(t, i, j, connects);
    } else {
      MarkedNotResent(t, i, j, connects, m, act);
    }
  }

  lemma MarkedNotResent(t: seq<System>, i: nat, j: nat, connects: bool, m: nat, act: Action)
    requires IsRun(t) && i <= j < |t|
    requires var c := SideOf(t[i], connects).conn; c.state != Failed && m < |c.tx.unacked| && c.tx.unacked[m].sacked
    requires SideOf(t[j], connects).conn.state != Failed
    ensures forall g :: g in Effect(SideOf(t[j], connects).conn, act).out && g.data != [] ==>
              g.seqNo != SideOf(t[i], connects).conn.tx.unacked[m].seqNo
  {
    var x, y := SideOf(t[i], connects), SideOf(t[i], !connects);
    MarkedIsReported(t, i, x, y, m);
    ReportedForGood(t, i, j, connects, x.conn.tx.unacked[m].seqNo);
    var c := SideOf(t[j], connects).conn;
    SideTiles(t, j, SideOf(t[j], connects), SideOf(t[j], !connects));
    EffectSendsNeeded(c, act);
  }

  /** And on a timeout every segment that is not marked is sent again: the sweep is exact. */
  lemma SweepIsComplete(c: Conn, now: nat)
    requires c.Open() && DataTimedOut(AdvanceClock(c, now))
    ensures forall k :: 0 <= k < |c.tx.unacked| && !c.tx.unacked[k].sacked ==>
        Carries(OnTick(c, now).out, c.tx.unacked[k])
  {
    var c1 := AdvanceClock(c, now);
    var out := SweepOut(HeaderOf(c1.config, c1.rx, false), c1.tx.unacked);
    SweepSendsUnmarked(HeaderOf(c1.config, c1.rx, false), c1.tx.unacked);
    assert out <= OnTick(c, now).out;
    forall k | 0 <= k < |c.tx.unacked| && !c.tx.unacked[k].sacked ensures Carries(OnTick(c, now).out, c.tx.unacked[k]) {
      assert Carries(out, c.tx.unacked[k]);
      CarriesPrefix(out, OnTick(c, now).out, c.tx.unacked[k]);
    }
  }

  lemma CarriesPrefix(out: seq<Segment>, all: seq<Segment>, u: Unacked)
    requires out <= all && Carries(out, u)
    ensures Carries(all, u)
  {
    var g :| g in out && g.seqNo == u.seqNo && g.data == u.data && g.ack && !g.syn && !g.fin;
    assert g in all;
  }
}
