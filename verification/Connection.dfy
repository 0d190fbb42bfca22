/**
 `Connection`: the endpoint as an object whose methods update its fields in place and return the datagrams
 to send. Every method is proved against the functions of module Transport.
 */
module Connections {
  import opened Bytes
  import opened Segments
  import Frames
  import opened Rto
  import opened Transport

  /** The datagrams that carry a list of segments. */
  function Wire(segs: seq<Segment>): (w: seq<seq<byte>>)
    ensures |w| == |segs| && forall i :: 0 <= i < |w| ==> w[i] == EncodeSegment(segs[i])
  {
    seq(|segs|, i requires 0 <= i < |segs| => EncodeSegment(segs[i]))
  }

  lemma WireConcat(a: seq<Segment>, b: seq<Segment>)
    ensures Wire(a + b) == Wire(a) + Wire(b)
  {}

  /** Encodes a segment: sub-header, data, then the frame around them. */
  method Transmit(g: Segment) returns (d: seq<byte>)
    ensures d == EncodeSegment(g)
  {
    var payload := AppendHeader(g.header, []);
    assert payload == EncodeHeader(g.header);
    payload := payload + g.data;
    d := Frames.EncodeFrame(Frames.Frame(0, g.seqNo % U32_LIMIT, Flags(g), payload));
  }

  method TransmitAll(segs: seq<Segment>) returns (out: seq<seq<byte>>)
    ensures out == Wire(segs)
  {
    out := [];
    for i := 0 to |segs|
      invariant out == Wire(segs[..i])
    {
      var d := Transmit(segs[i]);
      WireMore(segs, i);
      out := out + [d];
    }
    assert segs[..|segs|] == segs;
  }

  lemma WireMore(segs: seq<Segment>, i: nat)
    requires i < |segs|
    ensures Wire(segs[..i + 1]) == Wire(segs[..i]) + [EncodeSegment(segs[i])]
  {}

  /** Decodes a datagram: the frame around it, then the sub-header, and the rest is data. */
  method ReadSegment(datagram: seq<byte>) returns (g: Option<Segment>)
    ensures g == ParseSegment(datagram)
  {
    match Frames.Decode(datagram) {
      case Err(_) => g := None;
      case Ok(f) =>
        var read := ReadHeader(f.payload);
        match read {
          case None => g := None;
          case Some((header, data)) =>
            var syn, ack, fin := f.flags % 2 == 1, f.flags / 2 % 2 == 1, f.flags / 4 % 2 == 1;
            g := Some(Segment(f.sequence, syn, ack, fin, header, data));
        }
    }
  }

  class Connection {
    const config: Config
    const rto: RtoEstimator
    var state: State
    var now: nat
    var handshake: Option<Control>
    var sendQueue: seq<byte>
    var nextSeq: nat
    var sendBase: nat
    var unacked: seq<Unacked>
    var closeRequested: bool
    var finPending: Option<Control>
    var finAcked: bool
    var peerWindow: nat
    var cwnd: nat
    var ssthresh: nat
    var dupAckCount: nat
    var expectedSeq: nat
    var recvBuffer: Buffer
    var delivered: seq<byte>
    var peerFinSeen: bool

    ghost function View(): Conn
      reads this, rto
    {
      Conn(config, state, now, rto.View(), handshake,
           Tx(sendQueue, nextSeq, sendBase, unacked, closeRequested, finPending, finAcked, peerWindow, cwnd, ssthresh,
              dupAckCount),
           Rx(expectedSeq, recvBuffer, delivered, peerFinSeen))
    }

    constructor Blank(config: Config, now: nat, state: State)
      ensures View() == Transport.Blank(config, now, state) && fresh(rto)
    {
      this.config, this.state, this.now := config, state, now;
      this.rto := new RtoEstimator(config.minRto, config.maxRto);
      handshake := None;
      sendQueue, nextSeq, sendBase, unacked := [], 0, 0, [];
      closeRequested, finPending, finAcked := false, None, false;
      peerWindow, cwnd, ssthresh, dupAckCount := config.segmentSize, Max(2 * config.segmentSize, 1), MAX_U32, 0;
      expectedSeq, recvBuffer, delivered, peerFinSeen := 0, map[], [], false;
    }

    /** `connect`, run on a blank `SynSent` connection. */
    method StartHandshake() returns (syn: seq<byte>)
      requires View() == Transport.Blank(config, now, SynSent)
      modifies this
      ensures View() == Connect(config, old(now)).conn && Wire(Connect(config, old(now)).out) == [syn]
    {
      handshake := Some(Control(now, 1));
      var h := BuildHeader(false);
      syn := Transmit(Segment(0, true, false, false, h, []));
    }

    // ---- Frame builders ----

    method HeldBytes() returns (sum: nat)
      ensures sum == SumLengths(recvBuffer) + |delivered|
    {
      sum := 0;
      var rest: map<nat, seq<byte>> := recvBuffer;
      while rest.Keys != {}
        invariant sum + SumLengths(rest) == SumLengths(recvBuffer)
        decreases rest.Keys
      {
        var k: nat := MinKey(rest.Keys);
        sum := sum + |rest[k]|;
        rest := rest - {k};
      }
      sum := sum + |delivered|;
    }

    /** `current_sack_ranges`: one pass over the buffer in key order, merging adjacent segments. */
    method CurrentSackRanges() returns (ranges: seq<SackRange>)
      ensures ranges == Runs(recvBuffer, MAX_SACK_RANGES)
    {
      ranges := MergeRuns(recvBuffer, MAX_SACK_RANGES);
    }

    method BuildHeader(finAck: bool) returns (h: SegmentHeader)
      ensures h == HeaderOf(config, View().rx, finAck)
    {
      var held := HeldBytes();
      var sack := CurrentSackRanges();
      h := SegmentHeader(expectedSeq, finAck, SatSub(config.recvWindowCapacity, held), sack);
    }

    // ---- Sending ----

    method InFlightBytes() returns (sum: nat)
      ensures sum == InFlight(unacked)
    {
      sum := 0;
      for i := 0 to |unacked|
        invariant sum + InFlight(unacked[i..]) == InFlight(unacked)
      {
        assert unacked[i..][1..] == unacked[i + 1..];
        sum := sum + |unacked[i].data|;
      }
    }

    method NextAllowance() returns (cap: nat)
      ensures cap == Allowance(View().tx)
    {
      var inFlight := InFlightBytes();
      var available := SatSub(Min(peerWindow, cwnd), inFlight);
      cap := if inFlight == 0 then Max(available, 1) else available;
    }

    /** `try_send_more`: admits queued bytes while the windows allow. */
    method TrySendMore() returns (out: seq<Segment>)
      modifies this
      ensures View() == Transport.TrySendMore(old(View())).conn
      ensures out == Transport.TrySendMore(old(View())).out
    {
      out := [];
      if !(state == Established || state == Closing) {
        return;
      }
      ghost var goal := SendLoop(View());
      var cap := NextAllowance();
      while sendQueue != [] && cap != 0
        invariant cap == Allowance(View().tx)
        invariant SendLoop(View()).conn == goal.conn
        invariant out + SendLoop(View()).out == goal.out
        decreases |sendQueue|
      {
        ghost var before := SendLoop(View());
        var g := AdmitSegment(Min(Min(config.segmentSize, |sendQueue|), cap));
        assert before == Outcome(SendLoop(View()).conn, [g] + SendLoop(View()).out);
        Shift(out, g, SendLoop(View()).out);
        out := out + [g];
        cap := NextAllowance();
      }
    }

    /** Moves the next `len` queued bytes into a new unacknowledged segment and builds its frame. */
    method AdmitSegment(len: nat) returns (g: Segment)
      requires len <= |sendQueue|
      modifies this
      ensures View() == Admit(old(View()), len)
      ensures g == Data(config, old(View()).rx, old(nextSeq), old(sendQueue)[..len])
    {
      var seqNo, data := nextSeq, sendQueue[..len];
      sendQueue := sendQueue[len..];
      nextSeq := nextSeq + len;
      var h := BuildHeader(false);
      g := Segment(seqNo, false, true, false, h, data);
      unacked := unacked + [Unacked(seqNo, data, now, 0, false)];
    }

    method MaybeSendFin() returns (out: seq<Segment>)
      modifies this
      ensures View() == Transport.MaybeSendFin(old(View())).conn
      ensures out == Transport.MaybeSendFin(old(View())).out
    {
      out := [];
      if closeRequested && finPending.None? && !finAcked && state == Established && sendQueue == [] && unacked == [] {
        state := Closing;
        finPending := Some(Control(now, 1));
        var h := BuildHeader(false);
        out := [Segment(sendBase, false, true, true, h, [])];
      }
    }

    method CheckFullyClosed()
      modifies this
      ensures View() == Transport.CheckFullyClosed(old(View()))
    {
      if state == Closing && finAcked && peerFinSeen {
        state := Closed;
      }
    }

    method DrainAndMaybeFin() returns (out: seq<Segment>)
      modifies this
      ensures View() == Transport.DrainAndMaybeFin(old(View())).conn
      ensures out == Transport.DrainAndMaybeFin(old(View())).out
    {
      out := TrySendMore();
      var more := MaybeSendFin();
      CheckFullyClosed();
      out := out + more;
    }

    method Send(time: nat, data: seq<byte>) returns (out: seq<seq<byte>>)
      modifies this
      ensures View() == Transport.Send(old(View()), time, data).conn
      ensures out == Wire(Transport.Send(old(View()), time, data).out)
    {
      now := Max(now, time);
      sendQueue := sendQueue + data;
      var segs := DrainAndMaybeFin();
      out := TransmitAll(segs);
    }

    method Close(time: nat) returns (out: seq<seq<byte>>)
      modifies this
      ensures View() == Transport.Close(old(View()), time).conn
      ensures out == Wire(Transport.Close(old(View()), time).out)
    {
      now := Max(now, time);
      closeRequested := true;
      var segs := DrainAndMaybeFin();
      out := TransmitAll(segs);
    }

    /** `recv`: hands over everything delivered so far. */
    method Recv() returns (bytes: seq<byte>)
      modifies this
      ensures bytes == old(delivered)
      ensures View() == old(View()).(rx := old(View()).rx.(delivered := []))
    {
      bytes := delivered;
      delivered := [];
    }

    // ---- Receiving ----

    /** Drops the segments below `ack`, oldest first, sampling round trips. */
    method DropAcknowledged(ack: nat)
      modifies this, rto
      ensures var r := Acknowledge(old(unacked), old(rto.View()), now, ack);
              View() == old(View()).(rto := r.1, tx := old(View()).tx.(unacked := r.0))
    {
      ghost var before := View();
      ghost var goal := Acknowledge(unacked, rto.View(), now, ack);
      while unacked != [] && unacked[0].seqNo < ack
        invariant Acknowledge(unacked, rto.View(), now, ack) == goal
        invariant View() == before.(rto := rto.View(), tx := before.tx.(unacked := unacked))
        decreases |unacked|
      {
        if unacked[0].retransmitCount == 0 {
          rto.OnSample(SatSub(now, unacked[0].sentAt));
        }
        unacked := unacked[1..];
      }
    }

    method ApplySackAndFin(h: SegmentHeader)
      modifies this
      ensures View() == Transport.ApplySackAndFin(old(View()), h)
    {
      unacked := MarkAll(unacked, h.sack);
      if h.finAck {
        finAcked := true;
        finPending := None;
        CheckFullyClosed();
      }
    }

    /** The branch of `apply_ack` for an acknowledgement of new data. */
    method AdvanceBase(ack: nat)
      requires ack > sendBase
      modifies this, rto
      ensures View() == NewAck(old(View()), ack)
    {
      var acked := ack - sendBase;
      DropAcknowledged(ack);
      sendBase := ack;
      dupAckCount := 0;
      cwnd := if cwnd < ssthresh then SatAdd(cwnd, acked) else SatAdd(cwnd, Increment(config, cwnd));
    }

    /** The branch of `apply_ack` that fast-retransmits the oldest segment. */
    method RetransmitOldest() returns (out: seq<Segment>)
      requires unacked != []
      modifies this
      ensures View() == FastRetransmit(old(View())).conn && out == FastRetransmit(old(View())).out
    {
      dupAckCount := 0;
      ssthresh := HalvedThreshold(config, cwnd);
      cwnd := ssthresh;
      var oldest := unacked[0];
      unacked := unacked[0 := Retransmitted(oldest, now)];
      assert View() == FastRetransmit(old(View())).conn;
      var header := BuildHeader(false);
      out := [Segment(oldest.seqNo, false, true, false, header, oldest.data)];
    }

    method ApplyAck(h: SegmentHeader) returns (out: seq<Segment>)
      modifies this, rto
      ensures View() == Transport.ApplyAck(old(View()), h).conn
      ensures out == Transport.ApplyAck(old(View()), h).out
    {
      out := [];
      if h.ack > sendBase {
        AdvanceBase(h.ack);
        ApplySackAndFin(h);
      } else if h.ack == sendBase && unacked != [] {
        if dupAckCount + 1 == config.fastRetransmitDupAcks {
          out := RetransmitOldest();
        } else {
          dupAckCount := dupAckCount + 1;
          ApplySackAndFin(h);
        }
      } else {
        ApplySackAndFin(h);
      }
    }

    /** `deliver_data`: in-order data goes to the application with whatever it uncovers, the rest is buffered. */
    method DeliverData(seqNo: nat, data: seq<byte>)
      modifies this
      ensures View() == old(View()).(rx := Transport.DeliverData(old(View()).rx, seqNo, data))
    {
      var end := seqNo + |data|;
      if data == [] || end <= expectedSeq {
        return;
      }
      ghost var before := View();
      if seqNo <= expectedSeq {
        delivered := delivered + data[expectedSeq - seqNo..];
        expectedSeq := end;
        ghost var goal := DrainBuffer(View().rx);
        while expectedSeq in recvBuffer
          invariant DrainBuffer(View().rx) == goal
          invariant View() == before.(rx := View().rx)
          decreases recvBuffer.Keys
        {
          var v := recvBuffer[expectedSeq];
          recvBuffer := recvBuffer - {expectedSeq};
          expectedSeq := expectedSeq + |v|;
          delivered := delivered + v;
        }
      } else {
        recvBuffer := recvBuffer[seqNo := data];
      }
    }

    method CompleteHandshake()
      modifies this, rto
      ensures View() == Transport.CompleteHandshake(old(View()))
    {
      if handshake.Some? && handshake.value.attempts == 1 {
        rto.OnSample(SatSub(now, handshake.value.sentAt));
      }
      handshake := None;
      state := Established;
    }

    /** The handshake cases of `on_datagram`; `done` tells whether it returns early. */
    method Handshake(g: Segment) returns (out: seq<Segment>, done: bool)
      modifies this, rto
      ensures View() == Transport.Handshake(old(View()), g).0.conn && done == Transport.Handshake(old(View()), g).1
      ensures out == Transport.Handshake(old(View()), g).0.out
    {
      out, done := [], false;
      if state == Listening && g.syn && !g.ack {
        state := SynReceived;
        handshake := Some(Control(now, 1));
        var h := BuildHeader(false);
        out, done := [Segment(0, true, true, false, h, [])], true;
      } else if state == SynReceived && g.syn && !g.ack {
        var h := BuildHeader(false);
        out, done := [Segment(0, true, true, false, h, [])], true;
      } else if state == SynSent && g.syn && g.ack {
        CompleteHandshake();
        var h := BuildHeader(false);
        out := [Segment(0, false, true, false, h, [])];
      } else if state == SynReceived && g.ack && !g.syn {
        CompleteHandshake();
      } else if (state == Established || state == Closing) && g.syn && g.ack {
        var h := BuildHeader(false);
        out := [Segment(0, false, true, false, h, [])];
      }
    }

    /** The receive part of the shared block: data, then FIN. */
    method TakeSegment(g: Segment)
      modifies this
      ensures View() == old(View()).(rx := ReceiveSegment(old(View()).rx, g))
    {
      DeliverData(g.seqNo, g.data);
      if g.fin {
        peerFinSeen := true;
      }
    }

    /** The shared block of `on_datagram` for an open connection. */
    method ProcessOpen(g: Segment) returns (out: seq<Segment>)
      modifies this, rto
      ensures View() == Transport.ProcessOpen(old(View()), g).conn
      ensures out == Transport.ProcessOpen(old(View()), g).out
    {
      out := [];
      if g.ack {
        out := ApplyAck(g.header);
      }
      TakeSegment(g);
      if g.data != [] || g.fin {
        var h := BuildHeader(g.fin);
        out := out + [Segment(sendBase, false, true, false, h, [])];
      }
      var more := DrainAndMaybeFin();
      out := out + more;
    }

    method OnSegment(time: nat, g: Segment) returns (out: seq<Segment>)
      modifies this, rto
      ensures View() == Transport.OnSegment(old(View()), time, g).conn
      ensures out == Transport.OnSegment(old(View()), time, g).out
    {
      now := Max(now, time);
      peerWindow := g.header.window;
      assert View() == AdoptWindow(old(View()), time, g.header.window);
      if state == Closed && g.fin {
        var h := BuildHeader(true);
        return [Segment(sendBase, false, true, false, h, [])];
      }
      var done;
      out, done := Handshake(g);
      if !done && (state == Established || state == Closing) {
        var more := ProcessOpen(g);
        out := out + more;
      }
    }

    /** `on_datagram`: a datagram that does not decode only moves the clock. */
    method OnDatagram(time: nat, datagram: seq<byte>) returns (out: seq<seq<byte>>)
      modifies this, rto
      ensures View() == Transport.OnDatagram(old(View()), time, datagram).conn
      ensures out == Wire(Transport.OnDatagram(old(View()), time, datagram).out)
    {
      var parsed := ReadSegment(datagram);
      match parsed {
        case None =>
          now := Max(now, time);
          out := [];
        case Some(g) =>
          var segs := OnSegment(time, g);
          out := TransmitAll(segs);
      }
    }

    // ---- Timers ----

    method TickHandshake() returns (out: seq<Segment>)
      requires state == SynSent || state == SynReceived
      modifies this, rto
      ensures View() == Transport.TickHandshake(old(View())).conn
      ensures out == Transport.TickHandshake(old(View())).out
    {
      out := [];
      if handshake.Some? {
        var current := rto.Current();
        if SatSub(now, handshake.value.sentAt) >= current {
          var attempts := handshake.value.attempts + 1;
          if attempts > config.maxRetries {
            state := Failed;
            handshake := None;
            return;
          }
          rto.OnTimeout();
          handshake := Some(Control(now, attempts));
          var h := BuildHeader(false);
          out := [Segment(0, true, state == SynReceived, false, h, [])];
        }
      }
    }

    method TickData() returns (out: seq<Segment>)
      modifies this, rto
      ensures View() == Transport.TickData(old(View())).conn
      ensures out == Transport.TickData(old(View())).out
    {
      out := [];
      if unacked != [] {
        var current := rto.Current();
        if SatSub(now, unacked[0].sentAt) >= current {
          out := ExpireData();
        }
      }
    }

    /** The congestion response to an expired data timer. */
    method BackOff()
      modifies this, rto
      ensures View() == old(View()).(rto := old(rto.View()).OnTimeout(),
                tx := old(View()).tx.(ssthresh := HalvedThreshold(config, old(cwnd)), cwnd := config.segmentSize,
                                      dupAckCount := 0))
    {
      rto.OnTimeout();
      ssthresh := HalvedThreshold(config, cwnd);
      cwnd := config.segmentSize;
      dupAckCount := 0;
    }

    /** The data timer has expired: congestion response and retransmission sweep. */
    method ExpireData() returns (out: seq<Segment>)
      requires DataTimedOut(View())
      modifies this, rto
      ensures View() == Transport.TickData(old(View())).conn
      ensures out == Transport.TickData(old(View())).out
    {
      BackOff();
      var h := BuildHeader(false);
      var swept, failed;
      swept, out, failed := SweepAll(h, unacked, now, config.maxRetries);
      if failed {
        state := Failed;
        unacked := [];
      } else {
        unacked := swept;
      }
    }

    method TickFin() returns (out: seq<Segment>)
      modifies this, rto
      ensures View() == Transport.TickFin(old(View())).conn
      ensures out == Transport.TickFin(old(View())).out
    {
      out := [];
      if finPending.Some? {
        var current := rto.Current();
        if SatSub(now, finPending.value.sentAt) >= current {
          var attempts := finPending.value.attempts + 1;
          if attempts > config.maxRetries {
            state := Failed;
            finPending := None;
            return;
          }
          rto.OnTimeout();
          finPending := Some(Control(now, attempts));
          var h := BuildHeader(false);
          out := [Segment(sendBase, false, true, true, h, [])];
        }
      }
    }

    method RunTimers(time: nat) returns (out: seq<Segment>)
      modifies this, rto
      ensures View() == Transport.OnTick(old(View()), time).conn
      ensures out == Transport.OnTick(old(View()), time).out
    {
      now := Max(now, time);
      out := [];
      if state == SynSent || state == SynReceived {
        out := TickHandshake();
      } else if state == Established || state == Closing {
        out := TickData();
        if state == Failed {
          return;
        }
        var more := TickFin();
        out := out + more;
        if state == Failed {
          return;
        }
        more := DrainAndMaybeFin();
        out := out + more;
      }
    }

    /** `on_tick`. */
    method OnTick(time: nat) returns (out: seq<seq<byte>>)
      modifies this, rto
      ensures View() == Transport.OnTick(old(View()), time).conn
      ensures out == Wire(Transport.OnTick(old(View()), time).out)
    {
      var segs := RunTimers(time);
      out := TransmitAll(segs);
    }
  }

  /** Merges adjacent segments into at most `n` ranges, in key order. */
  method MergeRuns(buffer: Buffer, n: nat) returns (ranges: seq<SackRange>)
    ensures ranges == Runs(buffer, n)
  {
    ranges := [];
    var rest: Buffer := buffer;
    while |ranges| < n && rest.Keys != {}
      invariant |ranges| <= n
      invariant ranges + Runs(rest, n - |ranges|) == Runs(buffer, n)
      decreases n - |ranges|
    {
      var start, end, rest' := MergeFirst(rest);
      RunsStep(rest, n - |ranges|);
      Shift(ranges, SackRange(start, end), Runs(rest', n - |ranges| - 1));
      ranges := ranges + [SackRange(start, end)];
      rest := rest';
    }
  }

  lemma RunsStep(m: Buffer, n: nat)
    requires n > 0 && m.Keys != {}
    ensures var (start, end, rest) := FirstRun(m); Runs(m, n) == [SackRange(start, end)] + Runs(rest, n - 1)
  {}

  method MergeFirst(buffer: Buffer) returns (start: nat, end: nat, rest: Buffer)
    requires buffer.Keys != {}
    ensures (start, end, rest) == FirstRun(buffer)
  {
    start := MinKey(buffer.Keys);
    end, rest := MergeRun(buffer - {start}, start + |buffer[start]| - 1);
  }

  /** Absorbs the segments that continue the run ending at `last`. */
  method MergeRun(buffer: Buffer, last: nat) returns (end: nat, rest: Buffer)
    ensures (end, rest) == ExtendRun(buffer, last)
  {
    end, rest := last, buffer;
    while rest.Keys != {} && MinKey(rest.Keys) == end + 1
      invariant ExtendRun(rest, end) == ExtendRun(buffer, last)
      decreases rest.Keys
    {
      var next: nat := MinKey(rest.Keys);
      end := next + |rest[next]| - 1;
      rest := rest - {next};
    }
  }

  /** Marks the segments that the ranges report, range by range. */
  method MarkAll(u: seq<Unacked>, rs: seq<SackRange>) returns (marked: seq<Unacked>)
    ensures marked == MarkSacked(u, rs)
  {
    marked := u;
    assert marked == MarkSacked(u, rs[..0]);
    for i := 0 to |rs|
      invariant marked == MarkSacked(u, rs[..i])
    {
      marked := MarkRange(marked, rs[i]);
      MarkOneMore(u, rs, i);
      assert marked == MarkSacked(u, rs[..i + 1]);
    }
    assert rs[..|rs|] == rs;
  }

  /** The retransmission sweep: resends every segment not selectively acknowledged. */
  method SweepAll(h: SegmentHeader, u: seq<Unacked>, now: nat, maxRetries: nat)
    returns (swept: seq<Unacked>, out: seq<Segment>, failed: bool)
    ensures swept == Sweep(u, now)
    ensures out == SweepOut(h, u)
    ensures failed == SweepFails(u, maxRetries)
  {
    swept, out, failed := u, [], false;
    for i := 0 to |u|
      invariant |swept| == |u|
      invariant forall k :: 0 <= k < i ==> swept[k] == Sweep(u, now)[k]
      invariant forall k :: i <= k < |u| ==> swept[k] == u[k]
      invariant out + SweepOut(h, u[i..]) == SweepOut(h, u)
      invariant failed || SweepFails(u[i..], maxRetries) <==> SweepFails(u, maxRetries)
    {
      assert u[i..][0] == u[i] && u[i..][1..] == u[i + 1..];
      if !u[i].sacked {
        swept := swept[i := Retransmitted(u[i], now)];
        failed := failed || u[i].retransmitCount + 1 > maxRetries;
        out := out + [Segment(u[i].seqNo, false, true, false, h, u[i].data)];
      }
    }
  }

  /** Marks the segments that start inside one range. */
  method MarkRange(u: seq<Unacked>, r: SackRange) returns (marked: seq<Unacked>)
    ensures |marked| == |u|
    ensures forall k :: 0 <= k < |u| ==> marked[k] == u[k].(sacked := u[k].sacked || InRange(r, u[k].seqNo))
  {
    marked := u;
    for j := 0 to |u|
      invariant |marked| == |u|
      invariant forall k :: j <= k < |u| ==> marked[k] == u[k]
      invariant forall k :: 0 <= k < j ==> marked[k] == u[k].(sacked := u[k].sacked || InRange(r, u[k].seqNo))
    {
      if InRange(r, u[j].seqNo) {
        marked := marked[j := u[j].(sacked := true)];
      }
    }
  }

  lemma MarkOneMore(u: seq<Unacked>, rs: seq<SackRange>, i: nat)
    requires i < |rs|
    ensures forall k :: 0 <= k < |u| ==>
              (InRanges(rs[..i + 1], u[k].seqNo) <==> InRanges(rs[..i], u[k].seqNo) || InRange(rs[i], u[k].seqNo))
  {
    forall k | 0 <= k < |u|
      ensures InRanges(rs[..i + 1], u[k].seqNo) <==> InRanges(rs[..i], u[k].seqNo) || InRange(rs[i], u[k].seqNo)
    {
      InRangesExtend(rs, i, u[k].seqNo);
    }
  }

  lemma InRangesExtend(rs: seq<SackRange>, i: nat, x: nat)
    requires i < |rs|
    ensures InRanges(rs[..i + 1], x) <==> InRanges(rs[..i], x) || InRange(rs[i], x)
  {
    assert rs[..i + 1] == rs[..i] + [rs[i]];
    if InRanges(rs[..i], x) {
      var r :| r in rs[..i] && InRange(r, x);
      assert r in rs[..i + 1];
    }
    if InRange(rs[i], x) {
      assert rs[i] in rs[..i + 1];
    }
  }
}
