/** What every segment tells its receiver: the cumulative point, the room left, and the runs held beyond the point. */
module Reporting {
  import opened Bytes
  import opened Segments
  import opened Transport
  import opened Network
  import opened Sack
  import opened ReceiveSafety
  import opened Theorems
  import opened Transmission

  // ---- Bytes held ----

  /** `s` is the set of byte offsets that the buffer holds. */
  ghost predicate IsOffsets(s: set<nat>, m: Buffer) { forall x: nat :: x in s <==> Covered(m, x) }

  function OffsetsOf(k: nat, data: seq<byte>): (s: set<nat>)
    ensures forall x :: x in s <==> k <= x < k + |data|
    ensures |s| == |data|
    decreases |data|
  {
    if data == [] then {} else
      var rest := OffsetsOf(k, data[..|data| - 1]);
      rest + {k + |data| - 1}
  }

  lemma CoveredSplit(m: Buffer, k: nat, x: nat)
    requires Clean(m) && k in m
    ensures Covered(m, x) <==> k <= x < k + |m[k]| || Covered(m - {k}, x)
    ensures !(k <= x < k + |m[k]| && Covered(m - {k}, x))
  {
    var m1 := m - {k};
    if Covered(m, x) {
      var j :| j in m && j <= x < j + |m[j]|;
      if j != k { assert j in m1 && m1[j] == m[j]; }
    }
    if Covered(m1, x) {
      var j :| j in m1 && j <= x < j + |m1[j]|;
      assert j in m && m[j] == m1[j] && j != k;
    }
  }

  /** Without overlaps, the lengths of the buffered segments add up to the number of offsets held. */
  lemma {:induction false} LengthsCountOffsets(m: Buffer) returns (s: set<nat>)
    requires Clean(m)
    ensures IsOffsets(s, m) && SumLengths(m) == |s|
    decreases m.Keys
  {
    if m.Keys == {} {
      s := {};
    } else {
      var k: nat := MinKey(m.Keys);
      var s1 := LengthsCountOffsets(m - {k});
      s := AddOffsets(m, k, s1);
    }
  }

  lemma AddOffsets(m: Buffer, k: nat, s1: set<nat>) returns (s: set<nat>)
    requires Clean(m) && k in m && IsOffsets(s1, m - {k})
    ensures IsOffsets(s, m) && |s| == |m[k]| + |s1|
  {
    var s0 := OffsetsOf(k, m[k]);
    s := s0 + s1;
    forall x: nat ensures (x in s <==> Covered(m, x)) && !(x in s0 && x in s1) { CoveredSplit(m, k, x); }
    assert s0 !! s1;
  }

  /** The bytes held for the application number `n`: delivered and not yet read, or buffered out of order. */
  ghost predicate HoldsBytes(rx: Rx, n: nat) {
    exists s :: IsOffsets(s, rx.recvBuffer) && n == |rx.delivered| + |s|
  }

  // ---- Headers ----

  /** The header reports the state `rx` of the receive side: where it stands, the room left in its capacity, and the
      first runs held. */
  ghost predicate Reports(h: SegmentHeader, capacity: nat, rx: Rx) {
    && h.ack == rx.expectedSeq
    && (exists held :: HoldsBytes(rx, held) && h.window == SatSub(capacity, held))
    && FirstRuns(rx.recvBuffer, MAX_SACK_RANGES, h.sack)
    && (h.finAck ==> rx.peerFinSeen)
  }

  lemma BuiltReports(g: Segment, config: Config, rx: Rx)
    requires BuiltFrom(g, config, rx) && Clean(rx.recvBuffer)
    ensures Reports(g.header, config.recvWindowCapacity, rx)
  {
    RunsAreMaximal(rx.recvBuffer, MAX_SACK_RANGES);
    var s := LengthsCountOffsets(rx.recvBuffer);
    assert HoldsBytes(rx, |rx.delivered| + |s|);
  }

  /** In every run, the header of every segment that an action sends, whatever kind it is, reports the receive side as
      it was before the action or as it is after it. */
  lemma EveryHeaderReports(t: seq<System>, i: nat, x: Side, y: Side, act: Action, g: Segment)
    requires InRun(t, i, x, y) && Enabled(x, y.sent, act) && g in Effect(x.conn, act).out
    ensures var capacity := x.conn.config.recvWindowCapacity;
            Reports(g.header, capacity, x.conn.rx) || Reports(g.header, capacity, Effect(x.conn, act).conn.rx)
  {
    var cx, cy := PairInRun(t, i, x, y);
    var x' := Apply(x, act);
    IncomingKept(y, x, cy, act);
    ReceiverClean(x.conn.rx, x.recvd, y.stream, cy, y.conn.tx.nextSeq);
    ReceiverClean(x'.conn.rx, x'.recvd, y.stream, cy, y.conn.tx.nextSeq);
    EffectBuilt(x.conn, act);
    if BuiltFrom(g, x.conn.config, x.conn.rx) {
      BuiltReports(g, x.conn.config, x.conn.rx);
    } else {
      BuiltReports(g, x.conn.config, x'.conn.rx);
    }
  }

  /** The clock of an endpoint never goes back, and every action but reading moves it to the time given. */
  lemma ClockAdvances(c: Conn, act: Action)
    ensures Effect(c, act).conn.now == if act.AppRecv? then c.now else Max(c.now, act.now)
  {
    match act {
      case Receive(now, g) =>
        var hs := Handshake(AdoptWindow(c, now, g.header.window), g).0.conn;
        ProcessOpenClock(hs, g);
      case Garbage(now) =>
      case Tick(now) => TickOpenClock(AdvanceClock(c, now));
      case AppSend(now, data) => DrainClock(AdvanceClock(c, now).(tx := c.tx.(sendQueue := c.tx.sendQueue + data)));
      case AppClose(now) => DrainClock(AdvanceClock(c, now).(tx := c.tx.(closeRequested := true)));
      case AppRecv =>
    }
  }

  lemma DrainClock(c: Conn)
    ensures DrainAndMaybeFin(c).conn.now == c.now
  {
    SendLoopSendsNew(c);
  }

  lemma ProcessOpenClock(c: Conn, g: Segment)
    ensures ProcessOpen(c, g).conn.now == c.now
  {
    var acked := if g.ack then ApplyAck(c, g.header) else Outcome(c, []);
    DrainClock(acked.conn.(rx := ReceiveSegment(acked.conn.rx, g)));
  }

  lemma TickOpenClock(c: Conn)
    ensures TickOpen(c).conn.now == c.now
  {
    DrainClock(TickFin(TickData(c).conn).conn);
  }
}
