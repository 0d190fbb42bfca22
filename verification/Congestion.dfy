/** How the congestion window moves, when a fast retransmission comes, and which round trips are measured. */
module Congestion {
  import opened Bytes
  import opened Segments
  import opened Rto
  import opened Transport
  import opened Network
  import opened Endpoint

  // ---- Growth ----

  /** Both sides start in slow start, with a window of two segments and nothing in flight. */
  lemma StartsWithTwoSegments(s: System, x: Side)
    requires IsInit(s) && (x == s.a || x == s.b)
    ensures x.conn.tx.cwnd == 2 * x.conn.config.segmentSize < x.conn.tx.ssthresh && InFlight(x.conn.tx.unacked) == 0
  {
    var configA, nowA, configB, nowB :| s == Init(configA, nowA, configB, nowB);
  }

  /** Congestion avoidance adds about `segment^2 / cwnd` bytes: a byte at least, a segment at most. */
  predicate OneSegmentPerWindow(segment: nat, cwnd: nat, added: nat) {
    1 <= added <= segment && segment * segment < (added + 1) * cwnd && (added == 1 || added * cwnd <= segment * segment)
  }

  lemma QuotientBounds(x: nat, d: nat)
    requires d > 0
    ensures x / d * d <= x < (x / d + 1) * d
  {}

  lemma IncrementIsQuotient(config: Config, cwnd: nat)
    requires cwnd >= config.segmentSize
    ensures OneSegmentPerWindow(config.segmentSize, cwnd, Increment(config, cwnd))
  {
    IncrementBounds(config, cwnd);
    QuotientBounds(config.segmentSize * config.segmentSize, cwnd);
  }

  /** Additive increase: an acknowledgement of new data adds, in slow start, exactly the bytes it acknowledges, and else
      about a segment for each window; it changes no threshold and ends the count of duplicates. */
  lemma AckGrowsWindow(c: Conn, h: SegmentHeader)
    requires CongestionOk(c.config, c.tx) && h.ack > c.tx.sendBase
    ensures var tx, tx' := c.tx, ApplyAck(c, h).conn.tx;
            && tx'.sendBase == h.ack && tx'.ssthresh == tx.ssthresh && tx'.dupAckCount == 0
            && (tx.cwnd < tx.ssthresh ==> tx'.cwnd == Min(tx.cwnd + (h.ack - tx.sendBase), MAX_U32))
            && (tx.cwnd >= tx.ssthresh ==>
                  exists added :: OneSegmentPerWindow(c.config.segmentSize, tx.cwnd, added)
                                  && tx'.cwnd == Min(tx.cwnd + added, MAX_U32))
  {
    IncrementIsQuotient(c.config, c.tx.cwnd);
    assert ApplyAck(c, h).conn.tx.cwnd == Grow(c.config, c.tx, h.ack - c.tx.sendBase);
  }

  /** Anything else that acknowledges leaves the window alone, unless it is the duplicate that counts. */
  lemma OtherAcksKeepWindow(c: Conn, h: SegmentHeader)
    requires h.ack < c.tx.sendBase || (c.tx.unacked == [] && h.ack == c.tx.sendBase)
    ensures var tx, tx' := c.tx, ApplyAck(c, h).conn.tx;
            && tx'.cwnd == tx.cwnd && tx'.ssthresh == tx.ssthresh && tx'.dupAckCount == tx.dupAckCount
            && tx'.sendBase == tx.sendBase && ApplyAck(c, h).out == []
  {}

  // ---- Loss ----

  /** Half the window, but at least two segments. */
  predicate IsHalf(segment: nat, cwnd: nat, threshold: nat) {
    threshold >= 2 * segment && 2 * threshold >= cwnd - 1 && (threshold == 2 * segment || 2 * threshold <= cwnd)
  }

  /** Multiplicative decrease on a timeout: the threshold becomes half the window and the window one segment. */
  lemma TimeoutDecreases(c: Conn)
    requires DataTimedOut(c)
    ensures var tx, tx' := c.tx, TickData(c).conn.tx;
            && IsHalf(c.config.segmentSize, tx.cwnd, tx'.ssthresh)
            && tx'.cwnd == c.config.segmentSize && tx'.dupAckCount == 0
  {}

  // ---- Duplicate acknowledgements ----

  /** Applies headers one after the other. */
  function ApplyAcks(c: Conn, hs: seq<SegmentHeader>): Outcome
    decreases |hs|
  {
    if hs == [] then Outcome(c, []) else
      var r := ApplyAck(c, hs[0]);
      var rest := ApplyAcks(r.conn, hs[1..]);
      Outcome(rest.conn, r.out + rest.out)
  }

  /** `g` carries the oldest outstanding data. */
  ghost predicate ResendsOldest(g: Segment, c: Conn) {
    && c.tx.unacked != [] && g.seqNo == c.tx.unacked[0].seqNo && g.data == c.tx.unacked[0].data
    && g.ack && !g.syn && !g.fin
  }

  /** The sender's oldest data, and the point it waits for. */
  ghost predicate SameOldest(c: Conn, c': Conn) {
    && c.tx.unacked != [] && c'.tx.unacked != [] && c'.tx.sendBase == c.tx.sendBase && c'.config == c.config
    && c'.tx.unacked[0].seqNo == c.tx.unacked[0].seqNo && c'.tx.unacked[0].data == c.tx.unacked[0].data
  }

  /** One duplicate: it is counted, or it is the one that counts, and then the oldest data goes out again, the window is
      halved and the count starts over. */
  lemma DuplicateCounts(c: Conn, h: SegmentHeader)
    requires h.ack == c.tx.sendBase && c.tx.unacked != []
    ensures var r := ApplyAck(c, h);
            && SameOldest(c, r.conn)
            && if c.tx.dupAckCount + 1 == c.config.fastRetransmitDupAcks then
                 && r.conn.tx.dupAckCount == 0 && |r.out| == 1 && ResendsOldest(r.out[0], c)
                 && IsHalf(c.config.segmentSize, c.tx.cwnd, r.conn.tx.ssthresh) && r.conn.tx.cwnd == r.conn.tx.ssthresh
               else r.conn.tx.dupAckCount == c.tx.dupAckCount + 1 && r.out == [] && r.conn.tx.cwnd == c.tx.cwnd
  {}

  lemma AddOnce(x: nat, n: nat)
    requires n > 0
    ensures (n + x) / n == 1 + x / n && (n + x) % n == x % n
  {
    var q := x / n;
    assert n + x == (q + 1) * n + x % n;
    QuotientUnique(n + x, n, q + 1, x % n);
  }

  lemma QuotientUnique(x: nat, n: nat, q: nat, r: nat)
    requires n > 0 && x == q * n + r && r < n
    ensures x / n == q && x % n == r
  {
    var q' := x / n;
    assert x == q' * n + x % n;
    MulOrder(n, q, q');
    MulOrder(n, q', q);
    MulOrder(n, q + 1, q');
    MulOrder(n, q' + 1, q);
  }

  /** Exactly every `fast_retransmit_dup_acks`-th duplicate in a row causes one retransmission of the oldest data. */
  lemma {:induction false} EveryNthDuplicate(c: Conn, hs: seq<SegmentHeader>)
    requires c.tx.unacked != [] && forall i :: 0 <= i < |hs| ==> hs[i].ack == c.tx.sendBase
    requires c.tx.dupAckCount < c.config.fastRetransmitDupAcks
    ensures var r, n := ApplyAcks(c, hs), c.config.fastRetransmitDupAcks;
            && |r.out| == (c.tx.dupAckCount + |hs|) / n && r.conn.tx.dupAckCount == (c.tx.dupAckCount + |hs|) % n
            && forall i :: 0 <= i < |r.out| ==> ResendsOldest(r.out[i], c)
    decreases |hs|
  {
    var n := c.config.fastRetransmitDupAcks;
    if hs == [] {
      QuotientUnique(c.tx.dupAckCount, n, 0, c.tx.dupAckCount);
    } else {
      DuplicateCounts(c, hs[0]);
      var r := ApplyAck(c, hs[0]);
      EveryNthDuplicate(r.conn, hs[1..]);
      OneMoreDuplicate(c.tx.dupAckCount, |hs|, n);
    }
  }

  /** Counting one more: up to the next multiple nothing changes in the quotient, and there it grows by one. */
  lemma OneMoreDuplicate(count: nat, len: nat, n: nat)
    requires count < n && len > 0
    ensures if count + 1 == n then (count + len) / n == 1 + (len - 1) / n && (count + len) % n == (len - 1) % n
            else count + len == (count + 1) + (len - 1)
  {
    AddOnce(len - 1, n);
  }

  // ---- Round trips ----

  /** The measurements that a list of acknowledged segments gives: one for each that was sent only once. */
  function Samples(u: seq<Unacked>, now: nat): seq<Event> {
    if u == [] then []
    else (if u[0].retransmitCount == 0 then [Sample(SatSub(now, u[0].sentAt))] else []) + Samples(u[1..], now)
  }

  /** An acknowledgement drops exactly the segments that start below it, and feeds the estimator their measurements. */
  lemma {:induction false} AckMeasures(u: seq<Unacked>, rto: Estimator, now: nat, ack: nat) returns (n: nat)
    ensures n <= |u| && (forall k :: 0 <= k < n ==> u[k].seqNo < ack) && (n < |u| ==> u[n].seqNo >= ack)
    ensures Acknowledge(u, rto, now, ack) == (u[n..], Run(rto, Samples(u[..n], now)))
    decreases |u|
  {
    if u == [] || u[0].seqNo >= ack {
      n := 0;
      assert u[0..] == u;
    } else {
      var rto' := if u[0].retransmitCount == 0 then rto.OnSample(SatSub(now, u[0].sentAt)) else rto;
      var k := AckMeasures(u[1..], rto', now, ack);
      n := k + 1;
      assert u[1..][k..] == u[n..] && u[..n][1..] == u[1..][..k];
      RunFirst(rto, u[..n], now);
    }
  }

  lemma RunFirst(rto: Estimator, u: seq<Unacked>, now: nat)
    requires u != []
    ensures var rto' := if u[0].retransmitCount == 0 then rto.OnSample(SatSub(now, u[0].sentAt)) else rto;
            Run(rto, Samples(u, now)) == Run(rto', Samples(u[1..], now))
  {
    var rest := Samples(u[1..], now);
    if u[0].retransmitCount == 0 {
      var all := [Sample(SatSub(now, u[0].sentAt))] + rest;
      assert all[1..] == rest;
    } else {
      assert [] + rest == rest;
    }
  }

  /** Karn's rule: segments that were sent more than once measure nothing, so acknowledging only such segments leaves
      the estimator, and its backoff, as it is. */
  lemma {:induction false} KarnsRule(u: seq<Unacked>, now: nat)
    requires forall k :: 0 <= k < |u| ==> u[k].retransmitCount > 0
    ensures Samples(u, now) == []
    decreases |u|
  {
    if u != [] { KarnsRule(u[1..], now); }
  }

  /** The handshake is measured exactly if it took one attempt. */
  lemma HandshakeMeasures(c: Conn)
    requires c.handshake.Some?
    ensures var h := c.handshake.value;
            CompleteHandshake(c).rto == Run(c.rto, if h.attempts == 1 then [Sample(SatSub(c.now, h.sentAt))] else [])
  {}
}
