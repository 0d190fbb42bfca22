/** Bounded give-up: with no datagram arriving, outstanding work fails the connection within a bounded time. */
module GiveUp {
  import opened Bytes
  import opened Rto
  import opened Transport
  import opened Network
  import opened Endpoint
  import opened Session
  import opened Theorems

  function Iterate<T>(f: T -> T, x: T, n: nat): T
    decreases n
  {
    if n == 0 then x else Iterate(f, f(x), n - 1)
  }

  /** What each application of `f` keeps holds after any number of them; `j` counts them. */
  lemma {:induction false} IterateKeeps<T(!new)>(f: T -> T, good: (T, nat) -> bool, x: T, j: nat, n: nat)
    requires good(x, j) && forall y, k: nat :: good(y, k) ==> good(f(y), k + 1)
    ensures good(Iterate(f, x, n), j + n)
    decreases n
  {
    if n > 0 { IterateKeeps(f, good, f(x), j + 1, n - 1); }
  }

  function NextTick(c: Conn): Conn { OnTick(c, c.now + 1).conn }

  /** `n` consecutive ticks with nothing arriving. */
  function Ticks(c: Conn, n: nat): Conn { Iterate(NextTick, c, n) }

  /** What the retry timers wait for: when it was last sent and how often it has been retried. */
  datatype Item = Item(sentAt: nat, tries: nat)

  /** The longest a timer waits, in ticks. */
  function Wait(c: Conn): nat { Max(c.config.maxRto, 1) }

  /** The latest tick at which the connection can still be alive waiting for `item`. */
  function Deadline(c: Conn, item: Item): nat {
    Max(c.now + 1, item.sentAt + Wait(c)) + SatSub(c.config.maxRetries, item.tries) * Wait(c)
  }

  datatype Kind = HandshakeItem | DataItem | FinItem

  /** The outstanding handshake, oldest data segment or FIN of an endpoint. */
  function Outstanding(c: Conn, kind: Kind): Option<Item> {
    match kind
    case HandshakeItem =>
      if (c.state == SynSent || c.state == SynReceived) && c.handshake.Some?
      then Some(Item(c.handshake.value.sentAt, c.handshake.value.attempts)) else None
    case DataItem =>
      if c.Open() && c.tx.unacked != [] && !c.tx.unacked[0].sacked
      then Some(Item(c.tx.unacked[0].sentAt, c.tx.unacked[0].retransmitCount)) else None
    case FinItem =>
      if c.Open() && c.tx.finPending.Some?
      then Some(Item(c.tx.finPending.value.sentAt, c.tx.finPending.value.attempts)) else None
  }

  /** What one tick does to an outstanding item. */
  ghost predicate Retried(c: Conn, c': Conn, item: Item, kind: Kind) {
    || c'.state == Failed
    || (Outstanding(c', kind) == Some(item) && SatSub(c.now, item.sentAt) < c.config.maxRto)
    || (Outstanding(c', kind) == Some(Item(c.now, item.tries + 1)) && item.tries < c.config.maxRetries)
  }

  lemma HandshakeRetried(c: Conn)
    requires ControlOk(c) && Outstanding(c, HandshakeItem).Some?
    ensures Retried(c, TickHandshake(c).conn, Outstanding(c, HandshakeItem).value, HandshakeItem)
  {
    CurrentBounds(c.rto);
  }

  lemma TickDataRetries(c: Conn)
    requires ControlOk(c) && Outstanding(c, DataItem).Some?
    ensures Retried(c, TickData(c).conn, Outstanding(c, DataItem).value, DataItem)
  {
    CurrentBounds(c.rto);
    if DataTimedOut(c) && !SweepFails(c.tx.unacked, c.config.maxRetries) {
      assert !(c.tx.unacked[0].retransmitCount + 1 > c.config.maxRetries);
    }
  }

  lemma TickFinRetries(c: Conn)
    requires ControlOk(c) && Outstanding(c, FinItem).Some?
    ensures Retried(c, TickFin(c).conn, Outstanding(c, FinItem).value, FinItem)
  {
    CurrentBounds(c.rto);
  }

  lemma TickFinKeepsData(c: Conn)
    ensures TickFin(c).conn.tx.unacked == c.tx.unacked && TickFin(c).conn.config == c.config
    ensures TickFin(c).conn.now == c.now
    ensures TickFin(c).conn.tx.finAcked == c.tx.finAcked && TickFin(c).conn.rx == c.rx
  {}

  lemma TickDataKeepsFin(c: Conn)
    ensures TickData(c).conn.tx.finPending == c.tx.finPending && TickData(c).conn.config == c.config
    ensures TickData(c).conn.now == c.now
    ensures TickData(c).conn.tx.finAcked == c.tx.finAcked && TickData(c).conn.rx == c.rx
  {}

  lemma TickOpenRetries(c: Conn, kind: Kind)
    requires EndpointOk(c) && c.Open() && !kind.HandshakeItem? && Outstanding(c, kind).Some?
    requires c.tx.finAcked && c.rx.peerFinSeen ==> c.state == Established
    ensures Retried(c, TickOpen(c).conn, Outstanding(c, kind).value, kind)
  {
    TickDataKeepsControl(c);
    TickDataKeepsFin(c);
    var c2 := TickData(c).conn;
    if kind.DataItem? { TickDataRetries(c); }
    if c2.state != Failed {
      TickFinKeepsControl(c2);
      TickFinKeepsData(c2);
      var c3 := TickFin(c2).conn;
      if kind.FinItem? { TickFinRetries(c2); }
      if c3.state != Failed {
        DrainKeepsItem(c3, kind);
      }
    }
  }

  /** Sending more leaves the outstanding items alone. */
  lemma DrainKeepsItem(c: Conn, kind: Kind)
    requires ControlOk(c) && c.Open() && Outstanding(c, kind).Some? && !kind.HandshakeItem?
    requires c.tx.finAcked && c.rx.peerFinSeen ==> c.state == Established
    ensures Outstanding(DrainAndMaybeFin(c).conn, kind) == Outstanding(c, kind)
  {
    SendLoopKeepsControl(c);
    SendLoopQuiet(c);
    if kind.DataItem? { assert SendLoop(c).conn.tx.unacked[0] == c.tx.unacked[0]; }
  }

  lemma OnTickRetries(c: Conn, now: nat, kind: Kind)
    requires EndpointOk(c) && Outstanding(c, kind).Some?
    ensures Retried(AdvanceClock(c, now), OnTick(c, now).conn, Outstanding(c, kind).value, kind)
  {
    var c1 := AdvanceClock(c, now);
    assert Outstanding(c1, kind) == Outstanding(c, kind);
    if kind.HandshakeItem? { HandshakeRetried(c1); } else { TickOpenRetries(c1, kind); }
  }

  lemma OnTickFrame(c: Conn, now: nat)
    ensures OnTick(c, now).conn.now == Max(c.now, now) && OnTick(c, now).conn.config == c.config
  {
    var c1 := AdvanceClock(c, now);
    if c1.Open() {
      TickDataKeepsFin(c1);
      TickFinKeepsData(TickData(c1).conn);
      SendLoopKeepsClock(TickFin(TickData(c1).conn).conn);
    }
  }

  lemma {:induction false} SendLoopKeepsClock(c: Conn)
    ensures SendLoop(c).conn.now == c.now && SendLoop(c).conn.config == c.config
    decreases |c.tx.sendQueue|
  {
    var cap := Allowance(c.tx);
    if c.tx.sendQueue != [] && cap != 0 {
      SendLoopKeepsClock(Admit(c, Min(Min(c.config.segmentSize, |c.tx.sendQueue|), cap)));
    }
  }

  /** A tick that does not fail the connection does not move the deadline. */
  lemma DeadlineHolds(c: Conn, c': Conn, item: Item, item': Item)
    requires c'.config == c.config && c'.now == c.now + 1
    requires || (item' == item && c.now + 1 < item.sentAt + Wait(c))
             || (item' == Item(c.now + 1, item.tries + 1) && item.tries < c.config.maxRetries)
    ensures c'.now < Deadline(c', item') <= Deadline(c, item)
  {
    var w, left := Wait(c), SatSub(c.config.maxRetries, item.tries);
    if item' != item {
      assert (left - 1) * w + w == left * w;
    }
  }

  /** The endpoint waits for an item of this kind and is doomed at `deadline` unless something arrives. */
  ghost predicate Waiting(c: Conn, kind: Kind, deadline: nat) {
    EndpointOk(c) && Outstanding(c, kind).Some? && c.now < Deadline(c, Outstanding(c, kind).value) <= deadline
  }

  /** Failed, or waiting at time `now`. */
  ghost predicate WaitingOrFailed(c: Conn, kind: Kind, deadline: nat, now: nat) {
    c.state == Failed || (Waiting(c, kind, deadline) && c.now == now)
  }

  lemma TickGives(c: Conn, kind: Kind) returns (c': Conn)
    requires EndpointOk(c) && Outstanding(c, kind).Some?
    ensures c' == NextTick(c) && EndpointOk(c') && c'.config == c.config && c'.now == c.now + 1
    ensures Retried(AdvanceClock(c, c.now + 1), c', Outstanding(c, kind).value, kind)
  {
    c' := TickKept(c);
    TickRetries(c, kind);
  }

  lemma TickKept(c: Conn) returns (c': Conn)
    requires EndpointOk(c)
    ensures c' == NextTick(c) && EndpointOk(c') && c'.config == c.config && c'.now == c.now + 1
  {
    c' := OnTick(c, c.now + 1).conn;
    OnTickFrame(c, c.now + 1);
    OnTickKeepsEndpoint(c, c.now + 1);
  }

  lemma TickRetries(c: Conn, kind: Kind)
    requires EndpointOk(c) && Outstanding(c, kind).Some?
    ensures Retried(AdvanceClock(c, c.now + 1), NextTick(c), Outstanding(c, kind).value, kind)
  {
    OnTickRetries(c, c.now + 1, kind);
  }

  lemma TickKeepsWaiting(c: Conn, kind: Kind, deadline: nat)
    requires Waiting(c, kind, deadline)
    ensures WaitingOrFailed(NextTick(c), kind, deadline, c.now + 1)
  {
    var c' := TickGives(c, kind);
    RetriedWaits(c, c', kind, deadline);
  }

  lemma RetriedWaits(c: Conn, c': Conn, kind: Kind, deadline: nat)
    requires Waiting(c, kind, deadline) && EndpointOk(c') && c'.config == c.config && c'.now == c.now + 1
    requires Retried(AdvanceClock(c, c.now + 1), c', Outstanding(c, kind).value, kind)
    ensures WaitingOrFailed(c', kind, deadline, c.now + 1)
  {
    if c'.state != Failed { StillWaiting(c, c', kind, deadline); }
  }

  /** An item that was retried, or is not yet due, does not move the deadline. */
  lemma StillWaiting(c: Conn, c': Conn, kind: Kind, deadline: nat)
    requires Waiting(c, kind, deadline) && EndpointOk(c') && c'.state != Failed
    requires c'.config == c.config && c'.now == c.now + 1
    requires Retried(c.(now := c.now + 1), c', Outstanding(c, kind).value, kind)
    ensures Waiting(c', kind, deadline)
  {
    DeadlineHolds(c, c', Outstanding(c, kind).value, Outstanding(c', kind).value);
  }

  /** A data timeout that uses up the retries of some segment fails the connection and leaves nothing in flight. */
  lemma FailureClears(c: Conn, now: nat, k: nat)
    requires c.Open() && DataTimedOut(AdvanceClock(c, now)) && k < |c.tx.unacked|
    requires !c.tx.unacked[k].sacked && c.tx.unacked[k].retransmitCount >= c.config.maxRetries
    ensures OnTick(c, now).conn.state == Failed && InFlight(OnTick(c, now).conn.tx.unacked) == 0
  {
    ExhaustedFails(c.tx.unacked, c.config.maxRetries, k);
  }

  lemma {:induction false} ExhaustedFails(u: seq<Unacked>, maxRetries: nat, k: nat)
    requires k < |u| && !u[k].sacked && u[k].retransmitCount >= maxRetries
    ensures SweepFails(u, maxRetries)
    decreases |u|
  {
    if k > 0 { ExhaustedFails(u[1..], maxRetries, k - 1); }
  }

  lemma FailedTick(c: Conn)
    requires c.state == Failed
    ensures NextTick(c).state == Failed
  {}

  lemma TickKeepsWaitingOrFailed(c: Conn, kind: Kind, deadline: nat, now: nat)
    requires WaitingOrFailed(c, kind, deadline, now)
    ensures WaitingOrFailed(NextTick(c), kind, deadline, now + 1)
  {
    if c.state == Failed { FailedTick(c); } else { TickKeepsWaiting(c, kind, deadline); }
  }

  lemma WaitingFails(c: Conn, kind: Kind, deadline: nat, n: nat)
    requires Waiting(c, kind, deadline) && c.now + n >= deadline
    ensures Ticks(c, n).state == Failed
  {
    var good := (d: Conn, now: nat) => WaitingOrFailed(d, kind, deadline, now);
    forall d, now: nat | good(d, now) ensures good(NextTick(d), now + 1) {
      TickKeepsWaitingOrFailed(d, kind, deadline, now);
    }
    IterateKeeps(NextTick, good, c, c.now, n);
    assert WaitingOrFailed(Ticks(c, n), kind, deadline, c.now + n);
  }

  /** From any state that an endpoint can be in, waiting for a handshake, its oldest data segment or its FIN:
      ticking past the deadline without hearing anything ends in failure. */
  lemma TicksFail(c: Conn, kind: Kind, n: nat)
    requires EndpointOk(c) && Outstanding(c, kind).Some?
    requires c.now + n >= Deadline(c, Outstanding(c, kind).value)
    ensures Ticks(c, n).state == Failed
  {
    WaitingFails(c, kind, Deadline(c, Outstanding(c, kind).value), n);
  }

  /** The documented bound, with a wait of at least one tick. */
  function Limit(c: Conn, sentAt: nat): nat { sentAt + (c.config.maxRetries + 1) * Wait(c) }

  lemma DeadlineBound(c: Conn, item: Item)
    requires c.now < item.sentAt + Wait(c)
    ensures Deadline(c, item) <= Limit(c, item.sentAt)
  {
    var w, left := Wait(c), SatSub(c.config.maxRetries, item.tries);
    MulOrder(w, left, c.config.maxRetries);
    assert left * w == w * left;
    assert (c.config.maxRetries + 1) * w == w * c.config.maxRetries + w;
  }

  /** In every run: an outstanding item whose timer is not overdue fails the connection no later than
      (max_retries + 1) * max_rto ticks after its last transmission, if nothing arrives. */
  lemma BoundedGiveUp(t: seq<System>, i: nat, x: Side, y: Side, kind: Kind, n: nat)
    requires InRun(t, i, x, y) && Outstanding(x.conn, kind).Some?
    requires x.conn.now < Outstanding(x.conn, kind).value.sentAt + Wait(x.conn)
    requires x.conn.now + n >= Limit(x.conn, Outstanding(x.conn, kind).value.sentAt)
    ensures Ticks(x.conn, n).state == Failed
  {
    var cx, cy := PairInRun(t, i, x, y);
    DeadlineBound(x.conn, Outstanding(x.conn, kind).value);
    TicksFail(x.conn, kind, n);
  }

  /** Right after a tick no timer is overdue. */
  lemma TickLeavesNothingOverdue(c: Conn, now: nat, kind: Kind)
    requires EndpointOk(c) && Outstanding(OnTick(c, now).conn, kind).Some?
    ensures var c' := OnTick(c, now).conn; c'.now < Outstanding(c', kind).value.sentAt + Wait(c')
  {
    OnTickFrame(c, now);
    if Outstanding(c, kind).Some? { OnTickRetries(c, now, kind); } else { NewItemIsFresh(c, now, kind); }
  }

  /** An item that a tick brings about was sent at that tick. */
  lemma NewItemIsFresh(c: Conn, now: nat, kind: Kind)
    requires EndpointOk(c) && Outstanding(c, kind).None? && Outstanding(OnTick(c, now).conn, kind).Some?
    ensures Outstanding(OnTick(c, now).conn, kind).value.sentAt == OnTick(c, now).conn.now
  {
    var c1 := AdvanceClock(c, now);
    if c1.Open() { TickOpenFresh(c1, kind); }
  }

  lemma TickOpenFresh(c: Conn, kind: Kind)
    requires ControlOk(c) && c.Open() && Outstanding(c, kind).None? && Outstanding(TickOpen(c).conn, kind).Some?
    ensures Outstanding(TickOpen(c).conn, kind).value.sentAt == TickOpen(c).conn.now
  {
    TickDataKeepsControl(c);
    TickDataKeepsFin(c);
    var c2 := TickData(c).conn;
    assert c2.state == Failed || Outstanding(c2, kind).None?;
    if c2.state != Failed {
      TickFinKeepsControl(c2);
      TickFinKeepsData(c2);
      var c3 := TickFin(c2).conn;
      assert c3.state == Failed || Outstanding(c3, kind).None?;
      if c3.state != Failed { DrainFresh(c3, kind); }
    }
  }

  lemma DrainFresh(c: Conn, kind: Kind)
    requires ControlOk(c) && c.Open() && Outstanding(c, kind).None?
    ensures var c' := DrainAndMaybeFin(c).conn;
            Outstanding(c', kind).Some? ==> Outstanding(c', kind).value.sentAt == c'.now
  {
    SendLoopKeepsControl(c);
    SendLoopKeepsClock(c);
    var u := c.tx.unacked;
    if u == [] { SendLoopStartsNow(c); } else { assert SendLoop(c).conn.tx.unacked[0] == u[0]; }
  }

  lemma SendLoopStartsNow(c: Conn)
    requires ControlOk(c) && c.tx.unacked == []
    ensures var u := SendLoop(c).conn.tx.unacked; u != [] ==> u[0].sentAt == c.now
  {
    var cap := Allowance(c.tx);
    if c.tx.sendQueue != [] && cap != 0 {
      var c1 := Admit(c, Min(Min(c.config.segmentSize, |c.tx.sendQueue|), cap));
      SendLoopKeepsControl(c1);
      assert SendLoop(c1).conn.tx.unacked[0] == c1.tx.unacked[0];
    }
  }

  /** In every run, for a side that has just been ticked the bound holds without condition. */
  lemma TickedGiveUp(t: seq<System>, i: nat, x: Side, y: Side, now: nat, kind: Kind, n: nat)
    requires InRun(t, i, x, y)
    requires var c := OnTick(x.conn, now).conn;
             Outstanding(c, kind).Some? && c.now + n >= Limit(c, Outstanding(c, kind).value.sentAt)
    ensures Ticks(OnTick(x.conn, now).conn, n).state == Failed
  {
    var cx, cy := PairInRun(t, i, x, y);
    var c := OnTick(x.conn, now).conn;
    OnTickKeepsEndpoint(x.conn, now);
    TickLeavesNothingOverdue(x.conn, now, kind);
    DeadlineBound(c, Outstanding(c, kind).value);
    TicksFail(c, kind, n);
  }

  /** In every run the oldest segment of an open side is such an item: it is never hidden by a selective
      acknowledgement, so the data timer never stalls. */
  lemma OldestIsOutstanding(t: seq<System>, i: nat, x: Side, y: Side)
    requires InRun(t, i, x, y) && x.conn.Open() && x.conn.tx.unacked != []
    ensures Outstanding(x.conn, DataItem).Some?
  {
    var cx, cy := PairInRun(t, i, x, y);
    OldestUnmarked(x, y, cx);
  }

  /** The same bound counted from any outstanding segment that was sent no earlier than the oldest one. */
  lemma SegmentGiveUp(t: seq<System>, i: nat, x: Side, y: Side, k: nat, n: nat)
    requires InRun(t, i, x, y) && x.conn.Open() && k < |x.conn.tx.unacked|
    requires x.conn.tx.unacked[0].sentAt <= x.conn.tx.unacked[k].sentAt
    requires x.conn.now < x.conn.tx.unacked[0].sentAt + Wait(x.conn)
    requires x.conn.now + n >= Limit(x.conn, x.conn.tx.unacked[k].sentAt)
    ensures Ticks(x.conn, n).state == Failed
  {
    OldestIsOutstanding(t, i, x, y);
    BoundedGiveUp(t, i, x, y, DataItem, n);
  }
}
