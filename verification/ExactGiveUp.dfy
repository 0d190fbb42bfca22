/**
 Exactly when an endpoint that hears nothing fails: the tick is computed from its state, and it fails at that tick
 and not before. So an item meets the documented bound if and only if that tick is within it.
 */
module ExactGiveUp {
  import opened Bytes
  import opened Rto
  import opened Transport
  import opened Network
  import opened Endpoint
  import opened Theorems
  import opened GiveUp

  /** The most often any unmarked segment has been resent. */
  function Tries(u: seq<Unacked>): nat {
    if u == [] then 0
    else if u[0].sacked then Tries(u[1..])
    else Max(u[0].retransmitCount, Tries(u[1..]))
  }

  /** The one timer that runs: what it waits for was last sent at `sentAt` and fails after `maxRetries - tries` more
      timeouts. Data is timed by its oldest segment but fails by its most retried one. */
  function Timer(c: Conn): Option<Item> {
    if c.state == SynSent || c.state == SynReceived then Outstanding(c, HandshakeItem)
    else if !c.Open() then None
    else if c.tx.unacked != [] then Some(Item(c.tx.unacked[0].sentAt, Tries(c.tx.unacked)))
    else Outstanding(c, FinItem)
  }

  /** A FIN waits only while no data does, and the oldest segment is unmarked. */
  predicate OneTimer(c: Conn) {
    && EndpointOk(c)
    && (c.tx.unacked != [] && c.Open() ==> !c.tx.unacked[0].sacked && c.tx.finPending.None?)
    && (c.tx.finPending.Some? ==> c.tx.sendQueue == [])
  }

  /** The next tick at which the timer fires. */
  function FirstFiring(c: Conn, item: Item): nat {
    if c.rto.Current() == 0 then c.now + 1 else Max(c.now + 1, item.sentAt + c.rto.Current())
  }

  /** The tick of the timeout that comes `left` timeouts after the one at `tick`. */
  function Later(rto: Estimator, tick: nat, left: nat): (t: nat)
    ensures t >= tick
    decreases left
  {
    if left == 0 then tick else Later(rto.OnTimeout(), tick + Max(rto.OnTimeout().Current(), 1), left - 1)
  }

  /** How long `n` further timeouts in a row take: each waits for the doubled timeout, and at least one tick. */
  function Waits(rto: Estimator, n: nat): nat {
    if n == 0 then 0 else Waits(rto, n - 1) + Max(Armed(rto, n), 1)
  }

  /** The tick at which an endpoint that hears nothing fails: the next timeout, then one doubled wait after another for
      each retry left. */
  function FailAt(c: Conn): (t: nat)
    requires Timer(c).Some?
    ensures t > c.now
  {
    FirstFiring(c, Timer(c).value) + Waits(c.rto, SatSub(c.config.maxRetries, Timer(c).value.tries))
  }

  lemma {:induction false} WaitsShift(rto: Estimator, n: nat)
    requires rto.Valid()
    ensures Waits(rto, n + 1) == Max(rto.OnTimeout().Current(), 1) + Waits(rto.OnTimeout(), n)
    decreases n
  {
    ArmedShift(rto, n);
    if n > 0 { WaitsShift(rto, n - 1); }
  }

  /** The timeouts armed after one more timeout. */
  lemma ArmedShift(rto: Estimator, n: nat)
    requires rto.Valid()
    ensures Armed(rto, n + 1) == Armed(rto.OnTimeout(), n) && Armed(rto, 1) == rto.OnTimeout().Current()
  {
    BackoffDoubles(rto, n + 1);
    BackoffDoubles(rto.OnTimeout(), n);
    BackoffDoubles(rto, 1);
    assert Timeouts(rto, 1) == Timeouts(rto.OnTimeout(), 0);
  }

  lemma {:induction false} LaterIsSum(rto: Estimator, tick: nat, left: nat)
    requires rto.Valid()
    ensures Later(rto, tick, left) == tick + Waits(rto, left)
    decreases left
  {
    if left > 0 {
      LaterIsSum(rto.OnTimeout(), tick + Max(rto.OnTimeout().Current(), 1), left - 1);
      WaitsShift(rto, left - 1);
    }
  }

  lemma FailAtIsLater(c: Conn)
    requires Timer(c).Some? && c.rto.Valid()
    ensures FailAt(c) == Later(c.rto, FirstFiring(c, Timer(c).value), SatSub(c.config.maxRetries, Timer(c).value.tries))
  {
    LaterIsSum(c.rto, FirstFiring(c, Timer(c).value), SatSub(c.config.maxRetries, Timer(c).value.tries));
  }

  // ---- One tick ----

  predicate HasUnmarked(u: seq<Unacked>) { u != [] && (!u[0].sacked || HasUnmarked(u[1..])) }

  /** A sweep fails exactly when the most retried unmarked segment has no retry left, and else retries it once. */
  lemma {:induction false} SweepTries(u: seq<Unacked>, now: nat, maxRetries: nat)
    ensures !HasUnmarked(u) ==> Tries(u) == 0
    ensures SweepFails(u, maxRetries) <==> HasUnmarked(u) && Tries(u) >= maxRetries
    ensures Tries(Sweep(u, now)) == if HasUnmarked(u) then Tries(u) + 1 else 0
    decreases |u|
  {
    if u != [] {
      SweepTries(u[1..], now, maxRetries);
      assert Sweep(u, now)[1..] == Sweep(u[1..], now);
    }
  }

  lemma {:induction false} NewSegmentTries(u: seq<Unacked>, seg: Unacked)
    requires seg.retransmitCount == 0
    ensures Tries(u + [seg]) == Tries(u)
    decreases |u|
  {
    if u == [] {
      assert (u + [seg])[1..] == [];
    } else {
      assert (u + [seg])[1..] == u[1..] + [seg];
      NewSegmentTries(u[1..], seg);
    }
  }

  /** Sending more changes neither the timer nor the estimator. */
  lemma {:induction false} SendLoopTries(c: Conn)
    ensures Tries(SendLoop(c).conn.tx.unacked) == Tries(c.tx.unacked)
    decreases |c.tx.sendQueue|
  {
    var cap := Allowance(c.tx);
    if c.tx.sendQueue != [] && cap != 0 {
      var len := Min(Min(c.config.segmentSize, |c.tx.sendQueue|), cap);
      NewSegmentTries(c.tx.unacked, Unacked(c.tx.nextSeq, c.tx.sendQueue[..len], c.now, 0, false));
      SendLoopTries(Admit(c, len));
    }
  }

  lemma DrainKeepsTimer(c: Conn)
    requires OneTimer(c) && c.Open() && Timer(c).Some?
    ensures var c' := DrainAndMaybeFin(c).conn;
            OneTimer(c') && Timer(c') == Timer(c) && c'.rto == c.rto && c'.now == c.now && c'.config == c.config
  {
    DrainKeepsEndpoint(c);
    SendLoopKeepsControl(c);
    SendLoopTries(c);
    if c.tx.unacked != [] { assert SendLoop(c).conn.tx.unacked[0] == c.tx.unacked[0]; }
  }

  /** What a timer that has fired becomes, if it does not fail. */
  ghost predicate Rearmed(c: Conn, c': Conn, item: Item) {
    && OneTimer(c') && c'.now == c.now && c'.config == c.config
    && Timer(c') == Some(Item(c.now, item.tries + 1)) && c'.rto == c.rto.OnTimeout()
  }

  /** One step of the timer: nothing, a retry, or failure. */
  ghost predicate TimerStep(c: Conn, c': Conn) {
    && Timer(c).Some?
    && var item := Timer(c).value;
    && var fires := SatSub(c.now, item.sentAt) >= c.rto.Current();
    if !fires then
      OneTimer(c') && Timer(c') == Timer(c) && c'.rto == c.rto && c'.now == c.now && c'.config == c.config
    else if item.tries >= c.config.maxRetries then c'.state == Failed
    else Rearmed(c, c', item)
  }

  lemma DataStep(c: Conn)
    requires OneTimer(c) && c.Open() && c.tx.unacked != []
    ensures TimerStep(c, TickData(c).conn)
  {
    SweepTries(c.tx.unacked, c.now, c.config.maxRetries);
    TickDataKeepsControl(c);
  }

  lemma FinTimerStep(c: Conn)
    requires OneTimer(c) && c.Open() && c.tx.unacked == [] && c.tx.finPending.Some?
    ensures TimerStep(c, TickFin(c).conn)
  {
    TickFinKeepsControl(c);
  }

  lemma OpenStep(c: Conn)
    requires OneTimer(c) && c.Open() && Timer(c).Some?
    ensures TimerStep(c, TickOpen(c).conn)
  {
    var c1 := TickData(c).conn;
    if c.tx.unacked != [] { DataStep(c); } else { FinTimerStep(c); }
    TickDataKeepsFin(c);
    if c1.state != Failed {
      var c2 := TickFin(c1).conn;
      if c2.state != Failed { DrainKeepsTimer(c2); }
    }
  }

  lemma HandshakeStep(c: Conn)
    requires OneTimer(c) && (c.state == SynSent || c.state == SynReceived)
    ensures TimerStep(c, TickHandshake(c).conn)
  {
    TickHandshakeKeepsEndpoint(c);
  }

  lemma TickStep(c: Conn)
    requires OneTimer(c) && Timer(c).Some?
    ensures TimerStep(AdvanceClock(c, c.now + 1), NextTick(c))
  {
    var c1 := AdvanceClock(c, c.now + 1);
    TickOf(c, c.now + 1);
    if c.Open() { OpenStep(c1); } else { HandshakeStep(c1); }
  }

  lemma TickOf(c: Conn, now: nat)
    ensures c.Open() ==> OnTick(c, now) == TickOpen(AdvanceClock(c, now))
    ensures c.state == SynSent || c.state == SynReceived ==> OnTick(c, now) == TickHandshake(AdvanceClock(c, now))
  {}

  // ---- Exactly when ----

  /** A tick fails the endpoint exactly at the computed tick, and otherwise leaves that tick where it is. */
  lemma TickTowardsFailure(c: Conn)
    requires OneTimer(c) && Timer(c).Some?
    ensures var c' := NextTick(c);
            && (c'.state == Failed <==> FailAt(c) == c.now + 1)
            && (c'.state == Failed
                || (OneTimer(c') && Timer(c').Some? && c'.now == c.now + 1 && FailAt(c') == FailAt(c)))
  {
    TickStep(c);
    TimerMoves(c, AdvanceClock(c, c.now + 1), NextTick(c));
  }

  lemma TimerMoves(c: Conn, c1: Conn, c': Conn)
    requires Timer(c).Some? && c.rto.Valid() && c1 == c.(now := c.now + 1) && TimerStep(c1, c')
    ensures c'.state == Failed ==> FailAt(c) == c.now + 1
    ensures c'.state != Failed ==> Timer(c').Some? && c'.now == c.now + 1 && FailAt(c') == FailAt(c) > c.now + 1
  {
    assert Timer(c1) == Timer(c);
    FailAtIsLater(c);
    if c'.state != Failed && Timer(c').Some? && c'.rto.Valid() { FailAtIsLater(c'); }
  }

  /** The endpoint is on its way to failing at `tick`. */
  ghost predicate Counting(c: Conn, tick: nat) { OneTimer(c) && Timer(c).Some? && FailAt(c) == tick }

  /** Counting at time `now`, or failed once the time has come. */
  ghost predicate CountingAt(c: Conn, tick: nat, now: nat) {
    if now < tick then Counting(c, tick) && c.now == now else c.state == Failed
  }

  lemma CountDown(c: Conn, tick: nat, now: nat)
    requires CountingAt(c, tick, now)
    ensures CountingAt(NextTick(c), tick, now + 1)
  {
    if now < tick { TickTowardsFailure(c); } else { FailedTick(c); }
  }

  lemma CountsDown(c: Conn, tick: nat, n: nat)
    requires Counting(c, tick)
    ensures CountingAt(Ticks(c, n), tick, c.now + n)
  {
    var good := (d: Conn, now: nat) => CountingAt(d, tick, now);
    forall d, now: nat | good(d, now) ensures good(NextTick(d), now + 1) { CountDown(d, tick, now); }
    IterateKeeps(NextTick, good, c, c.now, n);
  }

  /** An endpoint that hears nothing has failed after `n` ticks exactly when the computed tick has come. */
  lemma FailsExactly(c: Conn, n: nat)
    requires OneTimer(c) && Timer(c).Some?
    ensures Ticks(c, n).state == Failed <==> c.now + n >= FailAt(c)
  {
    CountsDown(c, FailAt(c), n);
  }

  // ---- In every run ----

  /** Without sends after `close`, a side never waits for data and for its FIN at once. */
  lemma RunHasOneTimer(t: seq<System>, i: nat, x: Side, y: Side)
    requires InRun(t, i, x, y) && !x.late
    ensures OneTimer(x.conn)
  {
    var cx, cy := PairInRun(t, i, x, y);
    if x.conn.state != Failed { TiledCovers(x.conn, x.stream, cx); }
    if x.conn.Open() && x.conn.tx.unacked != [] {
      OldestUnmarked(x, y, cx);
      TilesAdvance(x.conn.tx.unacked, x.conn.tx.sendBase, x.conn.tx.nextSeq, x.stream);
    }
  }

  /** Exact give-up: in every run, a side that waits for its handshake, its data or its FIN and hears nothing has
      failed after `n` ticks if and only if the tick computed from its state has come. */
  lemma GiveUpExactly(t: seq<System>, i: nat, x: Side, y: Side, n: nat)
    requires InRun(t, i, x, y) && !x.late && Timer(x.conn).Some?
    ensures Ticks(x.conn, n).state == Failed <==> x.conn.now + n >= FailAt(x.conn)
  {
    RunHasOneTimer(t, i, x, y);
    FailsExactly(x.conn, n);
  }

  /** The documented bound, counted from `sentAt`. */
  function Bound(c: Conn, sentAt: nat): nat { sentAt + (c.config.maxRetries + 1) * c.config.maxRto }

  /** Ticking in silence up to the documented bound of something sent at `sentAt` always ends in failure. */
  ghost predicate MeetsBound(c: Conn, sentAt: nat) {
    forall n: nat :: c.now + n >= Bound(c, sentAt) ==> Ticks(c, n).state == Failed
  }

  /** Whatever was last sent at `sentAt`, a handshake, any one of the segments or a FIN, meets the documented bound if
      and only if the computed tick is within it. */
  lemma BoundMetExactly(t: seq<System>, i: nat, x: Side, y: Side, sentAt: nat)
    requires InRun(t, i, x, y) && !x.late && Timer(x.conn).Some?
    ensures MeetsBound(x.conn, sentAt) <==> FailAt(x.conn) <= Bound(x.conn, sentAt)
  {
    var c, b := x.conn, Bound(x.conn, sentAt);
    RunHasOneTimer(t, i, x, y);
    var n: nat := SatSub(b, c.now);
    FailsExactly(c, n);
    forall m: nat | FailAt(c) <= b && c.now + m >= b ensures Ticks(c, m).state == Failed { FailsExactly(c, m); }
    assert MeetsBound(c, sentAt) ==> Ticks(c, n).state == Failed;
  }

  // ---- A connection attempt that nobody answers ----

  /** How long `n` transmissions of a SYN wait in all: the minimal timeout, doubled each time, up to 64 times it. */
  function SynWaits(config: Config, n: nat): nat {
    if n == 0 then 0
    else SynWaits(config, n - 1) + Max(Min(config.minRto * Min(Pow2(n - 1), MAX_BACKOFF), config.maxRto), 1)
  }

  /** A connection attempt that hears nothing has failed after `n` ticks if and only if these are the waits of
      `max_retries` transmissions, the first included, or of one. */
  lemma ConnectFailsExactly(config: Config, now: nat, n: nat)
    ensures Ticks(Connect(config, now).conn, n).state == Failed <==> n >= SynWaits(config, Max(config.maxRetries, 1))
  {
    var c := Connect(config, now).conn;
    FailsExactly(c, n);
    var left := SatSub(config.maxRetries, 1);
    SynWaitsIs(config, left);
  }

  lemma {:induction false} SynWaitsIs(config: Config, left: nat)
    ensures var rto := New(config.minRto, config.maxRto);
            SynWaits(config, left + 1) == Max(rto.Current(), 1) + Waits(rto, left)
    decreases left
  {
    var rto := New(config.minRto, config.maxRto);
    assert rto.BaseRto() == config.minRto;
    if left > 0 { SynWaitsIs(config, left - 1); }
  }
}
