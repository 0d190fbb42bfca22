/**
 Runs that show where a documented bound does not hold, each beside the theorem that says exactly when it does.
 In all of them side `a` connects to side `b` and sends segments of one byte.
 */
module Witnesses {
  import opened Bytes
  import opened Segments
  import opened Rto
  import opened Transport
  import opened Network
  import opened Endpoint
  import opened Theorems
  import opened GiveUp
  import opened ExactGiveUp

  /** One-byte segments and a timeout that is always five ticks. */
  function Plain(capacity: nat, maxRetries: nat): Config
    requires capacity < U32_LIMIT
  {
    ConfigFields(1, capacity, 5, 5, maxRetries, 1)
  }

  // ---- The handshake ----

  function Start(config: Config): System { Init(config, 0, config, 0) }

  function FirstSyn(config: Config): Segment { Syn(Start(config).a.conn) }

  function SynTaken(config: Config): System {
    Start(config).(b := Apply(Start(config).b, Receive(0, FirstSyn(config))))
  }

  function FirstSynAck(config: Config): Segment { SynAck(SynTaken(config).b.conn) }

  function Joined(config: Config): System {
    SynTaken(config).(a := Apply(SynTaken(config).a, Receive(0, FirstSynAck(config))))
  }

  /** The estimator after the handshake took no time at all. */
  function Sampled(config: Config): Estimator { New(config.minRto, config.maxRto).OnSample(0) }

  const NOTHING: Rx := Rx(0, map[], [], false)

  /** A side that has opened and sent nothing yet. */
  function Fresh(config: Config): Conn {
    Conn(config, Established, 0, Sampled(config), None,
         Tx([], 0, 0, [], false, None, false, config.recvWindowCapacity, Max(2 * config.segmentSize, 1), MAX_U32, 0),
         NOTHING)
  }

  lemma EmptyHeader(config: Config)
    ensures HeaderOf(config, NOTHING, false) == SegmentHeader(0, false, config.recvWindowCapacity, [])
  {}

  lemma SynAckIs(config: Config)
    ensures SynTaken(config).b.conn == Blank(config, 0, SynReceived).(handshake := Some(Control(0, 1)),
              tx := Blank(config, 0, SynReceived).tx.(peerWindow := config.recvWindowCapacity))
    ensures FirstSynAck(config) == Segment(0, true, true, false,
                                           SegmentHeader(0, false, config.recvWindowCapacity, []), [])
    ensures FirstSyn(config) in Start(config).a.sent && FirstSynAck(config) in SynTaken(config).b.sent
  {
    EmptyHeader(config);
  }

  lemma JoinedIs(config: Config)
    ensures Joined(config).a.conn == Fresh(config)
  {
    SynAckIs(config);
    EmptyHeader(config);
  }

  lemma JoinedReachable(config: Config)
    ensures Reachable(Joined(config))
  {
    SynAckIs(config);
    InitReachable(Start(config));
    ActionB(Start(config), Receive(0, FirstSyn(config)));
    ActionA(SynTaken(config), Receive(0, FirstSynAck(config)));
  }

  lemma StartReachable(config: Config)
    ensures Reachable(Start(config))
  {
    InitReachable(Start(config));
  }

  // ---- Sending ----

  function Sending(config: Config, data: seq<byte>): System {
    Joined(config).(a := Apply(Joined(config).a, AppSend(1, data)))
  }

  lemma SendingReachable(config: Config, data: seq<byte>)
    requires |data| < U32_LIMIT
    ensures Reachable(Sending(config, data))
  {
    JoinedReachable(config);
    ActionA(Joined(config), AppSend(1, data));
  }

  const ONE: seq<byte> := [0]
  const TWO: seq<byte> := [0, 0]

  function Piece(seqNo: nat): Unacked { Unacked(seqNo, ONE, 1, 0, false) }

  /** After sending what `n` one-byte segments hold. */
  function AfterSend(config: Config, n: nat, unacked: seq<Unacked>): Conn {
    Fresh(config).(now := 1, tx := Fresh(config).tx.(nextSeq := n, unacked := unacked))
  }

  /** An open side without a close sends by the admission loop alone. */
  lemma SendIsLoop(c: Conn, now: nat, data: seq<byte>)
    requires c.state == Established && !c.tx.closeRequested && c.tx.sendQueue == []
    ensures Send(c, now, data).conn == SendLoop(c.(now := Max(c.now, now), tx := c.tx.(sendQueue := data))).conn
  {
    assert c.tx.sendQueue + data == data;
    SendLoopFrame(c.(now := Max(c.now, now), tx := c.tx.(sendQueue := data)));
  }

  lemma LoopStops(c: Conn)
    requires c.tx.sendQueue == []
    ensures SendLoop(c).conn == c
  {}

  lemma LoopSendsByte(c: Conn)
    requires c.config.segmentSize == 1 && c.tx.sendQueue != [] && Allowance(c.tx) > 0
    ensures SendLoop(c).conn == SendLoop(Admit(c, 1)).conn
  {}

  /** A side about to send `data` at tick 1. */
  function AboutToSend(config: Config, data: seq<byte>): Conn {
    Fresh(config).(now := 1, tx := Fresh(config).tx.(sendQueue := data))
  }

  lemma SendingIsLoop(config: Config, data: seq<byte>)
    ensures Sending(config, data).a.conn == SendLoop(AboutToSend(config, data)).conn
  {
    JoinedIs(config);
    SendApplied(Joined(config).a, 1, data);
    SendIsLoop(Fresh(config), 1, data);
  }

  lemma SendApplied(x: Side, now: nat, data: seq<byte>)
    ensures Apply(x, AppSend(now, data)).conn == Send(x.conn, now, data).conn
  {}

  lemma LoopSendsOne(config: Config)
    requires config.segmentSize == 1
    ensures SendLoop(AboutToSend(config, ONE)).conn == AfterSend(config, 1, [Piece(0)])
  {
    assert ONE[..1] == ONE && ONE[1..] == [];
    LoopSendsByte(AboutToSend(config, ONE));
    LoopStops(Admit(AboutToSend(config, ONE), 1));
  }

  lemma OneInFlight(config: Config)
    requires config.segmentSize == 1
    ensures Sending(config, ONE).a.conn == AfterSend(config, 1, [Piece(0)])
  {
    SendingIsLoop(config, ONE);
    LoopSendsOne(config);
  }

  lemma LoopSendsTwo(config: Config)
    requires config.segmentSize == 1 && config.recvWindowCapacity >= 2
    ensures SendLoop(AboutToSend(config, TWO)).conn == AfterSend(config, 2, [Piece(0), Piece(1)])
  {
    var c := AboutToSend(config, TWO);
    assert TWO[..1] == ONE && TWO[1..] == ONE && ONE[..1] == ONE && ONE[1..] == [];
    LoopSendsByte(c);
    var c1 := Admit(c, 1);
    assert InFlight(c1.tx.unacked) == 1 + InFlight(c1.tx.unacked[1..]);
    LoopSendsByte(c1);
    LoopStops(Admit(c1, 1));
  }

  lemma TwoInFlight(config: Config)
    requires config.segmentSize == 1 && config.recvWindowCapacity >= 2
    ensures Sending(config, TWO).a.conn == AfterSend(config, 2, [Piece(0), Piece(1)])
  {
    SendingIsLoop(config, TWO);
    LoopSendsTwo(config);
  }

  // ---- Give-up bounds that are not met ----

  /** An endpoint whose timer was left overdue outlives the bound of its handshake. */
  lemma OverdueOutlasts()
    ensures exists s :: Reachable(s) && !s.a.late && s.a.conn.handshake.Some?
              && !MeetsBound(s.a.conn, s.a.conn.handshake.value.sentAt)
  {
    var config := Plain(0, 0);
    StartReachable(config);
    var s := Start(config).(a := Apply(Start(config).a, Garbage(100)));
    ActionA(Start(config), Garbage(100));
    assert Ticks(s.a.conn, 0).state == SynSent;
    assert s.a.conn.now + 0 >= Bound(s.a.conn, s.a.conn.handshake.value.sentAt);
  }

  /** The state after the SYN-ACK comes again at tick 5: a fast retransmission of the oldest of two segments. */
  function Resent(config: Config): System {
    Sending(config, TWO).(a := Apply(Sending(config, TWO).a, Receive(5, FirstSynAck(config))))
  }

  lemma ResentReachable(config: Config)
    ensures Reachable(Resent(config))
  {
    SendingReachable(config, TWO);
    SynAckIs(config);
    ActionA(Sending(config, TWO), Receive(5, FirstSynAck(config)));
  }

  lemma ResentIs(config: Config)
    requires config == Plain(config.recvWindowCapacity, 0) && config.recvWindowCapacity >= 2
    ensures var c := Resent(config).a.conn;
            && c.state == Established && c.now == 5 && c.rto == Sampled(config) && c.config == config
            && c.tx.finPending.None? && !c.tx.closeRequested
            && c.tx.unacked == [Retransmitted(Piece(0), 5), Piece(1)] && c.tx.sendQueue == []
  {
    TwoInFlight(config);
    SynAckIs(config);
    var c := AfterSend(config, 2, [Piece(0), Piece(1)]);
    var g := FirstSynAck(config);
    var c1 := AdoptWindow(c, 5, g.header.window);
    assert Handshake(c1, g).0.conn == c1;
    var c2 := FastRetransmit(c1).conn;
    assert ApplyAck(c1, g.header).conn == c2;
    LoopStops(c2);
    assert ProcessOpen(c1, g).conn == c2;
  }

  lemma SampledTimeout(config: Config)
    requires config.minRto == config.maxRto
    ensures Sampled(config).Current() == config.maxRto
  {}

  /** A tick that finds no timer expired and nothing to send only moves the clock. */
  lemma IdleTick(c: Conn, now: nat)
    requires c.state == Established && !c.tx.closeRequested && c.tx.finPending.None? && c.tx.sendQueue == []
    requires !DataTimedOut(AdvanceClock(c, now))
    ensures OnTick(c, now).conn == AdvanceClock(c, now)
  {
    LoopStops(AdvanceClock(c, now));
  }

  lemma OneTick(c: Conn)
    ensures Ticks(c, 1) == OnTick(c, c.now + 1).conn
  {
    assert Ticks(c, 1) == Iterate(NextTick, NextTick(c), 0);
  }

  lemma ResentOutlasts(config: Config)
    requires config == Plain(config.recvWindowCapacity, 0) && config.recvWindowCapacity >= 2
    ensures var c := Resent(config).a.conn;
            c.Open() && |c.tx.unacked| == 2 && !MeetsBound(c, c.tx.unacked[1].sentAt)
  {
    ResentIs(config);
    SampledTimeout(config);
    var c := Resent(config).a.conn;
    IdleTick(c, 6);
    OneTick(c);
    assert c.now + 1 >= Bound(c, c.tx.unacked[1].sentAt);
  }

  /** A fast retransmission of the oldest segment lets a younger one outlive its bound. */
  lemma YoungerSegmentOutlasts()
    ensures exists s :: Reachable(s) && !s.a.late && s.a.conn.Open() && |s.a.conn.tx.unacked| == 2
              && !MeetsBound(s.a.conn, s.a.conn.tx.unacked[1].sentAt)
  {
    var config := Plain(2, 0);
    ResentReachable(config);
    ResentOutlasts(config);
    JoinedIs(config);
    assert !Resent(config).a.late;
  }

  // ---- Window bounds that are not met ----

  /** With a capacity of zero a probe byte is in flight. */
  lemma ProbeExceedsCapacity()
    ensures exists s :: Reachable(s) && s.b.conn.config.recvWindowCapacity == 0 && InFlight(s.a.conn.tx.unacked) == 1
  {
    var config := Plain(0, 0);
    SendingReachable(config, ONE);
    OneInFlight(config);
    var s := Sending(config, ONE);
    SynAckIs(config);
    var u := s.a.conn.tx.unacked;
    assert InFlight(u) == 1 + InFlight(u[1..]);
  }

  /** In every reachable state at most `capacity` bytes are in flight towards a side with that capacity. */
  ghost predicate CapacityHolds(capacity: nat) {
    forall s :: Reachable(s) ==>
      && (s.b.conn.config.recvWindowCapacity == capacity ==> InFlight(s.a.conn.tx.unacked) <= capacity)
      && (s.a.conn.config.recvWindowCapacity == capacity ==> InFlight(s.b.conn.tx.unacked) <= capacity)
  }

  lemma ReachableWithin(s: System)
    requires Reachable(s)
    ensures InFlight(s.a.conn.tx.unacked) <= Max(s.b.conn.config.recvWindowCapacity, 1)
    ensures InFlight(s.b.conn.tx.unacked) <= Max(s.a.conn.config.recvWindowCapacity, 1)
  {
    var t :| IsRun(t) && t[|t| - 1] == s;
    AdmissionOverRuns(t, |t| - 1, s.a, s.b);
    AdmissionOverRuns(t, |t| - 1, s.b, s.a);
  }

  /** The documented cap on unacknowledged data holds in every run exactly for capacities of at least one byte. */
  lemma CapacityHoldsExactly(capacity: nat)
    ensures CapacityHolds(capacity) <==> capacity >= 1
  {
    if capacity >= 1 {
      forall s | Reachable(s)
        ensures s.b.conn.config.recvWindowCapacity == capacity ==> InFlight(s.a.conn.tx.unacked) <= capacity
        ensures s.a.conn.config.recvWindowCapacity == capacity ==> InFlight(s.b.conn.tx.unacked) <= capacity
      {
        ReachableWithin(s);
      }
    } else {
      ProbeExceedsCapacity();
    }
  }

  lemma TimedOutIs(config: Config)
    requires config == Plain(2, 1)
    ensures var tx := OnTick(AfterSend(config, 2, [Piece(0), Piece(1)]), 6).conn.tx;
            tx.unacked == [Retransmitted(Piece(0), 6), Retransmitted(Piece(1), 6)] && tx.cwnd == 1
    ensures OnTick(AfterSend(config, 2, [Piece(0), Piece(1)]), 6).conn.Open()
  {
    SampledTimeout(config);
    var u := [Piece(0), Piece(1)];
    var c := AdvanceClock(AfterSend(config, 2, u), 6);
    assert DataTimedOut(c);
    assert !SweepFails(u, 1) by { assert u[1..] == [Piece(1)] && u[1..][1..] == []; }
    var c1 := TickData(c).conn;
    assert c1.tx.unacked == [Retransmitted(Piece(0), 6), Retransmitted(Piece(1), 6)];
    LoopStops(c1);
  }

  lemma TwoBytes(u: seq<Unacked>)
    requires |u| == 2 && |u[0].data| == 1 && |u[1].data| == 1
    ensures InFlight(u) == 2
  {
    assert InFlight(u) == 1 + InFlight(u[1..]);
    assert InFlight(u[1..]) == 1 + InFlight(u[1..][1..]);
  }

  function TimedOut(config: Config): System {
    Sending(config, TWO).(a := Apply(Sending(config, TWO).a, Tick(6)))
  }

  lemma TimedOutReachable(config: Config)
    ensures Reachable(TimedOut(config))
  {
    SendingReachable(config, TWO);
    ActionA(Sending(config, TWO), Tick(6));
  }

  lemma TimedOutExceeds(config: Config)
    requires config == Plain(2, 1)
    ensures TimedOut(config).a.conn.Open()
    ensures InFlight(TimedOut(config).a.conn.tx.unacked) > EffectiveWindow(TimedOut(config).a.conn.tx)
  {
    TwoInFlight(config);
    TimedOutIs(config);
    TwoBytes(TimedOut(config).a.conn.tx.unacked);
  }

  /** After a timeout, more is in flight than the effective window. */
  lemma TimeoutExceedsWindow()
    ensures exists s :: Reachable(s) && s.a.conn.Open() && InFlight(s.a.conn.tx.unacked) > EffectiveWindow(s.a.conn.tx)
  {
    TimedOutReachable(Plain(2, 1));
    TimedOutExceeds(Plain(2, 1));
  }
}
