/**
 Two endpoints and the network between them. Everything a side ever sent stays available for delivery,
 and a delivery may pick any of it any number of times: loss, duplication, delay and reordering at once.
 A corrupted datagram is one that the frame layer rejects.
 */
module Network {
  import opened Bytes
  import opened Segments
  import opened Transport

  /** An endpoint with its history: all bytes its application handed to `send`, all bytes its application
      took from `recv`, every segment it ever sent, and whether it ever sent data after `close`. */
  datatype Side = Side(conn: Conn, stream: seq<byte>, recvd: seq<byte>, sent: set<Segment>, late: bool)

  /** `a` connects, `b` listens. */
  datatype System = System(a: Side, b: Side)

  datatype Action =
    | Receive(now: nat, g: Segment)
    | Garbage(now: nat)
    | Tick(now: nat)
    | AppSend(now: nat, data: seq<byte>)
    | AppClose(now: nat)
    | AppRecv

  /** What the network and the application may do to side `x`: only segments that the peer sent arrive,
      and a direction carries fewer than 2^32 bytes. */
  predicate Enabled(x: Side, peerSent: set<Segment>, act: Action) {
    match act
    case Receive(_, g) => g in peerSent
    case AppSend(_, data) => |x.stream| + |data| < U32_LIMIT
    case _ => true
  }

  function AsSet(out: seq<Segment>): (s: set<Segment>)
    ensures forall g :: g in s <==> g in out
  {
    set g | g in out
  }

  /** What an action does to the endpoint itself. */
  function Effect(c: Conn, act: Action): Outcome {
    match act
    case Receive(now, g) => OnSegment(c, now, g)
    case Garbage(now) => Outcome(AdvanceClock(c, now), [])
    case Tick(now) => OnTick(c, now)
    case AppSend(now, data) => Send(c, now, data)
    case AppClose(now) => Close(c, now)
    case AppRecv => Outcome(c.(rx := c.rx.(delivered := [])), [])
  }

  function Apply(x: Side, act: Action): Side {
    var r := Effect(x.conn, act);
    Side(r.conn,
         if act.AppSend? then x.stream + act.data else x.stream,
         if act.AppRecv? then x.recvd + x.conn.rx.delivered else x.recvd,
         x.sent + AsSet(r.out),
         x.late || (act.AppSend? && x.conn.tx.closeRequested))
  }

  function Init(configA: Config, nowA: nat, configB: Config, nowB: nat): System {
    var o := Connect(configA, nowA);
    System(Side(o.conn, [], [], AsSet(o.out), false), Side(Listen(configB, nowB), [], [], {}, false))
  }

  ghost predicate Next(s: System, s': System) {
    exists act: Action ::
      || (Enabled(s.a, s.b.sent, act) && s' == System(Apply(s.a, act), s.b))
      || (Enabled(s.b, s.a.sent, act) && s' == System(s.a, Apply(s.b, act)))
  }

  ghost predicate IsInit(s: System) {
    exists configA, nowA, configB, nowB :: s == Init(configA, nowA, configB, nowB)
  }

  /** State `i` starts the run or follows from the state before it. */
  ghost predicate StepAt(t: seq<System>, i: nat)
    requires i < |t|
  {
    if i == 0 then IsInit(t[0]) else Next(t[i - 1], t[i])
  }

  /** A run from an initial state. */
  ghost predicate IsRun(t: seq<System>) {
    |t| > 0 && forall i: nat :: i < |t| ==> StepAt(t, i)
  }

  // ---- Reachable states ----

  /** `s` occurs in a run of the two endpoints. */
  ghost predicate Reachable(s: System) {
    exists t :: IsRun(t) && t[|t| - 1] == s
  }

  lemma NextReachable(s: System, s': System)
    requires Reachable(s) && Next(s, s')
    ensures Reachable(s')
  {
    var t :| IsRun(t) && t[|t| - 1] == s;
    ExtendedRun(t, s');
    EndOfRun(t + [s']);
  }

  lemma EndOfRun(t: seq<System>)
    requires IsRun(t)
    ensures Reachable(t[|t| - 1])
  {}

  lemma ExtendedRun(t: seq<System>, s: System)
    requires IsRun(t) && Next(t[|t| - 1], s)
    ensures IsRun(t + [s])
  {
    var t' := t + [s];
    forall i: nat | i < |t'| ensures StepAt(t', i) {
      if i < |t| {
        assert StepAt(t, i);
        assert t'[i] == t[i] && (i > 0 ==> t'[i - 1] == t[i - 1]);
      }
    }
  }

  lemma InitReachable(s: System)
    requires IsInit(s)
    ensures Reachable(s)
  {
    assert StepAt([s], 0);
    EndOfRun([s]);
  }

  lemma ActionA(s: System, act: Action)
    requires Reachable(s) && Enabled(s.a, s.b.sent, act)
    ensures Reachable(s.(a := Apply(s.a, act)))
  {
    NextReachable(s, s.(a := Apply(s.a, act)));
  }

  lemma ActionB(s: System, act: Action)
    requires Reachable(s) && Enabled(s.b, s.a.sent, act)
    ensures Reachable(s.(b := Apply(s.b, act)))
  {
    NextReachable(s, s.(b := Apply(s.b, act)));
  }

  // ---- Segment boundaries ----

  /** `cuts` are the boundaries of the segments of a direction, fixed at first transmission. */
  ghost predicate IsCuts(cuts: seq<nat>, last: nat) {
    && |cuts| > 0 && cuts[0] == 0 && cuts[|cuts| - 1] == last
    && forall i, j :: 0 <= i < j < |cuts| ==> cuts[i] < cuts[j]
  }

  /** `data` at offset `k` is segment number `i` of the stream. */
  ghost predicate SegmentAt(stream: seq<byte>, cuts: seq<nat>, i: int, k: nat, data: seq<byte>) {
    && 0 <= i < |cuts| - 1 && cuts[i] == k && cuts[i + 1] == k + |data|
    && k + |data| <= |stream| && data == stream[k..k + |data|]
  }

  ghost predicate IsSegment(stream: seq<byte>, cuts: seq<nat>, k: nat, data: seq<byte>) {
    exists i :: SegmentAt(stream, cuts, i, k, data)
  }

  // ---- The invariant of one direction: `x` sends, `y` receives ----

  /** `unacked` is exactly the segments from `base` to the end of what was sent. */
  ghost predicate Tiled(unacked: seq<Unacked>, base: nat, stream: seq<byte>, cuts: seq<nat>) {
    && |unacked| < |cuts|
    && base == cuts[|cuts| - 1 - |unacked|]
    && forall i :: 0 <= i < |unacked| ==>
         SegmentAt(stream, cuts, |cuts| - 1 - |unacked| + i, unacked[i].seqNo, unacked[i].data)
  }

  ghost predicate SenderOk(c: Conn, stream: seq<byte>, cuts: seq<nat>) {
    && IsCuts(cuts, c.tx.nextSeq)
    && c.tx.nextSeq <= |stream| && c.tx.sendQueue == stream[c.tx.nextSeq..]
    && (c.state == Failed || Tiled(c.tx.unacked, c.tx.sendBase, stream, cuts))
  }

  ghost predicate ReceiverOk(rx: Rx, recvd: seq<byte>, stream: seq<byte>, cuts: seq<nat>) {
    && rx.expectedSeq in cuts && rx.expectedSeq <= |stream|
    && recvd + rx.delivered == stream[..rx.expectedSeq]
    && forall k :: k in rx.recvBuffer ==> rx.expectedSeq < k && IsSegment(stream, cuts, k, rx.recvBuffer[k])
  }

  ghost predicate DataOk(sent: set<Segment>, stream: seq<byte>, cuts: seq<nat>) {
    forall g :: g in sent && g.data != [] ==> IsSegment(stream, cuts, g.seqNo, g.data)
  }

  /** Some header ever sent acknowledges up to `x`. */
  ghost predicate Acked(sent: set<Segment>, x: nat) {
    x == 0 || exists g :: g in sent && g.header.ack == x
  }

  /** Some header ever sent selectively acknowledges offset `x`. */
  ghost predicate Reported(sent: set<Segment>, x: nat) {
    exists g :: g in sent && InRanges(g.header.sack, x)
  }

  /** The segment starting at boundary `x` is delivered or buffered. */
  predicate HeldAt(rx: Rx, x: nat) { x < rx.expectedSeq || x in rx.recvBuffer }

  ghost predicate AcksOk(sent: set<Segment>, rx: Rx, cuts: seq<nat>) {
    && |cuts| > 0
    && (forall x: nat :: Acked(sent, x) ==> x in cuts && x <= rx.expectedSeq && !Reported(sent, x))
    && (forall x: nat :: Reported(sent, x) ==> x < cuts[|cuts| - 1] && (x in cuts ==> HeldAt(rx, x)))
  }

  ghost predicate MarksOk(unacked: seq<Unacked>, peerSent: set<Segment>) {
    forall i :: 0 <= i < |unacked| && unacked[i].sacked ==> Reported(peerSent, unacked[i].seqNo)
  }

  ghost predicate Direction(x: Side, y: Side, cuts: seq<nat>) {
    && SenderOk(x.conn, x.stream, cuts)
    && ReceiverOk(y.conn.rx, y.recvd, x.stream, cuts)
    && DataOk(x.sent, x.stream, cuts)
    && AcksOk(y.sent, y.conn.rx, cuts)
    && MarksOk(x.conn.tx.unacked, y.sent)
    && Acked(y.sent, x.conn.tx.sendBase)
  }

  /** `g` was built by an endpoint whose receive side was `rx`. */
  predicate BuiltFrom(g: Segment, config: Config, rx: Rx) {
    g.header == HeaderOf(config, rx, g.header.finAck) && (g.header.finAck ==> rx.peerFinSeen)
  }

  ghost predicate AllBuiltFrom(out: seq<Segment>, config: Config, rx: Rx) {
    forall g :: g in out ==> BuiltFrom(g, config, rx)
  }
}
