/**
 One round of the simulation as a function of what the two channels hand over, and what every round keeps: the two
 sides stay a reachable state of the system, and a server that ends in Closed has handed its application everything.
 */
module Rounds {
  import opened Bytes
  import opened Segments
  import opened Damage
  import opened Transport
  import opened Network
  import opened TornNetwork
  import opened TornSafety
  import opened Endpoint
  import opened Session
  import opened ReceiveSafety
  import Theorems

  // ---- What channels hand over ----

  /** `d` is a copy of something in `sent`; only if `torn`, one whose length field was flipped and whose end was cut. */
  ghost predicate Emerges(d: seq<byte>, sent: set<Segment>, torn: bool) {
    exists g, fault :: g in sent && EmergesAs(d, g, fault, torn)
  }

  predicate EmergesAs(d: seq<byte>, g: Segment, fault: Fault, torn: bool) {
    d == Damaged(EncodeSegment(g), fault) && (DoubleFault(EncodeSegment(g), fault) ==> torn)
  }

  ghost predicate AllEmerge(ds: seq<seq<byte>>, sent: set<Segment>, torn: bool) {
    forall i :: 0 <= i < |ds| ==> Emerges(ds[i], sent, torn)
  }

  lemma EmergesStill(ds: seq<seq<byte>>, sent: set<Segment>, sent': set<Segment>, torn: bool, torn': bool)
    requires AllEmerge(ds, sent, torn) && sent <= sent' && (torn ==> torn')
    ensures AllEmerge(ds, sent', torn')
  {
    forall i | 0 <= i < |ds| ensures Emerges(ds[i], sent', torn') {
      assert Emerges(ds[i], sent, torn);
      var g, fault :| g in sent && EmergesAs(ds[i], g, fault, torn);
      assert g in sent' && EmergesAs(ds[i], g, fault, torn');
    }
  }

  /** Side `x` handles datagrams one after the other. */
  function Handled(x: Side, now: nat, ds: seq<seq<byte>>): Side {
    if ds == [] then x
    else Apply(Handled(x, now, ds[..|ds| - 1]), ActionOf(now, ds[|ds| - 1]))
  }

  /** What it sends meanwhile. */
  function Replies(x: Side, now: nat, ds: seq<seq<byte>>): seq<Segment> {
    if ds == [] then []
    else
      Replies(x, now, ds[..|ds| - 1]) + Effect(Handled(x, now, ds[..|ds| - 1]).conn, ActionOf(now, ds[|ds| - 1])).out
  }

  // ---- Reachable states ----

  /** `s` occurs in a run, with torn deliveries only if `torn`. */
  ghost predicate Live(s: System, torn: bool) { if torn then TornReachable(s) else Reachable(s) }

  lemma LiveIsTorn(s: System, torn: bool)
    requires Live(s, torn)
    ensures TornReachable(s)
  {
    if !torn { ReachableIsTorn(s); }
  }

  /** The state of the system with `x` as the connecting side, or as the listening one. */
  function Arranged(x: Side, y: Side, connects: bool): System { if connects then System(x, y) else System(y, x) }

  ghost predicate Allowed(x: Side, y: Side, act: Action, torn: bool) {
    if torn then TornEnabled(x, y.sent, act) else Enabled(x, y.sent, act)
  }

  lemma LiveActs(x: Side, y: Side, connects: bool, act: Action, torn: bool)
    requires Live(Arranged(x, y, connects), torn) && Allowed(x, y, act, torn)
    ensures Live(Arranged(Apply(x, act), y, connects), torn)
  {
    if torn {
      if connects { TornActionA(System(x, y), act); } else { TornActionB(System(y, x), act); }
    } else {
      if connects { ActionA(System(x, y), act); } else { ActionB(System(y, x), act); }
    }
  }

  /** Whatever comes out of the peer's channel amounts to an action that the system allows, and to one without torn
      deliveries unless a copy was flipped in its length field and cut. */
  lemma ArrivalAllowed(x: Side, y: Side, connects: bool, now: nat, d: seq<byte>, torn: bool)
    requires Live(Arranged(x, y, connects), torn) && Emerges(d, y.sent, torn)
    ensures Allowed(x, y, ActionOf(now, d), torn)
  {
    var s := Arranged(x, y, connects);
    LiveIsTorn(s, torn);
    var t :| IsTornRun(t) && t[|t| - 1] == s;
    var g, fault :| g in y.sent && EmergesAs(d, g, fault, torn);
    CopyAllowed(t, x, y, now, g, fault, torn);
  }

  lemma CopyAllowed(t: seq<System>, x: Side, y: Side, now: nat, g: Segment, fault: Fault, torn: bool)
    requires |t| > 0 && InTornRun(t, |t| - 1, y, x) && g in y.sent
    requires DoubleFault(EncodeSegment(g), fault) ==> torn
    ensures Allowed(x, y, ActionOf(now, Damaged(EncodeSegment(g), fault)), torn)
  {
    EveryCopyActs(t, |t| - 1, y, x, g, fault, now);
  }

  lemma {:induction false} HandledLive(x: Side, y: Side, connects: bool, now: nat, ds: seq<seq<byte>>, torn: bool)
    requires Live(Arranged(x, y, connects), torn) && AllEmerge(ds, y.sent, torn)
    ensures Live(Arranged(Handled(x, now, ds), y, connects), torn)
    decreases |ds|
  {
    if ds != [] {
      var before, d := ds[..|ds| - 1], ds[|ds| - 1];
      HandledLive(x, y, connects, now, before, torn);
      ArrivalLive(Handled(x, now, before), y, connects, now, d, torn);
    }
  }

  lemma ArrivalLive(x: Side, y: Side, connects: bool, now: nat, d: seq<byte>, torn: bool)
    requires Live(Arranged(x, y, connects), torn) && Emerges(d, y.sent, torn)
    ensures Live(Arranged(Apply(x, ActionOf(now, d)), y, connects), torn)
  {
    ArrivalAllowed(x, y, connects, now, d, torn);
    LiveActs(x, y, connects, ActionOf(now, d), torn);
  }

  // ---- The application's part ----

  /** The sending application: its data, and whether it has sent it and asked to close. */
  datatype App = App(data: seq<byte>, sentAll: bool, closed: bool)

  datatype World = World(sys: System, app: App)

  /** Everything is sent once the connection is open, and then the connection is closed. */
  function SendOnce(a: Side, now: nat, app: App): (Side, App) {
    if a.conn.state == Established && !app.sentAll then (Apply(a, AppSend(now, app.data)), app.(sentAll := true))
    else (a, app)
  }

  function CloseOnce(a: Side, now: nat, app: App): (Side, App) {
    if app.sentAll && !app.closed && a.conn.state == Established then
      (Apply(a, AppClose(now)), app.(closed := true))
    else (a, app)
  }

  /** The receiving application closes once its peer has. */
  function CloseBack(b: Side, now: nat): Side {
    if b.conn.state == Established && b.conn.rx.peerFinSeen then Apply(b, AppClose(now)) else b
  }

  /** The sending side's part of a round, after which it has handled what arrives, ticked and acted. */
  function SenderRound(a: Side, now: nat, down: seq<seq<byte>>, app: App): (Side, App) {
    var (a1, app1) := SendOnce(Apply(Handled(a, now, down), Tick(now)), now, app);
    CloseOnce(a1, now, app1)
  }

  /** The receiving side's part before its application acts: it reads, handles what arrives and ticks. */
  function ReceiverRound(b: Side, now: nat, up: seq<seq<byte>>): Side {
    Apply(Handled(Apply(b, AppRecv), now, up), Tick(now))
  }

  /** One round, in which the channels hand over `up` to the receiving side and `down` to the sending one. */
  function RoundOf(w: World, now: nat, up: seq<seq<byte>>, down: seq<seq<byte>>): World {
    var (a, app) := SenderRound(w.sys.a, now, down, w.app);
    World(System(a, CloseBack(ReceiverRound(w.sys.b, now, up), now)), app)
  }

  // ---- What actions leave alone ----

  /** Only `close` requests the close, and a seen FIN stays seen. */
  lemma RequestKept(c: Conn, act: Action)
    ensures !act.AppClose? ==> Effect(c, act).conn.tx.closeRequested == c.tx.closeRequested
    ensures c.rx.peerFinSeen ==> Effect(c, act).conn.rx.peerFinSeen
  {
    match act {
      case Receive(now, g) => SegmentKeepsRequest(c, now, g);
      case Garbage(now) =>
      case Tick(now) => TickKeepsRequest(c, now);
      case AppSend(now, data) =>
        DrainKeepsRequest(AdvanceClock(c, now).(tx := c.tx.(sendQueue := c.tx.sendQueue + data)));
      case AppClose(now) => DrainKeepsRequest(AdvanceClock(c, now).(tx := c.tx.(closeRequested := true)));
      case AppRecv =>
    }
  }

  lemma DrainKeepsRequest(c: Conn)
    ensures DrainAndMaybeFin(c).conn.tx.closeRequested == c.tx.closeRequested && DrainAndMaybeFin(c).conn.rx == c.rx
  {
    SendLoopQuiet(c);
  }

  lemma TickKeepsRequest(c: Conn, now: nat)
    ensures OnTick(c, now).conn.tx.closeRequested == c.tx.closeRequested && OnTick(c, now).conn.rx == c.rx
  {
    if c.Open() { TickOpenKeepsRequest(AdvanceClock(c, now)); }
  }

  lemma TickOpenKeepsRequest(c: Conn)
    ensures TickOpen(c).conn.tx.closeRequested == c.tx.closeRequested && TickOpen(c).conn.rx == c.rx
  {
    TickDataKeepsRequest(c);
    TickFinKeepsRequest(TickData(c).conn);
    DrainKeepsRequest(TickFin(TickData(c).conn).conn);
  }

  lemma TickDataKeepsRequest(c: Conn)
    ensures TickData(c).conn.tx.closeRequested == c.tx.closeRequested && TickData(c).conn.rx == c.rx
  {}

  lemma TickFinKeepsRequest(c: Conn)
    ensures TickFin(c).conn.tx.closeRequested == c.tx.closeRequested && TickFin(c).conn.rx == c.rx
  {}

  lemma SegmentKeepsRequest(c: Conn, now: nat, g: Segment)
    ensures OnSegment(c, now, g).conn.tx.closeRequested == c.tx.closeRequested
    ensures c.rx.peerFinSeen ==> OnSegment(c, now, g).conn.rx.peerFinSeen
  {
    var c1 := AdoptWindow(c, now, g.header.window);
    if Processed(c, now, g) { ProcessKeepsRequest(Handshake(c1, g).0.conn, g); }
  }

  lemma ProcessKeepsRequest(c: Conn, g: Segment)
    requires c.Open()
    ensures ProcessOpen(c, g).conn.tx.closeRequested == c.tx.closeRequested
    ensures c.rx.peerFinSeen ==> ProcessOpen(c, g).conn.rx.peerFinSeen
  {
    var acked := if g.ack then ApplyAck(c, g.header) else Outcome(c, []);
    ApplyAckFin(c, g.header);
    AckKeepsRx(c, g.header);
    ReceiveKeepsFinSeen(acked.conn.rx, g);
    DrainKeepsRequest(acked.conn.(rx := ReceiveSegment(acked.conn.rx, g)));
  }

  lemma AckKeepsRx(c: Conn, h: SegmentHeader)
    ensures ApplyAck(c, h).conn.rx == c.rx
  {}

  /** The application and its requests are as before; segments were only added. */
  ghost predicate SameApp(x: Side, x': Side) {
    && x'.stream == x.stream && x'.recvd == x.recvd && x'.late == x.late && x.sent <= x'.sent
    && x'.conn.tx.closeRequested == x.conn.tx.closeRequested
    && (x.conn.rx.peerFinSeen ==> x'.conn.rx.peerFinSeen)
  }

  lemma NetworkKeepsApp(x: Side, act: Action)
    requires act.Receive? || act.Garbage? || act.Tick?
    ensures SameApp(x, Apply(x, act))
  {
    RequestKept(x.conn, act);
  }

  lemma {:induction false} HandledKeepsApp(x: Side, now: nat, ds: seq<seq<byte>>)
    ensures SameApp(x, Handled(x, now, ds))
    decreases |ds|
  {
    if ds != [] {
      HandledKeepsApp(x, now, ds[..|ds| - 1]);
      NetworkKeepsApp(Handled(x, now, ds[..|ds| - 1]), ActionOf(now, ds[|ds| - 1]));
    }
  }

  // ---- What a round keeps ----

  /** The sending application never sends after it closed, and has handed over all of its data or nothing. */
  ghost predicate Sending(a: Side, app: App) {
    && a.stream == (if app.sentAll then app.data else []) && |app.data| < U32_LIMIT && !a.late
    && (app.closed ==> app.sentAll) && (a.conn.tx.closeRequested ==> app.closed)
  }

  /** The receiving application sends nothing late, and closes only after its peer. */
  ghost predicate Reading(b: Side) { !b.late && (b.conn.tx.closeRequested ==> b.conn.rx.peerFinSeen) }

  ghost predicate WorldOk(w: World, torn: bool) { Live(w.sys, torn) && Sending(w.sys.a, w.app) && Reading(w.sys.b) }

  lemma TickLive(x: Side, y: Side, connects: bool, now: nat, torn: bool)
    requires Live(Arranged(x, y, connects), torn)
    ensures Live(Arranged(Apply(x, Tick(now)), y, connects), torn) && SameApp(x, Apply(x, Tick(now)))
  {
    NetworkKeepsApp(x, Tick(now));
    LiveActs(x, y, connects, Tick(now), torn);
  }

  lemma SendOnceKeeps(a: Side, b: Side, now: nat, app: App, torn: bool)
    requires Live(System(a, b), torn) && Sending(a, app)
    ensures var (a', app') := SendOnce(a, now, app); Live(System(a', b), torn) && Sending(a', app')
    ensures SendOnce(a, now, app).1.data == app.data
  {
    if a.conn.state == Established && !app.sentAll {
      LiveActs(a, b, true, AppSend(now, app.data), torn);
      RequestKept(a.conn, AppSend(now, app.data));
      assert [] + app.data == app.data;
    }
  }

  lemma CloseOnceKeeps(a: Side, b: Side, now: nat, app: App, torn: bool)
    requires Live(System(a, b), torn) && Sending(a, app)
    ensures var (a', app') := CloseOnce(a, now, app); Live(System(a', b), torn) && Sending(a', app')
    ensures CloseOnce(a, now, app).1.data == app.data
  {
    if app.sentAll && !app.closed && a.conn.state == Established { LiveActs(a, b, true, AppClose(now), torn); }
  }

  lemma SenderRoundKeeps(a: Side, b: Side, now: nat, down: seq<seq<byte>>, app: App, torn: bool)
    requires Live(System(a, b), torn) && Sending(a, app) && AllEmerge(down, b.sent, torn)
    ensures var (a', app') := SenderRound(a, now, down, app);
            Live(System(a', b), torn) && Sending(a', app') && app'.data == app.data
  {
    HandledLive(a, b, true, now, down, torn);
    HandledKeepsApp(a, now, down);
    TickLive(Handled(a, now, down), b, true, now, torn);
    var a1 := Apply(Handled(a, now, down), Tick(now));
    SendOnceKeeps(a1, b, now, app, torn);
    CloseOnceKeeps(SendOnce(a1, now, app).0, b, now, SendOnce(a1, now, app).1, torn);
  }

  lemma ReceiverRoundKeeps(a: Side, b: Side, now: nat, up: seq<seq<byte>>, torn: bool)
    requires Live(System(a, b), torn) && Reading(b) && AllEmerge(up, a.sent, torn)
    ensures var b' := ReceiverRound(b, now, up);
            && Live(System(a, b'), torn) && Reading(b') && b.sent <= b'.sent
            && b'.recvd == b.recvd + b.conn.rx.delivered && b'.conn.tx.closeRequested == b.conn.tx.closeRequested
  {
    var b1 := Apply(b, AppRecv);
    LiveActs(b, a, false, AppRecv, torn);
    HandledLive(b1, a, false, now, up, torn);
    HandledKeepsApp(b1, now, up);
    TickLive(Handled(b1, now, up), a, false, now, torn);
  }

  lemma CloseBackKeeps(a: Side, b: Side, now: nat, torn: bool)
    requires Live(System(a, b), torn) && Reading(b)
    ensures var b' := CloseBack(b, now); Live(System(a, b'), torn) && Reading(b') && b'.recvd == b.recvd
    ensures CloseBack(b, now).conn.tx.finAcked ==> b.conn.tx.finAcked
  {
    if b.conn.state == Established && b.conn.rx.peerFinSeen {
      LiveActs(b, a, false, AppClose(now), torn);
      RequestKept(b.conn, AppClose(now));
      CloseQuiet(b.conn, now);
    }
  }

  /** Every round keeps the world sound, whatever the channels hand over. */
  lemma RoundKeeps(w: World, now: nat, up: seq<seq<byte>>, down: seq<seq<byte>>, torn: bool)
    requires WorldOk(w, torn) && FairArrivals(w, now, Arrivals(up, down), torn, torn)
    ensures var w' := RoundOf(w, now, up, down);
            WorldOk(w', torn) && w'.app.data == w.app.data
  {
    var a, b := w.sys.a, ReceiverRound(w.sys.b, now, up);
    ReceiverRoundKeeps(a, w.sys.b, now, up, torn);
    SenderRoundKeeps(a, b, now, down, w.app, torn);
    CloseBackKeeps(SenderRound(a, now, down, w.app).0, b, now, torn);
  }

  // ---- A closed server has read everything ----

  lemma StateFacts(s: System)
    requires Reachable(s) && !s.a.late && !s.b.late
    ensures s.b.conn.rx.peerFinSeen ==>
              s.a.conn.tx.closeRequested && s.b.recvd + s.b.conn.rx.delivered == s.a.stream
    ensures s.b.conn.state == Closed ==> s.b.conn.tx.finAcked
    ensures s.b.conn.tx.finAcked ==> s.b.conn.tx.closeRequested
  {
    var t :| IsRun(t) && t[|t| - 1] == s;
    Theorems.TeardownSoundness(t, |t| - 1, s.a, s.b);
    PairFacts(t, |t| - 1, s.a, s.b);
  }

  lemma PairFacts(t: seq<System>, i: nat, a: Side, b: Side)
    requires Theorems.InRun(t, i, a, b)
    ensures b.conn.rx.peerFinSeen ==> a.conn.tx.closeRequested
    ensures b.conn.state == Closed ==> b.conn.tx.finAcked
    ensures b.conn.tx.finAcked ==> b.conn.tx.closeRequested
  {
    var ca, cb := Theorems.PairInRun(t, i, a, b);
  }

  /** If nothing torn was delivered: a server that is closed at the end of a round has handed all of the data to its
      application. */
  lemma ClosedHasRead(w: World, now: nat, up: seq<seq<byte>>, down: seq<seq<byte>>)
    requires WorldOk(w, false) && FairArrivals(w, now, Arrivals(up, down), false, false)
    ensures var w' := RoundOf(w, now, up, down); w'.sys.b.conn.state == Closed ==> w'.sys.b.recvd == w.app.data
  {
    var a, b := w.sys.a, ReceiverRound(w.sys.b, now, up);
    RoundKeeps(w, now, up, down, false);
    StateFacts(w.sys);
    StateFacts(RoundOf(w, now, up, down).sys);
    ReceiverRoundKeeps(a, w.sys.b, now, up, false);
    RoundReads(w, now, up, down);
    StateFacts(System(a, b));
    CloseBackKeeps(a, b, now, false);
  }

  /** Torn deliveries are a possibility, not a duty. */
  lemma TornOrNot(w: World, torn: bool, torn': bool)
    requires WorldOk(w, torn) && (torn ==> torn')
    ensures WorldOk(w, torn')
  {
    LiveIsTorn(w.sys, torn);
  }

  // ---- Whole simulations ----

  /** What the channels hand over in one round. */
  datatype Arrivals = Arrivals(up: seq<seq<byte>>, down: seq<seq<byte>>)

  function Begun(configA: Config, configB: Config, data: seq<byte>): World {
    World(Init(configA, 0, configB, 0), App(data, false, false))
  }

  /** Both sides are closed, or one has failed. */
  predicate Ended(w: World) {
    var a, b := w.sys.a.conn.state, w.sys.b.conn.state;
    (a == Closed && b == Closed) || a == Failed || b == Failed
  }

  lemma BegunOk(configA: Config, configB: Config, data: seq<byte>)
    requires |data| < U32_LIMIT
    ensures WorldOk(Begun(configA, configB, data), false)
    ensures Begun(configA, configB, data).sys.b.conn.state == Listening
  {
    InitReachable(Init(configA, 0, configB, 0));
  }

  /** The channels hand over copies of what the other side has sent, torn ones included if the flags say so. */
  ghost predicate FairArrivals(w: World, now: nat, r: Arrivals, tornA: bool, tornB: bool) {
    && AllEmerge(r.up, w.sys.a.sent, tornA)
    && AllEmerge(r.down, ReceiverRound(w.sys.b, now, r.up).sent, tornB)
  }

  /** A round at tick `now` leads from `w` to `w'`. The quantifier keeps the round folded where it is only passed on. */
  ghost predicate Moves(w: World, now: nat, r: Arrivals, w': World, torn: bool) {
    forall n: nat :: n == now ==> w' == RoundOf(w, n, r.up, r.down) && FairArrivals(w, n, r, torn, torn)
  }

  /** The worlds of a simulation, one more than its rounds; the first round is at tick 1. */
  ghost predicate IsPlay(worlds: seq<World>, rounds: seq<Arrivals>, torn: bool) {
    var n := |rounds|;
    && |worlds| == n + 1
    && (n > 0 ==>
          IsPlay(worlds[..n], rounds[..n - 1], torn) && Moves(worlds[n - 1], n, rounds[n - 1], worlds[n], torn))
  }

  lemma MovesStill(w: World, now: nat, r: Arrivals, w': World, torn: bool, torn': bool)
    requires Moves(w, now, r, w', torn) && (torn ==> torn')
    ensures Moves(w, now, r, w', torn')
  {
    FairMeanwhile(w, now, r, torn, torn, torn');
  }

  lemma FairMeanwhile(w: World, now: nat, r: Arrivals, tornA: bool, tornB: bool, torn: bool)
    requires FairArrivals(w, now, r, tornA, tornB) && (tornA || tornB ==> torn)
    ensures FairArrivals(w, now, r, torn, torn)
  {
    EmergesStill(r.up, w.sys.a.sent, w.sys.a.sent, tornA, torn);
    var sent := ReceiverRound(w.sys.b, now, r.up).sent;
    EmergesStill(r.down, sent, sent, tornB, torn);
  }

  lemma {:induction false} PlayStill(worlds: seq<World>, rounds: seq<Arrivals>, torn: bool, torn': bool)
    requires IsPlay(worlds, rounds, torn) && (torn ==> torn')
    ensures IsPlay(worlds, rounds, torn')
    decreases |rounds|
  {
    var n := |rounds|;
    if n > 0 {
      PlayStill(worlds[..n], rounds[..n - 1], torn, torn');
      MovesStill(worlds[n - 1], n, rounds[n - 1], worlds[n], torn, torn');
    }
  }

  lemma PlayOn(worlds: seq<World>, rounds: seq<Arrivals>, r: Arrivals, w': World, torn: bool, torn': bool)
    requires IsPlay(worlds, rounds, torn) && (torn ==> torn') && Moves(worlds[|rounds|], |rounds| + 1, r, w', torn')
    ensures IsPlay(worlds + [w'], rounds + [r], torn')
  {
    PlayStill(worlds, rounds, torn, torn');
    var ws, rs, n := worlds + [w'], rounds + [r], |rounds| + 1;
    assert ws[..n] == worlds && rs[..n - 1] == rounds && ws[n - 1] == worlds[n - 1] && ws[n] == w' && rs[n - 1] == r;
  }

  lemma RoundReads(w: World, now: nat, up: seq<seq<byte>>, down: seq<seq<byte>>)
    ensures RoundOf(w, now, up, down).sys.b.recvd == w.sys.b.recvd + w.sys.b.conn.rx.delivered
  {
    var b := Apply(w.sys.b, AppRecv);
    HandledKeepsApp(b, now, up);
    NetworkKeepsApp(Handled(b, now, up), Tick(now));
  }

  /** What the server has read is a prefix of the data, and all of it if the server is closed and nothing torn was
      handed over. */
  ghost predicate Sound(w: World, data: seq<byte>, torn: bool) {
    && WorldOk(w, torn) && w.app.data == data && w.sys.b.recvd <= data
    && (!torn && w.sys.b.conn.state == Closed ==> w.sys.b.recvd == data)
  }

  /** Every simulation ends in a sound world, whatever the channels hand over. */
  lemma {:induction false} PlayIsSound(worlds: seq<World>, rounds: seq<Arrivals>, torn: bool)
    requires IsPlay(worlds, rounds, torn) && WorldOk(worlds[0], false) && worlds[0].sys.b.conn.state != Closed
    ensures Sound(worlds[|rounds|], worlds[0].app.data, torn)
    decreases |rounds|
  {
    var n := |rounds|;
    if n == 0 {
      StartIsSound(worlds[0], torn);
    } else {
      PlayIsSound(worlds[..n], rounds[..n - 1], torn);
      MoveIsSound(worlds[n - 1], n, rounds[n - 1], worlds[n], torn);
      ReadIsPrefix(worlds[n], torn);
    }
  }

  lemma StartIsSound(w: World, torn: bool)
    requires WorldOk(w, false) && w.sys.b.conn.state != Closed
    ensures Sound(w, w.app.data, torn)
  {
    TornOrNot(w, false, torn);
    ReadIsPrefix(w, torn);
  }

  lemma MoveIsSound(w: World, now: nat, r: Arrivals, w': World, torn: bool)
    requires WorldOk(w, torn) && Moves(w, now, r, w', torn)
    ensures WorldOk(w', torn) && w'.app.data == w.app.data
    ensures !torn && w'.sys.b.conn.state == Closed ==> w'.sys.b.recvd == w.app.data
  {
    assert w' == RoundOf(w, now, r.up, r.down) && FairArrivals(w, now, r, torn, torn);
    RoundKeeps(w, now, r.up, r.down, torn);
    if !torn { ClosedHasRead(w, now, r.up, r.down); }
  }

  lemma ReadIsPrefix(w: World, torn: bool)
    requires WorldOk(w, torn)
    ensures w.sys.b.recvd <= w.app.data
  {
    LiveIsTorn(w.sys, torn);
    var t :| IsTornRun(t) && t[|t| - 1] == w.sys;
    TornStreamSafety(t, |t| - 1, w.sys.a, w.sys.b);
    var read := w.sys.b.recvd;
    assert read == (read + w.sys.b.conn.rx.delivered)[..|read|];
  }
}
