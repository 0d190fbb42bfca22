/**
 The simulation loop of the repository: two connections, two channels, one side sends and closes, the other reads and
 closes when its peer has. Round by round the loop does what `RoundOf` says, with whatever the channels hand over.
 */
module Driver {
  import opened Bytes
  import opened Channels
  import opened Transport
  import opened Network
  import opened Connections
  import opened Rounds
  import opened Hosts

  // ---- The start ----

  /** The host that connects, with its SYN to be sent. */
  method Client(config: Config, ghost side: Side, link: Channel) returns (x: Host)
    requires link.Valid() && link.offered == []
    requires side == Side(Connect(config, 0).conn, [], [], AsSet(Connect(config, 0).out), false)
    ensures x.Valid() && x.side == side && x.link == link && x.pending == Wire(Connect(config, 0).out)
    ensures fresh(x) && fresh(x.conn) && fresh(x.conn.rto)
  {
    var conn := new Connection.Blank(config, 0, SynSent);
    var syn := conn.StartHandshake();
    ghost var out := Connect(config, 0).out;
    WireCarries([], {}, out);
    WireOnTheWay({}, [], [], out);
    assert [] + Wire(out) == [syn] == Wire(out) && {} + AsSet(out) == side.sent;
    x := new Host(conn, link, [syn], side);
  }

  /** The host that listens. */
  method Listener(config: Config, ghost side: Side, link: Channel) returns (x: Host)
    requires link.Valid() && link.offered == [] && side == Side(Listen(config, 0), [], [], {}, false)
    ensures x.Valid() && x.side == side && x.link == link && x.pending == []
    ensures fresh(x) && fresh(x.conn) && fresh(x.conn.rto)
  {
    var conn := new Connection.Blank(config, 0, Listening);
    x := new Host(conn, link, [], side);
  }

  /** Two sound hosts that share nothing. */
  ghost predicate Joined(a: Host, b: Host)
    reads a, a.conn, a.conn.rto, a.link, b, b.conn, b.conn.rto, b.link
  {
    Apart(a, b) && a.Valid() && b.Valid()
  }

  // ---- One round ----

  /** The receiving application reads and everything sent in the last round enters the channels. */
  method ReadAndFlush(a: Host, b: Host, plansA: nat -> Plan, plansB: nat -> Plan) returns (bytes: seq<byte>)
    requires Joined(a, b)
    modifies a`pending, a.link, b, b.conn, b.link
    ensures Joined(a, b) && b.side == Apply(old(b.side), AppRecv) && bytes == old(b.side.conn.rx.delivered)
    ensures Offered(a.link, old(a.link.offered), old(a.pending)) && Grown(a.link)
    ensures Offered(b.link, old(b.link.offered), old(b.pending)) && Grown(b.link)
  {
    bytes := b.AppRecv();
    assert b.pending == old(b.pending);
    a.Flush(plansA);
    b.Flush(plansB);
  }

  /** What the channel from `x` has handed over in a round at `time`. */
  ghost predicate HandsAll(link: Channel, time: nat, before: seq<nat>, ready: seq<seq<byte>>)
    reads link
  {
    NoneDue(link.inFlight, time) && NewlyLogged(ready, before, link.log, link.copies)
  }

  /** Both channels move to the tick and both sides handle what arrives. */
  method Exchange(a: Host, b: Host, time: nat) returns (up: seq<seq<byte>>, down: seq<seq<byte>>)
    requires Joined(a, b) && a.link.now <= time && b.link.now <= time
    modifies a, a.conn, a.conn.rto, a.link, b, b.conn, b.conn.rto, b.link
    ensures Joined(a, b) && a.link.now == b.link.now == time
    ensures a.side == Handled(old(a.side), time, down) && b.side == Handled(old(b.side), time, up)
    ensures AllEmerge(up, old(a.side).sent, a.link.torn) && AllEmerge(down, b.side.sent, b.link.torn)
    ensures HandsAll(a.link, time, old(a.link.log), up) && HandsAll(b.link, time, old(b.link.log), down)
    ensures a.link.torn == old(a.link.torn) && b.link.torn == old(b.link.torn)
    ensures a.link.copies == old(a.link.copies) && b.link.copies == old(b.link.copies)
  {
    up := Deliver(b, a, time);
    down := Deliver(a, b, time);
  }

  method TickBoth(a: Host, b: Host, time: nat)
    requires Joined(a, b)
    modifies a, a.conn, a.conn.rto, b, b.conn, b.conn.rto
    ensures Joined(a, b) && a.side == Apply(old(a.side), Tick(time)) && b.side == Apply(old(b.side), Tick(time))
  {
    a.Tick(time);
    b.Tick(time);
  }

  method SendOnce(a: Host, time: nat, app: App) returns (app': App)
    requires a.Valid()
    modifies a, a.conn
    ensures a.Valid() && (a.side, app') == Rounds.SendOnce(old(a.side), time, app)
  {
    app' := app;
    if a.conn.state == Established && !app.sentAll {
      a.AppSend(time, app.data);
      app' := app.(sentAll := true);
    }
  }

  method CloseOnce(a: Host, time: nat, app: App) returns (app': App)
    requires a.Valid()
    modifies a, a.conn
    ensures a.Valid() && (a.side, app') == Rounds.CloseOnce(old(a.side), time, app)
  {
    app' := app;
    if app.sentAll && !app.closed && a.conn.state == Established {
      a.AppClose(time);
      app' := app.(closed := true);
    }
  }

  method CloseBack(b: Host, time: nat)
    requires b.Valid()
    modifies b, b.conn
    ensures b.Valid() && b.side == Rounds.CloseBack(old(b.side), time)
  {
    if b.conn.state == Established && b.conn.peerFinSeen { b.AppClose(time); }
  }

  /** Both applications act. */
  method Act(a: Host, b: Host, time: nat, app: App) returns (app': App)
    requires Joined(a, b)
    modifies a, a.conn, b, b.conn
    ensures Joined(a, b) && b.side == Rounds.CloseBack(old(b.side), time)
    ensures var (a1, app1) := Rounds.SendOnce(old(a.side), time, app);
            (a.side, app') == Rounds.CloseOnce(a1, time, app1)
  {
    app' := SendOnce(a, time, app);
    app' := CloseOnce(a, time, app');
    CloseBack(b, time);
  }

  /** Both sides tick and both applications act. */
  method TickAndAct(a: Host, b: Host, time: nat, app: App) returns (app': App)
    requires Joined(a, b)
    modifies a, a.conn, a.conn.rto, b, b.conn, b.conn.rto
    ensures Joined(a, b) && b.side == Rounds.CloseBack(Apply(old(b.side), Tick(time)), time)
    ensures var (a1, app1) := Rounds.SendOnce(Apply(old(a.side), Tick(time)), time, app);
            (a.side, app') == Rounds.CloseOnce(a1, time, app1)
  {
    TickBoth(a, b, time);
    app' := Act(a, b, time, app);
  }

  /** Reading, then the network's part of the tick. */
  method ReadAndExchange(a: Host, b: Host, time: nat, plansA: nat -> Plan, plansB: nat -> Plan)
    returns (bytes: seq<byte>, up: seq<seq<byte>>, down: seq<seq<byte>>)
    requires Joined(a, b) && a.link.now <= time && b.link.now <= time
    modifies a, a.conn, a.conn.rto, a.link, b, b.conn, b.conn.rto, b.link
    ensures Joined(a, b) && a.link.now == b.link.now == time && bytes == old(b.side.conn.rx.delivered)
    ensures a.side == Handled(old(a.side), time, down) && b.side == Handled(Apply(old(b.side), AppRecv), time, up)
    ensures AllEmerge(up, old(a.side).sent, a.link.torn) && AllEmerge(down, b.side.sent, b.link.torn)
    ensures Handing(a.link, time, up) && Handing(b.link, time, down)
  {
    bytes := ReadAndFlush(a, b, plansA, plansB);
    up, down := Exchange(a, b, time);
  }

  /** A channel has taken in more, and handed over `ready`, which is everything due by `time`. */
  twostate predicate Handing(link: Channel, time: nat, ready: seq<seq<byte>>)
    reads link
  {
    && HandsAll(link, time, old(link.log), ready) && old(link.copies) <= link.copies
    && (old(link.torn) ==> link.torn)
  }

  ghost function WorldOf(a: Host, b: Host, app: App): World
    reads a, b
  {
    World(System(a.side, b.side), app)
  }

  lemma TickEmerges(ds: seq<seq<byte>>, x: Side, time: nat, torn: bool)
    requires AllEmerge(ds, x.sent, torn)
    ensures AllEmerge(ds, Apply(x, Tick(time)).sent, torn)
  {
    EmergesStill(ds, x.sent, Apply(x, Tick(time)).sent, torn, torn);
  }

  lemma RoundMoves(w: World, now: nat, r: Arrivals, tornA: bool, tornB: bool)
    requires FairArrivals(w, now, r, tornA, tornB)
    ensures Moves(w, now, r, RoundOf(w, now, r.up, r.down), tornA || tornB)
  {
    FairMeanwhile(w, now, r, tornA, tornB, tornA || tornB);
  }

  /** One tick of the simulation: what `RoundOf` says, for what the channels hand over. */
  method Round(a: Host, b: Host, time: nat, app: App, plansA: nat -> Plan, plansB: nat -> Plan)
    returns (app': App, bytes: seq<byte>, ghost r: Arrivals)
    requires Joined(a, b) && a.link.now <= time && b.link.now <= time
    modifies a, a.conn, a.conn.rto, a.link, b, b.conn, b.conn.rto, b.link
    ensures Joined(a, b) && a.link.now == b.link.now == time && bytes == old(b.side.conn.rx.delivered)
    ensures WorldOf(a, b, app') == RoundOf(old(WorldOf(a, b, app)), time, r.up, r.down)
    ensures FairArrivals(old(WorldOf(a, b, app)), time, r, a.link.torn, b.link.torn)
    ensures Handing(a.link, time, r.up) && Handing(b.link, time, r.down)
  {
    var up, down;
    bytes, up, down := ReadAndExchange(a, b, time, plansA, plansB);
    r := Arrivals(up, down);
    TickEmerges(down, b.side, time, b.link.torn);
    app' := TickAndAct(a, b, time, app);
  }

  // ---- The loop ----

  datatype SimResult = SimResult(delivered: seq<byte>, ticksUsed: nat, clientState: State, serverState: State)

  function Ups(rounds: seq<Arrivals>): seq<seq<byte>> {
    if rounds == [] then [] else Ups(rounds[..|rounds| - 1]) + rounds[|rounds| - 1].up
  }

  function Downs(rounds: seq<Arrivals>): seq<seq<byte>> {
    if rounds == [] then [] else Downs(rounds[..|rounds| - 1]) + rounds[|rounds| - 1].down
  }

  lemma OneMoreRound(rounds: seq<Arrivals>, r: Arrivals)
    ensures Ups(rounds + [r]) == Ups(rounds) + r.up && Downs(rounds + [r]) == Downs(rounds) + r.down
  {
    assert (rounds + [r])[..|rounds|] == rounds;
  }

  /** A channel that nothing has entered yet. */
  ghost predicate Unused(link: Channel)
    reads link
  {
    link.Valid() && link.View() == EMPTY && link.offered == [] && !link.torn
  }

  /** The connecting host, with its SYN to be sent, and the listening one. */
  method Begin(configA: Config, configB: Config, up: Channel, down: Channel, ghost app: App)
    returns (a: Host, b: Host)
    requires up != down && Unused(up) && Unused(down)
    ensures Joined(a, b) && a.link == up && b.link == down
    ensures WorldOf(a, b, app) == World(Init(configA, 0, configB, 0), app)
    ensures fresh(a) && fresh(a.conn) && fresh(a.conn.rto) && fresh(b) && fresh(b.conn) && fresh(b.conn.rto)
  {
    ghost var s := Init(configA, 0, configB, 0);
    a := Client(configA, s.a, up);
    b := Listener(configB, s.b, down);
  }

  /** The loop so far: the rounds have led to this world, and what they took in is what the channels handed over. */
  ghost predicate Playing(a: Host, b: Host, app: App, worlds: seq<World>, rounds: seq<Arrivals>)
    reads a, a.conn, a.conn.rto, a.link, b, b.conn, b.conn.rto, b.link
  {
    && Joined(a, b) && IsPlay(worlds, rounds, a.link.torn || b.link.torn) && worlds[|rounds|] == WorldOf(a, b, app)
    && Traced(a.link, |rounds|, Ups(rounds)) && Traced(b.link, |rounds|, Downs(rounds))
  }

  /** By `time` the channel has handed over `all`. */
  ghost predicate Traced(link: Channel, time: nat, all: seq<seq<byte>>)
    reads link
  {
    link.now <= time && LoggedAs(all, link.log, link.copies)
  }

  /** One round, as far as the world is concerned. */
  method Move(a: Host, b: Host, app: App, time: nat, plansA: nat -> Plan, plansB: nat -> Plan)
    returns (app': App, bytes: seq<byte>, ghost r: Arrivals, ghost w': World)
    requires Joined(a, b) && a.link.now <= time && b.link.now <= time
    modifies a, a.conn, a.conn.rto, a.link, b, b.conn, b.conn.rto, b.link
    ensures Joined(a, b) && w' == WorldOf(a, b, app')
    ensures Moves(old(WorldOf(a, b, app)), time, r, w', a.link.torn || b.link.torn)
    ensures b.side.recvd == old(b.side.recvd) + bytes && a.link.now == b.link.now == time
    ensures Handing(a.link, time, r.up) && Handing(b.link, time, r.down)
  {
    ghost var w := WorldOf(a, b, app);
    app', bytes, r := Round(a, b, time, app, plansA, plansB);
    w' := WorldOf(a, b, app');
    RoundMoves(w, time, r, a.link.torn, b.link.torn);
    RoundReads(w, time, r.up, r.down);
  }

  /** One round of the loop. */
  method PlayOne(a: Host, b: Host, app: App, ghost worlds: seq<World>, ghost rounds: seq<Arrivals>, time: nat,
                 plansA: nat -> Plan, plansB: nat -> Plan)
    returns (app': App, bytes: seq<byte>, ghost worlds': seq<World>, ghost rounds': seq<Arrivals>)
    requires Playing(a, b, app, worlds, rounds) && time == |rounds| + 1
    modifies a, a.conn, a.conn.rto, a.link, b, b.conn, b.conn.rto, b.link
    ensures Playing(a, b, app', worlds', rounds') && |rounds'| == time && rounds <= rounds' && worlds <= worlds'
    ensures b.side.recvd == old(b.side.recvd) + bytes
    ensures NoneDue(a.link.inFlight, time) && NoneDue(b.link.inFlight, time)
  {
    ghost var torn, logA, logB := a.link.torn || b.link.torn, a.link.log, b.link.log;
    ghost var copiesA, copiesB := a.link.copies, b.link.copies;
    ghost var r, w';
    app', bytes, r, w' := Move(a, b, app, time, plansA, plansB);
    worlds', rounds' := worlds + [w'], rounds + [r];
    PlayOn(worlds, rounds, r, w', torn, a.link.torn || b.link.torn);
    OneMoreRound(rounds, r);
    LoggedMore(Ups(rounds), logA, copiesA, r.up, a.link.log, a.link.copies);
    LoggedMore(Downs(rounds), logB, copiesB, r.down, b.link.log, b.link.copies);
  }

  /** No round so far has ended the loop. */
  ghost predicate GoesOn(worlds: seq<World>, maxTicks: nat) {
    forall i :: 1 <= i < |worlds| ==> i < maxTicks && !Ended(worlds[i])
  }

  /** The last round has ended the loop, and none before. */
  ghost predicate Stopped(worlds: seq<World>, maxTicks: nat) {
    && |worlds| >= 2 && (Ended(worlds[|worlds| - 1]) || |worlds| > maxTicks)
    && GoesOn(worlds[..|worlds| - 1], maxTicks)
  }

  lemma OnOrStopped(before: seq<World>, worlds: seq<World>, maxTicks: nat)
    requires GoesOn(before, maxTicks) && before <= worlds && |worlds| == |before| + 1 >= 2
    ensures if Ended(worlds[|worlds| - 1]) || |worlds| > maxTicks then Stopped(worlds, maxTicks)
            else GoesOn(worlds, maxTicks)
  {
    assert worlds[..|worlds| - 1] == before;
  }

  /** The result reports the world at the end. */
  ghost predicate Reports(result: SimResult, w: World, n: nat) {
    result == SimResult(w.sys.b.recvd, n, w.sys.a.conn.state, w.sys.b.conn.state)
  }

  /** The loop. */
  method Play(a: Host, b: Host, data: seq<byte>, maxTicks: nat, ghost start: World, plansA: nat -> (nat -> Plan),
              plansB: nat -> (nat -> Plan))
    returns (result: SimResult, ghost worlds: seq<World>, ghost rounds: seq<Arrivals>)
    requires Playing(a, b, App(data, false, false), [start], []) && b.side.recvd == []
    modifies a, a.conn, a.conn.rto, a.link, b, b.conn, b.conn.rto, b.link
    ensures IsPlay(worlds, rounds, a.link.torn || b.link.torn) && worlds[0] == start && Stopped(worlds, maxTicks)
    ensures Reports(result, worlds[|rounds|], |rounds|)
    ensures LoggedAs(Ups(rounds), a.link.log, a.link.copies) && NoneDue(a.link.inFlight, |rounds|)
    ensures LoggedAs(Downs(rounds), b.link.log, b.link.copies) && NoneDue(b.link.inFlight, |rounds|)
  {
    var app, delivered, ticksUsed: nat := App(data, false, false), [], 0;
    worlds, rounds := [start], [];
    while true
      invariant Playing(a, b, app, worlds, rounds) && worlds[0] == start
      invariant delivered == b.side.recvd && ticksUsed == |rounds| <= maxTicks && GoesOn(worlds, maxTicks)
      decreases maxTicks - ticksUsed
    {
      ticksUsed := ticksUsed + 1;
      ghost var before := worlds;
      var bytes;
      app, bytes, worlds, rounds := PlayOne(a, b, app, worlds, rounds, ticksUsed, plansA(ticksUsed), plansB(ticksUsed));
      delivered := delivered + bytes;
      OnOrStopped(before, worlds, maxTicks);
      var bothClosed := a.conn.state == Closed && b.conn.state == Closed;
      var eitherFailed := a.conn.state == Failed || b.conn.state == Failed;
      if bothClosed || eitherFailed || ticksUsed >= maxTicks {
        return SimResult(delivered, ticksUsed, a.conn.state, b.conn.state), worlds, rounds;
      }
    }
  }

  /** The two hosts before the first round, with the SYN on the way. */
  method Open(configA: Config, configB: Config, up: Channel, down: Channel, ghost data: seq<byte>, syn: nat -> Plan)
    returns (a: Host, b: Host)
    requires up != down && Unused(up) && Unused(down)
    modifies up
    ensures a.link == up && b.link == down && b.side.recvd == []
    ensures Playing(a, b, App(data, false, false), [Begun(configA, configB, data)], [])
    ensures fresh(a) && fresh(a.conn) && fresh(a.conn.rto) && fresh(b) && fresh(b.conn) && fresh(b.conn.rto)
  {
    a, b := Begin(configA, configB, up, down, App(data, false, false));
    a.Flush(syn);
  }

  /** The whole simulation, for all configurations, scripts, draws and data: it plays rounds until one ends it, what the
      rounds take in is what the channels hand over when it is due, and what is read is a prefix of what was sent. If no
      copy was flipped in its length field and cut, then a server that ends closed has read exactly what was sent. */
  method Simulate(configA: Config, configB: Config, up: Channel, down: Channel, data: seq<byte>, maxTicks: nat,
                  syn: nat -> Plan, plansA: nat -> (nat -> Plan), plansB: nat -> (nat -> Plan))
    returns (result: SimResult, ghost worlds: seq<World>, ghost rounds: seq<Arrivals>)
    requires up != down && Unused(up) && Unused(down) && |data| < U32_LIMIT
    modifies up, down
    ensures IsPlay(worlds, rounds, up.torn || down.torn) && worlds[0] == Begun(configA, configB, data)
    ensures Stopped(worlds, maxTicks) && Reports(result, worlds[|rounds|], |rounds|)
    ensures LoggedAs(Ups(rounds), up.log, up.copies) && NoneDue(up.inFlight, |rounds|)
    ensures LoggedAs(Downs(rounds), down.log, down.copies) && NoneDue(down.inFlight, |rounds|)
    ensures result.delivered <= data
    ensures !up.torn && !down.torn && result.serverState == Closed ==> result.delivered == data
  {
    var a, b := Open(configA, configB, up, down, data, syn);
    result, worlds, rounds := Play(a, b, data, maxTicks, Begun(configA, configB, data), plansA, plansB);
    BegunOk(configA, configB, data);
    PlayIsSound(worlds, rounds, up.torn || down.torn);
  }
}
