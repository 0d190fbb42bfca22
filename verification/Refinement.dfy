/**
 From bytes back to the model of runs: what the RPC objects do with a datagram, a call or a tick is a step of the
 end-to-end system, and a datagram that the channel damaged is a step too.
 */
module Refinement {
  import opened Bytes
  import opened Segments
  import opened Damage
  import opened Framing
  import opened Messages
  import opened Rpc
  import opened RpcLink
  import opened Transport
  import opened Network
  import opened RpcStack
  import opened RpcEndpoints
  import opened TornNetwork
  import opened TornSafety

  // ---- One datagram ----

  /** A copy of a segment as the channel emits it. */
  function Datagram(g: Segment, fault: Fault): seq<byte> { Damaged(EncodeSegment(g), fault) }

  /** `x` gets what `y` sent. */
  ghost predicate Facing(s: System, x: Side, y: Side) { (x == s.a && y == s.b) || (x == s.b && y == s.a) }

  lemma DatagramIsAction(s: System, x: Side, y: Side, now: nat, g: Segment, fault: Fault)
    requires TornReachable(s) && Facing(s, x, y) && g in y.sent
    ensures OnDatagram(x.conn, now, Datagram(g, fault)) == Effect(x.conn, ActionOf(now, Datagram(g, fault)))
    ensures Arrives(ActionOf(now, Datagram(g, fault)), y.sent)
  {
    var t :| IsTornRun(t) && t[|t| - 1] == s;
    EveryCopyActs(t, |t| - 1, y, x, g, fault, now);
  }

  /** Taking a datagram and reading what it delivered, on bytes and on segments. */
  lemma TakeIs(s: System, x: Side, y: Side, now: nat, g: Segment, fault: Fault)
    requires TornReachable(s) && Facing(s, x, y) && g in y.sent
    ensures var act, r := ActionOf(now, Datagram(g, fault)), OnDatagram(x.conn, now, Datagram(g, fault));
            && Chunk(x, act) == Arrived(x.conn, now, Datagram(g, fault))
            && Take(x, act).conn == Emptied(r.conn) && Take(x, act).sent == x.sent + AsSet(r.out)
  {
    DatagramIsAction(s, x, y, now, g, fault);
    TakeOf(x, ActionOf(now, Datagram(g, fault)));
  }

  lemma TakeOf(x: Side, act: Action)
    ensures var r := Effect(x.conn, act);
            && Chunk(x, act) == r.conn.rx.delivered
            && Take(x, act).conn == Emptied(r.conn) && Take(x, act).sent == x.sent + AsSet(r.out)
  {}

  lemma TickOf(x: Side, now: nat)
    ensures Apply(x, Tick(now)).conn == OnTick(x.conn, now).conn
    ensures Apply(x, Tick(now)).sent == x.sent + AsSet(OnTick(x.conn, now).out)
  {}

  lemma SentBoth(sent: set<Segment>, a: seq<Segment>, b: seq<Segment>)
    ensures sent + AsSet(a) + AsSet(b) == sent + AsSet(a + b)
  {}

  // ---- Steps of the stack ----

  /** The encoded answers that `s'` has given and `s` has not. */
  function NewAnswers<S>(s: Server<S>, s': Server<S>): seq<seq<byte>> {
    if |s.answers| <= |s'.answers| then EncodeResponses(s'.answers[|s.answers|..]) else []
  }

  function NewSends(c: Client, c': Client): seq<seq<byte>> {
    if |c.sends| <= |c'.sends| then EncodeRequests(c'.sends[|c.sends|..]) else []
  }

  /** The server as `on_datagram` leaves it. */
  function ServerAfter<S>(h: Handler<S>, k: Stack<S>, now: nat, d: seq<byte>): Server<S> {
    ServerConsume(h, k.server, Arrived(k.sys.b.conn, now, d))
  }

  /** What `RpcServer.OnDatagram` does with a copy of a segment is a step of the stack. */
  lemma ServerDatagramStep<S>(h: Handler<S>, k: Stack<S>, now: nat, g: Segment, fault: Fault) returns (k': Stack<S>)
    requires StackOk(h, k) && g in k.sys.a.sent
    requires var d := Datagram(g, fault);
             |k.sys.b.stream| + |FrameAll(NewAnswers(k.server, ServerAfter(h, k, now, d)))| < U32_LIMIT
    ensures ServerGot(h, k, now, ActionOf(now, Datagram(g, fault)), k')
    ensures var d := Datagram(g, fault);
            var r := Answering(k.sys.b.conn, now, d, NewAnswers(k.server, k'.server));
            && k'.server == ServerAfter(h, k, now, d)
            && k'.sys.b.conn == r.conn && k'.sys.b.sent == k.sys.b.sent + AsSet(r.out)
  {
    var d, act := Datagram(g, fault), ActionOf(now, Datagram(g, fault));
    var x := Take(k.sys.b, act);
    TakeIs(k.sys, k.sys.b, k.sys.a, now, g, fault);
    DatagramIsAction(k.sys, k.sys.b, k.sys.a, now, g, fault);
    AnswersGrow(h, k, act);
    var server := ServerAfter(h, k, now, d);
    var ms := NewAnswers(k.server, server);
    SideSends(x, now, ms);
    SentBoth(k.sys.b.sent, OnDatagram(k.sys.b.conn, now, d).out, SendMessages(x.conn, now, ms).out);
    k' := Stack(k.sys.(b := SendAll(x, now, ms)), k.client, server);
  }

  lemma AnswersGrow<S>(h: Handler<S>, k: Stack<S>, act: Action)
    requires StackOk(h, k) && Arrives(act, k.sys.a.sent)
    ensures |k.server.answers| <= |ServerConsume(h, k.server, Chunk(k.sys.b, act)).answers|
  {
    TakeB(k.sys, act);
    TakenIsPrefix(k.sys.(b := Take(k.sys.b, act)));
    ServerTakes(h, k.client, k.server, k.Traffic(), Chunk(k.sys.b, act));
  }

  /** What `RpcClient.OnDatagram` does with a copy of a segment is a step of the stack. */
  lemma ClientDatagramStep<S>(h: Handler<S>, k: Stack<S>, now: nat, g: Segment, fault: Fault) returns (k': Stack<S>)
    requires StackOk(h, k) && g in k.sys.b.sent
    ensures ClientGot(k, ActionOf(now, Datagram(g, fault)), k')
    ensures var d := Datagram(g, fault);
            var r := OnDatagram(k.sys.a.conn, now, d);
            && k'.client == ClientConsume(k.client, Arrived(k.sys.a.conn, now, d))
            && k'.sys.a.conn == Emptied(r.conn) && k'.sys.a.sent == k.sys.a.sent + AsSet(r.out)
  {
    var act := ActionOf(now, Datagram(g, fault));
    TakeIs(k.sys, k.sys.a, k.sys.b, now, g, fault);
    DatagramIsAction(k.sys, k.sys.a, k.sys.b, now, g, fault);
    k' := Stack(k.sys.(a := Take(k.sys.a, act)), ClientConsume(k.client, Chunk(k.sys.a, act)), k.server);
  }

  /** What `RpcClient.Call` does is a step of the stack. */
  lemma CallStep<S>(k: Stack<S>, now: nat, method_: byte, payload: seq<byte>) returns (k': Stack<S>)
    requires |k.sys.a.stream| + |FrameAll([EncodeRequest(Request(k.client.nextId, method_, payload))])| < U32_LIMIT
    ensures ClientCalled(k, now, method_, payload, k')
    ensures var r := SendMessages(k.sys.a.conn, now, [EncodeRequest(Request(k.client.nextId, method_, payload))]);
            && k'.client == Call(k.client, now, method_, payload)
            && k'.sys.a.conn == r.conn && k'.sys.a.sent == k.sys.a.sent + AsSet(r.out)
  {
    var ms := [EncodeRequest(Request(k.client.nextId, method_, payload))];
    SideSends(k.sys.a, now, ms);
    k' := Stack(k.sys.(a := SendAll(k.sys.a, now, ms)), Call(k.client, now, method_, payload), k.server);
  }

  /** What `RpcClient.OnTick` does, visiting the pending calls in `order`, is a step of the stack. */
  lemma ClientTickStep<S>(h: Handler<S>, k: Stack<S>, now: nat, order: seq<nat>) returns (k': Stack<S>)
    requires StackOk(h, k)
    requires |k.sys.a.stream| + |FrameAll(NewSends(k.client, Retries(k.client, now, order)))| < U32_LIMIT
    ensures ClientTicked(k, now, order, k')
    ensures var r := Ticking(k.sys.a.conn, now, NewSends(k.client, k'.client));
            && k'.client == Retries(k.client, now, order)
            && k'.sys.a.conn == r.conn && k'.sys.a.sent == k.sys.a.sent + AsSet(r.out)
  {
    var client := Retries(k.client, now, order);
    RetriesKeep(k.client, now, order);
    var ms := NewSends(k.client, client);
    var x := Apply(k.sys.a, Tick(now));
    TickOf(k.sys.a, now);
    SideSends(x, now, ms);
    SentBoth(k.sys.a.sent, OnTick(k.sys.a.conn, now).out, SendMessages(x.conn, now, ms).out);
    k' := Stack(k.sys.(a := SendAll(x, now, ms)), client, k.server);
  }
}
