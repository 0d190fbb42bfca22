/**
 RPC end to end: a retrying client and a deduplicating server, each on its own endpoint, over the network at its
 worst. The transport is used as an interface: what a side has received is a prefix of what the other sent.
 */
module RpcStack {
  import opened Bytes
  import opened Segments
  import opened Framing
  import opened Messages
  import opened Rpc
  import opened RpcLink
  import opened Network
  import opened TornNetwork
  import TornSafety

  // ---- The transport as an interface ----

  /** What each application has taken is a prefix of what the other one sent. */
  lemma TakenIsPrefix(s: System)
    requires TornReachable(s)
    ensures s.a.recvd <= s.b.stream && s.b.recvd <= s.a.stream
    ensures |s.a.stream| < U32_LIMIT && |s.b.stream| < U32_LIMIT
  {
    var t :| IsTornRun(t) && t[|t| - 1] == s;
    TornSafety.TornStreamSafety(t, |t| - 1, s.b, s.a);
    TornSafety.TornStreamSafety(t, |t| - 1, s.a, s.b);
    PrefixOfPrefix(s.a.recvd, s.a.conn.rx.delivered, s.b.stream, s.a.conn.rx.expectedSeq);
    PrefixOfPrefix(s.b.recvd, s.b.conn.rx.delivered, s.a.stream, s.b.conn.rx.expectedSeq);
  }

  lemma PrefixOfPrefix(a: seq<byte>, b: seq<byte>, s: seq<byte>, n: nat)
    requires n <= |s| && a + b == s[..n]
    ensures a <= s
  {
    assert a == (a + b)[..|a|];
  }

  // ---- Compound actions of one side ----

  /** Sends framed messages one by one. */
  function SendAll(x: Side, now: nat, ms: seq<seq<byte>>): Side
    decreases |ms|
  {
    if ms == [] then x else SendAll(Apply(x, AppSend(now, FrameMsg(ms[0]))), now, ms[1..])
  }

  /** A datagram arrives and the application takes everything delivered. */
  function Take(x: Side, act: Action): Side { Apply(Apply(x, act), AppRecv) }

  function Chunk(x: Side, act: Action): seq<byte> { Apply(x, act).conn.rx.delivered }

  /** A segment of the peer, whole or torn, or an unreadable datagram. */
  ghost predicate Arrives(act: Action, peerSent: set<Segment>) {
    act.Garbage? || (act.Receive? && Comes(act.g, peerSent))
  }

  lemma {:induction false} SendAllStream(x: Side, now: nat, ms: seq<seq<byte>>)
    ensures SendAll(x, now, ms).stream == x.stream + FrameAll(ms) && SendAll(x, now, ms).recvd == x.recvd
    decreases |ms|
  {
    if ms != [] {
      SendAllStream(Apply(x, AppSend(now, FrameMsg(ms[0]))), now, ms[1..]);
      Assoc(x.stream, FrameMsg(ms[0]), FrameAll(ms[1..]));
    }
  }

  lemma {:induction false} SendAllA(s: System, now: nat, ms: seq<seq<byte>>)
    requires TornReachable(s) && |s.a.stream| + |FrameAll(ms)| < U32_LIMIT
    ensures TornReachable(s.(a := SendAll(s.a, now, ms)))
    decreases |ms|
  {
    if ms != [] {
      var act := AppSend(now, FrameMsg(ms[0]));
      TornActionA(s, act);
      SendAllA(s.(a := Apply(s.a, act)), now, ms[1..]);
    } else {
      assert s.(a := s.a) == s;
    }
  }

  lemma {:induction false} SendAllB(s: System, now: nat, ms: seq<seq<byte>>)
    requires TornReachable(s) && |s.b.stream| + |FrameAll(ms)| < U32_LIMIT
    ensures TornReachable(s.(b := SendAll(s.b, now, ms)))
    decreases |ms|
  {
    if ms != [] {
      var act := AppSend(now, FrameMsg(ms[0]));
      TornActionB(s, act);
      SendAllB(s.(b := Apply(s.b, act)), now, ms[1..]);
    } else {
      assert s.(b := s.b) == s;
    }
  }

  lemma TakeA(s: System, act: Action)
    requires TornReachable(s) && Arrives(act, s.b.sent)
    ensures TornReachable(s.(a := Take(s.a, act)))
  {
    TornActionA(s, act);
    TornActionA(s.(a := Apply(s.a, act)), AppRecv);
  }

  lemma TakeB(s: System, act: Action)
    requires TornReachable(s) && Arrives(act, s.a.sent)
    ensures TornReachable(s.(b := Take(s.b, act)))
  {
    TornActionB(s, act);
    TornActionB(s.(b := Apply(s.b, act)), AppRecv);
  }

  // ---- The stack ----

  /** The client runs on side `a` of the system, the server on side `b`. */
  datatype Stack<S> = Stack(sys: System, client: Client, server: Server<S>)
  {
    function Traffic(): Streams { Streams(sys.a.stream, sys.b.recvd, sys.b.stream, sys.a.recvd) }
  }

  datatype Event =
    | ClientGets(act: Action)
    | ServerGets(now: nat, act: Action)
    | ClientCalls(now: nat, method_: byte, payload: seq<byte>)
    | ClientTicks(now: nat, order: seq<nat>)
    | ServerTicks(now: nat)
    | PollAnswers
    | PollFailures

  ghost predicate ClientGot<S>(k: Stack<S>, act: Action, k': Stack<S>) {
    && Arrives(act, k.sys.b.sent)
    && k'.client == ClientConsume(k.client, Chunk(k.sys.a, act)) && k'.server == k.server
    && k'.sys == k.sys.(a := Take(k.sys.a, act))
  }

  ghost predicate ServerGot<S>(h: Handler<S>, k: Stack<S>, now: nat, act: Action, k': Stack<S>) {
    && Arrives(act, k.sys.a.sent)
    && k'.server == ServerConsume(h, k.server, Chunk(k.sys.b, act)) && k'.client == k.client
    && |k.server.answers| <= |k'.server.answers|
    && var ms := EncodeResponses(k'.server.answers[|k.server.answers|..]);
    && |k.sys.b.stream| + |FrameAll(ms)| < U32_LIMIT
    && k'.sys == k.sys.(b := SendAll(Take(k.sys.b, act), now, ms))
  }

  ghost predicate ClientCalled<S>(k: Stack<S>, now: nat, method_: byte, payload: seq<byte>, k': Stack<S>) {
    && k'.client == Call(k.client, now, method_, payload) && k'.server == k.server
    && var ms := [EncodeRequest(Request(k.client.nextId, method_, payload))];
    && |k.sys.a.stream| + |FrameAll(ms)| < U32_LIMIT
    && k'.sys == k.sys.(a := SendAll(k.sys.a, now, ms))
  }

  ghost predicate ClientTicked<S>(k: Stack<S>, now: nat, order: seq<nat>, k': Stack<S>) {
    && k'.client == Retries(k.client, now, order) && k'.server == k.server
    && |k.client.sends| <= |k'.client.sends|
    && var ms := EncodeRequests(k'.client.sends[|k.client.sends|..]);
    && |k.sys.a.stream| + |FrameAll(ms)| < U32_LIMIT
    && k'.sys == k.sys.(a := SendAll(Apply(k.sys.a, Tick(now)), now, ms))
  }

  ghost predicate StackNext<S>(h: Handler<S>, k: Stack<S>, e: Event, k': Stack<S>) {
    match e
    case ClientGets(act) => ClientGot(k, act, k')
    case ServerGets(now, act) => ServerGot(h, k, now, act, k')
    case ClientCalls(now, method_, payload) => ClientCalled(k, now, method_, payload, k')
    case ClientTicks(now, order) => ClientTicked(k, now, order, k')
    case ServerTicks(now) => k' == k.(sys := k.sys.(b := Apply(k.sys.b, Tick(now))))
    case PollAnswers => k' == k.(client := PollCompleted(k.client))
    case PollFailures => k' == k.(client := PollFailed(k.client))
  }

  ghost predicate StackOk<S>(h: Handler<S>, k: Stack<S>) {
    TornReachable(k.sys) && Linked(h, k.client, k.server, k.Traffic())
  }

  lemma ClientGotKeeps<S>(h: Handler<S>, k: Stack<S>, act: Action, k': Stack<S>)
    requires StackOk(h, k) && ClientGot(k, act, k')
    ensures StackOk(h, k')
  {
    TakeA(k.sys, act);
    TakenIsPrefix(k'.sys);
    ClientTakes(h, k.client, k.server, k.Traffic(), Chunk(k.sys.a, act));
  }

  lemma ServerGotKeeps<S>(h: Handler<S>, k: Stack<S>, now: nat, act: Action, k': Stack<S>)
    requires StackOk(h, k) && ServerGot(h, k, now, act, k')
    ensures StackOk(h, k')
  {
    TakeB(k.sys, act);
    var mid := k.sys.(b := Take(k.sys.b, act));
    TakenIsPrefix(mid);
    ServerTakes(h, k.client, k.server, k.Traffic(), Chunk(k.sys.b, act));
    var ms := EncodeResponses(k'.server.answers[|k.server.answers|..]);
    SendAllB(mid, now, ms);
    SendAllStream(mid.b, now, ms);
    assert k'.sys == mid.(b := SendAll(mid.b, now, ms));
  }

  lemma ClientCalledKeeps<S>(h: Handler<S>, k: Stack<S>, now: nat, method_: byte, payload: seq<byte>, k': Stack<S>)
    requires StackOk(h, k) && ClientCalled(k, now, method_, payload, k')
    ensures StackOk(h, k')
  {
    var ms := [EncodeRequest(Request(k.client.nextId, method_, payload))];
    ClientCallsLinked(h, k.client, k.server, k.Traffic(), now, method_, payload);
    SendAllA(k.sys, now, ms);
    SendAllStream(k.sys.a, now, ms);
  }

  lemma ClientTickedKeeps<S>(h: Handler<S>, k: Stack<S>, now: nat, order: seq<nat>, k': Stack<S>)
    requires StackOk(h, k) && ClientTicked(k, now, order, k')
    ensures StackOk(h, k')
  {
    ClientRetriesLinked(h, k.client, k.server, k.Traffic(), now, order);
    TornActionA(k.sys, Tick(now));
    var mid := k.sys.(a := Apply(k.sys.a, Tick(now)));
    var ms := EncodeRequests(k'.client.sends[|k.client.sends|..]);
    SendAllA(mid, now, ms);
    SendAllStream(mid.a, now, ms);
    assert k'.sys == mid.(a := SendAll(mid.a, now, ms));
  }

  lemma {:induction false} StackNextKeeps<S>(h: Handler<S>, k: Stack<S>, e: Event, k': Stack<S>)
    requires StackOk(h, k) && StackNext(h, k, e, k')
    ensures StackOk(h, k')
  {
    match e {
      case ClientGets(act) => ClientGotKeeps(h, k, act, k');
      case ServerGets(now, act) => ServerGotKeeps(h, k, now, act, k');
      case ClientCalls(now, method_, payload) => ClientCalledKeeps(h, k, now, method_, payload, k');
      case ClientTicks(now, order) => ClientTickedKeeps(h, k, now, order, k');
      case ServerTicks(now) => TornActionB(k.sys, Tick(now));
      case PollAnswers => PollsLinked(h, k.client, k.server, k.Traffic());
      case PollFailures => PollsLinked(h, k.client, k.server, k.Traffic());
    }
  }

  // ---- Runs ----

  ghost predicate StackInit<S>(k: Stack<S>, app: S) {
    && IsInit(k.sys)
    && k.client == NewClient(k.client.retryDeadline, k.client.maxAttempts)
    && k.server == NewServer(app)
  }

  ghost predicate StackStep<S(!new)>(h: Handler<S>, k: Stack<S>, k': Stack<S>) {
    exists e :: StackNext(h, k, e, k')
  }

  ghost predicate IsStackRun<S(!new)>(h: Handler<S>, app: S, t: seq<Stack<S>>) {
    && |t| > 0 && StackInit(t[0], app)
    && forall i :: 0 <= i < |t| - 1 ==> StackStep(h, t[i], t[i + 1])
  }

  lemma StackStepKeeps<S(!new)>(h: Handler<S>, k: Stack<S>, k': Stack<S>)
    requires StackOk(h, k) && StackStep(h, k, k')
    ensures StackOk(h, k')
  {
    var e :| StackNext(h, k, e, k');
    StackNextKeeps(h, k, e, k');
  }

  lemma StackInitHolds<S>(h: Handler<S>, k: Stack<S>, app: S)
    requires StackInit(k, app)
    ensures StackOk(h, k)
  {
    InitTornReachable(k.sys);
    InitSilent(k.sys);
    NewLinked(h, k.client, app);
  }

  lemma InitSilent(s: System)
    requires IsInit(s)
    ensures s.a.stream == s.a.recvd == s.b.stream == s.b.recvd == []
  {}

  lemma {:induction false} StackRunKeeps<S(!new)>(h: Handler<S>, app: S, t: seq<Stack<S>>, i: nat)
    requires IsStackRun(h, app, t) && i < |t|
    ensures StackOk(h, t[i])
  {
    if i == 0 {
      StackInitHolds(h, t[0], app);
    } else {
      StackRunKeeps(h, app, t, i - 1);
      assert StackStep(h, t[i - 1], t[(i - 1) + 1]);
      StackStepKeeps(h, t[i - 1], t[i]);
    }
  }

  /** At most once: the handler has run once for each distinct id it has answered and never twice for one. */
  ghost predicate AtMostOnce<S>(s: Server<S>) {
    && s.executions == |s.log| == |s.seen|
    && forall i, j :: 0 <= i < j < |s.log| ==> s.log[i].request.id != s.log[j].request.id
  }

  /** RPC end to end, for every run over the network, torn deliveries included: each request id is executed at most
      once; every answered call carries the result of the single execution of that call's own method and payload; and
      each issued call is pending, answered or given up, exactly one of these and once. */
  lemma ExactlyOnce<S(!new)>(h: Handler<S>, app: S, t: seq<Stack<S>>, n: nat)
    requires IsStackRun(h, app, t) && n < |t|
    ensures AtMostOnce(t[n].server)
    ensures forall d :: 0 <= d < |t[n].client.Done()| ==> AnsweredByExecution(h, t[n].client, t[n].server, d)
    ensures DistinctIds(t[n].client.Done()) && Distinct(t[n].client.GivenUp())
    ensures forall id: nat :: id < t[n].client.nextId ==> InOnePlace(t[n].client, id)
  {
    StackRunKeeps(h, app, t, n);
    var c, s := t[n].client, t[n].server;
    forall d | 0 <= d < |c.Done()| ensures AnsweredByExecution(h, c, s, d) { CompletedByExecution(h, c, s, d); }
  }
}
