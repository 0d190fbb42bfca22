/**
 `RpcServer` and `RpcClient`: objects that own a connection and a frame reader, update their tables in place and
 return the datagrams to send. They are proved against the functions of modules Rpc and Transport, and their
 transport part against the side of the system that the end-to-end theorem runs on.
 */
module RpcEndpoints {
  import opened Bytes
  import opened Framing
  import opened Messages
  import opened Rpc
  import opened Transport
  import opened Connections
  import Network
  import RpcStack

  // ---- Sending several messages ----

  /** Sends framed messages one by one on a connection. */
  function SendMessages(c: Conn, now: nat, ms: seq<seq<byte>>): Outcome
    decreases |ms|
  {
    if ms == [] then Outcome(c, []) else
      var first := Send(c, now, FrameMsg(ms[0]));
      var rest := SendMessages(first.conn, now, ms[1..]);
      Outcome(rest.conn, first.out + rest.out)
  }

  /** Sending two batches one after the other. */
  lemma {:induction false} SendConcat(c: Conn, now: nat, a: seq<seq<byte>>, b: seq<seq<byte>>)
    ensures var r := SendMessages(c, now, a);
            var s := SendMessages(r.conn, now, b);
            SendMessages(c, now, a + b) == Outcome(s.conn, r.out + s.out)
    decreases |a|
  {
    if a == [] {
      assert a + b == b;
    } else {
      var first := Send(c, now, FrameMsg(a[0]));
      assert (a + b)[1..] == a[1..] + b;
      SendConcat(first.conn, now, a[1..], b);
      var r := SendMessages(first.conn, now, a[1..]);
      Assoc(first.out, r.out, SendMessages(r.conn, now, b).out);
    }
  }

  lemma SendOne(c: Conn, now: nat, m: seq<byte>)
    ensures SendMessages(c, now, [m]) == Send(c, now, FrameMsg(m))
  {
    assert [m][1..] == [];
  }

  /** From `c0`, sending `ms` leads to `c` and puts `out` on the wire. */
  ghost predicate Sent(c0: Conn, time: nat, ms: seq<seq<byte>>, c: Conn, out: seq<seq<byte>>) {
    c == SendMessages(c0, time, ms).conn && out == Wire(SendMessages(c0, time, ms).out)
  }

  lemma SentMore(c0: Conn, time: nat, a: seq<seq<byte>>, c1: Conn, out: seq<seq<byte>>, b: seq<seq<byte>>, c2: Conn,
                 more: seq<seq<byte>>)
    requires Sent(c0, time, a, c1, out) && Sent(c1, time, b, c2, more)
    ensures Sent(c0, time, a + b, c2, out + more)
  {
    SendConcat(c0, time, a, b);
    WireConcat(SendMessages(c0, time, a).out, SendMessages(c1, time, b).out);
  }

  /** Sending on the connection of a side is what the end-to-end system does with that side. */
  lemma {:induction false} SideSends(x: Network.Side, now: nat, ms: seq<seq<byte>>)
    ensures RpcStack.SendAll(x, now, ms).conn == SendMessages(x.conn, now, ms).conn
    ensures RpcStack.SendAll(x, now, ms).sent == x.sent + Network.AsSet(SendMessages(x.conn, now, ms).out)
    decreases |ms|
  {
    if ms != [] { SideSends(Network.Apply(x, Network.AppSend(now, FrameMsg(ms[0]))), now, ms[1..]); }
  }

  /** Taking all delivered bytes. */
  function Emptied(c: Conn): Conn { c.(rx := c.rx.(delivered := [])) }

  /** Everything a connection sends when a datagram arrives and `ms` are sent in answer. */
  function Answering(c: Conn, now: nat, d: seq<byte>, ms: seq<seq<byte>>): Outcome {
    var r := OnDatagram(c, now, d);
    var s := SendMessages(Emptied(r.conn), now, ms);
    Outcome(s.conn, r.out + s.out)
  }

  function Arrived(c: Conn, now: nat, d: seq<byte>): seq<byte> { OnDatagram(c, now, d).conn.rx.delivered }

  // ---- Server ----

  lemma ResponsesGrow(a: seq<Response>, b: seq<Response>, c: seq<Response>)
    requires a <= b <= c
    ensures EncodeResponses(c[|a|..]) == EncodeResponses(b[|a|..]) + EncodeResponses(c[|b|..])
  {
    assert c[|a|..] == b[|a|..] + c[|b|..];
  }

  class RpcServer<S> {
    const conn: Connection
    const reader: FrameReader
    const handler: Handler<S>
    var app: S
    var seen: map<nat, Response>
    var executions: nat
    ghost var frames: seq<seq<byte>>
    ghost var log: seq<Execution<S>>
    ghost var answers: seq<Response>

    ghost function View(): Server<S>
      reads this, reader
    {
      Server(reader.buf, seen, executions, app, frames, log, answers)
    }

    constructor (conn: Connection, handler: Handler<S>, app: S)
      ensures View() == NewServer(app) && this.conn == conn && this.handler == handler && fresh(reader)
    {
      this.conn, this.handler, this.app := conn, handler, app;
      reader := new FrameReader();
      seen, executions := map[], 0;
      frames, log, answers := [], [], [];
    }

    /** Answers one request: from the table if its id was seen, else by running the handler. */
    method Respond(request: Request) returns (response: Response)
      modifies this
      ensures View() == HandleRequest(handler, old(View()), request)
      ensures answers == old(answers) + [response]
    {
      if request.id in seen {
        response := seen[request.id];
      } else {
        var (app', ok, payload) := handler(app, request.method_, request.payload);
        response := Response(request.id, ok, payload);
        log := log + [Execution(request, app, response)];
        app, executions, seen := app', executions + 1, seen[request.id := response];
      }
      answers := answers + [response];
    }

    /** The encoded answers given since `before`. */
    ghost function AnswersSince(before: seq<Response>): seq<seq<byte>>
      requires before <= answers
      reads this
    {
      EncodeResponses(answers[|before|..])
    }

    /** One drained frame: a malformed request is dropped. */
    method HandleOne(time: nat, bytes: seq<byte>) returns (out: seq<seq<byte>>)
      modifies this, conn
      ensures View() == HandleFrame(handler, old(View()), bytes)
      ensures old(answers) <= answers && Sent(old(conn.View()), time, AnswersSince(old(answers)), conn.View(), out)
    {
      frames := frames + [bytes];
      match DecodeRequest(bytes) {
        case None =>
          assert answers[|old(answers)|..] == [];
          out := [];
        case Some(request) =>
          var response := Respond(request);
          assert EncodeResponses(answers[|old(answers)|..]) == [EncodeResponse(response)];
          SendOne(conn.View(), time, EncodeResponse(response));
          out := conn.Send(time, FrameMsg(EncodeResponse(response)));
      }
    }

    /** The loop over the drained frames. */
    method HandleAll(time: nat, drained: seq<seq<byte>>) returns (out: seq<seq<byte>>)
      modifies this, conn
      ensures View() == HandleFrames(handler, old(View()), drained)
      ensures old(answers) <= answers && Sent(old(conn.View()), time, AnswersSince(old(answers)), conn.View(), out)
    {
      out := [];
      var i := 0;
      assert answers[|old(answers)|..] == [] && drained[0..] == drained;
      while i < |drained|
        invariant 0 <= i <= |drained|
        invariant HandleFrames(handler, View(), drained[i..]) == HandleFrames(handler, old(View()), drained)
        invariant old(answers) <= answers && Sent(old(conn.View()), time, AnswersSince(old(answers)), conn.View(), out)
      {
        ghost var c, given, ms := conn.View(), answers, AnswersSince(old(answers));
        var more := HandleOne(time, drained[i]);
        ResponsesGrow(old(answers), given, answers);
        SentMore(old(conn.View()), time, ms, c, out, AnswersSince(given), conn.View(), more);
        out := out + more;
        i := i + 1;
      }
    }

    /** `on_datagram`. */
    method OnDatagram(time: nat, datagram: seq<byte>) returns (out: seq<seq<byte>>)
      modifies this, reader, conn, conn.rto
      ensures View() == ServerConsume(handler, old(View()), Arrived(old(conn.View()), time, datagram))
      ensures old(answers) <= answers
      ensures var r := Answering(old(conn.View()), time, datagram, AnswersSince(old(answers)));
              conn.View() == r.conn && out == Wire(r.out)
    {
      out := conn.OnDatagram(time, datagram);
      var bytes := conn.Recv();
      ghost var c1 := conn.View();
      reader.Feed(bytes);
      var drained := reader.DrainFrames();
      var more := HandleAll(time, drained);
      WireConcat(Transport.OnDatagram(old(conn.View()), time, datagram).out,
                 SendMessages(c1, time, AnswersSince(old(answers))).out);
      out := out + more;
    }

    method OnTick(time: nat) returns (out: seq<seq<byte>>)
      modifies conn, conn.rto
      ensures conn.View() == Transport.OnTick(old(conn.View()), time).conn
      ensures out == Wire(Transport.OnTick(old(conn.View()), time).out)
    {
      out := conn.OnTick(time);
    }
  }

  // ---- Client ----

  lemma {:induction false} RetriesSnoc(c: Client, now: nat, order: seq<nat>, id: nat)
    ensures Retries(c, now, order + [id]) == Retry(Retries(c, now, order), now, id)
    decreases |order|
  {
    if order == [] {
      assert (order + [id])[1..] == [];
    } else {
      assert (order + [id])[1..] == order[1..] + [id];
      RetriesSnoc(Retry(c, now, order[0]), now, order[1..], id);
    }
  }

  lemma RequestsGrow(a: seq<Request>, b: seq<Request>, c: seq<Request>)
    requires a <= b <= c
    ensures EncodeRequests(c[|a|..]) == EncodeRequests(b[|a|..]) + EncodeRequests(c[|b|..])
  {
    assert c[|a|..] == b[|a|..] + c[|b|..];
  }

  lemma NothingSent(c: Conn, time: nat, sends: seq<Request>)
    ensures Sent(c, time, EncodeRequests(sends[|sends|..]), c, [])
  {}

  lemma RequestSent(sends: seq<Request>, r: Request)
    ensures EncodeRequests((sends + [r])[|sends|..]) == [EncodeRequest(r)]
  {}

  /** The call is overdue and has no attempt left. */
  predicate Exhausted(c: Client, now: nat, id: nat)
    requires id in c.pending
  {
    SatSub(now, c.pending[id].sentAt) >= c.retryDeadline && c.pending[id].attempts + 1 > c.maxAttempts
  }

  /** Moves the `late` calls from pending to failed. */
  function GiveUp(c: Client, late: seq<nat>): Client {
    c.(pending := c.pending - (set id | id in late), failed := c.failed + late)
  }

  /** One more attempt counted. */
  function Bumped(c: Client, id: nat): Client
    requires id in c.pending
  {
    c.(pending := c.pending[id := c.pending[id].(attempts := c.pending[id].attempts + 1)])
  }

  lemma NotDueStays(c: Client, now: nat, id: nat)
    requires id in c.pending && SatSub(now, c.pending[id].sentAt) < c.retryDeadline
    ensures !Exhausted(c, now, id) && Retry(c, now, id) == c
  {}

  lemma BumpChangesOne(c: Client, id: nat)
    requires id in c.pending
    ensures Bumped(c, id).pending - {id} == c.pending - {id} && Bumped(c, id).pending.Keys == c.pending.Keys
  {}

  /** The client after an overdue call that has attempts left is sent again. */
  function Resent(c: Client, now: nat, id: nat): Client
    requires id in c.pending
  {
    var p := c.pending[id];
    c.(pending := c.pending[id := p.(sentAt := now)], sends := c.sends + [p.request])
  }

  lemma ResendIsRetry(c: Client, now: nat, id: nat)
    requires id in c.pending && SatSub(now, c.pending[id].sentAt) >= c.retryDeadline && !Exhausted(c, now, id)
    ensures Resent(Bumped(c, id), now, id) == Retry(c, now, id)
    ensures Resent(Bumped(c, id), now, id).pending.Keys == c.pending.Keys
  {
    var p := c.pending[id];
    assert c.pending[id := p.(attempts := p.attempts + 1)][id := Pending(p.request, now, p.attempts + 1)]
        == c.pending[id := Pending(p.request, now, p.attempts + 1)];
  }

  /** Giving the exhausted calls up after the loop comes to the same as giving each up when it is visited. */
  lemma GiveUpLater(v: Client, now: nat, id: nat, late: seq<nat>, v': Client)
    requires id in v.pending && id !in late
    requires Exhausted(v, now, id) ==> v' == v.(pending := v'.pending) && v'.pending - {id} == v.pending - {id}
    requires !Exhausted(v, now, id) ==> v' == Retry(v, now, id)
    ensures Retry(GiveUp(v, late), now, id) == GiveUp(v', if Exhausted(v, now, id) then late + [id] else late)
  {
    var gone := set x | x in late;
    var w := GiveUp(v, late);
    assert id in w.pending && w.pending[id] == v.pending[id];
    if Exhausted(v, now, id) {
      assert (set x | x in late + [id]) == gone + {id};
      assert w.pending - {id} == v'.pending - (gone + {id}) by {
        assert v.pending - gone - {id} == (v.pending - {id}) - gone;
        assert v'.pending - (gone + {id}) == (v'.pending - {id}) - gone;
      }
      assert w.failed + [id] == v'.failed + (late + [id]);
    } else if SatSub(now, v.pending[id].sentAt) >= v.retryDeadline {
      assert Retry(w, now, id).pending == v'.pending - gone;
    }
  }

  /** Everything a connection sends when a tick comes and `ms` are sent after it. */
  function Ticking(c: Conn, now: nat, ms: seq<seq<byte>>): Outcome {
    var r := OnTick(c, now);
    var s := SendMessages(r.conn, now, ms);
    Outcome(s.conn, r.out + s.out)
  }

  lemma VisitOne(order: seq<nat>, ids: set<nat>, todo: set<nat>, id: nat)
    requires Enumerates(order, ids - todo) && id in todo && todo <= ids
    ensures Enumerates(order + [id], ids - (todo - {id}))
  {}

  class RpcClient {
    const conn: Connection
    const reader: FrameReader
    const retryDeadline: nat
    const maxAttempts: nat
    var nextId: nat
    var pending: map<nat, Pending>
    var completed: seq<(nat, Response)>
    var failed: seq<nat>
    ghost var frames: seq<seq<byte>>
    ghost var calls: seq<Request>
    ghost var sends: seq<Request>
    ghost var polled: seq<(nat, Response)>
    ghost var polledFailed: seq<nat>

    ghost function View(): Client
      reads this, reader
    {
      Client(reader.buf, nextId, pending, completed, failed, retryDeadline, maxAttempts, frames, calls, sends, polled,
             polledFailed)
    }

    /** The encoded requests sent since `before`. */
    ghost function SendsSince(before: seq<Request>): seq<seq<byte>>
      requires before <= sends
      reads this
    {
      EncodeRequests(sends[|before|..])
    }

    constructor (conn: Connection, retryDeadline: nat, maxAttempts: nat)
      ensures View() == NewClient(retryDeadline, maxAttempts) && this.conn == conn && fresh(reader)
    {
      this.conn, this.retryDeadline, this.maxAttempts := conn, retryDeadline, maxAttempts;
      reader := new FrameReader();
      nextId, pending, completed, failed := 0, map[], [], [];
      frames, calls, sends, polled, polledFailed := [], [], [], [], [];
    }

    method Transmit(time: nat, request: Request) returns (out: seq<seq<byte>>)
      modifies this`sends, conn
      ensures View() == old(View()).(sends := old(sends) + [request])
      ensures Sent(old(conn.View()), time, [EncodeRequest(request)], conn.View(), out)
    {
      SendOne(conn.View(), time, EncodeRequest(request));
      out := conn.Send(time, FrameMsg(EncodeRequest(request)));
      sends := sends + [request];
    }

    method Call(time: nat, method_: byte, payload: seq<byte>) returns (id: nat, out: seq<seq<byte>>)
      modifies this, conn
      ensures id == old(nextId) && View() == Rpc.Call(old(View()), time, method_, payload)
      ensures Sent(old(conn.View()), time, [EncodeRequest(Request(id, method_, payload))], conn.View(), out)
    {
      id := nextId;
      nextId := nextId + 1;
      var request := Request(id, method_, payload);
      out := Transmit(time, request);
      Register(time, request);
    }

    method Register(time: nat, request: Request)
      modifies this`pending, this`calls
      ensures View() == old(View()).(pending := old(pending)[request.id := Pending(request, time, 1)],
                                     calls := old(calls) + [request])
    {
      pending := pending[request.id := Pending(request, time, 1)];
      calls := calls + [request];
    }

    /** One drained frame: an answer to a call that is not pending is ignored. */
    method AcceptOne(bytes: seq<byte>)
      modifies this
      ensures View() == ClientFrame(old(View()), bytes)
    {
      frames := frames + [bytes];
      match DecodeResponse(bytes) {
        case None =>
        case Some(response) =>
          if response.id in pending {
            pending := pending - {response.id};
            completed := completed + [(response.id, response)];
          }
      }
    }

    /** `on_datagram`. */
    method OnDatagram(time: nat, datagram: seq<byte>) returns (out: seq<seq<byte>>)
      modifies this, reader, conn, conn.rto
      ensures View() == ClientConsume(old(View()), Arrived(old(conn.View()), time, datagram))
      ensures conn.View() == Emptied(Transport.OnDatagram(old(conn.View()), time, datagram).conn)
      ensures out == Wire(Transport.OnDatagram(old(conn.View()), time, datagram).out)
    {
      out := conn.OnDatagram(time, datagram);
      var bytes := conn.Recv();
      reader.Feed(bytes);
      var drained := reader.DrainFrames();
      AcceptAll(drained);
    }

    method AcceptAll(drained: seq<seq<byte>>)
      modifies this
      ensures View() == ClientFrames(old(View()), drained)
    {
      var i := 0;
      assert drained[0..] == drained;
      while i < |drained|
        invariant 0 <= i <= |drained|
        invariant ClientFrames(View(), drained[i..]) == ClientFrames(old(View()), drained)
      {
        AcceptOne(drained[i]);
        i := i + 1;
      }
    }

    method Resend(time: nat, id: nat) returns (out: seq<seq<byte>>)
      requires id in pending
      modifies this`pending, this`sends, conn
      ensures View() == Resent(old(View()), time, id) && old(sends) <= sends
      ensures Sent(old(conn.View()), time, SendsSince(old(sends)), conn.View(), out)
    {
      var call := pending[id];
      pending := pending[id := call.(sentAt := time)];
      out := Transmit(time, call.request);
      RequestSent(old(sends), call.request);
    }

    /** Resends one overdue call; `late` tells that it has used up its attempts instead. */
    method RetryOne(time: nat, id: nat) returns (out: seq<seq<byte>>, late: bool)
      requires id in pending
      modifies this, conn
      ensures late == Exhausted(old(View()), time, id) && pending.Keys == old(pending).Keys
      ensures late ==> View() == old(View()).(pending := pending) && pending - {id} == old(pending) - {id}
      ensures !late ==> View() == Retry(old(View()), time, id)
      ensures old(sends) <= sends && Sent(old(conn.View()), time, SendsSince(old(sends)), conn.View(), out)
    {
      ghost var v := View();
      out, late := [], false;
      var call := pending[id];
      NothingSent(conn.View(), time, sends);
      if SatSub(time, call.sentAt) < retryDeadline {
        NotDueStays(v, time, id);
        return;
      }
      call := call.(attempts := call.attempts + 1);
      pending := pending[id := call];
      assert View() == Bumped(v, id);
      if call.attempts > maxAttempts {
        late := true;
        BumpChangesOne(v, id);
        return;
      }
      out := Resend(time, id);
      ResendIsRetry(v, time, id);
    }

    /** The loop over the pending calls, in whatever order the table yields them. */
    method RetryAll(time: nat) returns (out: seq<seq<byte>>, late: seq<nat>, ghost order: seq<nat>)
      modifies this, conn
      ensures Enumerates(order, old(pending).Keys)
      ensures GiveUp(View(), late) == Retries(old(View()), time, order)
      ensures old(sends) <= sends && Sent(old(conn.View()), time, SendsSince(old(sends)), conn.View(), out)
    {
      out, late, order := [], [], [];
      var todo := pending.Keys;
      assert sends[|sends|..] == [];
      assert GiveUp(View(), []) == View();
      while todo != {}
        invariant pending.Keys == old(pending).Keys && todo <= old(pending).Keys
        invariant Enumerates(order, old(pending).Keys - todo) && forall x :: x in late ==> x in order
        invariant GiveUp(View(), late) == Retries(old(View()), time, order)
        invariant old(sends) <= sends && Sent(old(conn.View()), time, SendsSince(old(sends)), conn.View(), out)
      {
        var id :| id in todo;
        ghost var v, c, given, ms := View(), conn.View(), sends, SendsSince(old(sends));
        var more, exhausted := RetryOne(time, id);
        RequestsGrow(old(sends), given, sends);
        SentMore(old(conn.View()), time, ms, c, out, SendsSince(given), conn.View(), more);
        RetriesSnoc(old(View()), time, order, id);
        GiveUpLater(v, time, id, late, View());
        VisitOne(order, old(pending).Keys, todo, id);
        out, order := out + more, order + [id];
        if exhausted { late := late + [id]; }
        todo := todo - {id};
      }
    }

    /** `on_tick`. */
    method OnTick(time: nat) returns (out: seq<seq<byte>>, ghost order: seq<nat>)
      modifies this, conn, conn.rto
      ensures Enumerates(order, old(pending).Keys) && View() == Retries(old(View()), time, order)
      ensures old(sends) <= sends
      ensures var r := Ticking(old(conn.View()), time, SendsSince(old(sends)));
              conn.View() == r.conn && out == Wire(r.out)
    {
      out := conn.OnTick(time);
      ghost var c1 := conn.View();
      var more, late;
      more, late, order := RetryAll(time);
      WireConcat(Transport.OnTick(old(conn.View()), time).out, SendMessages(c1, time, SendsSince(old(sends))).out);
      out := out + more;
      FailAll(late);
    }

    method FailAll(late: seq<nat>)
      modifies this`pending, this`failed
      ensures View() == GiveUp(old(View()), late)
    {
      assert late[..0] == [] && late[..|late|] == late;
      for i := 0 to |late|
        invariant View() == GiveUp(old(View()), late[..i])
      {
        assert late[..i + 1] == late[..i] + [late[i]];
        pending := pending - {late[i]};
        failed := failed + [late[i]];
      }
    }

    method PollCompleted() returns (done: seq<(nat, Response)>)
      modifies this
      ensures View() == Rpc.PollCompleted(old(View())) && done == old(completed)
    {
      done := completed;
      completed, polled := [], polled + done;
    }

    method PollFailed() returns (ids: seq<nat>)
      modifies this
      ensures View() == Rpc.PollFailed(old(View())) && ids == old(failed)
    {
      ids := failed;
      failed, polledFailed := [], polledFailed + ids;
    }
  }
}
