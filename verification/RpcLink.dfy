/**
 An RPC client and an RPC server joined by two byte streams, each side having read a prefix of what the other
 wrote. Nothing here depends on how the streams are carried.
 */
module RpcLink {
  import opened Bytes
  import opened Framing
  import opened Messages
  import opened Rpc

  ghost predicate RpcOk<S>(h: Handler<S>, c: Client, s: Server<S>) {
    && ClientOk(c) && ServerOk(h, s) && LogIssued(s, c.calls) && DoneFrom(c, s.seen)
    && AnswersMatch(s) && Settled(c) && AllSent(c)
  }

  /** What each side wrote and what each side read, byte for byte. */
  datatype Streams = Streams(up: seq<byte>, upRead: seq<byte>, down: seq<byte>, downRead: seq<byte>)

  ghost predicate UpOk<S>(c: Client, s: Server<S>, t: Streams) {
    t.up == FrameAll(EncodeRequests(c.sends)) && t.upRead == FrameAll(s.frames) + s.reader && !HasFrame(s.reader)
  }

  ghost predicate DownOk<S>(c: Client, s: Server<S>, t: Streams) {
    t.down == FrameAll(EncodeResponses(s.answers)) && t.downRead == FrameAll(c.frames) + c.reader && !HasFrame(c.reader)
  }

  ghost predicate Linked<S>(h: Handler<S>, c: Client, s: Server<S>, t: Streams) {
    RpcOk(h, c, s) && UpOk(c, s, t) && DownOk(c, s, t)
  }

  // ---- Reading one more chunk ----

  /** Draining one more chunk of a stream that frames `ms` yields the next of `ms`. */
  lemma NextFrames(frames: seq<seq<byte>>, reader: seq<byte>, chunk: seq<byte>, ms: seq<seq<byte>>)
    requires FrameAll(frames) + reader + chunk <= FrameAll(ms) && |FrameAll(ms)| < U32_LIMIT
    ensures var d := Drain(reader + chunk);
            FrameAll(frames + d.frames) + d.rest == FrameAll(frames) + reader + chunk && frames + d.frames <= ms
            && !HasFrame(d.rest)
  {
    var d := Drain(reader + chunk);
    DrainConserves(reader + chunk);
    FrameAllConcat(frames, d.frames);
    Assoc(FrameAll(frames), FrameAll(d.frames), d.rest);
    Assoc(FrameAll(frames), reader, chunk);
    FramesPrefix(frames + d.frames, d.rest, ms);
  }

  lemma {:induction false} FrameAllLength(ms: seq<seq<byte>>)
    ensures |ms| <= |FrameAll(ms)|
    decreases |ms|
  {
    if ms != [] { FrameAllLength(ms[1..]); }
  }

  lemma CallsFit(c: Client)
    requires ClientOk(c) && |FrameAll(EncodeRequests(c.sends))| < U32_LIMIT
    ensures |c.calls| < U64_LIMIT
  {
    FrameAllLength(EncodeRequests(c.sends));
  }

  /** The next frames read by the server are requests as they were issued. */
  lemma FramesIssued(c: Client, before: seq<seq<byte>>, frames: seq<seq<byte>>)
    requires ClientOk(c) && before + frames <= EncodeRequests(c.sends)
    ensures forall i :: 0 <= i < |frames| ==> Issued(frames[i], c.calls)
  {
    forall i | 0 <= i < |frames| ensures Issued(frames[i], c.calls) {
      var r := c.sends[|before| + i];
      assert (before + frames)[|before| + i] == frames[i] == EncodeRequest(r);
      assert c.calls[r.id].id == r.id;
    }
  }

  /** The next frames read by the client are answers from the server's table. */
  lemma FramesAnswered<S>(h: Handler<S>, s: Server<S>, calls: seq<Request>, before: seq<seq<byte>>,
                          frames: seq<seq<byte>>)
    requires ServerOk(h, s) && LogIssued(s, calls) && |calls| < U64_LIMIT
    requires before + frames <= EncodeResponses(s.answers)
    ensures forall i :: 0 <= i < |frames| ==> Answered(frames[i], s.seen)
  {
    forall i | 0 <= i < |frames| ensures Answered(frames[i], s.seen) {
      var r := s.answers[|before| + i];
      assert (before + frames)[|before| + i] == frames[i] == EncodeResponse(r);
      assert Logged(s, r.id);
    }
  }

  lemma DoneStays<S>(c: Client, s: Server<S>, s': Server<S>)
    requires DoneFrom(c, s.seen) && SeenGrows(s, s')
    ensures DoneFrom(c, s'.seen)
  {}

  lemma ServerReads<S>(h: Handler<S>, c: Client, s: Server<S>, frames: seq<seq<byte>>, rest: seq<byte>)
    requires RpcOk(h, c, s) && |c.calls| < U64_LIMIT && s.frames + frames <= EncodeRequests(c.sends)
    ensures var s' := HandleFrames(h, s.(reader := rest), frames);
            RpcOk(h, c, s') && SeenGrows(s, s') && s'.frames == s.frames + frames && s'.reader == rest
  {
    var s1 := s.(reader := rest);
    HistoryOnly(h, s, s1);
    FramesIssued(c, s.frames, frames);
    HandleFramesKeep(h, s1, frames);
    HandleFramesIssued(h, s1, frames, c.calls);
    RequestsAnswered(h, s1, frames);
    AskedConcat(s.frames, frames);
    DoneStays(c, s, HandleFrames(h, s1, frames));
  }

  lemma ClientReads<S>(h: Handler<S>, c: Client, s: Server<S>, frames: seq<seq<byte>>, rest: seq<byte>)
    requires RpcOk(h, c, s) && |c.calls| < U64_LIMIT && c.frames + frames <= EncodeResponses(s.answers)
    ensures var c' := ClientFrames(c.(reader := rest), frames);
            RpcOk(h, c', s) && c'.sends == c.sends && c'.frames == c.frames + frames && c'.reader == rest
  {
    var c1 := c.(reader := rest);
    SameCalls(c, c1);
    FramesAnswered(h, s, c.calls, c.frames, frames);
    ClientFramesKeep(c1, frames, s.seen);
    AnsweredIds(h, s, c.calls, frames);
    StaySettled(c, c1);
    ClientFramesSettle(c1, frames);
  }

  /** Answers are for calls that were issued. */
  lemma AnsweredIds<S>(h: Handler<S>, s: Server<S>, calls: seq<Request>, frames: seq<seq<byte>>)
    requires ServerOk(h, s) && LogIssued(s, calls) && forall i :: 0 <= i < |frames| ==> Answered(frames[i], s.seen)
    ensures forall i :: 0 <= i < |frames| && DecodeResponse(frames[i]).Some? ==>
              DecodeResponse(frames[i]).value.id < |calls|
  {
    forall i | 0 <= i < |frames| && DecodeResponse(frames[i]).Some?
      ensures DecodeResponse(frames[i]).value.id < |calls|
    {
      var id: nat :| id in s.seen && s.seen[id].id == id && id < U64_LIMIT && frames[i] == EncodeResponse(s.seen[id]);
      ResponseRoundTrip(s.seen[id]);
      assert Logged(s, id);
    }
  }

  /** Only the calls, the sends and where each call stands matter to the client's invariant. */
  lemma SameCalls(c: Client, c': Client)
    requires ClientOk(c) && c'.calls == c.calls && c'.sends == c.sends && c'.nextId == c.nextId
    requires c'.pending == c.pending
    requires c'.Done() == c.Done() && c'.GivenUp() == c.GivenUp()
    ensures ClientOk(c')
  {
    forall id: nat | id < c'.nextId ensures InOnePlace(c', id) { assert InOnePlace(c, id); }
  }

  // ---- Each step keeps the link ----

  lemma ResponsesSplit(a: seq<Response>, b: seq<Response>)
    requires a <= b
    ensures FrameAll(EncodeResponses(b)) == FrameAll(EncodeResponses(a)) + FrameAll(EncodeResponses(b[|a|..]))
  {
    assert EncodeResponses(b) == EncodeResponses(a) + EncodeResponses(b[|a|..]);
    FrameAllConcat(EncodeResponses(a), EncodeResponses(b[|a|..]));
  }

  lemma RequestsSplit(a: seq<Request>, b: seq<Request>)
    requires a <= b
    ensures FrameAll(EncodeRequests(b)) == FrameAll(EncodeRequests(a)) + FrameAll(EncodeRequests(b[|a|..]))
  {
    assert EncodeRequests(b) == EncodeRequests(a) + EncodeRequests(b[|a|..]);
    FrameAllConcat(EncodeRequests(a), EncodeRequests(b[|a|..]));
  }

  lemma NewLinked<S>(h: Handler<S>, c: Client, app: S)
    requires c == NewClient(c.retryDeadline, c.maxAttempts)
    ensures Linked(h, c, NewServer(app), Streams([], [], [], []))
  {}

  /** The server takes a chunk, and writes one answer for each request it completes. */
  lemma ServerTakes<S>(h: Handler<S>, c: Client, s: Server<S>, t: Streams, chunk: seq<byte>)
    requires Linked(h, c, s, t) && t.upRead + chunk <= t.up && |t.up| < U32_LIMIT
    ensures var s' := ServerConsume(h, s, chunk);
            && SeenGrows(s, s')
            && Linked(h, c, s', t.(upRead := t.upRead + chunk,
                                   down := t.down + FrameAll(EncodeResponses(s'.answers[|s.answers|..]))))
  {
    CallsFit(c);
    NextFrames(s.frames, s.reader, chunk, EncodeRequests(c.sends));
    var d := Drain(s.reader + chunk);
    ServerReads(h, c, s, d.frames, d.rest);
    ResponsesSplit(s.answers, ServerConsume(h, s, chunk).answers);
  }

  lemma {:induction false} ClientTakes<S>(h: Handler<S>, c: Client, s: Server<S>, t: Streams, chunk: seq<byte>)
    requires Linked(h, c, s, t) && t.downRead + chunk <= t.down && |t.down| < U32_LIMIT && |t.up| < U32_LIMIT
    ensures Linked(h, ClientConsume(c, chunk), s, t.(downRead := t.downRead + chunk))
  {
    CallsFit(c);
    NextFrames(c.frames, c.reader, chunk, EncodeResponses(s.answers));
    var d := Drain(c.reader + chunk);
    ClientReads(h, c, s, d.frames, d.rest);
  }

  lemma ClientChanges<S>(h: Handler<S>, c: Client, c': Client, s: Server<S>)
    requires RpcOk(h, c, s) && ClientOk(c') && Settled(c') && AllSent(c')
    requires c.calls <= c'.calls && c'.Done() == c.Done()
    ensures RpcOk(h, c', s)
  {
    IssuedStay(s, c.calls, c'.calls);
  }

  lemma IssuedStay<S>(s: Server<S>, calls: seq<Request>, calls': seq<Request>)
    requires LogIssued(s, calls) && calls <= calls'
    ensures LogIssued(s, calls')
  {}

  /** The client writes requests and changes nothing the server depends on. */
  lemma ClientWrites<S>(h: Handler<S>, c: Client, c': Client, s: Server<S>, t: Streams)
    requires Linked(h, c, s, t) && RpcOk(h, c', s) && c.sends <= c'.sends
    requires c'.frames == c.frames && c'.reader == c.reader
    ensures Linked(h, c', s, t.(up := t.up + FrameAll(EncodeRequests(c'.sends[|c.sends|..]))))
  {
    RequestsSplit(c.sends, c'.sends);
  }

  lemma ClientCallsLinked<S>(h: Handler<S>, c: Client, s: Server<S>, t: Streams, now: nat, method_: byte,
                             payload: seq<byte>)
    requires Linked(h, c, s, t)
    ensures Linked(h, Call(c, now, method_, payload), s,
                   t.(up := t.up + FrameAll([EncodeRequest(Request(c.nextId, method_, payload))])))
  {
    var c' := Call(c, now, method_, payload);
    CallKeepsRpc(h, c, s, now, method_, payload);
    CallWrites(c, now, method_, payload);
    ClientWrites(h, c, c', s, t);
  }

  lemma CallKeepsRpc<S>(h: Handler<S>, c: Client, s: Server<S>, now: nat, method_: byte, payload: seq<byte>)
    requires RpcOk(h, c, s)
    ensures RpcOk(h, Call(c, now, method_, payload), s)
  {
    var c' := Call(c, now, method_, payload);
    CallKeeps(c, now, method_, payload);
    StaySettled(c, c');
    CallSends(c, now, method_, payload);
    ClientChanges(h, c, c', s);
  }

  lemma CallWrites(c: Client, now: nat, method_: byte, payload: seq<byte>)
    ensures EncodeRequests(Call(c, now, method_, payload).sends[|c.sends|..])
              == [EncodeRequest(Request(c.nextId, method_, payload))]
  {}

  lemma ClientRetriesLinked<S>(h: Handler<S>, c: Client, s: Server<S>, t: Streams, now: nat, order: seq<nat>)
    requires Linked(h, c, s, t)
    ensures var c' := Retries(c, now, order);
            c.sends <= c'.sends && Linked(h, c', s, t.(up := t.up + FrameAll(EncodeRequests(c'.sends[|c.sends|..]))))
  {
    RetriesKeep(c, now, order);
    RetriesPending(c, now, order);
    StaySettled(c, Retries(c, now, order));
    ClientChanges(h, c, Retries(c, now, order), s);
    ClientWrites(h, c, Retries(c, now, order), s, t);
  }

  lemma PollsLinked<S>(h: Handler<S>, c: Client, s: Server<S>, t: Streams)
    requires Linked(h, c, s, t)
    ensures Linked(h, PollCompleted(c), s, t) && Linked(h, PollFailed(c), s, t)
  {
    StaySettled(c, PollCompleted(c));
    StaySettled(c, PollFailed(c));
    SameCalls(c, PollCompleted(c));
    SameCalls(c, PollFailed(c));
    assert PollCompleted(c).Done() == c.Done();
  }

  // ---- What the link means ----

  /** Execution `i` is the one run of the handler for `call`, and `r` is what it answered. */
  ghost predicate IsExecutionOf<S>(h: Handler<S>, s: Server<S>, i: nat, call: Request, r: Response) {
    && i < |s.log| && s.log[i].request == call && s.log[i].response == r && r.id == call.id
    && h(s.log[i].before, call.method_, call.payload) == (StateAfter(s, i), r.ok, r.payload)
    && forall j :: 0 <= j < |s.log| && s.log[j].request.id == call.id ==> j == i
  }

  /** The answered call `d` carries the result of the one execution of its own method and payload. */
  ghost predicate AnsweredByExecution<S>(h: Handler<S>, c: Client, s: Server<S>, d: nat) {
    && d < |c.Done()| && c.Done()[d].0 < |c.calls|
    && exists i :: IsExecutionOf(h, s, i, c.calls[c.Done()[d].0], c.Done()[d].1)
  }

  lemma OneExecution<S>(h: Handler<S>, c: Client, s: Server<S>, i: nat)
    requires RpcOk(h, c, s) && i < |s.log|
    ensures s.log[i].request.id < |c.calls|
    ensures IsExecutionOf(h, s, i, c.calls[s.log[i].request.id], s.seen[s.log[i].request.id])
  {}

  lemma CompletedByExecution<S>(h: Handler<S>, c: Client, s: Server<S>, d: nat)
    requires RpcOk(h, c, s) && d < |c.Done()|
    ensures AnsweredByExecution(h, c, s, d)
  {
    var id := c.Done()[d].0;
    assert Logged(s, id);
    var i :| 0 <= i < |s.log| && s.log[i].request.id == id;
    OneExecution(h, c, s, i);
  }
}
