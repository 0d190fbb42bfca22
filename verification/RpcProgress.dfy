/**
 What the RPC stack gets done: every request that reaches the server is answered, every answer that reaches the
 client settles its call, and when both streams have been read to their ends no call is left waiting.
 */
module RpcProgress {
  import opened Bytes
  import opened Framing
  import opened Messages
  import opened Rpc
  import opened RpcLink
  import opened RpcStack

  // ---- Which requests and answers have been read ----

  lemma RequestsRead<S>(h: Handler<S>, k: Stack<S>)
    requires StackOk(h, k)
    ensures k.server.frames <= EncodeRequests(k.client.sends) && |k.client.calls| < U64_LIMIT
  {
    TakenIsPrefix(k.sys);
    FramesPrefix(k.server.frames, k.server.reader, EncodeRequests(k.client.sends));
    CallsFit(k.client);
  }

  lemma AnswersRead<S>(h: Handler<S>, k: Stack<S>)
    requires StackOk(h, k)
    ensures k.client.frames <= EncodeResponses(k.server.answers)
  {
    TakenIsPrefix(k.sys);
    FramesPrefix(k.client.frames, k.client.reader, EncodeResponses(k.server.answers));
  }

  /** A stream of whole frames read to its end leaves nothing unread in the reader. */
  lemma ReadToTheEnd(frames: seq<seq<byte>>, reader: seq<byte>, ms: seq<seq<byte>>)
    requires FrameAll(frames) + reader == FrameAll(ms) && frames <= ms && !HasFrame(reader)
    requires |FrameAll(ms)| < U32_LIMIT
    ensures frames == ms
  {
    var rest := ms[|frames|..];
    assert ms == frames + rest;
    FrameAllConcat(frames, rest);
    assert FrameAll(ms)[|FrameAll(frames)|..] == reader == FrameAll(rest);
    if rest != [] { StartsWithFrame(rest); }
  }

  lemma StartsWithFrame(ms: seq<seq<byte>>)
    requires ms != [] && |FrameAll(ms)| < U32_LIMIT
    ensures HasFrame(FrameAll(ms))
  {
    var all := FrameAll(ms);
    Le32RoundTrip(|ms[0]|);
    assert all[..LEN_PREFIX] == Le32(|ms[0]|);
  }

  /** Frames of issued requests ask for their ids, one each. */
  lemma {:induction false} AskedOfRequests(rs: seq<Request>)
    requires forall i :: 0 <= i < |rs| ==> rs[i].id < U64_LIMIT
    ensures |Asked(EncodeRequests(rs))| == |rs|
    ensures forall i :: 0 <= i < |rs| ==> Asked(EncodeRequests(rs))[i] == rs[i].id
    decreases |rs|
  {
    if rs != [] {
      RequestRoundTrip(rs[0]);
      assert EncodeRequests(rs)[1..] == EncodeRequests(rs[1..]);
      AskedOfRequests(rs[1..]);
    }
  }

  // ---- Runs ----

  /** The answers given are to the requests read, one for one and in the same order. */
  ghost predicate AnsweredInOrder(answers: seq<Response>, sends: seq<Request>, n: nat) {
    |answers| == n <= |sends| && forall i :: 0 <= i < n ==> answers[i].id == sends[i].id
  }

  lemma ReadIsAnswered<S>(h: Handler<S>, k: Stack<S>)
    requires StackOk(h, k)
    ensures AnsweredInOrder(k.server.answers, k.client.sends, |k.server.frames|)
  {
    RequestsRead(h, k);
    AskedMeans(k.server.frames, k.server.answers, k.client.sends);
  }

  lemma AskedMeans(frames: seq<seq<byte>>, answers: seq<Response>, sends: seq<Request>)
    requires frames <= EncodeRequests(sends) && AnswerIds(answers) == Asked(frames)
    requires forall i :: 0 <= i < |sends| ==> sends[i].id < U64_LIMIT
    ensures AnsweredInOrder(answers, sends, |frames|)
  {
    var rs := sends[..|frames|];
    assert frames == EncodeRequests(rs);
    AskedOfRequests(rs);
    forall i | 0 <= i < |frames| ensures answers[i].id == sends[i].id { assert AnswerIds(answers)[i] == rs[i].id; }
  }

  /** In every run the server has answered each request it has read, in the order in which the client sent them: the
      first copy of a request by executing it, every repetition by the same answer again. */
  lemma EveryRequestAnswered<S(!new)>(h: Handler<S>, app: S, t: seq<Stack<S>>, n: nat)
    requires IsStackRun(h, app, t) && n < |t|
    ensures AnsweredInOrder(t[n].server.answers, t[n].client.sends, |t[n].server.frames|)
    ensures AnswersOk(t[n].server.answers, t[n].server.seen)
  {
    StackRunKeeps(h, app, t, n);
    ReadIsAnswered(h, t[n]);
  }

  lemma AnswerSettles<S>(h: Handler<S>, k: Stack<S>, i: nat)
    requires StackOk(h, k) && i < |k.client.frames|
    ensures i < |k.server.answers| && k.server.answers[i].id !in k.client.pending
  {
    RequestsRead(h, k);
    AnswersRead(h, k);
    var r := k.server.answers[i];
    assert k.client.frames[i] == EncodeResponse(r);
    assert Logged(k.server, r.id);
    ResponseRoundTrip(r);
    assert SettledBy(k.client, k.client.frames[i]);
  }

  /** In every run no call whose answer the client has read is still waiting. */
  lemma EveryAnswerSettles<S(!new)>(h: Handler<S>, app: S, t: seq<Stack<S>>, n: nat, i: nat)
    requires IsStackRun(h, app, t) && n < |t| && i < |t[n].client.frames|
    ensures i < |t[n].server.answers| && t[n].server.answers[i].id !in t[n].client.pending
  {
    StackRunKeeps(h, app, t, n);
    AnswerSettles(h, t[n], i);
  }

  /** Both applications have read everything the other one wrote. */
  predicate AllRead<S>(k: Stack<S>) { k.sys.b.recvd == k.sys.a.stream && k.sys.a.recvd == k.sys.b.stream }

  /** In every run, once both streams have been read to their ends, no call is waiting: each one has been answered by
      its execution or given up. */
  lemma AllReadAllSettled<S(!new)>(h: Handler<S>, app: S, t: seq<Stack<S>>, n: nat, id: nat)
    requires IsStackRun(h, app, t) && n < |t| && AllRead(t[n]) && id < t[n].client.nextId
    ensures id !in t[n].client.pending
    ensures HasId(t[n].client.Done(), id) <==> id !in t[n].client.GivenUp()
  {
    StackRunKeeps(h, app, t, n);
    var k := t[n];
    TakenIsPrefix(k.sys);
    RequestsRead(h, k);
    AnswersRead(h, k);
    ReadIsAnswered(h, k);
    ReadToTheEnd(k.server.frames, k.server.reader, EncodeRequests(k.client.sends));
    ReadToTheEnd(k.client.frames, k.client.reader, EncodeResponses(k.server.answers));
    assert k.client.calls[id] in k.client.sends;
    var i: nat :| i < |k.client.sends| && k.client.sends[i] == k.client.calls[id];
    AnswerSettles(h, k, i);
    assert InOnePlace(k.client, id);
  }
}
