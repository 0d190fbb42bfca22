/**
 The RPC client and server as functions on values. Their states carry some history beside the source's own
 fields: the frames read so far, the requests issued and sent, the executions of the handler, the answers given.
 */
module Rpc {
  import opened Bytes
  import opened Framing
  import opened Messages

  /** A handler takes the application state, a method and a payload, and gives the new state, a flag and a payload. */
  type Handler<!S> = (S, byte, seq<byte>) -> (S, bool, seq<byte>)

  // ---- Server ----

  /** One run of the handler. */
  datatype Execution<S> = Execution(request: Request, before: S, response: Response)

  datatype Server<S> = Server(
    reader: seq<byte>, seen: map<nat, Response>, executions: nat, app: S,
    frames: seq<seq<byte>>, log: seq<Execution<S>>, answers: seq<Response>)

  function NewServer<S>(app: S): Server<S> { Server([], map[], 0, app, [], [], []) }

  /** Runs the handler for a request id not seen before. */
  function Execute<S>(h: Handler<S>, s: Server<S>, r: Request): Server<S> {
    var (app, ok, payload) := h(s.app, r.method_, r.payload);
    var response := Response(r.id, ok, payload);
    s.(app := app, executions := s.executions + 1, seen := s.seen[r.id := response],
       log := s.log + [Execution(r, s.app, response)])
  }

  function HandleRequest<S>(h: Handler<S>, s: Server<S>, r: Request): (s': Server<S>)
    ensures r.id in s'.seen
  {
    var s1 := if r.id in s.seen then s else Execute(h, s, r);
    s1.(answers := s1.answers + [s1.seen[r.id]])
  }

  function HandleFrame<S>(h: Handler<S>, s: Server<S>, bytes: seq<byte>): Server<S> {
    var s1 := s.(frames := s.frames + [bytes]);
    match DecodeRequest(bytes)
    case None => s1
    case Some(r) => HandleRequest(h, s1, r)
  }

  function HandleFrames<S>(h: Handler<S>, s: Server<S>, frames: seq<seq<byte>>): Server<S>
    decreases |frames|
  {
    if frames == [] then s else HandleFrames(h, HandleFrame(h, s, frames[0]), frames[1..])
  }

  /** The server's part of `on_datagram`, given what the connection delivered. */
  function ServerConsume<S>(h: Handler<S>, s: Server<S>, chunk: seq<byte>): Server<S> {
    var d := Drain(s.reader + chunk);
    HandleFrames(h, s.(reader := d.rest), d.frames)
  }

  // ---- Client ----

  datatype Pending = Pending(request: Request, sentAt: nat, attempts: nat)

  /** `completed` and `failed` wait to be polled; `polled` and `polledFailed` have been. */
  datatype Client = Client(
    reader: seq<byte>, nextId: nat, pending: map<nat, Pending>, completed: seq<(nat, Response)>, failed: seq<nat>,
    retryDeadline: nat, maxAttempts: nat,
    frames: seq<seq<byte>>, calls: seq<Request>, sends: seq<Request>,
    polled: seq<(nat, Response)>, polledFailed: seq<nat>)
  {
    /** Every call ever answered, and every call ever given up. */
    function Done(): seq<(nat, Response)> { polled + completed }
    function GivenUp(): seq<nat> { polledFailed + failed }
  }

  function NewClient(retryDeadline: nat, maxAttempts: nat): Client {
    Client([], 0, map[], [], [], retryDeadline, maxAttempts, [], [], [], [], [])
  }

  function Call(c: Client, now: nat, method_: byte, payload: seq<byte>): Client {
    var r := Request(c.nextId, method_, payload);
    c.(nextId := c.nextId + 1, pending := c.pending[c.nextId := Pending(r, now, 1)], calls := c.calls + [r],
       sends := c.sends + [r])
  }

  function ClientFrame(c: Client, bytes: seq<byte>): Client {
    var c1 := c.(frames := c.frames + [bytes]);
    match DecodeResponse(bytes)
    case None => c1
    case Some(r) =>
      if r.id in c1.pending then c1.(pending := c1.pending - {r.id}, completed := c1.completed + [(r.id, r)]) else c1
  }

  function ClientFrames(c: Client, frames: seq<seq<byte>>): Client
    decreases |frames|
  {
    if frames == [] then c else ClientFrames(ClientFrame(c, frames[0]), frames[1..])
  }

  function ClientConsume(c: Client, chunk: seq<byte>): Client {
    var d := Drain(c.reader + chunk);
    ClientFrames(c.(reader := d.rest), d.frames)
  }

  /** One pending call at a tick: resend it, give it up, or leave it. */
  function Retry(c: Client, now: nat, id: nat): Client {
    if id !in c.pending || SatSub(now, c.pending[id].sentAt) < c.retryDeadline then c
    else if c.pending[id].attempts + 1 > c.maxAttempts then c.(pending := c.pending - {id}, failed := c.failed + [id])
    else
      var p := c.pending[id];
      c.(pending := c.pending[id := Pending(p.request, now, p.attempts + 1)], sends := c.sends + [p.request])
  }

  /** The client's part of `on_tick`; `order` is the order in which the pending calls are visited. */
  function Retries(c: Client, now: nat, order: seq<nat>): Client
    decreases |order|
  {
    if order == [] then c else Retries(Retry(c, now, order[0]), now, order[1..])
  }

  function PollCompleted(c: Client): Client { c.(polled := c.polled + c.completed, completed := []) }

  function PollFailed(c: Client): Client { c.(polledFailed := c.polledFailed + c.failed, failed := []) }

  // ---- What goes on the byte streams ----

  function EncodeRequests(rs: seq<Request>): (ms: seq<seq<byte>>)
    ensures |ms| == |rs| && forall i :: 0 <= i < |rs| ==> ms[i] == EncodeRequest(rs[i])
  {
    seq(|rs|, i requires 0 <= i < |rs| => EncodeRequest(rs[i]))
  }

  function EncodeResponses(rs: seq<Response>): (ms: seq<seq<byte>>)
    ensures |ms| == |rs| && forall i :: 0 <= i < |rs| ==> ms[i] == EncodeResponse(rs[i])
  {
    seq(|rs|, i requires 0 <= i < |rs| => EncodeResponse(rs[i]))
  }

  // ---- The server keeps: one execution per id ----

  ghost predicate Logged<S>(s: Server<S>, id: nat) {
    exists i :: 0 <= i < |s.log| && s.log[i].request.id == id
  }

  /** The application state after execution `i`. */
  function StateAfter<S>(s: Server<S>, i: nat): S
    requires i < |s.log|
  {
    if i + 1 < |s.log| then s.log[i + 1].before else s.app
  }

  /** Each logged execution is one run of the handler on the state the previous one left. */
  ghost predicate LogOk<S>(h: Handler<S>, s: Server<S>) {
    forall i :: 0 <= i < |s.log| ==>
      var e := s.log[i];
      h(e.before, e.request.method_, e.request.payload) == (StateAfter(s, i), e.response.ok, e.response.payload)
      && e.response.id == e.request.id
  }

  /** The dedup table holds exactly the responses of the logged executions, one for each id. */
  ghost predicate TableOk<S>(s: Server<S>) {
    && |s.log| == s.executions == |s.seen|
    && (forall i, j :: 0 <= i < j < |s.log| ==> s.log[i].request.id != s.log[j].request.id)
    && (forall i :: 0 <= i < |s.log| ==>
          s.log[i].request.id in s.seen && s.seen[s.log[i].request.id] == s.log[i].response)
    && (forall id :: id in s.seen ==> Logged(s, id))
  }

  /** Every answer given is the one in the table. */
  ghost predicate AnswersOk(answers: seq<Response>, seen: map<nat, Response>) {
    forall i :: 0 <= i < |answers| ==> answers[i].id in seen && seen[answers[i].id] == answers[i]
  }

  ghost predicate ServerOk<S>(h: Handler<S>, s: Server<S>) {
    TableOk(s) && LogOk(h, s) && AnswersOk(s.answers, s.seen)
  }

  /** Every execution was for a request that was issued as such. */
  ghost predicate LogIssued<S>(s: Server<S>, calls: seq<Request>) {
    forall i :: 0 <= i < |s.log| ==> s.log[i].request.id < |calls| && s.log[i].request == calls[s.log[i].request.id]
  }

  ghost predicate SeenGrows<S>(s: Server<S>, s': Server<S>) {
    && (forall id :: id in s.seen ==> id in s'.seen && s'.seen[id] == s.seen[id])
    && s.answers <= s'.answers
  }

  lemma ExecuteKeepsTable<S>(h: Handler<S>, s: Server<S>, r: Request)
    requires TableOk(s) && r.id !in s.seen
    ensures TableOk(Execute(h, s, r))
  {
    var s' := Execute(h, s, r);
    assert s'.log[|s.log|].request == r;
    assert forall i :: 0 <= i < |s.log| ==> s'.log[i] == s.log[i];
    forall id | id in s'.seen ensures Logged(s', id) {
      if id != r.id {
        var i :| 0 <= i < |s.log| && s.log[i].request.id == id;
        assert s'.log[i].request.id == id;
      }
    }
  }

  lemma ExecuteKeeps<S>(h: Handler<S>, s: Server<S>, r: Request)
    requires ServerOk(h, s) && r.id !in s.seen
    ensures ServerOk(h, Execute(h, s, r)) && SeenGrows(s, Execute(h, s, r))
  {
    ExecuteKeepsTable(h, s, r);
    ExecuteExtendsLog(h, s, r);
    var s' := Execute(h, s, r);
    AnswersStay(s.answers, s.seen, r.id, s'.seen[r.id]);
  }

  lemma AnswersStay(answers: seq<Response>, seen: map<nat, Response>, id: nat, r: Response)
    requires AnswersOk(answers, seen) && id !in seen
    ensures AnswersOk(answers, seen[id := r])
  {}

  lemma AnswersAppend(answers: seq<Response>, seen: map<nat, Response>, id: nat)
    requires AnswersOk(answers, seen) && id in seen && seen[id].id == id
    ensures AnswersOk(answers + [seen[id]], seen)
  {}

  lemma ExecuteExtendsLog<S>(h: Handler<S>, s: Server<S>, r: Request)
    requires LogOk(h, s)
    ensures LogOk(h, Execute(h, s, r))
  {
    var s' := Execute(h, s, r);
    forall i | 0 <= i < |s'.log|
      ensures h(s'.log[i].before, s'.log[i].request.method_, s'.log[i].request.payload)
              == (StateAfter(s', i), s'.log[i].response.ok, s'.log[i].response.payload)
      ensures s'.log[i].response.id == s'.log[i].request.id
    {
      if i < |s.log| { assert s'.log[i] == s.log[i] && StateAfter(s', i) == StateAfter(s, i); }
    }
  }

  lemma HandleRequestKeeps<S>(h: Handler<S>, s: Server<S>, r: Request)
    requires ServerOk(h, s)
    ensures ServerOk(h, HandleRequest(h, s, r)) && SeenGrows(s, HandleRequest(h, s, r))
  {
    if r.id !in s.seen { ExecuteKeeps(h, s, r); }
    var s1 := if r.id in s.seen then s else Execute(h, s, r);
    SeenIdMatches(h, s1, r.id);
    AnswersAppend(s1.answers, s1.seen, r.id);
    HistoryOnly(h, s1, HandleRequest(h, s, r));
  }

  /** Changing only the answers, the frames or the reader keeps the table and the log. */
  lemma HistoryOnly<S>(h: Handler<S>, s: Server<S>, s': Server<S>)
    requires TableOk(s) && LogOk(h, s)
    requires s'.log == s.log && s'.app == s.app && s'.seen == s.seen && s'.executions == s.executions
    ensures TableOk(s') && LogOk(h, s')
  {
    SameLog(h, s, s');
    forall id | id in s'.seen ensures Logged(s', id) { assert Logged(s, id); }
  }

  lemma SeenIdMatches<S>(h: Handler<S>, s: Server<S>, id: nat)
    requires ServerOk(h, s) && id in s.seen
    ensures s.seen[id].id == id
  {
    var i :| 0 <= i < |s.log| && s.log[i].request.id == id;
  }

  lemma SameLog<S>(h: Handler<S>, s: Server<S>, s': Server<S>)
    requires LogOk(h, s) && s'.log == s.log && s'.app == s.app
    ensures LogOk(h, s')
  {
    forall i | 0 <= i < |s'.log|
      ensures h(s'.log[i].before, s'.log[i].request.method_, s'.log[i].request.payload)
              == (StateAfter(s', i), s'.log[i].response.ok, s'.log[i].response.payload)
    {
      assert StateAfter(s', i) == StateAfter(s, i);
    }
  }

  /** At most once: whatever frames arrive, in any number and with any repetition, each request id is executed at
      most once and every answer given for it is the result of that execution. */
  lemma {:induction false} HandleFramesKeep<S>(h: Handler<S>, s: Server<S>, frames: seq<seq<byte>>)
    requires ServerOk(h, s)
    ensures ServerOk(h, HandleFrames(h, s, frames)) && SeenGrows(s, HandleFrames(h, s, frames))
    ensures HandleFrames(h, s, frames).frames == s.frames + frames && HandleFrames(h, s, frames).reader == s.reader
    decreases |frames|
  {
    if frames != [] {
      HandleFrameKeeps(h, s, frames[0]);
      HandleFramesKeep(h, HandleFrame(h, s, frames[0]), frames[1..]);
      assert frames == [frames[0]] + frames[1..];
      Assoc(s.frames, [frames[0]], frames[1..]);
    }
  }

  lemma HandleFrameKeeps<S>(h: Handler<S>, s: Server<S>, bytes: seq<byte>)
    requires ServerOk(h, s)
    ensures ServerOk(h, HandleFrame(h, s, bytes)) && SeenGrows(s, HandleFrame(h, s, bytes))
    ensures HandleFrame(h, s, bytes).frames == s.frames + [bytes] && HandleFrame(h, s, bytes).reader == s.reader
  {
    var s1 := s.(frames := s.frames + [bytes]);
    HistoryOnly(h, s, s1);
    match DecodeRequest(bytes) {
      case None =>
      case Some(r) => HandleRequestKeeps(h, s1, r);
    }
  }

  /** `f` is the encoding of an issued request. */
  ghost predicate Issued(f: seq<byte>, calls: seq<Request>) {
    exists id :: 0 <= id < |calls| && calls[id].id == id && f == EncodeRequest(calls[id])
  }

  lemma {:induction false} HandleFramesIssued<S>(h: Handler<S>, s: Server<S>, frames: seq<seq<byte>>,
                                                 calls: seq<Request>)
    requires LogIssued(s, calls) && |calls| < U64_LIMIT
    requires forall i :: 0 <= i < |frames| ==> Issued(frames[i], calls)
    ensures LogIssued(HandleFrames(h, s, frames), calls)
    decreases |frames|
  {
    if frames != [] {
      var id :| 0 <= id < |calls| && calls[id].id == id && frames[0] == EncodeRequest(calls[id]);
      RequestRoundTrip(calls[id]);
      HandleFramesIssued(h, HandleFrame(h, s, frames[0]), frames[1..], calls);
    }
  }

  // ---- The client keeps: each call in exactly one place ----

  predicate HasId(done: seq<(nat, Response)>, id: nat) {
    exists i :: 0 <= i < |done| && done[i].0 == id
  }

  /** The call is waiting, answered or given up: exactly one of the three. */
  predicate InOnePlace(c: Client, id: nat) {
    var p, d, f := id in c.pending, HasId(c.Done(), id), id in c.GivenUp();
    (p && !d && !f) || (!p && d && !f) || (!p && !d && f)
  }

  ghost predicate Distinct(ids: seq<nat>) { forall i, j :: 0 <= i < j < |ids| ==> ids[i] != ids[j] }

  /** `order` visits each of `ids` once. */
  ghost predicate Enumerates(order: seq<nat>, ids: set<nat>) {
    Distinct(order) && forall id :: id in ids <==> id in order
  }

  ghost predicate DistinctIds(done: seq<(nat, Response)>) {
    forall i, j :: 0 <= i < j < |done| ==> done[i].0 != done[j].0
  }

  ghost predicate ClientOk(c: Client) {
    && |c.calls| == c.nextId <= |c.sends|
    && (forall i :: 0 <= i < c.nextId ==> c.calls[i].id == i)
    && (forall i :: 0 <= i < |c.sends| ==> c.sends[i].id < c.nextId && c.sends[i] == c.calls[c.sends[i].id])
    && (forall id :: id in c.pending ==> id < c.nextId && c.pending[id].request == c.calls[id])
    && (forall i :: 0 <= i < |c.Done()| ==> c.Done()[i].0 < c.nextId && c.Done()[i].1.id == c.Done()[i].0)
    && (forall i :: 0 <= i < |c.GivenUp()| ==> c.GivenUp()[i] < c.nextId)
    && DistinctIds(c.Done()) && Distinct(c.GivenUp())
    && (forall id: nat :: id < c.nextId ==> InOnePlace(c, id))
  }

  lemma CallKeeps(c: Client, now: nat, method_: byte, payload: seq<byte>)
    requires ClientOk(c)
    ensures ClientOk(Call(c, now, method_, payload))
  {
    var c' := Call(c, now, method_, payload);
    forall id: nat | id < c'.nextId ensures InOnePlace(c', id) {
      if id < c.nextId { assert InOnePlace(c, id); }
    }
  }

  lemma HasIdAppend(done: seq<(nat, Response)>, r: (nat, Response), id: nat)
    ensures HasId(done + [r], id) <==> HasId(done, id) || r.0 == id
  {
    var all := done + [r];
    if HasId(done, id) {
      var i :| 0 <= i < |done| && done[i].0 == id;
      assert all[i].0 == id;
    }
    if r.0 == id { assert all[|done|].0 == id; }
  }

  lemma CompleteKeeps(c: Client, r: Response)
    requires ClientOk(c) && r.id in c.pending
    ensures ClientOk(c.(pending := c.pending - {r.id}, completed := c.completed + [(r.id, r)]))
  {
    var c' := c.(pending := c.pending - {r.id}, completed := c.completed + [(r.id, r)]);
    assert c'.Done() == c.Done() + [(r.id, r)];
    assert InOnePlace(c, r.id);
    forall id: nat | id < c'.nextId ensures InOnePlace(c', id) {
      assert InOnePlace(c, id);
      HasIdAppend(c.Done(), (r.id, r), id);
    }
  }

  lemma GiveUpKeeps(c: Client, id: nat)
    requires ClientOk(c) && id in c.pending
    ensures ClientOk(c.(pending := c.pending - {id}, failed := c.failed + [id]))
  {
    var c' := c.(pending := c.pending - {id}, failed := c.failed + [id]);
    assert c'.GivenUp() == c.GivenUp() + [id];
    assert InOnePlace(c, id);
    forall k: nat | k < c'.nextId ensures InOnePlace(c', k) { assert InOnePlace(c, k); }
  }

  lemma ResendKeeps(c: Client, id: nat, p: Pending)
    requires ClientOk(c) && id in c.pending && p.request == c.pending[id].request
    ensures ClientOk(c.(pending := c.pending[id := p], sends := c.sends + [p.request]))
  {
    var c' := c.(pending := c.pending[id := p], sends := c.sends + [p.request]);
    forall k: nat | k < c'.nextId ensures InOnePlace(c', k) { assert InOnePlace(c, k); }
  }

  lemma RetryKeeps(c: Client, now: nat, id: nat)
    requires ClientOk(c)
    ensures ClientOk(Retry(c, now, id))
  {
    if id in c.pending && SatSub(now, c.pending[id].sentAt) >= c.retryDeadline {
      if c.pending[id].attempts + 1 > c.maxAttempts {
        GiveUpKeeps(c, id);
      } else {
        ResendKeeps(c, id, Pending(c.pending[id].request, now, c.pending[id].attempts + 1));
      }
    }
  }

  lemma {:induction false} RetriesKeep(c: Client, now: nat, order: seq<nat>)
    requires ClientOk(c)
    ensures ClientOk(Retries(c, now, order))
    ensures Retries(c, now, order).Done() == c.Done() && Retries(c, now, order).calls == c.calls
    ensures Retries(c, now, order).frames == c.frames && Retries(c, now, order).reader == c.reader
    ensures c.sends <= Retries(c, now, order).sends
    decreases |order|
  {
    if order != [] {
      RetryKeeps(c, now, order[0]);
      RetriesKeep(Retry(c, now, order[0]), now, order[1..]);
    }
  }

  /** Every answer the client records is one of `answers`. */
  ghost predicate DoneFrom(c: Client, seen: map<nat, Response>) {
    forall i :: 0 <= i < |c.Done()| ==> c.Done()[i].0 in seen && seen[c.Done()[i].0] == c.Done()[i].1
  }

  /** `f` is the encoding of an answer that the server gave. */
  ghost predicate Answered(f: seq<byte>, seen: map<nat, Response>) {
    exists id :: id in seen && seen[id].id == id && id < U64_LIMIT && f == EncodeResponse(seen[id])
  }

  lemma ClientFrameKeeps(c: Client, f: seq<byte>, seen: map<nat, Response>)
    requires ClientOk(c) && DoneFrom(c, seen) && Answered(f, seen)
    ensures ClientOk(ClientFrame(c, f)) && DoneFrom(ClientFrame(c, f), seen)
    ensures ClientFrame(c, f).frames == c.frames + [f]
    ensures ClientFrame(c, f).reader == c.reader && ClientFrame(c, f).sends == c.sends
    ensures ClientFrame(c, f).calls == c.calls
  {
    var c1 := c.(frames := c.frames + [f]);
    assert ClientOk(c1) by { forall id: nat | id < c1.nextId ensures InOnePlace(c1, id) { assert InOnePlace(c, id); } }
    var id: nat :| id in seen && seen[id].id == id && id < U64_LIMIT && f == EncodeResponse(seen[id]);
    var r := seen[id];
    ResponseRoundTrip(r);
    if id in c1.pending {
      CompleteKeeps(c1, r);
      assert ClientFrame(c, f).Done() == c.Done() + [(id, r)];
    }
  }

  lemma {:induction false} ClientFramesKeep(c: Client, frames: seq<seq<byte>>, seen: map<nat, Response>)
    requires ClientOk(c) && DoneFrom(c, seen) && forall i :: 0 <= i < |frames| ==> Answered(frames[i], seen)
    ensures ClientOk(ClientFrames(c, frames)) && DoneFrom(ClientFrames(c, frames), seen)
    ensures ClientFrames(c, frames).frames == c.frames + frames
    ensures ClientFrames(c, frames).reader == c.reader && ClientFrames(c, frames).sends == c.sends
    ensures ClientFrames(c, frames).calls == c.calls
    decreases |frames|
  {
    if frames != [] {
      ClientFrameKeeps(c, frames[0], seen);
      ClientFramesKeep(ClientFrame(c, frames[0]), frames[1..], seen);
      assert frames == [frames[0]] + frames[1..];
      Assoc(c.frames, [frames[0]], frames[1..]);
    }
  }

  // ---- Every request read is answered ----

  /** The ids asked for in frames, in order; a malformed frame asks for nothing. */
  function Asked(frames: seq<seq<byte>>): seq<nat> {
    if frames == [] then []
    else (match DecodeRequest(frames[0]) case None => [] case Some(r) => [r.id]) + Asked(frames[1..])
  }

  function AnswerIds(answers: seq<Response>): (ids: seq<nat>)
    ensures |ids| == |answers| && forall i :: 0 <= i < |answers| ==> ids[i] == answers[i].id
  {
    seq(|answers|, i requires 0 <= i < |answers| => answers[i].id)
  }

  lemma OneMoreId(answers: seq<Response>, r: Response)
    ensures AnswerIds(answers + [r]) == AnswerIds(answers) + [r.id]
  {}

  lemma RequestAnswered<S>(h: Handler<S>, s: Server<S>, r: Request)
    requires ServerOk(h, s)
    ensures AnswerIds(HandleRequest(h, s, r).answers) == AnswerIds(s.answers) + [r.id]
  {
    if r.id !in s.seen { ExecuteKeeps(h, s, r); }
    var s1 := if r.id in s.seen then s else Execute(h, s, r);
    SeenIdMatches(h, s1, r.id);
    OneMoreId(s.answers, s1.seen[r.id]);
  }

  /** One frame: a request is answered once, by its id, whether it was seen before or not; anything else is not. */
  lemma FrameAnswered<S>(h: Handler<S>, s: Server<S>, f: seq<byte>)
    requires ServerOk(h, s)
    ensures AnswerIds(HandleFrame(h, s, f).answers)
              == AnswerIds(s.answers) + match DecodeRequest(f) case None => [] case Some(r) => [r.id]
  {
    var s1 := s.(frames := s.frames + [f]);
    HistoryOnly(h, s, s1);
    match DecodeRequest(f) {
      case None =>
      case Some(r) => RequestAnswered(h, s1, r);
    }
  }

  /** Every request read is answered exactly once, in the order read: a repeated one is answered again. */
  lemma {:induction false} RequestsAnswered<S>(h: Handler<S>, s: Server<S>, frames: seq<seq<byte>>)
    requires ServerOk(h, s)
    ensures AnswerIds(HandleFrames(h, s, frames).answers) == AnswerIds(s.answers) + Asked(frames)
    decreases |frames|
  {
    if frames != [] {
      HandleFrameKeeps(h, s, frames[0]);
      FrameAnswered(h, s, frames[0]);
      RequestsAnswered(h, HandleFrame(h, s, frames[0]), frames[1..]);
      var first := match DecodeRequest(frames[0]) case None => [] case Some(r) => [r.id];
      Assoc(AnswerIds(s.answers), first, Asked(frames[1..]));
    }
  }

  lemma {:induction false} AskedConcat(a: seq<seq<byte>>, b: seq<seq<byte>>)
    ensures Asked(a + b) == Asked(a) + Asked(b)
    decreases |a|
  {
    if a == [] {
      assert a + b == b;
    } else {
      assert (a + b)[1..] == a[1..] + b;
      AskedConcat(a[1..], b);
      var first := match DecodeRequest(a[0]) case None => [] case Some(r) => [r.id];
      Assoc(first, Asked(a[1..]), Asked(b));
    }
  }

  /** The server has answered each request it has read, once and in order. */
  ghost predicate AnswersMatch<S>(s: Server<S>) { AnswerIds(s.answers) == Asked(s.frames) }

  // ---- Every answer read completes its call ----

  /** An answer to a pending call completes it, with that answer. */
  lemma AnswerCompletes(c: Client, f: seq<byte>, r: Response)
    requires DecodeResponse(f) == Some(r) && r.id in c.pending
    ensures var c' := ClientFrame(c, f);
            r.id !in c'.pending && c'.completed == c.completed + [(r.id, r)] && (r.id, r) in c'.Done()
  {
    var c' := ClientFrame(c, f);
    assert c'.Done() == c.Done() + [(r.id, r)];
  }

  /** No call whose answer has been read is still waiting. */
  ghost predicate Settled(c: Client) {
    forall i :: 0 <= i < |c.frames| ==> SettledBy(c, c.frames[i])
  }

  predicate SettledBy(c: Client, f: seq<byte>) {
    match DecodeResponse(f) case None => true case Some(r) => r.id < c.nextId && r.id !in c.pending
  }

  lemma {:induction false} ClientFramesSettle(c: Client, frames: seq<seq<byte>>)
    requires Settled(c)
    requires forall i :: 0 <= i < |frames| && DecodeResponse(frames[i]).Some? ==>
        DecodeResponse(frames[i]).value.id < c.nextId
    ensures Settled(ClientFrames(c, frames))
    decreases |frames|
  {
    if frames != [] {
      ClientFrameSettles(c, frames[0]);
      ClientFramesSettle(ClientFrame(c, frames[0]), frames[1..]);
    }
  }

  lemma ClientFrameSettles(c: Client, f: seq<byte>)
    requires Settled(c) && (DecodeResponse(f).Some? ==> DecodeResponse(f).value.id < c.nextId)
    ensures Settled(ClientFrame(c, f)) && ClientFrame(c, f).nextId == c.nextId
  {
    var c' := ClientFrame(c, f);
    assert c'.frames == c.frames + [f];
    forall i | 0 <= i < |c'.frames| ensures SettledBy(c', c'.frames[i]) {
      if i < |c.frames| { assert SettledBy(c, c.frames[i]); }
    }
  }

  /** Every call has been sent at least once. */
  ghost predicate AllSent(c: Client) { forall id :: 0 <= id < |c.calls| ==> c.calls[id] in c.sends }

  lemma CallSends(c: Client, now: nat, method_: byte, payload: seq<byte>)
    requires AllSent(c)
    ensures AllSent(Call(c, now, method_, payload))
  {
    var c' := Call(c, now, method_, payload);
    forall id | 0 <= id < |c'.calls| ensures c'.calls[id] in c'.sends {
      if id < |c.calls| { assert c'.calls[id] == c.calls[id]; } else { assert c'.calls[id] == c'.sends[|c.sends|]; }
    }
  }

  /** Settled calls stay settled while no call below `nextId` starts to wait. */
  lemma StaySettled(c: Client, c': Client)
    requires Settled(c) && c'.frames == c.frames && c.nextId <= c'.nextId
    requires forall id :: id in c'.pending && id < c.nextId ==> id in c.pending
    ensures Settled(c')
  {
    forall i | 0 <= i < |c'.frames| ensures SettledBy(c', c'.frames[i]) { assert SettledBy(c, c.frames[i]); }
  }

  lemma {:induction false} RetriesPending(c: Client, now: nat, order: seq<nat>)
    ensures forall id :: id in Retries(c, now, order).pending ==> id in c.pending
    ensures Retries(c, now, order).nextId == c.nextId
    decreases |order|
  {
    if order != [] { RetriesPending(Retry(c, now, order[0]), now, order[1..]); }
  }
}
