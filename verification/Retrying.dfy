/**
 How long an RPC client keeps asking: the fate of one call that is never answered, whatever else the client does
 meanwhile, tick by tick.
 */
module Retrying {
  import opened Bytes
  import opened Messages
  import opened Rpc

  // ---- One call among the others ----

  /** Pending calls are filed under their own ids, all of them issued. */
  ghost predicate Filed(c: Client) {
    forall id :: id in c.pending ==> id < c.nextId && c.pending[id].request.id == id
  }

  /** How often a request has been sent. */
  function Times(sends: seq<Request>, r: Request): nat { multiset(sends)[r] }

  /** The client treats the call `id`, asking `r`, in the same way in both states. */
  ghost predicate SameCall(c: Client, c': Client, id: nat, r: Request) {
    && (id in c.pending <==> id in c'.pending) && (id in c.pending ==> c'.pending[id] == c.pending[id])
    && (id in c'.GivenUp() <==> id in c.GivenUp()) && Times(c'.sends, r) == Times(c.sends, r)
    && c'.retryDeadline == c.retryDeadline && c'.maxAttempts == c.maxAttempts && c.nextId <= c'.nextId
  }

  /** Retrying one call leaves every other one alone. */
  lemma RetryOther(c: Client, now: nat, other: nat, id: nat, r: Request)
    requires Filed(c) && other != id && r.id == id
    ensures Filed(Retry(c, now, other)) && SameCall(c, Retry(c, now, other), id, r)
  {}

  lemma {:induction false} RetryOthers(c: Client, now: nat, order: seq<nat>, id: nat, r: Request)
    requires Filed(c) && id !in order && r.id == id
    ensures Filed(Retries(c, now, order)) && SameCall(c, Retries(c, now, order), id, r)
    decreases |order|
  {
    if order != [] {
      RetryOther(c, now, order[0], id, r);
      RetryOthers(Retry(c, now, order[0]), now, order[1..], id, r);
    }
  }

  /** A tick that visits a call once does with it what one visit does. */
  lemma {:induction false} VisitedOnce(c: Client, now: nat, order: seq<nat>, id: nat, r: Request)
    requires Filed(c) && id in order && Distinct(order) && r.id == id
    ensures Filed(Retries(c, now, order)) && SameCall(Retry(c, now, id), Retries(c, now, order), id, r)
    decreases |order|
  {
    var c1 := Retry(c, now, order[0]);
    if order[0] == id {
      assert Filed(c1);
      RetryOthers(c1, now, order[1..], id, r);
    } else {
      RetryOther(c, now, order[0], id, r);
      VisitedOnce(c1, now, order[1..], id, r);
      SameRetry(c, c1, now, id, r);
    }
  }

  lemma SameRetry(c: Client, c1: Client, now: nat, id: nat, r: Request)
    requires Filed(c) && SameCall(c, c1, id, r) && r.id == id
    ensures SameCall(Retry(c, now, id), Retry(c1, now, id), id, r)
  {}

  // ---- Waiting ----

  /** Ticks between two sends, and sends before giving up: a call is sent once and a tick resends it at most once,
      whatever the settings. */
  function Period(c: Client): (d: nat)
    ensures d >= 1
  {
    Max(c.retryDeadline, 1)
  }

  function Sends(c: Client): (m: nat)
    ensures m >= 1
  {
    Max(c.maxAttempts, 1)
  }

  /** Call `id` was last sent for the `n`-th time, at `sentAt`, and waits. */
  ghost predicate Waits(c: Client, id: nat, r: Request, n: nat, sentAt: nat) {
    id in c.pending && c.pending[id] == Pending(r, sentAt, n) && Times(c.sends, r) == n
  }

  /** Call `id` was sent `n` times and given up. */
  ghost predicate Abandoned(c: Client, id: nat, r: Request, n: nat) {
    id !in c.pending && id in c.GivenUp() && Times(c.sends, r) == n
  }

  /** An unanswered call that was sent, or would have been sent, for the `n`-th time at `last`, `rest` ticks ago. */
  ghost predicate Stands(c: Client, id: nat, r: Request, n: nat, last: nat, rest: nat) {
    && Filed(c) && id < c.nextId && r.id == id && n >= 1 && rest < Period(c)
    && if n <= Sends(c) then Waits(c, id, r, n, last) else Abandoned(c, id, r, Sends(c))
  }

  /** What a client does between its ticks and at them; ticks are one apart and visit every pending call once. */
  datatype Doing =
    | Calling(method_: byte, payload: seq<byte>)
    | Reading(frame: seq<byte>)
    | Ticking(order: seq<nat>)
    | Polling

  function Do(c: Client, now: nat, e: Doing): Client {
    match e
    case Calling(method_, payload) => Call(c, now, method_, payload)
    case Reading(frame) => ClientFrame(c, frame)
    case Ticking(order) => Retries(c, now + 1, order)
    case Polling => PollFailed(PollCompleted(c))
  }

  function Clock(now: nat, e: Doing): nat { if e.Ticking? then now + 1 else now }

  /** Allowed while call `id` goes unanswered. */
  ghost predicate Ignores(c: Client, e: Doing, id: nat) {
    match e
    case Reading(frame) => (match DecodeResponse(frame) case None => true case Some(r) => r.id != id)
    case Ticking(order) => Enumerates(order, c.pending.Keys)
    case _ => true
  }

  lemma OtherDoings(c: Client, now: nat, e: Doing, id: nat, r: Request)
    requires Filed(c) && id < c.nextId && r.id == id && Ignores(c, e, id) && !e.Ticking?
    ensures Filed(Do(c, now, e)) && SameCall(c, Do(c, now, e), id, r)
  {}

  lemma StandsStill(c: Client, c': Client, id: nat, r: Request, n: nat, last: nat, rest: nat)
    requires Stands(c, id, r, n, last, rest) && SameCall(c, c', id, r) && Filed(c')
    ensures Stands(c', id, r, n, last, rest)
  {}

  /** The call one tick later: still waiting, or one round further. */
  ghost predicate Moved(c': Client, id: nat, r: Request, n: nat, last: nat, rest: nat, period: nat) {
    if rest + 1 < period then Stands(c', id, r, n, last, rest + 1) else Stands(c', id, r, n + 1, last + rest + 1, 0)
  }

  /** One visit at the next tick. */
  lemma VisitMoves(c: Client, id: nat, r: Request, n: nat, last: nat, rest: nat)
    requires Stands(c, id, r, n, last, rest) && n <= Sends(c)
    ensures Moved(Retry(c, last + rest + 1, id), id, r, n, last, rest, Period(c))
  {}

  lemma TickMoves(c: Client, order: seq<nat>, id: nat, r: Request, n: nat, last: nat, rest: nat)
    requires Stands(c, id, r, n, last, rest) && Enumerates(order, c.pending.Keys)
    ensures Moved(Retries(c, last + rest + 1, order), id, r, n, last, rest, Period(c))
  {
    var now := last + rest + 1;
    if id in c.pending {
      VisitMoves(c, id, r, n, last, rest);
      VisitedOnce(c, now, order, id, r);
      MovedStill(Retry(c, now, id), Retries(c, now, order), id, r, n, last, rest, Period(c));
    } else {
      RetryOthers(c, now, order, id, r);
    }
  }

  lemma MovedStill(c: Client, c': Client, id: nat, r: Request, n: nat, last: nat, rest: nat, period: nat)
    requires Moved(c, id, r, n, last, rest, period) && SameCall(c, c', id, r) && Filed(c')
    ensures Moved(c', id, r, n, last, rest, period)
  {
    if rest + 1 < period {
      StandsStill(c, c', id, r, n, last, rest + 1);
    } else {
      StandsStill(c, c', id, r, n + 1, last + rest + 1, 0);
    }
  }

  // ---- Whole runs ----

  function Run(c: Client, now: nat, es: seq<Doing>): Client
    decreases |es|
  {
    if es == [] then c else Run(Do(c, now, es[0]), Clock(now, es[0]), es[1..])
  }

  function Ticks(es: seq<Doing>): nat {
    if es == [] then 0 else (if es[0].Ticking? then 1 else 0) + Ticks(es[1..])
  }

  ghost predicate IgnoresAll(c: Client, now: nat, es: seq<Doing>, id: nat)
    decreases |es|
  {
    es != [] ==> Ignores(c, es[0], id) && IgnoresAll(Do(c, now, es[0]), Clock(now, es[0]), es[1..], id)
  }

  /** The settings never change. */
  lemma {:induction false} SettingsStay(c: Client, now: nat, e: Doing)
    ensures Do(c, now, e).retryDeadline == c.retryDeadline && Do(c, now, e).maxAttempts == c.maxAttempts
  {
    if e.Ticking? { RetriesSettings(c, now + 1, e.order); }
  }

  lemma {:induction false} RetriesSettings(c: Client, now: nat, order: seq<nat>)
    ensures Retries(c, now, order).retryDeadline == c.retryDeadline
    ensures Retries(c, now, order).maxAttempts == c.maxAttempts
    decreases |order|
  {
    if order != [] { RetriesSettings(Retry(c, now, order[0]), now, order[1..]); }
  }

  /** Whatever the client does, the call waits on, or is one round further after a whole period. */
  lemma DoMoves(c: Client, e: Doing, id: nat, r: Request, n: nat, last: nat, rest: nat)
    returns (n': nat, last': nat, rest': nat)
    requires Stands(c, id, r, n, last, rest) && Ignores(c, e, id)
    ensures Stands(Do(c, last + rest, e), id, r, n', last', rest') && last' + rest' == Clock(last + rest, e)
    ensures (n' == n && last' == last) || (n' == n + 1 && last' == last + Period(c))
  {
    n', last', rest' := n, last, rest;
    if e.Ticking? {
      TickMoves(c, e.order, id, r, n, last, rest);
      if rest + 1 < Period(c) { rest' := rest + 1; } else { n', last', rest' := n + 1, last + rest + 1, 0; }
    } else {
      OtherDoings(c, last + rest, e, id, r);
      StandsStill(c, Do(c, last + rest, e), id, r, n, last, rest);
    }
  }

  /** `n` rounds of the length `period` ended at `last`. */
  predicate Spaced(start: nat, period: nat, n: nat, last: nat) { n >= 1 && last == start + (n - 1) * period }

  lemma SpacedOn(start: nat, period: nat, n: nat, last: nat)
    requires Spaced(start, period, n, last)
    ensures Spaced(start, period, n + 1, last + period)
  {
    assert n * period == (n - 1) * period + period;
  }

  lemma {:induction false} RunStands(c: Client, es: seq<Doing>, id: nat, r: Request, start: nat,
                                     n: nat, last: nat, rest: nat)
    returns (n': nat, last': nat, rest': nat)
    requires Stands(c, id, r, n, last, rest) && IgnoresAll(c, last + rest, es, id) && Spaced(start, Period(c), n, last)
    ensures Stands(Run(c, last + rest, es), id, r, n', last', rest') && Spaced(start, Period(c), n', last')
    ensures var c' := Run(c, last + rest, es); Period(c') == Period(c) && Sends(c') == Sends(c)
    ensures last' + rest' == last + rest + Ticks(es)
    decreases |es|
  {
    n', last', rest' := n, last, rest;
    if es != [] {
      SettingsStay(c, last + rest, es[0]);
      SpacedOn(start, Period(c), n, last);
      var n1, last1, rest1 := DoMoves(c, es[0], id, r, n, last, rest);
      n', last', rest' := RunStands(Do(c, last + rest, es[0]), es[1..], id, r, start, n1, last1, rest1);
    }
  }

  lemma DivisionUnique(d: nat, q: nat, m: nat, q': nat, m': nat)
    requires m < d && m' < d && q * d + m == q' * d + m'
    ensures q == q' && m == m'
  {
    if q < q' { Apart(d, q, q'); }
    if q' < q { Apart(d, q', q); }
  }

  lemma Apart(d: nat, q: nat, q': nat)
    requires q < q'
    ensures q * d + d <= q' * d
  {
    assert q * d + d == (q + 1) * d <= q' * d;
  }

  /** A call that is never answered is sent at once and again every `Period` ticks, and is given up `Sends` periods
      after it was issued, having been sent exactly that often: not a tick earlier or later, whatever else the client
      calls, reads and polls meanwhile. */
  lemma RetriedExactly(c: Client, now: nat, method_: byte, payload: seq<byte>, es: seq<Doing>, rounds: nat, rest: nat)
    requires ClientOk(c) && IgnoresAll(Call(c, now, method_, payload), now, es, c.nextId)
    requires rest < Period(c) && Ticks(es) == rounds * Period(c) + rest
    ensures var id, r := c.nextId, Request(c.nextId, method_, payload);
            var c' := Run(Call(c, now, method_, payload), now, es);
            if rounds < Sends(c) then Waits(c', id, r, rounds + 1, now + rounds * Period(c))
            else Abandoned(c', id, r, Sends(c))
  {
    var id, r, c1 := c.nextId, Request(c.nextId, method_, payload), Call(c, now, method_, payload);
    CallStands(c, now, method_, payload);
    var n, last, m := RunStands(c1, es, id, r, now, 1, now, 0);
    DivisionUnique(Period(c), n - 1, m, rounds, rest);
  }

  lemma CallStands(c: Client, now: nat, method_: byte, payload: seq<byte>)
    requires ClientOk(c)
    ensures Stands(Call(c, now, method_, payload), c.nextId, Request(c.nextId, method_, payload), 1, now, 0)
  {}
}
