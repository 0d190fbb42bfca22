/**
 The baselines when nothing comes back: both resend every `rto` ticks and give up at a tick that can be computed, not
 one earlier or later. And when something does come back, go-back-N moves on.
 */
module BaselineGiveUp {
  import opened Bytes
  import opened Frames
  import opened Baselines

  /** Nothing ever arrives over the link. */
  ghost predicate Silent(link: Link) { forall now, sent :: link(now, sent) == [] }

  lemma SilentHeard(link: Link, now: nat, sent: seq<Frame>)
    requires Silent(link)
    ensures Heard(link, now, sent) == []
  {
    assert link(now, Encoded(sent)) == [];
  }

  /** Ticks between two firings of a timer that is looked at once in a tick. */
  function Period(config: ArqConfig): (d: nat)
    ensures d >= 1
  {
    Max(config.rto, 1)
  }

  /** The tick that lies `rest` ticks after firing number `fired` of a timer started at tick 1. */
  function TickOf(config: ArqConfig, fired: nat, rest: nat): nat { 1 + fired * Period(config) + rest }

  lemma NextFiring(config: ArqConfig, fired: nat)
    ensures TickOf(config, fired + 1, 0) == TickOf(config, fired, Period(config))
  {
    assert (fired + 1) * Period(config) == fired * Period(config) + Period(config);
  }

  // ---- Stop-and-wait ----

  /** The first chunk was last sent `rest` ticks ago, after `fired` timeouts. */
  ghost predicate TurnWaits(x: Setting, t: Turn, fired: nat) {
    && x.chunks != [] && t.next == 1 && t.retries == fired
    && t.unacked == Some(Waiting(0, x.chunks[0], TickOf(x.config, fired, 0)))
  }

  lemma FirstTurn(x: Setting, t: Turn, t': Turn, gaveUp: bool)
    requires x.chunks != [] && Silent(x.backLink) && TurnTick(x, 1, t, t', gaveUp)
    requires t == Turn(0, None, 0, [], Receiver(0, [], []))
    ensures TurnWaits(x, t', 0) && !gaveUp
  {}

  lemma SilentTurn(x: Setting, t: Turn, t': Turn, gaveUp: bool, fired: nat, rest: nat)
    requires Silent(x.backLink) && TurnWaits(x, t, fired) && rest < Period(x.config)
    requires TurnTick(x, TickOf(x.config, fired, rest + 1), t, t', gaveUp)
    ensures if rest + 1 < Period(x.config) then TurnWaits(x, t', fired) && !gaveUp
            else gaveUp == (fired >= x.config.maxRetries) && (!gaveUp ==> TurnWaits(x, t', fired + 1))
  {
    var tick := TickOf(x.config, fired, rest + 1);
    var r := OnArrivals(t.r, Heard(x.fwdLink, tick, t.fwd));
    SilentHeard(x.backLink, tick, r.back);
    NextFiring(x.config, fired);
  }

  /** Where a run of stop-and-wait stands while nothing comes back. */
  lemma {:induction false} TurnsWait(x: Setting, trace: seq<Turn>, maxTicks: nat, gaveUp: bool, fired: nat, rest: nat)
    requires IsTurnRun(x, trace, maxTicks, gaveUp) && Silent(x.backLink) && x.chunks != []
    requires fired <= x.config.maxRetries && rest < Period(x.config) && TickOf(x.config, fired, rest) < |trace|
    ensures TurnWaits(x, trace[TickOf(x.config, fired, rest)], fired)
    ensures gaveUp ==> TickOf(x.config, fired, rest) < |trace| - 1
    decreases fired, rest
  {
    var i := TickOf(x.config, fired, rest) - 1;
    assert TurnAt(x, trace, i, maxTicks, gaveUp);
    if rest > 0 {
      TurnsWait(x, trace, maxTicks, gaveUp, fired, rest - 1);
      SilentTurn(x, trace[i], trace[i + 1], gaveUp && i == |trace| - 2, fired, rest - 1);
    } else if fired > 0 {
      NextFiring(x.config, fired - 1);
      TurnsWait(x, trace, maxTicks, gaveUp, fired - 1, Period(x.config) - 1);
      SilentTurn(x, trace[i], trace[i + 1], gaveUp && i == |trace| - 2, fired - 1, Period(x.config) - 1);
    } else {
      FirstTurn(x, trace[0], trace[1], gaveUp && i == |trace| - 2);
    }
  }

  /** Ticks before firing number `last` come at firings before it. */
  lemma FiringOrder(config: ArqConfig, fired: nat, rest: nat, last: nat)
    requires rest < Period(config)
    ensures fired < last <==> TickOf(config, fired, rest) < TickOf(config, last, 0)
  {
    if fired < last {
      FiringsApart(Period(config), fired, last);
    } else if last < fired {
      FiringsApart(Period(config), last, fired);
    }
  }

  lemma FiringsApart(d: nat, m: nat, n: nat)
    requires m < n
    ensures m * d + d <= n * d
  {
    assert m * d + d == (m + 1) * d <= n * d;
  }

  /** The firing before which a tick lies. */
  lemma Firing(config: ArqConfig, tick: nat) returns (fired: nat, rest: nat)
    requires tick >= 1
    ensures rest < Period(config) && TickOf(config, fired, rest) == tick
  {
    fired, rest := (tick - 1) / Period(config), (tick - 1) % Period(config);
  }

  /** Stop-and-wait over a silent back channel: the run ends at the tick of timeout number `max_retries + 1`, or at the
      last tick allowed if that comes first, and it gives up exactly in the first case. */
  lemma SilentStopAndWait(x: Setting, trace: seq<Turn>, maxTicks: nat, gaveUp: bool)
    requires IsTurnRun(x, trace, maxTicks, gaveUp) && Silent(x.backLink) && x.chunks != [] && |trace| >= 2
    requires gaveUp || TurnsDone(x, trace[|trace| - 1]) || |trace| - 1 >= maxTicks
    ensures var last := TickOf(x.config, x.config.maxRetries + 1, 0);
            |trace| - 1 == Min(Max(maxTicks, 1), last) && (gaveUp <==> Max(maxTicks, 1) >= last)
  {
    var n, m := |trace| - 1, x.config.maxRetries;
    var fired, rest := Firing(x.config, n);
    FiringOrder(x.config, fired, rest, m + 1);
    assert TurnAt(x, trace, n - 1, maxTicks, gaveUp);
    if fired <= m {
      TurnsWait(x, trace, maxTicks, gaveUp, fired, rest);
    } else {
      TurnsGiveUp(x, trace, maxTicks, gaveUp);
    }
  }

  lemma TurnsGiveUp(x: Setting, trace: seq<Turn>, maxTicks: nat, gaveUp: bool)
    requires IsTurnRun(x, trace, maxTicks, gaveUp) && Silent(x.backLink) && x.chunks != []
    requires TickOf(x.config, x.config.maxRetries + 1, 0) < |trace|
    ensures gaveUp && |trace| - 1 == TickOf(x.config, x.config.maxRetries + 1, 0) <= maxTicks
  {
    var m, d := x.config.maxRetries, Period(x.config);
    NextFiring(x.config, m);
    TurnsWait(x, trace, maxTicks, gaveUp, m, d - 1);
    var i := TickOf(x.config, m, d - 1);
    assert TurnAt(x, trace, i, maxTicks, gaveUp);
    SilentTurn(x, trace[i], trace[i + 1], gaveUp && i == |trace| - 2, m, d - 1);
  }

  // ---- Go-back-N ----

  /** With a timeout of 0 the timer fires in the tick that starts it. */
  function Early(config: ArqConfig): nat { if config.rto == 0 then 1 else 0 }

  ghost predicate WindowWaits(x: Setting, e: Ends, fired: nat) {
    && e.s.base == 0 && e.s.next == Min(x.window, |x.chunks|) > 0
    && e.s.oldest == Some(TickOf(x.config, fired, 0)) && e.s.retries == fired + Early(x.config)
  }

  lemma NoAcks(s: Sender, s': Sender, tick: nat)
    requires AcksTaken(s, s', [], tick)
    ensures s' == s
  {}

  lemma FirstWindow(x: Setting, e: Ends, e': Ends, gaveUp: bool)
    requires x.chunks != [] && x.window > 0 && Silent(x.backLink) && GoBackTick(x, 1, e, e', gaveUp)
    requires e == Ends(Sender(0, 0, None, 0, []), Receiver(0, [], []))
    ensures gaveUp == (Early(x.config) > x.config.maxRetries) && (!gaveUp ==> WindowWaits(x, e', 0))
  {
    SilentHeard(x.backLink, 1, e'.r.back);
    var acked, filled :| GoBackSends(x, 1, e, e', acked, filled, gaveUp);
    NoAcks(e.s, acked, 1);
  }

  lemma SilentWindow(x: Setting, e: Ends, e': Ends, gaveUp: bool, fired: nat, rest: nat)
    requires Silent(x.backLink) && WindowWaits(x, e, fired) && rest < Period(x.config)
    requires GoBackTick(x, TickOf(x.config, fired, rest + 1), e, e', gaveUp)
    ensures if rest + 1 < Period(x.config) then WindowWaits(x, e', fired) && !gaveUp
            else
              && gaveUp == (fired + Early(x.config) >= x.config.maxRetries)
              && (!gaveUp ==> WindowWaits(x, e', fired + 1))
  {
    var tick := TickOf(x.config, fired, rest + 1);
    SilentHeard(x.backLink, tick, e'.r.back);
    var acked, filled :| GoBackSends(x, tick, e, e', acked, filled, gaveUp);
    NoAcks(e.s, acked, tick);
    NextFiring(x.config, fired);
  }

  lemma {:induction false} WindowsWait(x: Setting, trace: seq<Ends>, maxTicks: nat, gaveUp: bool, fired: nat, rest: nat)
    requires IsGoBackRun(x, trace, maxTicks, gaveUp) && Silent(x.backLink) && x.chunks != [] && x.window > 0
    requires fired + Early(x.config) <= x.config.maxRetries && rest < Period(x.config)
    requires TickOf(x.config, fired, rest) < |trace|
    ensures WindowWaits(x, trace[TickOf(x.config, fired, rest)], fired)
    ensures gaveUp ==> TickOf(x.config, fired, rest) < |trace| - 1
    decreases fired, rest
  {
    var i := TickOf(x.config, fired, rest) - 1;
    assert GoBackAt(x, trace, i, maxTicks, gaveUp);
    if rest > 0 {
      WindowsWait(x, trace, maxTicks, gaveUp, fired, rest - 1);
      SilentWindow(x, trace[i], trace[i + 1], gaveUp && i == |trace| - 2, fired, rest - 1);
    } else if fired > 0 {
      NextFiring(x.config, fired - 1);
      WindowsWait(x, trace, maxTicks, gaveUp, fired - 1, Period(x.config) - 1);
      SilentWindow(x, trace[i], trace[i + 1], gaveUp && i == |trace| - 2, fired - 1, Period(x.config) - 1);
    } else {
      FirstWindow(x, trace[0], trace[1], gaveUp && i == |trace| - 2);
    }
  }

  /** The firing at which go-back-N gives up. */
  function LastFiring(config: ArqConfig): nat {
    if Early(config) > config.maxRetries then 0 else config.maxRetries + 1 - Early(config)
  }

  lemma WindowsGiveUp(x: Setting, trace: seq<Ends>, maxTicks: nat, gaveUp: bool)
    requires IsGoBackRun(x, trace, maxTicks, gaveUp) && Silent(x.backLink) && x.chunks != [] && x.window > 0
    requires TickOf(x.config, LastFiring(x.config), 0) < |trace|
    ensures gaveUp && |trace| - 1 == TickOf(x.config, LastFiring(x.config), 0) <= Max(maxTicks, 1)
  {
    var last, d := LastFiring(x.config), Period(x.config);
    var i := TickOf(x.config, last, 0) - 1;
    assert GoBackAt(x, trace, i, maxTicks, gaveUp);
    if last == 0 {
      FirstWindow(x, trace[0], trace[1], gaveUp && i == |trace| - 2);
    } else {
      NextFiring(x.config, last - 1);
      WindowsWait(x, trace, maxTicks, gaveUp, last - 1, d - 1);
      SilentWindow(x, trace[i], trace[i + 1], gaveUp && i == |trace| - 2, last - 1, d - 1);
    }
  }

  /** Go-back-N over a silent back channel: the run ends when the timer fires for time `max_retries + 1`, or at the last
      tick allowed if that comes first, and it gives up exactly in the first case. */
  lemma SilentGoBackN(x: Setting, trace: seq<Ends>, maxTicks: nat, gaveUp: bool)
    requires IsGoBackRun(x, trace, maxTicks, gaveUp) && Silent(x.backLink) && x.chunks != [] && x.window > 0
    requires |trace| >= 2 && (gaveUp || trace[|trace| - 1].s.base == |x.chunks| || |trace| - 1 >= maxTicks)
    ensures var last := TickOf(x.config, LastFiring(x.config), 0);
            |trace| - 1 == Min(Max(maxTicks, 1), last) && (gaveUp <==> Max(maxTicks, 1) >= last)
  {
    var n, last := |trace| - 1, LastFiring(x.config);
    var fired, rest := Firing(x.config, n);
    FiringOrder(x.config, fired, rest, last);
    assert GoBackAt(x, trace, n - 1, maxTicks, gaveUp);
    if fired < last {
      WindowsWait(x, trace, maxTicks, gaveUp, fired, rest);
    } else {
      WindowsGiveUp(x, trace, maxTicks, gaveUp);
    }
  }

  // ---- Progress ----

  /** Go-back-N moves on: if the chunk that the receiver expects arrives, it is delivered and an acknowledgement
      beyond it is sent; and the base moves at least to any acknowledgement that arrives. */
  lemma GoBackMovesOn(x: Setting, tick: nat, e: Ends, e': Ends, gaveUp: bool)
    requires GoBackTick(x, tick, e, e', gaveUp)
    ensures var arrivals := Heard(x.fwdLink, tick, e.s.fwd);
            Expects(arrivals, e.r.expected) && Unwrapped(e.r, arrivals) ==>
              && e'.r.expected > e.r.expected && |e'.r.back| > |e.r.back|
              && e'.r.back[|e'.r.back| - 1] == AckFrame(e'.r.expected)
    ensures forall k :: AnyAcknowledges(Heard(x.backLink, tick, e'.r.back), k) ==> e'.s.base >= k
  {
    var acked, filled :| GoBackSends(x, tick, e, e', acked, filled, gaveUp);
    if Expects(Heard(x.fwdLink, tick, e.s.fwd), e.r.expected) && Unwrapped(e.r, Heard(x.fwdLink, tick, e.s.fwd)) {
      ReceiverMovesOn(e.r, Heard(x.fwdLink, tick, e.s.fwd));
    }
  }

  ghost predicate Expects(arrivals: seq<DecodeResult>, k: nat) {
    exists i :: 0 <= i < |arrivals| && arrivals[i].Ok? && arrivals[i].frame.sequence == k
  }

  /** The receiver's counter does not wrap around in this tick. */
  ghost predicate Unwrapped(r: Receiver, arrivals: seq<DecodeResult>) { r.expected + |arrivals| < U32_LIMIT }

  lemma {:induction false} ReceiverMovesOn(r: Receiver, arrivals: seq<DecodeResult>)
    requires Expects(arrivals, r.expected) && Unwrapped(r, arrivals)
    ensures var r' := OnArrivals(r, arrivals);
            r'.expected > r.expected && |r'.back| > |r.back| && r'.back[|r'.back| - 1] == AckFrame(r'.expected)
    decreases |arrivals|
  {
    var r1 := OnArrival(r, arrivals[0]);
    if arrivals[0].Ok? && arrivals[0].frame.sequence == r.expected {
      assert r1.back[|r.back|] == AckFrame(r1.expected);
      LastAckStays(r1, arrivals[1..]);
    } else {
      var i :| 0 <= i < |arrivals| && arrivals[i].Ok? && arrivals[i].frame.sequence == r.expected;
      assert arrivals[1..][i - 1] == arrivals[i];
      ReceiverMovesOn(r1, arrivals[1..]);
    }
  }

  lemma {:induction false} LastAckStays(r: Receiver, arrivals: seq<DecodeResult>)
    requires |r.back| > 0 && r.back[|r.back| - 1] == AckFrame(r.expected) && Unwrapped(r, arrivals)
    ensures var r' := OnArrivals(r, arrivals);
            r'.expected >= r.expected && |r'.back| >= |r.back| && r'.back[|r'.back| - 1] == AckFrame(r'.expected)
    decreases |arrivals|
  {
    if arrivals != [] { LastAckStays(OnArrival(r, arrivals[0]), arrivals[1..]); }
  }
}
