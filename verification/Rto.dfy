/** The adaptive retransmission timeout: smoothed RTT and variance in fixed point, with backoff. */
module Rto {
  import opened Bytes

  const SCALE: nat := 8
  const MAX_BACKOFF: nat := 64

  function Clamp(x: nat, lo: nat, hi: nat): nat {
    if x < lo then lo else if x > hi then hi else x
  }

  function AbsDiff(x: nat, y: nat): nat { if x < y then y - x else x - y }

  /** The estimator's state: `srtt` scaled by 8, `rttvar` scaled by 4. */
  datatype Estimator = Estimator(srtt: Option<nat>, rttvar: nat, minRto: nat, maxRto: nat, backoff: nat) {
    function BaseRto(): nat {
      var estimate := match srtt
        case Some(s) => s / SCALE + 4 * Max(rttvar / (SCALE / 2), 1)
        case None => minRto;
      Clamp(estimate, minRto, maxRto)
    }

    function Current(): nat { Min(BaseRto() * backoff, maxRto) }

    function OnSample(rtt: nat): Estimator {
      match srtt
      case None => this.(backoff := 1, srtt := Some(rtt * SCALE), rttvar := rtt * SCALE / 2)
      case Some(s) =>
        var diff := AbsDiff(rtt, s / SCALE);
        this.(backoff := 1, rttvar := rttvar - rttvar / 4 + diff * (SCALE / 2) / 4,
              srtt := Some(s - s / 8 + rtt * SCALE / 8))
    }

    function OnTimeout(): Estimator { this.(backoff := Min(backoff * 2, MAX_BACKOFF)) }

    /** Holds of every estimator built by `New` and updated by samples and timeouts. */
    predicate Valid() { minRto <= maxRto && 1 <= backoff <= MAX_BACKOFF }
  }

  function New(minRto: nat, maxRto: nat): Estimator {
    Estimator(None, 0, minRto, maxRto, 1)
  }

  class RtoEstimator {
    var srtt: Option<nat>
    var rttvar: nat
    const minRto: nat
    const maxRto: nat
    var backoff: nat

    function View(): Estimator
      reads this
    {
      Estimator(srtt, rttvar, minRto, maxRto, backoff)
    }

    constructor (minRto: nat, maxRto: nat)
      ensures View() == New(minRto, maxRto)
    {
      this.srtt, this.rttvar, this.backoff := None, 0, 1;
      this.minRto, this.maxRto := minRto, maxRto;
    }

    method Current() returns (rto: nat)
      ensures rto == View().Current()
    {
      var base := View().BaseRto();
      rto := Min(base * backoff, maxRto);
    }

    method OnSample(rtt: nat)
      modifies this
      ensures View() == old(View()).OnSample(rtt)
    {
      backoff := 1;
      match srtt {
        case None =>
          srtt := Some(rtt * SCALE);
          rttvar := rtt * SCALE / 2;
        case Some(s) =>
          var diff := AbsDiff(rtt, s / SCALE);
          rttvar := rttvar - rttvar / 4 + diff * (SCALE / 2) / 4;
          srtt := Some(s - s / 8 + rtt * SCALE / 8);
      }
    }

    method OnTimeout()
      modifies this
      ensures View() == old(View()).OnTimeout()
    {
      backoff := Min(backoff * 2, MAX_BACKOFF);
    }
  }

  lemma CurrentBounds(e: Estimator)
    requires e.Valid()
    ensures e.minRto <= e.Current() <= e.maxRto
  {
    var b := e.BaseRto();
    assert b * e.backoff >= b * 1;
  }

  // ---- Bounds over every history ----

  datatype Event = Sample(rtt: nat) | Timeout

  function Run(e: Estimator, events: seq<Event>): Estimator
    decreases |events|
  {
    if events == [] then e
    else Run(match events[0] case Sample(r) => e.OnSample(r) case Timeout => e.OnTimeout(), events[1..])
  }

  predicate SamplesWithin(events: seq<Event>, lo: nat, hi: nat) {
    forall i :: 0 <= i < |events| && events[i].Sample? ==> lo <= events[i].rtt <= hi
  }

  predicate Bounded(e: Estimator, lo: nat, hi: nat) {
    && e.Valid()
    && (e.srtt.Some? ==> SCALE * lo <= e.srtt.value <= SCALE * hi)
    && e.rttvar <= 4 * hi
  }

  lemma SampleKeepsBounds(e: Estimator, rtt: nat, lo: nat, hi: nat)
    requires Bounded(e, lo, hi) && lo <= rtt <= hi
    ensures Bounded(e.OnSample(rtt), lo, hi)
  {
    if e.srtt.Some? {
      var s := e.srtt.value;
      var diff := AbsDiff(rtt, s / SCALE);
      assert lo <= s / SCALE <= hi;
      assert diff <= hi - lo;
      assert diff * (SCALE / 2) / 4 == diff;
    }
  }

  lemma {:induction false} RunKeepsBounds(e: Estimator, events: seq<Event>, lo: nat, hi: nat)
    requires Bounded(e, lo, hi) && SamplesWithin(events, lo, hi)
    ensures Bounded(Run(e, events), lo, hi)
    ensures Run(e, events).minRto == e.minRto && Run(e, events).maxRto == e.maxRto
    decreases |events|
  {
    if events != [] {
      var e' := match events[0] case Sample(r) => e.OnSample(r) case Timeout => e.OnTimeout();
      if events[0].Sample? { SampleKeepsBounds(e, events[0].rtt, lo, hi); }
      RunKeepsBounds(e', events[1..], lo, hi);
    }
  }

  /** For every history of samples in [lo, hi] and timeouts: SRTT, RTTVAR and the armed timeout stay bounded. */
  lemma HistoryBounds(minRto: nat, maxRto: nat, events: seq<Event>, lo: nat, hi: nat)
    requires minRto <= maxRto && SamplesWithin(events, lo, hi)
    ensures var e := Run(New(minRto, maxRto), events);
            && (e.srtt.Some? ==> SCALE * lo <= e.srtt.value <= SCALE * hi)
            && e.rttvar <= 4 * hi
            && minRto <= e.Current() <= maxRto
  {
    RunKeepsBounds(New(minRto, maxRto), events, lo, hi);
    CurrentBounds(Run(New(minRto, maxRto), events));
  }

  // ---- Convergence on constant samples ----

  function Repeat(e: Estimator, c: nat, n: nat): Estimator
    decreases n
  {
    if n == 0 then e else Repeat(e.OnSample(c), c, n - 1)
  }

  lemma {:induction false} RepeatSum(e: Estimator, c: nat, m: nat, n: nat)
    ensures Repeat(e, c, m + n) == Repeat(Repeat(e, c, m), c, n)
    decreases m
  {
    if m > 0 { RepeatSum(e.OnSample(c), c, m - 1, n); }
  }

  predicate Centred(e: Estimator, c: nat) { e.srtt.Some? && e.srtt.value / SCALE == c && e.backoff == 1 }

  /** The smoothed RTT moves monotonically into [8c, 8c + 7] and stops there. */
  lemma {:induction false} ReachesCentre(e: Estimator, c: nat) returns (n: nat)
    ensures Centred(Repeat(e, c, n), c)
    decreases match e.srtt case None => 0 case Some(s) => AbsDiff(s, SCALE * c) + (if s / SCALE == c then 0 else SCALE),
              e.backoff != 1, e.srtt.None?
  {
    if Centred(e, c) {
      n := 0;
    } else {
      var k := ReachesCentre(e.OnSample(c), c);
      n := k + 1;
    }
  }

  lemma {:induction false} Settles(e: Estimator, c: nat) returns (n: nat)
    requires Centred(e, c)
    ensures Centred(Repeat(e, c, n), c) && Repeat(e, c, n).rttvar < 4
    decreases e.rttvar
  {
    if e.rttvar < 4 {
      n := 0;
    } else {
      var k := Settles(e.OnSample(c), c);
      n := k + 1;
    }
  }

  lemma {:induction false} StaysSettled(e: Estimator, c: nat, n: nat)
    requires Centred(e, c) && e.rttvar < 4
    ensures Centred(Repeat(e, c, n), c) && Repeat(e, c, n).rttvar < 4
    ensures Repeat(e, c, n).minRto == e.minRto && Repeat(e, c, n).maxRto == e.maxRto
    decreases n
  {
    if n > 0 { StaysSettled(e.OnSample(c), c, n - 1); }
  }

  lemma {:induction false} RepeatKeepsLimits(e: Estimator, c: nat, n: nat)
    ensures Repeat(e, c, n).minRto == e.minRto && Repeat(e, c, n).maxRto == e.maxRto
    decreases n
  {
    if n > 0 { RepeatKeepsLimits(e.OnSample(c), c, n - 1); }
  }

  ghost predicate SettledFrom(e: Estimator, c: nat, start: nat) {
    forall n :: n >= start ==> Repeat(e, c, n).Current() == Clamp(c + 4, e.minRto, e.maxRto)
  }

  /** From any state, constant samples c bring the timeout to clamp(c + 4) and hold it there for ever. */
  lemma Converges(e: Estimator, c: nat)
    requires e.minRto <= e.maxRto
    ensures exists start: nat :: SettledFrom(e, c, start)
  {
    var a := ReachesCentre(e, c);
    var b := Settles(Repeat(e, c, a), c);
    RepeatSum(e, c, a, b);
    var start := a + b;
    forall n | n >= start ensures Repeat(e, c, n).Current() == Clamp(c + 4, e.minRto, e.maxRto) {
      RepeatSum(e, c, start, n - start);
      StaysSettled(Repeat(e, c, start), c, n - start);
      RepeatKeepsLimits(e, c, n);
    }
    assert SettledFrom(e, c, start);
  }

  // ---- Backoff ----

  /** `n` timeouts in a row, without a sample. */
  function Timeouts(e: Estimator, n: nat): Estimator
    decreases n
  {
    if n == 0 then e else Timeouts(e.OnTimeout(), n - 1)
  }

  /** The timeout armed after `n` timeouts in a row: doubled each time, up to 64 times and up to the maximum. */
  function Armed(e: Estimator, n: nat): nat { Min(e.BaseRto() * Min(e.backoff * Pow2(n), MAX_BACKOFF), e.maxRto) }

  /** Exponential backoff: after `n` timeouts in a row the backoff is doubled `n` times, up to its cap, and nothing else
      has changed. */
  lemma {:induction false} BackoffDoubles(e: Estimator, n: nat)
    requires e.Valid()
    ensures Timeouts(e, n) == e.(backoff := Min(e.backoff * Pow2(n), MAX_BACKOFF))
    ensures Timeouts(e, n).Current() == Armed(e, n)
    decreases n
  {
    if n > 0 {
      var e' := e.OnTimeout();
      BackoffDoubles(e', n - 1);
      Doubled(e.backoff, Pow2(n - 1));
    }
  }

  lemma Doubled(b: nat, p: nat)
    requires b <= MAX_BACKOFF && p > 0
    ensures Min(Min(b * 2, MAX_BACKOFF) * p, MAX_BACKOFF) == Min(b * (2 * p), MAX_BACKOFF)
  {
    if b * 2 <= MAX_BACKOFF {
      assert (b * 2) * p == b * (2 * p);
    } else {
      assert MAX_BACKOFF * p >= MAX_BACKOFF * 1;
      assert b * (2 * p) == (b * 2) * p >= (b * 2) * 1;
    }
  }

  /** A sample ends the backoff. */
  lemma SampleEndsBackoff(e: Estimator, rtt: nat)
    requires e.minRto <= e.maxRto
    ensures e.OnSample(rtt).Current() == e.OnSample(rtt).BaseRto()
  {}

  // ---- Smoothing ----

  /** The smoothing gains of section 2.3 of RFC 6298, up to rounding: SRTT moves an eighth of the way to the sample and
      RTTVAR a quarter of the way to its distance; the first sample sets both to the whole sample. */
  lemma SmoothingGains(e: Estimator, rtt: nat)
    ensures e.OnSample(rtt).srtt.Some?
    ensures match e.srtt
            case None => e.OnSample(rtt).srtt.value == SCALE * rtt && e.OnSample(rtt).rttvar == SCALE / 2 * rtt
            case Some(s) =>
              var e' := e.OnSample(rtt);
              var dist := if rtt >= s / SCALE then rtt - s / SCALE else s / SCALE - rtt;
              && 7 * s + SCALE * rtt <= 8 * e'.srtt.value <= 7 * s + SCALE * rtt + 7
              && 3 * e.rttvar + SCALE / 2 * dist <= 4 * e'.rttvar <= 3 * e.rttvar + SCALE / 2 * dist + 3
  {}

  /** The timeout before backoff is SRTT plus four times RTTVAR, up to rounding and at least four ticks more than SRTT,
      held between the limits; before the first sample it is the lower limit. */
  lemma TimeoutFormula(e: Estimator) returns (x: nat)
    requires e.minRto <= e.maxRto
    ensures e.BaseRto() == Clamp(x, e.minRto, e.maxRto)
    ensures match e.srtt
            case None => x == e.minRto
            case Some(s) => s / SCALE + Max(e.rttvar, 4) - 3 <= x <= s / SCALE + Max(e.rttvar, 4)
  {
    x := match e.srtt
      case None => e.minRto
      case Some(s) => s / SCALE + 4 * Max(e.rttvar / 4, 1);
  }
}
