/**
 The network at its worst. A copy whose length field was flipped and which was cut to the flipped length can decode,
 and then it is the segment that was sent with its data torn off to a prefix. Here the network may deliver that too:
 any segment ever sent, with any prefix of its data, any number of times.
 */
module TornNetwork {
  import opened Bytes
  import opened Segments
  import opened Network

  /** `g` is `h` with a prefix of its data. */
  predicate TornFrom(g: Segment, h: Segment) { g == h.(data := g.data) && g.data <= h.data }

  /** What may arrive from a peer that has sent `sent`. */
  ghost predicate Comes(g: Segment, sent: set<Segment>) { exists h :: h in sent && TornFrom(g, h) }

  ghost predicate TornEnabled(x: Side, peerSent: set<Segment>, act: Action) {
    match act
    case Receive(_, g) => Comes(g, peerSent)
    case AppSend(_, data) => |x.stream| + |data| < U32_LIMIT
    case _ => true
  }

  ghost predicate TornNext(s: System, s': System) {
    exists act: Action ::
      || (TornEnabled(s.a, s.b.sent, act) && s' == System(Apply(s.a, act), s.b))
      || (TornEnabled(s.b, s.a.sent, act) && s' == System(s.a, Apply(s.b, act)))
  }

  /** State `i` starts the run or follows from the state before it. */
  ghost predicate TornStepAt(t: seq<System>, i: nat)
    requires i < |t|
  {
    if i == 0 then IsInit(t[0]) else TornNext(t[i - 1], t[i])
  }

  /** A run from an initial state in which deliveries may be torn. */
  ghost predicate IsTornRun(t: seq<System>) {
    |t| > 0 && forall i: nat :: i < |t| ==> TornStepAt(t, i)
  }

  /** `s` occurs in such a run. */
  ghost predicate TornReachable(s: System) {
    exists t :: IsTornRun(t) && t[|t| - 1] == s
  }

  /** Whatever can happen without torn deliveries can happen with them. */
  lemma RunIsTornRun(t: seq<System>)
    requires IsRun(t)
    ensures IsTornRun(t)
  {
    forall i: nat | i < |t| ensures TornStepAt(t, i) {
      assert StepAt(t, i);
      if i > 0 { NextIsTornNext(t[i - 1], t[i]); }
    }
  }

  lemma NextIsTornNext(s: System, s': System)
    requires Next(s, s')
    ensures TornNext(s, s')
  {
    var act: Action :| (Enabled(s.a, s.b.sent, act) && s' == System(Apply(s.a, act), s.b))
                       || (Enabled(s.b, s.a.sent, act) && s' == System(s.a, Apply(s.b, act)));
    if Enabled(s.a, s.b.sent, act) && s' == System(Apply(s.a, act), s.b) {
      EnabledTorn(s.a, s.b.sent, act);
    } else {
      EnabledTorn(s.b, s.a.sent, act);
    }
  }

  lemma EnabledTorn(x: Side, peerSent: set<Segment>, act: Action)
    requires Enabled(x, peerSent, act)
    ensures TornEnabled(x, peerSent, act)
  {
    if act.Receive? { assert TornFrom(act.g, act.g); }
  }

  // ---- Reachable states ----

  lemma TornNextReachable(s: System, s': System)
    requires TornReachable(s) && TornNext(s, s')
    ensures TornReachable(s')
  {
    var t :| IsTornRun(t) && t[|t| - 1] == s;
    ExtendedTornRun(t, s');
    EndOfTornRun(t + [s']);
  }

  lemma EndOfTornRun(t: seq<System>)
    requires IsTornRun(t)
    ensures TornReachable(t[|t| - 1])
  {}

  lemma ExtendedTornRun(t: seq<System>, s: System)
    requires IsTornRun(t) && TornNext(t[|t| - 1], s)
    ensures IsTornRun(t + [s])
  {
    var t' := t + [s];
    forall i: nat | i < |t'| ensures TornStepAt(t', i) {
      if i < |t| {
        assert TornStepAt(t, i);
        assert t'[i] == t[i] && (i > 0 ==> t'[i - 1] == t[i - 1]);
      }
    }
  }

  lemma InitTornReachable(s: System)
    requires IsInit(s)
    ensures TornReachable(s)
  {
    assert TornStepAt([s], 0);
    EndOfTornRun([s]);
  }

  lemma ReachableIsTorn(s: System)
    requires Reachable(s)
    ensures TornReachable(s)
  {
    var t :| IsRun(t) && t[|t| - 1] == s;
    RunIsTornRun(t);
    EndOfTornRun(t);
  }

  lemma TornActionA(s: System, act: Action)
    requires TornReachable(s) && TornEnabled(s.a, s.b.sent, act)
    ensures TornReachable(s.(a := Apply(s.a, act)))
  {
    TornNextReachable(s, s.(a := Apply(s.a, act)));
  }

  lemma TornActionB(s: System, act: Action)
    requires TornReachable(s) && TornEnabled(s.b, s.a.sent, act)
    ensures TornReachable(s.(b := Apply(s.b, act)))
  {
    TornNextReachable(s, s.(b := Apply(s.b, act)));
  }
}
