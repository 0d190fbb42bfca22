/** The handshake makes progress: each of its segments is answered, however often it arrives, and resent when due. */
module HandshakeProgress {
  import opened Bytes
  import opened Segments
  import opened Transport
  import opened Network
  import opened Session
  import opened Safety

  predicate IsSyn(g: Segment) { g.syn && !g.ack }

  predicate IsSynAck(g: Segment) { g.syn && g.ack }

  /** Any segment that completes the handshake of a listening side. */
  predicate Completes(g: Segment) { g.ack && !g.syn }

  /** A SYN makes a listening side ready and is answered with a SYN-ACK, the first time and every time. */
  lemma SynAnswered(c: Conn, now: nat, g: Segment) returns (r: Segment)
    requires IsSyn(g) && (c.state == Listening || c.state == SynReceived)
    ensures r in OnSegment(c, now, g).out && IsSynAck(r) && OnSegment(c, now, g).conn.state == SynReceived
  {
    var c1 := AdoptWindow(c, now, g.header.window);
    r := Handshake(c1, g).0.out[0];
  }

  /** A SYN-ACK opens the connecting side, and is answered with a completing acknowledgement, then and whenever it comes
      again. */
  lemma SynAckAnswered(c: Conn, now: nat, g: Segment) returns (r: Segment)
    requires IsSynAck(g) && (c.state == SynSent || c.Open())
    ensures r in OnSegment(c, now, g).out && Completes(r) && WasOpen(OnSegment(c, now, g).conn)
  {
    var c1 := AdoptWindow(c, now, g.header.window);
    var hs := Handshake(c1, g).0;
    r := hs.out[0];
    ProcessOpenStep(hs.conn, g);
  }

  /** Any acknowledgement opens the listening side, data or not. */
  lemma CompletionOpens(c: Conn, now: nat, g: Segment)
    requires Completes(g) && c.state == SynReceived
    ensures WasOpen(OnSegment(c, now, g).conn)
  {
    var hs := Handshake(AdoptWindow(c, now, g.header.window), g).0;
    ProcessOpenStep(hs.conn, g);
  }

  /** When the handshake timer fires with an attempt left, the side's own segment of the handshake goes out again. */
  lemma HandshakeResent(c: Conn, now: nat) returns (r: Segment)
    requires (c.state == SynSent || c.state == SynReceived) && c.handshake.Some?
    requires SatSub(Max(c.now, now), c.handshake.value.sentAt) >= c.rto.Current()
    requires c.handshake.value.attempts < c.config.maxRetries
    ensures OnTick(c, now).out == [r] && OnTick(c, now).conn.state == c.state
    ensures if c.state == SynSent then IsSyn(r) else IsSynAck(r)
  {
    r := OnTick(c, now).out[0];
  }

  // ---- In every run ----

  /** The SYN of the connecting side stays in the network. */
  lemma {:induction false} SynSentAtStart(t: seq<System>, i: nat)
    requires IsRun(t) && i < |t|
    ensures exists g :: g in t[i].a.sent && IsSyn(g)
  {
    assert StepAt(t, i);
    if i > 0 {
      SynSentAtStart(t, i - 1);
      SentGrows(t[i - 1], t[i]);
    } else {
      var configA, nowA, configB, nowB :| t[0] == Init(configA, nowA, configB, nowB);
      assert Syn(Connect(configA, nowA).conn) in t[0].a.sent;
    }
  }

  lemma SentGrows(s: System, s': System)
    requires Next(s, s')
    ensures s.a.sent <= s'.a.sent && s.b.sent <= s'.b.sent
  {}

  /** Handshake progress: in every run, from a connecting side that has not heard anything and a listening side that has
      not failed, three deliveries open both: the SYN, its answer, and the answer to that. */
  lemma HandshakeCompletes(t: seq<System>, i: nat, one: nat, two: nat, three: nat)
    returns (syn: Segment, synAck: Segment, ack: Segment)
    requires IsRun(t) && i < |t| && t[i].a.conn.state == SynSent && t[i].b.conn.state != Failed
    ensures syn in t[i].a.sent && synAck in OnSegment(t[i].b.conn, one, syn).out
    ensures ack in OnSegment(t[i].a.conn, two, synAck).out && WasOpen(OnSegment(t[i].a.conn, two, synAck).conn)
    ensures WasOpen(OnSegment(OnSegment(t[i].b.conn, one, syn).conn, three, ack).conn)
  {
    ListensStill(t, i);
    SynSentAtStart(t, i);
    syn :| syn in t[i].a.sent && IsSyn(syn);
    synAck, ack := ThreeDeliveries(t[i].a.conn, t[i].b.conn, syn, one, two, three);
  }

  lemma ThreeDeliveries(a: Conn, b: Conn, syn: Segment, one: nat, two: nat, three: nat)
    returns (synAck: Segment, ack: Segment)
    requires IsSyn(syn) && a.state == SynSent && (b.state == Listening || b.state == SynReceived)
    ensures synAck in OnSegment(b, one, syn).out
    ensures ack in OnSegment(a, two, synAck).out && WasOpen(OnSegment(a, two, synAck).conn)
    ensures WasOpen(OnSegment(OnSegment(b, one, syn).conn, three, ack).conn)
  {
    synAck := SynAnswered(b, one, syn);
    ack := SynAckAnswered(a, two, synAck);
    CompletionOpens(OnSegment(b, one, syn).conn, three, ack);
  }

  /** While one side is still connecting the other has not opened. */
  lemma ListensStill(t: seq<System>, i: nat)
    requires IsRun(t) && i < |t| && t[i].a.conn.state == SynSent && t[i].b.conn.state != Failed
    ensures t[i].b.conn.state == Listening || t[i].b.conn.state == SynReceived
  {
    RunKeepsInv(t, i);
    var ca, cb :| InvWith(t[i], ca, cb);
  }
}
