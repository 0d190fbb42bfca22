/**
 A run that only a torn delivery makes possible, with bytes for which the channel can really tear: five bytes are sent,
 the receiver gets the first, acknowledges it, and the sender forgets the other four. So an acknowledgement can cut a
 segment in two, and a seen FIN does not mean that everything was delivered. Both hold in every run without a torn
 delivery.
 */
module TornWitness {
  import opened Bytes
  import opened Segments
  import opened Frames
  import opened Damage
  import opened Rto
  import opened Transport
  import opened Network
  import opened TornNetwork
  import opened ReceiveSafety
  import opened Witnesses

  /** Segments of five bytes. */
  const CONFIG: Config := ConfigFields(5, 5, 5, 5, 1, 3)

  const HEADER: SegmentHeader := SegmentHeader(0, false, 5, [])

  /** What the receiver is made to see: one byte. */
  const TORN: Segment := Segment(0, false, true, false, HEADER, ONE)

  /** The checksum of its frame. */
  function Trailer(): (t: seq<byte>)
    ensures |t| == CRC_LEN
  {
    EncodedParts(SegmentFrame(TORN));
    Encode(SegmentFrame(TORN))[HEADER_LEN + |SegmentFrame(TORN).payload|..]
  }

  /** The bytes sent: the one byte, then that checksum. */
  function Bytes5(): (data: seq<byte>)
    ensures |data| == 5 && ONE <= data
  {
    ONE + Trailer()
  }

  function Whole(): Segment { TORN.(data := Bytes5()) }

  /** The third bit of the length field, and the cut to the torn frame. */
  const AT: LengthBit := BitAt(8, 2)

  function Tear(): Fault { Fault(Some(AT), Some(|Encode(SegmentFrame(TORN))|)) }

  lemma HeaderLength()
    ensures |EncodeHeader(HEADER)| == 10 && HeaderFits(HEADER)
  {
    assert HEADER.sack[..0] == [];
  }

  const ELEVEN: seq<bool> := [true, true, false, true, false, false, false, false]
  const FIFTEEN: seq<bool> := [true, true, true, true, false, false, false, false]

  lemma BitsOfEleven()
    ensures ByteBits(11) == ELEVEN
  {
    assert ToBits(11, 8) == ELEVEN;
  }

  lemma BitsOfFifteen()
    ensures ByteBits(15) == FIFTEEN
  {
    assert ToBits(15, 8) == FIFTEEN;
  }

  lemma FlipEleven()
    ensures FlipBit(11, 2) == 15
  {
    BitsOfEleven();
    BitsOfFifteen();
    FlipBitBits(11, 2);
    assert ELEVEN[2 := true] == FIFTEEN;
    ByteBitsInjective(FlipBit(11, 2), 15);
  }

  lemma ElevenToFifteen()
    ensures FlippedLength(11, AT) == 15
  {
    FlipEleven();
    assert Le32(11) == [11] + ToLe(0, 3) && Le32(15) == [15] + ToLe(0, 3);
    assert FlippedField(11, AT) == Le32(15);
    Le32RoundTrip(15);
  }

  lemma WholeIsDisguise()
    ensures Disguise(SegmentFrame(TORN), []) == SegmentFrame(Whole()) && |SegmentFrame(TORN).payload| == 11
  {
    HeaderLength();
    var inner := SegmentFrame(TORN);
    EncodedParts(inner);
    AfterHeader(Encode(inner), inner.payload);
    Assoc(EncodeHeader(HEADER), ONE, Trailer());
  }

  lemma AfterHeader(d: seq<byte>, payload: seq<byte>)
    requires |d| >= HEADER_LEN + |payload| && payload <= d[HEADER_LEN..]
    ensures d[HEADER_LEN..] + [] == payload + d[HEADER_LEN + |payload|..]
  {}

  /** The channel can tear the segment: a copy of it, with these faults, parses as its first byte. */
  lemma RealTear()
    ensures TornFrom(TORN, Whole()) && ParseSegment(Damaged(EncodeSegment(Whole()), Tear())) == Some(TORN)
  {
    WholeIsDisguise();
    HeaderLength();
    ElevenToFifteen();
    FalseAccept(SegmentFrame(TORN), AT, []);
    FrameRoundTrip(TORN);
  }

  // ---- The run ----

  function Sent(): System { Sending(CONFIG, Bytes5()) }

  lemma OneSegmentLoop(c: Conn)
    requires c.config == CONFIG && c.tx.sendQueue == Bytes5() && Allowance(c.tx) >= 5
    ensures SendLoop(c).conn == Admit(c, 5) && Data(c.config, c.rx, c.tx.nextSeq, Bytes5()) in SendLoop(c).out
  {
    assert c.tx.sendQueue[..5] == Bytes5();
    LoopStops(Admit(c, 5));
  }

  lemma SentIs()
    ensures Sent().a.conn.tx.unacked == [Unacked(0, Bytes5(), 1, 0, false)] && Sent().a.conn.tx.sendBase == 0
    ensures Sent().a.conn.state == Established && Sent().a.conn.tx.sendQueue == [] && Sent().a.conn.tx.finPending.None?
    ensures Sent().a.conn.config == CONFIG && !Sent().a.conn.tx.finAcked && !Sent().a.conn.tx.closeRequested
  {
    SendingIsLoop(CONFIG, Bytes5());
    OneSegmentLoop(AboutToSend(CONFIG, Bytes5()));
    assert Bytes5()[..5] == Bytes5() && Bytes5()[5..] == [];
  }

  lemma WholeOut()
    ensures Whole() in Send(Fresh(CONFIG), 1, Bytes5()).out
  {
    EmptyHeader(CONFIG);
    var c := Fresh(CONFIG);
    assert c.tx.sendQueue + Bytes5() == Bytes5();
    OneSegmentLoop(AboutToSend(CONFIG, Bytes5()));
  }

  /** What an action other than sending leaves of the history. */
  lemma QuietHistory(x: Side, act: Action)
    requires act.Receive? || act.AppClose?
    ensures var x' := Apply(x, act);
            && x'.stream == x.stream && x'.recvd == x.recvd && x'.late == x.late
            && x'.sent == x.sent + AsSet(Effect(x.conn, act).out)
  {}

  lemma SendHistory(x: Side, now: nat, data: seq<byte>)
    ensures var x' := Apply(x, AppSend(now, data));
            && x'.stream == x.stream + data && x'.late == (x.late || x.conn.tx.closeRequested)
            && x'.sent == x.sent + AsSet(Send(x.conn, now, data).out)
  {}

  lemma WholeSent()
    ensures Whole() in Sent().a.sent && !Sent().a.late && Sent().a.stream == Bytes5()
  {
    var x := Joined(CONFIG).a;
    JoinedIs(CONFIG);
    JoinedSilent();
    WholeOut();
    SendHistory(x, 1, Bytes5());
    assert x.stream + Bytes5() == Bytes5();
  }

  lemma JoinedSilent()
    ensures Joined(CONFIG).a.stream == [] && !Joined(CONFIG).a.late
    ensures Sent().b == SynTaken(CONFIG).b && !Sent().b.late && Sent().b.recvd == []
  {}

  /** The receiver after the torn copy. */
  function Got(): System { Sent().(b := Apply(Sent().b, Receive(2, TORN))) }

  const ONE_HELD: Rx := Rx(1, map[], ONE, false)

  function Reply(): Segment { Segment(0, false, true, false, HeaderOf(CONFIG, ONE_HELD, false), []) }

  lemma TornTaken()
    ensures ReceiveSegment(NOTHING, TORN) == ONE_HELD
  {
    assert ONE[0..] == ONE && [] + ONE == ONE;
  }

  lemma GotIs()
    ensures Got().b.conn.rx == ONE_HELD && Got().b.conn.state == Established && Got().b.recvd == []
    ensures Reply() in Got().b.sent && Reply().header.ack == 1
    ensures Got().a == Sent().a && !Got().b.late
  {
    JoinedSilent();
    SynAckIs(CONFIG);
    var c := SynTaken(CONFIG).b.conn;
    CompletesAndTakes(c, 2, TORN);
    OpensQuietly(CompleteHandshake(AdoptWindow(c, 2, TORN.header.window)));
    QuietHistory(Sent().b, Receive(2, TORN));
    ReceiveEffect(Sent().b, 2, TORN);
  }

  /** The segment that completes the handshake of a listening side is also processed. */
  lemma CompletesAndTakes(c: Conn, now: nat, g: Segment)
    requires c.state == SynReceived && g.ack && !g.syn
    ensures OnSegment(c, now, g) == ProcessOpen(CompleteHandshake(AdoptWindow(c, now, g.header.window)), g)
  {
    var c1 := CompleteHandshake(AdoptWindow(c, now, g.header.window));
    assert [] + ProcessOpen(c1, g).out == ProcessOpen(c1, g).out;
  }

  /** An open side that has nothing to send takes the torn segment and answers. */
  lemma OpensQuietly(c: Conn)
    requires c.config == CONFIG && c.state == Established && c.rx == NOTHING && c.tx.unacked == []
    requires c.tx.sendQueue == []
    requires c.tx.sendBase == 0 && !c.tx.closeRequested
    ensures var r := ProcessOpen(c, TORN);
            r.conn.rx == ONE_HELD && r.conn.state == Established && Reply() in r.out
  {
    TornTaken();
    var acked := ApplyAck(c, HEADER);
    assert MarkSacked([], []) == [];
    assert acked == Outcome(c, []);
    var c1 := c.(rx := ONE_HELD);
    LoopStops(c1);
    assert PureAck(c1, false) == Reply();
  }

  // ---- What goes wrong ----

  /** The sender after the acknowledgement of one byte: it has forgotten the other four. */
  function Forgot(): System { Got().(a := Apply(Got().a, Receive(3, Reply()))) }

  lemma ForgotIs()
    ensures var tx := Forgot().a.conn.tx;
            tx.unacked == [] && tx.sendQueue == [] && tx.sendBase == 1 && tx.finPending.None? && !tx.finAcked
    ensures Forgot().a.conn.state == Established && Forgot().b == Got().b
    ensures !Forgot().a.late && Forgot().a.stream == Bytes5()
  {
    SentIs();
    GotIs();
    WholeSent();
    QuietHistory(Sent().a, Receive(3, Reply()));
    OpenTakes(Sent().a.conn, 3, Reply());
    ForgetsAll(AdoptWindow(Sent().a.conn, 3, Reply().header.window), Reply());
  }

  lemma OpenTakes(c: Conn, now: nat, g: Segment)
    requires c.state == Established && !g.syn
    ensures OnSegment(c, now, g) == ProcessOpen(AdoptWindow(c, now, g.header.window), g)
  {
    assert [] + ProcessOpen(AdoptWindow(c, now, g.header.window),
                            g).out == ProcessOpen(AdoptWindow(c, now, g.header.window), g).out;
  }

  lemma DropsOne(u: seq<Unacked>, rto: Estimator, now: nat, ack: nat)
    requires |u| == 1 && u[0].seqNo < ack
    ensures Acknowledge(u, rto, now, ack).0 == []
  {
    assert u[1..] == [];
  }

  lemma ForgetsAll(c: Conn, r: Segment)
    requires c.state == Established && c.tx.unacked == [Unacked(0, Bytes5(), 1, 0, false)] && c.tx.sendBase == 0
    requires c.tx.sendQueue == [] && c.tx.finPending.None? && !c.tx.finAcked && !c.tx.closeRequested
    requires r == Segment(0, false, true, false, r.header, []) && r.header.ack == 1 && !r.header.finAck
    ensures var c' := ProcessOpen(c, r).conn;
            && c'.tx.unacked == [] && c'.tx.sendQueue == [] && c'.tx.sendBase == 1 && c'.tx.finPending.None?
            && !c'.tx.finAcked && c'.state == Established && !c'.tx.closeRequested
  {
    DropsOne(c.tx.unacked, c.rto, c.now, 1);
    var c1 := ApplySackAndFin(NewAck(c, 1), r.header);
    assert c1.tx.unacked == [];
    LoopStops(c1);
  }

  /** The sender closes and its FIN goes out at once. */
  function Closes(): System { Forgot().(a := Apply(Forgot().a, AppClose(4))) }

  predicate BareFin(g: Segment) { g.fin && g.ack && !g.syn && g.data == [] }

  lemma ClosesIs() returns (g: Segment)
    ensures g in Closes().a.sent && BareFin(g)
    ensures !Closes().a.late && Closes().a.stream == Bytes5() && Closes().b == Got().b
  {
    ForgotIs();
    QuietHistory(Forgot().a, AppClose(4));
    g := FinGoesOut(Forgot().a.conn, 4);
    CloseEffect(Forgot().a.conn, 4);
  }

  lemma CloseEffect(c: Conn, now: nat)
    ensures Effect(c, AppClose(now)) == Close(c, now)
  {}

  lemma FinGoesOut(c: Conn, now: nat) returns (g: Segment)
    requires c.state == Established && c.tx.unacked == [] && c.tx.sendQueue == [] && c.tx.finPending.None?
    requires !c.tx.finAcked
    ensures g in Close(c, now).out && BareFin(g)
  {
    var c1 := AdvanceClock(c, now).(tx := c.tx.(closeRequested := true));
    LoopStops(c1);
    assert SendLoop(c1).out == [];
    g := MaybeSendFin(c1).out[0];
  }

  lemma FinSeen(c: Conn, now: nat, g: Segment)
    requires c.state == Established && BareFin(g) && c.rx == ONE_HELD
    ensures OnSegment(c, now, g).conn.rx == ONE_HELD.(peerFinSeen := true)
  {
    OpenTakes(c, now, g);
    ProcessOpenBuilt(AdoptWindow(c, now, g.header.window), g);
  }

  /** The receiver after that FIN. */
  function Ends(g: Segment): System { Closes().(b := Apply(Closes().b, Receive(5, g))) }

  lemma EndsIs(g: Segment)
    requires Closes().b == Got().b && BareFin(g)
    ensures Ends(g).b.conn.rx == ONE_HELD.(peerFinSeen := true) && Ends(g).b.recvd == [] && !Ends(g).b.late
  {
    GotIs();
    QuietHistory(Closes().b, Receive(5, g));
    FinSeen(Closes().b.conn, 5, g);
    ReceiveEffect(Closes().b, 5, g);
  }

  lemma ReceiveEffect(x: Side, now: nat, g: Segment)
    ensures Apply(x, Receive(now, g)).conn == OnSegment(x.conn, now, g).conn
  {}

  // ---- Reachable, torn delivery by torn delivery ----

  lemma GotReachable()
    ensures TornReachable(Got())
  {
    SendingReachable(CONFIG, Bytes5());
    ReachableIsTorn(Sent());
    WholeSent();
    RealTear();
    TornActionB(Sent(), Receive(2, TORN));
  }

  lemma ClosesReachable()
    ensures TornReachable(Closes())
  {
    GotReachable();
    GotIs();
    assert TornFrom(Reply(), Reply());
    TornActionA(Got(), Receive(3, Reply()));
    TornActionA(Forgot(), AppClose(4));
  }

  /** An acknowledgement can cut a segment in two once a copy was torn: the sender will forget undelivered bytes. */
  lemma TornAckCutsSegment()
    ensures exists s, g :: TornReachable(s) && g in s.b.sent && s.a.conn.state != Failed && |s.a.conn.tx.unacked| == 1
              && var u := s.a.conn.tx.unacked[0]; u.seqNo < g.header.ack < u.seqNo + |u.data|
  {
    GotReachable();
    GotIs();
    SentIs();
    assert Reply() in Got().b.sent;
  }

  lemma EndsReachable(g: Segment)
    requires g in Closes().a.sent
    ensures TornReachable(Ends(g))
  {
    ClosesReachable();
    assert TornFrom(g, g);
    TornActionB(Closes(), Receive(5, g));
  }

  /** `b` takes `a` for finished without having all of its bytes, though nobody sent after `close`. */
  ghost predicate LosesData(s: System) {
    !s.a.late && !s.b.late && s.b.conn.rx.peerFinSeen && s.b.recvd + s.b.conn.rx.delivered != s.a.stream
  }

  /** And then a seen FIN does not mean that everything was delivered. */
  lemma TornFinLosesData()
    ensures exists s :: TornReachable(s) && LosesData(s)
  {
    var g := ClosesIs();
    EndsReachable(g);
    EndsLoses(g);
  }

  lemma EndsLoses(g: Segment)
    requires Closes().b == Got().b && BareFin(g) && !Closes().a.late && Closes().a.stream == Bytes5()
    ensures LosesData(Ends(g))
  {
    EndsIs(g);
    assert Ends(g).b.recvd + Ends(g).b.conn.rx.delivered == ONE;
  }
}
