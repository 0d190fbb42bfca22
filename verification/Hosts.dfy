/**
 A connection that sends into a channel, as the drivers of the repository wire them up. What the connection sends waits
 until the next round before it enters the channel. Each operation of a host is an action of its side of the
 two-endpoint system, and what a channel hands over are copies of what the side sent.
 */
module Hosts {
  import opened Bytes
  import opened Segments
  import opened Channels
  import opened Network
  import opened TornSafety
  import opened Connections
  import opened Rounds

  /** The draws for one datagram sent into the channel. */
  datatype Plan = Plan(loss: bool, duplication: bool, first: Draw, second: Draw)

  // ---- What is on the way carries what was sent ----

  /** `d` carries a segment that the side sent. */
  ghost predicate Carries(d: seq<byte>, sent: set<Segment>) {
    exists g :: g in sent && d == EncodeSegment(g)
  }

  ghost predicate AllCarry(ds: seq<seq<byte>>, sent: set<Segment>) {
    forall i :: 0 <= i < |ds| ==> Carries(ds[i], sent)
  }

  lemma CarriesMore(d: seq<byte>, sent: set<Segment>, more: set<Segment>)
    requires Carries(d, sent)
    ensures Carries(d, sent + more)
  {
    var g :| g in sent && d == EncodeSegment(g);
    assert g in sent + more;
  }

  /** Everything sent has entered the channel or waits for it. */
  ghost predicate OnTheWay(sent: set<Segment>, offered: seq<seq<byte>>, pending: seq<seq<byte>>) {
    forall g :: g in sent ==> EncodeSegment(g) in offered || EncodeSegment(g) in pending
  }

  lemma WireOnTheWay(sent: set<Segment>, offered: seq<seq<byte>>, pending: seq<seq<byte>>, out: seq<Segment>)
    requires OnTheWay(sent, offered, pending)
    ensures OnTheWay(sent + AsSet(out), offered, pending + Wire(out))
  {
    forall g | g in sent + AsSet(out) ensures EncodeSegment(g) in offered || EncodeSegment(g) in pending + Wire(out) {
      if g !in sent {
        var i :| 0 <= i < |out| && out[i] == g;
        assert Wire(out)[i] == EncodeSegment(g);
      }
    }
  }

  lemma WireCarries(ds: seq<seq<byte>>, sent: set<Segment>, out: seq<Segment>)
    requires AllCarry(ds, sent)
    ensures AllCarry(ds, sent + AsSet(out)) && AllCarry(ds + Wire(out), sent + AsSet(out))
  {
    var all := sent + AsSet(out);
    forall i | 0 <= i < |ds| ensures Carries(ds[i], all) { CarriesMore(ds[i], sent, AsSet(out)); }
    forall i | 0 <= i < |out| ensures Carries(Wire(out)[i], all) {
      assert out[i] in all && Wire(out)[i] == EncodeSegment(out[i]);
    }
  }

  /** A copy of a datagram that carries a sent segment emerges from the channel as a copy of that segment. */
  lemma CopyEmerges(d: seq<byte>, offered: seq<seq<byte>>, sent: set<Segment>, torn: bool)
    requires AllCarry(offered, sent) && IsCopy(d, offered, torn)
    ensures Emerges(d, sent, torn)
  {
    var j, fault :| 0 <= j < |offered| && MadeOf(d, offered[j], fault, torn);
    assert Carries(offered[j], sent);
    var g :| g in sent && offered[j] == EncodeSegment(g);
    assert EmergesAs(d, g, fault, torn);
  }

  /** `ready` are the payloads of the slots listed. */
  ghost predicate LoggedAs(ready: seq<seq<byte>>, log: seq<nat>, copies: seq<Emitted>) {
    |ready| == |log| && forall i :: 0 <= i < |log| ==> log[i] < |copies| && ready[i] == copies[log[i]].bytes
  }

  /** `ready` are the payloads of the slots that the channel has logged beyond `before`. */
  ghost predicate NewlyLogged(ready: seq<seq<byte>>, before: seq<nat>, log: seq<nat>, copies: seq<Emitted>) {
    before <= log && LoggedAs(ready, log[|before|..], copies)
  }

  lemma LoggedAre(ready: seq<seq<byte>>, taken: seq<Entry>, before: seq<nat>, copies: seq<Emitted>)
    requires HandsOver(ready, taken, copies)
    ensures NewlyLogged(ready, before, before + Ids(taken), copies)
  {
    assert (before + Ids(taken))[|before|..] == Ids(taken);
  }

  lemma LoggedMore(all: seq<seq<byte>>, log: seq<nat>, copies: seq<Emitted>, ready: seq<seq<byte>>, log': seq<nat>,
                   copies': seq<Emitted>)
    requires LoggedAs(all, log, copies) && copies <= copies' && NewlyLogged(ready, log, log', copies')
    ensures LoggedAs(all + ready, log', copies')
  {
    assert log' == log + log'[|log|..];
  }

  lemma CopiesEmerge(ready: seq<seq<byte>>, offered: seq<seq<byte>>, sent: set<Segment>, torn: bool)
    requires AllCarry(offered, sent) && forall i :: 0 <= i < |ready| ==> IsCopy(ready[i], offered, torn)
    ensures AllEmerge(ready, sent, torn)
  {
    forall i | 0 <= i < |ready| ensures Emerges(ready[i], sent, torn) { CopyEmerges(ready[i], offered, sent, torn); }
  }

  lemma OneMoreReply(pending: seq<seq<byte>>, x: Side, now: nat, ds: seq<seq<byte>>, i: nat)
    requires i < |ds|
    ensures var act := ActionOf(now, ds[i]);
            && Handled(x, now, ds[..i + 1]) == Apply(Handled(x, now, ds[..i]), act)
            && pending + Wire(Replies(x, now, ds[..i + 1]))
                 == pending + Wire(Replies(x, now, ds[..i])) + Wire(Effect(Handled(x, now, ds[..i]).conn, act).out)
  {
    assert ds[..i + 1][..i] == ds[..i];
    var more := Effect(Handled(x, now, ds[..i]).conn, ActionOf(now, ds[i])).out;
    WireConcat(Replies(x, now, ds[..i]), more);
    Assoc(pending, Wire(Replies(x, now, ds[..i])), Wire(more));
  }

  class Host {
    const conn: Connection
    const link: Channel
    /** Sent by the connection and not yet in the channel. */
    var pending: seq<seq<byte>>
    ghost var side: Side

    ghost predicate ConnOk()
      reads this, conn, conn.rto
    {
      side.conn == conn.View() && AllCarry(pending, side.sent)
    }

    ghost predicate LinkOk()
      reads this, link
    {
      link.Valid() && AllCarry(link.offered, side.sent)
    }

    ghost predicate Valid()
      reads this, conn, conn.rto, link
    {
      ConnOk() && LinkOk() && OnTheWay(side.sent, link.offered, pending)
    }

    /** The host as one side of the initial state: `pending` is what it has sent so far, nothing or its SYN. */
    constructor (conn: Connection, link: Channel, pending: seq<seq<byte>>, ghost side: Side)
      requires side.conn == conn.View() && link.Valid() && link.offered == []
      requires AllCarry(pending, side.sent) && OnTheWay(side.sent, [], pending)
      ensures Valid() && this.conn == conn && this.link == link && this.side == side && this.pending == pending
    {
      this.conn, this.link, this.side, this.pending := conn, link, side, pending;
    }

    /** `side` and `pending` after `act`. */
    twostate predicate Acted(act: Action)
      reads this
    {
      side == Apply(old(side), act) && pending == old(pending) + Wire(Effect(old(side).conn, act).out)
    }

    method Tick(time: nat)
      requires Valid()
      modifies this, conn, conn.rto
      ensures Valid() && Acted(Network.Tick(time))
    {
      var out := conn.OnTick(time);
      Note(Network.Tick(time), out);
    }

    method AppSend(time: nat, data: seq<byte>)
      requires Valid()
      modifies this, conn
      ensures Valid() && Acted(Network.AppSend(time, data))
    {
      var out := conn.Send(time, data);
      Note(Network.AppSend(time, data), out);
    }

    method AppClose(time: nat)
      requires Valid()
      modifies this, conn
      ensures Valid() && Acted(Network.AppClose(time))
    {
      var out := conn.Close(time);
      Note(Network.AppClose(time), out);
    }

    method AppRecv() returns (bytes: seq<byte>)
      requires Valid()
      modifies this, conn
      ensures Valid() && Acted(Network.AppRecv) && bytes == old(side.conn.rx.delivered)
    {
      bytes := conn.Recv();
      Note(Network.AppRecv, []);
    }

    /** A datagram arrives, whatever it is. */
    method Arrive(time: nat, datagram: seq<byte>)
      requires Valid()
      modifies this, conn, conn.rto
      ensures Valid() && Acted(ActionOf(time, datagram))
    {
      var out := conn.OnDatagram(time, datagram);
      Note(ActionOf(time, datagram), out);
    }

    /** What the connection sent waits for the channel. */
    method Note(ghost act: Action, out: seq<seq<byte>>)
      requires AllCarry(pending, side.sent) && LinkOk() && OnTheWay(side.sent, link.offered, pending)
      requires Effect(side.conn, act).conn == conn.View() && out == Wire(Effect(side.conn, act).out)
      modifies this
      ensures Valid() && Acted(act)
    {
      WireOnTheWay(side.sent, link.offered, pending, Effect(side.conn, act).out);
      WireCarries(pending, side.sent, Effect(side.conn, act).out);
      WireCarries(link.offered, side.sent, Effect(side.conn, act).out);
      pending, side := pending + out, Apply(side, act);
    }

    /** Everything that arrives in a round, in order. */
    method ArriveAll(time: nat, ready: seq<seq<byte>>)
      requires Valid()
      modifies this, conn, conn.rto
      ensures Valid() && side == Handled(old(side), time, ready)
      ensures pending == old(pending) + Wire(Replies(old(side), time, ready))
    {
      for i := 0 to |ready|
        invariant Valid() && side == Handled(old(side), time, ready[..i])
        invariant pending == old(pending) + Wire(Replies(old(side), time, ready[..i]))
      {
        OneMoreReply(old(pending), old(side), time, ready, i);
        Arrive(time, ready[i]);
      }
      assert ready[..|ready|] == ready;
    }

    /** Everything that waits enters the channel. */
    method Flush(plans: nat -> Plan)
      requires Valid()
      modifies this`pending, link
      ensures Valid() && pending == [] && Offered(link, old(link.offered), old(pending))
      ensures Grown(link)
    {
      SendAll(link, pending, plans);
      pending := [];
    }

    /** Time passes on the channel; it hands over everything that is due, copies of what this side sent. */
    method Emerge(to: nat) returns (ready: seq<seq<byte>>)
      requires LinkOk()
      modifies link
      ensures LinkOk() && link.offered == old(link.offered) && link.torn == old(link.torn)
      ensures link.copies == old(link.copies)
      ensures link.now == Max(old(link.now), to) && NoneDue(link.inFlight, link.now)
      ensures NewlyLogged(ready, old(link.log), link.log, link.copies) && AllEmerge(ready, side.sent, link.torn)
    {
      ghost var taken;
      ready, taken := link.Advance(to);
      LoggedAre(ready, taken, old(link.log), link.copies);
      CopiesEmerge(ready, link.offered, side.sent, link.torn);
    }
  }

  /** The channel was offered `more` after `before`. */
  ghost predicate Offered(link: Channel, before: seq<seq<byte>>, more: seq<seq<byte>>)
    reads link
  {
    link.offered == before + more
  }

  /** More copies are in the channel; nothing has left it and no time has passed. */
  twostate predicate Grown(link: Channel)
    reads link
  {
    && link.log == old(link.log) && link.now == old(link.now) && old(link.copies) <= link.copies
    && (old(link.torn) ==> link.torn)
  }

  method SendAll(link: Channel, ds: seq<seq<byte>>, plans: nat -> Plan)
    requires link.Valid()
    modifies link
    ensures link.Valid() && Offered(link, old(link.offered), ds)
    ensures Grown(link)
  {
    for i := 0 to |ds|
      invariant link.Valid() && Offered(link, old(link.offered), ds[..i])
      invariant Grown(link)
    {
      SendOne(link, ds[i], plans(i));
      assert ds[..i + 1] == ds[..i] + [ds[i]];
    }
    assert ds[..|ds|] == ds;
  }

  method SendOne(link: Channel, d: seq<byte>, p: Plan)
    requires link.Valid()
    modifies link
    ensures link.Valid() && Offered(link, old(link.offered), [d])
    ensures Grown(link)
  {
    link.Send(d, p.loss, p.duplication, p.first, p.second);
  }

  /** Two hosts that share no object. */
  predicate Apart(x: Host, y: Host) {
    x != y && x.conn != y.conn && x.conn.rto != y.conn.rto && x.link != y.link
  }

  /** Time passes on the channel from `y` to `x`, and `x` handles everything that arrives. */
  method Deliver(x: Host, y: Host, time: nat) returns (ready: seq<seq<byte>>)
    requires Apart(x, y) && x.Valid() && y.Valid()
    modifies x, x.conn, x.conn.rto, y.link
    ensures x.Valid() && y.Valid() && x.side == Handled(old(x.side), time, ready)
    ensures x.pending == old(x.pending) + Wire(Replies(old(x.side), time, ready))
    ensures AllEmerge(ready, y.side.sent, y.link.torn) && y.link.torn == old(y.link.torn)
    ensures y.link.copies == old(y.link.copies)
    ensures y.link.now == Max(old(y.link.now), time) && NoneDue(y.link.inFlight, y.link.now)
    ensures NewlyLogged(ready, old(y.link.log), y.link.log, y.link.copies)
  {
    ready := y.Emerge(time);
    x.ArriveAll(time, ready);
  }
}
