/**
 The two baseline schemes, go-back-N and stop-and-wait, over channels that may drop, delay, duplicate and
 reorder anything, and corrupt it in ways that `decode` rejects.
 */
module Baselines {
  import opened Bytes
  import opened Frames

  datatype ArqConfig = ArqConfig(segmentSize: nat, rto: nat, maxRetries: nat)

  datatype RunResult = RunResult(delivered: seq<byte>, ticksUsed: nat, completed: bool)

  const FLAG_ACK: u16 := 1

  predicate HasAckFlag(flags: u16) { flags % 2 == 1 }

  /** One direction of a link: what arrives at a tick, given everything sent so far. */
  type Link = (nat, seq<seq<byte>>) -> seq<seq<byte>>

  /** Whatever arrives and decodes is a copy of something sent. */
  ghost predicate Authentic(link: Link) {
    forall now, sent, d :: d in link(now, sent) ==> d in sent || Decode(d).Err?
  }

  // ---- Chunks ----

  /** `data.chunks(size)`. */
  function Chunks(data: seq<byte>, size: nat): (cs: seq<seq<byte>>)
    requires size > 0
    ensures |cs| <= |data|
    ensures forall i :: 0 <= i < |cs| ==> 0 < |cs[i]| <= size && |cs[i]| <= |data|
    decreases |data|
  {
    if data == [] then [] else
      var n := Min(size, |data|);
      [data[..n]] + Chunks(data[n..], size)
  }

  function Concat(cs: seq<seq<byte>>): seq<byte> {
    if cs == [] then [] else cs[0] + Concat(cs[1..])
  }

  lemma {:induction false} ConcatChunks(data: seq<byte>, size: nat)
    requires size > 0
    ensures Concat(Chunks(data, size)) == data
    decreases |data|
  {
    if data != [] {
      var n := Min(size, |data|);
      ConcatChunks(data[n..], size);
      assert Chunks(data, size)[1..] == Chunks(data[n..], size);
      assert data == data[..n] + data[n..];
    }
  }

  lemma {:induction false} ConcatSplit(a: seq<seq<byte>>, b: seq<seq<byte>>)
    ensures Concat(a + b) == Concat(a) + Concat(b)
    decreases |a|
  {
    if a == [] {
      assert a + b == b;
    } else {
      assert (a + b)[1..] == a[1..] + b;
      ConcatSplit(a[1..], b);
      Assoc(a[0], Concat(a[1..]), Concat(b));
    }
  }

  lemma ConcatNext(cs: seq<seq<byte>>, n: nat)
    requires n < |cs|
    ensures Concat(cs[..n + 1]) == Concat(cs[..n]) + cs[n]
  {
    assert cs[..n + 1] == cs[..n] + [cs[n]];
    var one := [cs[n]];
    assert one[1..] == [] && Concat(one) == cs[n];
    ConcatSplit(cs[..n], one);
  }

  lemma ConcatPrefix(cs: seq<seq<byte>>, n: nat)
    requires n <= |cs|
    ensures Concat(cs[..n]) <= Concat(cs)
  {
    assert cs == cs[..n] + cs[n..];
    ConcatSplit(cs[..n], cs[n..]);
  }

  // ---- Datagrams ----

  function DataFrame(i: u32, chunk: seq<byte>): Frame { Frame(0, i, 0, chunk) }

  function AckFrame(next: u32): Frame { Frame(0, next, FLAG_ACK, []) }

  /** `x + 1` on 32 bits. */
  function Incremented(x: u32): u32 { if x + 1 < U32_LIMIT then x + 1 else 0 }

  /** The chunks can be numbered in 32 bits and each fits a frame. */
  ghost predicate Numbered(chunks: seq<seq<byte>>) {
    |chunks| < U32_LIMIT && forall i :: 0 <= i < |chunks| ==> |chunks[i]| < U32_LIMIT
  }

  ghost predicate IsData(f: Frame, chunks: seq<seq<byte>>, next: nat) {
    f.sequence < next <= |chunks| && f == DataFrame(f.sequence, chunks[f.sequence])
  }

  /** Only chunks before `next` were ever sent. */
  ghost predicate DataOnly(sent: seq<Frame>, chunks: seq<seq<byte>>, next: nat) {
    forall i :: 0 <= i < |sent| ==> IsData(sent[i], chunks, next)
  }

  /** No acknowledgement ever sent goes beyond `expected`. */
  ghost predicate AcksOnly(sent: seq<Frame>, expected: nat) {
    forall i :: 0 <= i < |sent| ==> sent[i] == AckFrame(sent[i].sequence) && sent[i].sequence <= expected
  }

  /** What a link that has been given `sent` delivers at `now`, datagram by datagram. */
  function Heard(link: Link, now: nat, sent: seq<Frame>): (rs: seq<DecodeResult>) {
    var ds := link(now, Encoded(sent));
    seq(|ds|, i requires 0 <= i < |ds| => Decode(ds[i]))
  }

  function Encoded(fs: seq<Frame>): (ds: seq<seq<byte>>)
    ensures |ds| == |fs| && forall i :: 0 <= i < |fs| ==> ds[i] == Encode(fs[i])
  {
    seq(|fs|, i requires 0 <= i < |fs| => Encode(fs[i]))
  }

  ghost predicate AllFit(sent: seq<Frame>) {
    forall i :: 0 <= i < |sent| ==> |sent[i].payload| < U32_LIMIT
  }

  /** Every frame heard over an authentic link is one of those sent. */
  lemma HeardWasSent(link: Link, now: nat, sent: seq<Frame>, i: nat)
    requires Authentic(link) && AllFit(sent) && i < |Heard(link, now, sent)|
    ensures var r := Heard(link, now, sent)[i]; r.Ok? ==> r.frame in sent
  {
    var ds := Encoded(sent);
    var d := link(now, ds)[i];
    assert d in link(now, ds);
    if d in ds {
      var j :| 0 <= j < |ds| && d == ds[j];
      RoundTrip(sent[j]);
    }
  }

  ghost predicate DataArrives(rs: seq<DecodeResult>, chunks: seq<seq<byte>>, next: nat) {
    forall i :: 0 <= i < |rs| && rs[i].Ok? ==> IsData(rs[i].frame, chunks, next)
  }

  ghost predicate AcksArrive(rs: seq<DecodeResult>, expected: nat) {
    forall i :: 0 <= i < |rs| && rs[i].Ok? ==> rs[i].frame.sequence <= expected
  }

  lemma DataArrival(link: Link, now: nat, sent: seq<Frame>, chunks: seq<seq<byte>>, next: nat)
    requires Authentic(link) && DataOnly(sent, chunks, next) && Numbered(chunks)
    ensures DataArrives(Heard(link, now, sent), chunks, next)
  {
    assert AllFit(sent);
    forall i | 0 <= i < |Heard(link, now, sent)| && Heard(link, now, sent)[i].Ok?
      ensures IsData(Heard(link, now, sent)[i].frame, chunks, next)
    {
      HeardWasSent(link, now, sent, i);
    }
  }

  lemma AckArrival(link: Link, now: nat, sent: seq<Frame>, expected: nat)
    requires Authentic(link) && AcksOnly(sent, expected)
    ensures AcksArrive(Heard(link, now, sent), expected)
  {
    assert AllFit(sent);
    forall i | 0 <= i < |Heard(link, now, sent)| && Heard(link, now, sent)[i].Ok?
      ensures Heard(link, now, sent)[i].frame.sequence <= expected
    {
      HeardWasSent(link, now, sent, i);
    }
  }

  // ---- The receiver, the same in both schemes ----

  /** Everything delivered is the first `expected` chunks. */
  ghost predicate Delivered(delivered: seq<byte>, chunks: seq<seq<byte>>, expected: nat) {
    expected <= |chunks| && delivered == Concat(chunks[..expected])
  }

  lemma DeliveredIsPrefix(data: seq<byte>, size: nat, delivered: seq<byte>, expected: nat)
    requires size > 0 && Delivered(delivered, Chunks(data, size), expected)
    ensures delivered <= data && (expected == |Chunks(data, size)| ==> delivered == data)
  {
    var chunks := Chunks(data, size);
    ConcatChunks(data, size);
    ConcatPrefix(chunks, expected);
    assert chunks[..|chunks|] == chunks;
  }

  datatype Receiver = Receiver(expected: u32, delivered: seq<byte>, back: seq<Frame>)

  /** One arrival: the expected chunk is delivered, and any intact frame is answered with the cumulative point. */
  function OnArrival(r: Receiver, arrival: DecodeResult): Receiver {
    if arrival.Err? then r else
      var isNext := arrival.frame.sequence == r.expected;
      var expected := if isNext then Incremented(r.expected) else r.expected;
      Receiver(expected, if isNext then r.delivered + arrival.frame.payload else r.delivered,
               r.back + [AckFrame(expected)])
  }

  function OnArrivals(r: Receiver, arrivals: seq<DecodeResult>): Receiver
    decreases |arrivals|
  {
    if arrivals == [] then r else OnArrivals(OnArrival(r, arrivals[0]), arrivals[1..])
  }

  ghost predicate ReceiverOk(r: Receiver, chunks: seq<seq<byte>>, next: nat) {
    r.expected <= next && Delivered(r.delivered, chunks, r.expected) && AcksOnly(r.back, r.expected)
  }

  lemma OnArrivalKeeps(r: Receiver, arrival: DecodeResult, chunks: seq<seq<byte>>, next: nat)
    requires Numbered(chunks) && (arrival.Ok? ==> IsData(arrival.frame, chunks, next)) && ReceiverOk(r, chunks, next)
    ensures ReceiverOk(OnArrival(r, arrival), chunks, next) && r.expected <= OnArrival(r, arrival).expected
  {
    if arrival.Ok? && arrival.frame.sequence == r.expected { ConcatNext(chunks, r.expected); }
  }

  lemma {:induction false} OnArrivalsKeep(r: Receiver, arrivals: seq<DecodeResult>, chunks: seq<seq<byte>>, next: nat)
    requires Numbered(chunks) && DataArrives(arrivals, chunks, next) && ReceiverOk(r, chunks, next)
    ensures ReceiverOk(OnArrivals(r, arrivals), chunks, next) && r.expected <= OnArrivals(r, arrivals).expected
    decreases |arrivals|
  {
    if arrivals != [] {
      OnArrivalKeeps(r, arrivals[0], chunks, next);
      OnArrivalsKeep(OnArrival(r, arrivals[0]), arrivals[1..], chunks, next);
    }
  }

  /** The receiving loop of a tick. */
  method Accept(arrivals: seq<DecodeResult>, r: Receiver) returns (r': Receiver)
    ensures r' == OnArrivals(r, arrivals)
  {
    r' := r;
    assert arrivals[0..] == arrivals;
    for k := 0 to |arrivals|
      invariant OnArrivals(r', arrivals[k..]) == OnArrivals(r, arrivals)
    {
      assert arrivals[k..][1..] == arrivals[k + 1..];
      if arrivals[k].Ok? {
        if arrivals[k].frame.sequence == r'.expected {
          r' := r'.(delivered := r'.delivered + arrivals[k].frame.payload, expected := Incremented(r'.expected));
        }
        r' := r'.(back := r'.back + [AckFrame(r'.expected)]);
      }
    }
  }

  // ---- The sender's transmissions ----

  /** The frames of chunks `from` to `to`. */
  function Batch(chunks: seq<seq<byte>>, from: nat, to: nat): (fs: seq<Frame>)
    requires from <= to <= |chunks| < U32_LIMIT
    ensures |fs| == to - from && forall i :: 0 <= i < |fs| ==> fs[i] == DataFrame(from + i, chunks[from + i])
  {
    seq(to - from, i requires 0 <= i < to - from => DataFrame(from + i, chunks[from + i]))
  }

  lemma BatchNext(chunks: seq<seq<byte>>, from: nat, to: nat)
    requires from <= to < |chunks| < U32_LIMIT
    ensures Batch(chunks, from, to + 1) == Batch(chunks, from, to) + [DataFrame(to, chunks[to])]
  {}

  lemma BatchKeeps(sent: seq<Frame>, chunks: seq<seq<byte>>, from: nat, to: nat, next: nat)
    requires Numbered(chunks) && DataOnly(sent, chunks, next) && from <= to <= |chunks| && next <= |chunks|
    ensures DataOnly(sent + Batch(chunks, from, to), chunks, Max(next, to))
  {}

  // ---- Go-back-N ----

  datatype Sender = Sender(base: nat, next: nat, oldest: Option<nat>, retries: nat, fwd: seq<Frame>)

  /** Both ends after a tick. */
  datatype Ends = Ends(s: Sender, r: Receiver)

  /** The sender's base, the receiver's point and the end of the window, in order. */
  ghost predicate WindowOk(e: Ends, window: nat) {
    e.s.base <= e.r.expected <= e.s.next <= e.s.base + window
  }

  /** An acknowledgement of everything before `k`. */
  predicate Acknowledges(r: DecodeResult, k: nat) {
    r.Ok? && HasAckFlag(r.frame.flags) && r.frame.sequence == k
  }

  predicate AnyAcknowledges(rs: seq<DecodeResult>, k: nat) {
    exists i :: 0 <= i < |rs| && Acknowledges(rs[i], k)
  }

  /** The loop over arriving acknowledgements: `base` becomes the greatest of them, if it advances at all. */
  method TakeAcks(arrivals: seq<DecodeResult>, now: nat, next: nat, base: nat, oldest: Option<nat>, retries: nat)
    returns (base': nat, oldest': Option<nat>, retries': nat)
    ensures base <= base' && (base' == base || AnyAcknowledges(arrivals, base'))
    ensures forall i :: 0 <= i < |arrivals| && arrivals[i].Ok? && HasAckFlag(arrivals[i].frame.flags) ==>
        arrivals[i].frame.sequence <= base'
    ensures if base' == base then oldest' == oldest && retries' == retries
            else retries' == 0 && oldest' == if base' < next then Some(now) else None
  {
    base', oldest', retries' := base, oldest, retries;
    for i := 0 to |arrivals|
      invariant base <= base' && (base' == base || AnyAcknowledges(arrivals, base'))
      invariant forall j :: 0 <= j < i && arrivals[j].Ok? && HasAckFlag(arrivals[j].frame.flags) ==>
          arrivals[j].frame.sequence <= base'
      invariant if base' == base then oldest' == oldest && retries' == retries
                else retries' == 0 && oldest' == if base' < next then Some(now) else None
    {
      var r := arrivals[i];
      if r.Ok? && HasAckFlag(r.frame.flags) && r.frame.sequence > base' {
        assert Acknowledges(arrivals[i], r.frame.sequence);
        base', retries' := r.frame.sequence, 0;
        oldest' := if base' < next then Some(now) else None;
      }
    }
  }

  /** Fills the window. */
  method Fill(chunks: seq<seq<byte>>, window: nat, now: nat, base: nat, next: nat, oldest: Option<nat>, fwd: seq<Frame>)
    returns (next': nat, oldest': Option<nat>, fwd': seq<Frame>)
    requires Numbered(chunks) && next <= |chunks|
    ensures next' == Max(next, Min(base + window, |chunks|)) && fwd' == fwd + Batch(chunks, next, next')
    ensures oldest' == if next' > next && oldest.None? then Some(now) else oldest
  {
    next', oldest', fwd' := next, oldest, fwd;
    while next' < base + window && next' < |chunks|
      invariant next <= next' <= Max(next, Min(base + window, |chunks|)) && fwd' == fwd + Batch(chunks, next, next')
      invariant oldest' == if next' > next && oldest.None? then Some(now) else oldest
    {
      BatchNext(chunks, next, next');
      fwd' := fwd' + [DataFrame(next', chunks[next'])];
      if oldest'.None? { oldest' := Some(now); }
      next' := next' + 1;
    }
  }

  /** Sends the whole window again. */
  method GoBack(chunks: seq<seq<byte>>, base: nat, next: nat, fwd: seq<Frame>) returns (fwd': seq<Frame>)
    requires Numbered(chunks) && base <= next <= |chunks|
    ensures fwd' == fwd + Batch(chunks, base, next)
  {
    fwd' := fwd;
    for i := base to next
      invariant fwd' == fwd + Batch(chunks, base, i)
    {
      BatchNext(chunks, base, i);
      fwd' := fwd' + [DataFrame(i, chunks[i])];
    }
  }

  ghost predicate GoBackOk(s: Sender, r: Receiver, chunks: seq<seq<byte>>, window: nat) {
    && s.base <= r.expected && s.next <= s.base + window && s.next <= |chunks|
    && ReceiverOk(r, chunks, s.next) && DataOnly(s.fwd, chunks, s.next)
  }

  /** The receiver's part of a tick. */
  method ReceivePart(link: Link, tick: nat, ghost chunks: seq<seq<byte>>, ghost window: nat, s: Sender,
                     r: Receiver) returns (r': Receiver)
    requires Authentic(link) && Numbered(chunks) && GoBackOk(s, r, chunks, window)
    ensures GoBackOk(s, r', chunks, window) && r' == OnArrivals(r, Heard(link, tick, s.fwd))
  {
    DataArrival(link, tick, s.fwd, chunks, s.next);
    OnArrivalsKeep(r, Heard(link, tick, s.fwd), chunks, s.next);
    r' := Accept(Heard(link, tick, s.fwd), r);
  }

  /** The base has moved to the greatest acknowledgement that arrived, and with it the timer and the retries. */
  ghost predicate AcksTaken(s: Sender, s': Sender, arrivals: seq<DecodeResult>, tick: nat) {
    && s'.next == s.next && s'.fwd == s.fwd
    && s.base <= s'.base && (s'.base == s.base || AnyAcknowledges(arrivals, s'.base))
    && (forall i :: 0 <= i < |arrivals| && arrivals[i].Ok? && HasAckFlag(arrivals[i].frame.flags) ==>
          arrivals[i].frame.sequence <= s'.base)
    && if s'.base == s.base then s' == s
       else s'.retries == 0 && s'.oldest == if s'.base < s.next then Some(tick) else None
  }

  /** The window is full or the data is used up; a timer that was not running runs. */
  ghost predicate WindowFilled(s: Sender, s': Sender, chunks: seq<seq<byte>>, window: nat, tick: nat) {
    && s.next <= |chunks| < U32_LIMIT && s'.base == s.base && s'.retries == s.retries
    && s'.next == Max(s.next, Min(s.base + window, |chunks|)) && s'.fwd == s.fwd + Batch(chunks, s.next, s'.next)
    && s'.oldest == if s'.next > s.next && s.oldest.None? then Some(tick) else s.oldest
  }

  predicate Due(s: Sender, config: ArqConfig, tick: nat) {
    s.oldest.Some? && SatSub(tick, s.oldest.value) >= config.rto
  }

  /** On a timeout the whole window goes again, or the sender gives up. */
  ghost predicate TimerRun(s: Sender, s': Sender, config: ArqConfig, chunks: seq<seq<byte>>, tick: nat, gaveUp: bool) {
    && s.base <= s.next <= |chunks| < U32_LIMIT && s'.base == s.base && s'.next == s.next
    && gaveUp == (Due(s, config, tick) && s.retries >= config.maxRetries)
    && s'.retries == s.retries + (if Due(s, config, tick) then 1 else 0)
    && if Due(s, config, tick) && !gaveUp then
         s'.oldest == Some(tick) && s'.fwd == s.fwd + Batch(chunks, s.base, s.next)
       else s'.oldest == s.oldest && s'.fwd == s.fwd
  }

  /** The sender's part of a tick, up to the timer: acknowledgements, then a full window. */
  method SendPart(link: Link, tick: nat, chunks: seq<seq<byte>>, window: nat, s: Sender,
                  r: Receiver) returns (s': Sender, ghost mid: Sender)
    requires Authentic(link) && Numbered(chunks) && GoBackOk(s, r, chunks, window)
    ensures GoBackOk(s', r, chunks, window)
    ensures AcksTaken(s, mid, Heard(link, tick, r.back), tick) && WindowFilled(mid, s', chunks, window, tick)
  {
    AckArrival(link, tick, r.back, r.expected);
    var base, oldest, retries := TakeAcks(Heard(link, tick, r.back), tick, s.next, s.base, s.oldest, s.retries);
    mid := Sender(base, s.next, oldest, retries, s.fwd);
    var next, fwd;
    next, oldest, fwd := Fill(chunks, window, tick, base, s.next, oldest, s.fwd);
    BatchKeeps(s.fwd, chunks, s.next, next, s.next);
    s' := Sender(base, next, oldest, retries, fwd);
  }

  /** The timer: the whole window again, or giving up. */
  method TimerPart(config: ArqConfig, tick: nat, chunks: seq<seq<byte>>, ghost window: nat, s: Sender,
                   ghost r: Receiver)
    returns (s': Sender, gaveUp: bool)
    requires Numbered(chunks) && GoBackOk(s, r, chunks, window)
    ensures GoBackOk(s', r, chunks, window) && TimerRun(s, s', config, chunks, tick, gaveUp)
  {
    s', gaveUp := s, false;
    if s.oldest.Some? && SatSub(tick, s.oldest.value) >= config.rto {
      s' := s'.(retries := s.retries + 1);
      if s'.retries > config.maxRetries { gaveUp := true; return; }
      BatchKeeps(s.fwd, chunks, s.base, s.next, s.next);
      var fwd := GoBack(chunks, s.base, s.next, s.fwd);
      s' := s'.(fwd := fwd, oldest := Some(tick));
    }
  }

  /** Both directions of a link with what does not change during a run. */
  datatype Setting = Setting(chunks: seq<seq<byte>>, fwdLink: Link, backLink: Link, config: ArqConfig, window: nat)

  /** One tick of go-back-N: the receiver takes what arrives, the sender takes the acknowledgements, fills its window
      and runs its timer. */
  ghost predicate GoBackTick(x: Setting, tick: nat, e: Ends, e': Ends, gaveUp: bool) {
    && e'.r == OnArrivals(e.r, Heard(x.fwdLink, tick, e.s.fwd))
    && exists acked, filled :: GoBackSends(x, tick, e, e', acked, filled, gaveUp)
  }

  ghost predicate GoBackSends(x: Setting, tick: nat, e: Ends, e': Ends, acked: Sender, filled: Sender, gaveUp: bool) {
    && AcksTaken(e.s, acked, Heard(x.backLink, tick, e'.r.back), tick)
    && WindowFilled(acked, filled, x.chunks, x.window, tick)
    && TimerRun(filled, e'.s, x.config, x.chunks, tick, gaveUp)
  }

  /** A run of go-back-N: every tick but the last goes on. */
  ghost predicate IsGoBackRun(x: Setting, trace: seq<Ends>, maxTicks: nat, gaveUp: bool) {
    && |trace| >= 1 && trace[0] == Ends(Sender(0, 0, None, 0, []), Receiver(0, [], []))
    && forall i: nat :: i < |trace| - 1 ==> GoBackAt(x, trace, i, maxTicks, gaveUp)
  }

  ghost predicate GoBackAt(x: Setting, trace: seq<Ends>, i: nat, maxTicks: nat, gaveUp: bool)
    requires i + 1 < |trace|
  {
    && GoBackTick(x, i + 1, trace[i], trace[i + 1], gaveUp && i == |trace| - 2)
    && (i > 0 ==> i < maxTicks && trace[i].s.base != |x.chunks|)
  }

  lemma GoBackMore(x: Setting, trace: seq<Ends>, e: Ends, maxTicks: nat, gaveUp: bool)
    requires IsGoBackRun(x, trace, maxTicks, false) && GoBackTick(x, |trace|, trace[|trace| - 1], e, gaveUp)
    requires |trace| > 1 ==> |trace| - 1 < maxTicks && trace[|trace| - 1].s.base != |x.chunks|
    ensures IsGoBackRun(x, trace + [e], maxTicks, gaveUp)
  {
    var t := trace + [e];
    forall i: nat | i < |t| - 1 ensures GoBackAt(x, t, i, maxTicks, gaveUp) {
      if i < |trace| - 1 { assert GoBackAt(x, trace, i, maxTicks, false); }
    }
  }

  /** One tick of the loop. */
  method GoBackOnce(ghost x: Setting, data: seq<seq<byte>>, fwdLink: Link, backLink: Link, config: ArqConfig,
                    window: nat, tick: nat, s: Sender, r: Receiver)
    returns (s': Sender, r': Receiver, gaveUp: bool)
    requires x == Setting(data, fwdLink, backLink, config, window)
    requires Authentic(fwdLink) && Authentic(backLink) && Numbered(data) && GoBackOk(s, r, data, window)
    ensures GoBackOk(s', r', data, window) && GoBackTick(x, tick, Ends(s, r), Ends(s', r'), gaveUp)
  {
    r' := ReceivePart(fwdLink, tick, data, window, s, r);
    ghost var acked;
    s', acked := SendPart(backLink, tick, data, window, s, r');
    ghost var filled := s';
    s', gaveUp := TimerPart(config, tick, data, window, s', r');
    assert GoBackSends(x, tick, Ends(s, r), Ends(s', r'), acked, filled, gaveUp);
  }

  /** `run_go_back_n`; `trace` records both ends from the start and after each tick. */
  method RunGoBackN(data: seq<byte>, fwdLink: Link, backLink: Link, config: ArqConfig, window: nat, maxTicks: nat)
    returns (result: RunResult, ghost trace: seq<Ends>, ghost gaveUp: bool)
    requires Authentic(fwdLink) && Authentic(backLink) && |data| + window < U32_LIMIT
    ensures var chunks := Chunks(data, Max(config.segmentSize, 1));
            && IsGoBackRun(Setting(chunks, fwdLink, backLink, config, window), trace, maxTicks, gaveUp)
            && |trace| == result.ticksUsed + 1 >= 2
            && (gaveUp || trace[result.ticksUsed].s.base == |chunks| || result.ticksUsed >= maxTicks)
            && result.completed == (!gaveUp && trace[result.ticksUsed].s.base == |chunks|)
            && result.delivered == trace[result.ticksUsed].r.delivered
            && Delivered(result.delivered, chunks, trace[result.ticksUsed].r.expected)
    ensures forall i :: 0 <= i < |trace| ==> WindowOk(trace[i], window)
    ensures result.delivered <= data && (result.completed ==> result.delivered == data)
  {
    var chunks := Chunks(data, Max(config.segmentSize, 1));
    ghost var x := Setting(chunks, fwdLink, backLink, config, window);
    var s, r := Sender(0, 0, None, 0, []), Receiver(0, [], []);
    var tick: nat := 0;
    trace, gaveUp := [Ends(s, r)], false;
    while true
      invariant GoBackOk(s, r, chunks, window) && |trace| == tick + 1 && trace[tick] == Ends(s, r)
      invariant tick > 0 ==> tick < maxTicks && s.base != |chunks|
      invariant IsGoBackRun(x, trace, maxTicks, false) && forall i :: 0 <= i < |trace| ==> WindowOk(trace[i], window)
      decreases Max(maxTicks, 1) - tick
    {
      tick := tick + 1;
      var quits;
      s, r, quits := GoBackOnce(x, chunks, fwdLink, backLink, config, window, tick, s, r);
      GoBackMore(x, trace, Ends(s, r), maxTicks, quits);
      trace, gaveUp := trace + [Ends(s, r)], quits;
      DeliveredIsPrefix(data, Max(config.segmentSize, 1), r.delivered, r.expected);
      if quits { return RunResult(r.delivered, tick, false), trace, gaveUp; }
      var done := s.base == |chunks|;
      if done || tick >= maxTicks { return RunResult(r.delivered, tick, done), trace, gaveUp; }
    }
  }

  // ---- Stop-and-wait ----

  datatype Waiting = Waiting(seqNo: nat, chunk: seq<byte>, sentAt: nat)

  /** At most one chunk is outstanding: the last one sent. */
  ghost predicate OneOutstanding(unacked: Option<Waiting>, chunks: seq<seq<byte>>, expected: nat, next: nat) {
    && next <= |chunks| && expected <= next <= expected + 1
    && match unacked
       case None => expected == next
       case Some(w) => w.seqNo + 1 == next && w.chunk == chunks[w.seqNo]
  }

  /** The loop over arriving acknowledgements: the outstanding chunk is settled by the one that follows it. */
  method TakeAck(arrivals: seq<DecodeResult>, unacked: Option<Waiting>, retries: nat)
    returns (unacked': Option<Waiting>, retries': nat)
    ensures if Settled(arrivals, unacked) then unacked' == None && retries' == 0
            else unacked' == unacked && retries' == retries
  {
    unacked', retries' := unacked, retries;
    assert arrivals[..|arrivals|] == arrivals;
    for i := 0 to |arrivals|
      invariant if Settled(arrivals[..i], unacked) then unacked' == None && retries' == 0
                else unacked' == unacked && retries' == retries
    {
      if unacked.Some? { SettledNext(arrivals, i, unacked.value.seqNo + 1); }
      var r := arrivals[i];
      if r.Ok? && HasAckFlag(r.frame.flags) && unacked'.Some? && r.frame.sequence == unacked'.value.seqNo + 1 {
        unacked', retries' := None, 0;
      }
    }
  }

  predicate Settled(arrivals: seq<DecodeResult>, unacked: Option<Waiting>) {
    unacked.Some? && AnyAcknowledges(arrivals, unacked.value.seqNo + 1)
  }

  lemma SettledNext(rs: seq<DecodeResult>, i: nat, k: nat)
    requires i < |rs|
    ensures AnyAcknowledges(rs[..i + 1], k) <==> AnyAcknowledges(rs[..i], k) || Acknowledges(rs[i], k)
  {
    assert rs[..i + 1] == rs[..i] + [rs[i]];
    if Acknowledges(rs[i], k) { assert Acknowledges(rs[..i + 1][i], k); }
    if AnyAcknowledges(rs[..i], k) {
      var j :| 0 <= j < i && Acknowledges(rs[..i][j], k);
      assert Acknowledges(rs[..i + 1][j], k);
    }
  }

  /** Both ends after a tick. */
  datatype Turn = Turn(next: nat, unacked: Option<Waiting>, retries: nat, fwd: seq<Frame>, r: Receiver)

  /** The sender sends the next chunk, or the outstanding one again, or nothing, or gives up. */
  ghost predicate SentOrWaited(chunks: seq<seq<byte>>, config: ArqConfig, now: nat, t: Turn, t': Turn, gaveUp: bool) {
    && |chunks| < U32_LIMIT && (t.unacked.Some? ==> t.unacked.value.seqNo < |chunks|) && t'.r == t.r
    && var due := t.unacked.Some? && SatSub(now, t.unacked.value.sentAt) >= config.rto;
    && gaveUp == (due && t.retries >= config.maxRetries)
    && t'.retries == t.retries + (if due then 1 else 0)
    && if t.unacked.None? && t.next < |chunks| then
         && t'.next == t.next + 1 && t'.unacked == Some(Waiting(t.next, chunks[t.next], now))
         && t'.fwd == t.fwd + Batch(chunks, t.next, t.next + 1)
       else if due && !gaveUp then
         && t'.next == t.next && t'.unacked == Some(t.unacked.value.(sentAt := now))
         && t'.fwd == t.fwd + Batch(chunks, t.unacked.value.seqNo, t.unacked.value.seqNo + 1)
       else t'.next == t.next && t'.unacked == t.unacked && t'.fwd == t.fwd
  }

  /** The sender's part of a tick. */
  method SendOrWait(chunks: seq<seq<byte>>, config: ArqConfig, now: nat, next: nat, unacked: Option<Waiting>,
                    retries: nat, fwd: seq<Frame>, ghost r: Receiver)
    returns (next': nat, unacked': Option<Waiting>, retries': nat, fwd': seq<Frame>, gaveUp: bool)
    requires Numbered(chunks) && next <= |chunks|
    requires unacked.Some? ==> unacked.value.seqNo < |chunks| && unacked.value.chunk == chunks[unacked.value.seqNo]
    ensures SentOrWaited(chunks, config, now, Turn(next, unacked, retries, fwd, r),
                         Turn(next', unacked', retries', fwd', r), gaveUp)
  {
    next', unacked', retries', fwd', gaveUp := next, unacked, retries, fwd, false;
    if unacked.None? && next < |chunks| {
      fwd' := fwd + [DataFrame(next, chunks[next])];
      unacked' := Some(Waiting(next, chunks[next], now));
      next' := next + 1;
    } else if unacked.Some? && SatSub(now, unacked.value.sentAt) >= config.rto {
      retries' := retries + 1;
      if retries' > config.maxRetries { gaveUp := true; return; }
      var w := unacked.value;
      fwd' := fwd + [DataFrame(w.seqNo, w.chunk)];
      unacked' := Some(w.(sentAt := now));
    }
  }

  lemma StillOutstanding(unacked: Option<Waiting>, chunks: seq<seq<byte>>, r: Receiver, r': Receiver, next: nat)
    requires OneOutstanding(unacked, chunks, r.expected, next) && r.expected <= r'.expected <= next
    ensures OneOutstanding(unacked, chunks, r'.expected, next)
  {}

  /** An acknowledgement that settles the outstanding chunk shows that it was delivered. */
  lemma SettledIsDelivered(arrivals: seq<DecodeResult>, unacked: Option<Waiting>, chunks: seq<seq<byte>>,
                           expected: nat, next: nat)
    requires OneOutstanding(unacked, chunks, expected, next) && AcksArrive(arrivals, expected)
    ensures Settled(arrivals, unacked) ==> OneOutstanding(None, chunks, expected, next)
  {}

  /** One tick of stop-and-wait: the receiver takes what arrives, the outstanding chunk is settled or not, and the
      sender sends or waits. */
  ghost predicate TurnTick(x: Setting, tick: nat, t: Turn, t': Turn, gaveUp: bool) {
    var r := OnArrivals(t.r, Heard(x.fwdLink, tick, t.fwd));
    var settled := Settled(Heard(x.backLink, tick, r.back), t.unacked);
    var mid := Turn(t.next, if settled then None else t.unacked, if settled then 0 else t.retries, t.fwd, r);
    SentOrWaited(x.chunks, x.config, tick, mid, t', gaveUp)
  }

  predicate TurnsDone(x: Setting, t: Turn) { t.unacked.None? && t.next == |x.chunks| }

  /** A run of stop-and-wait: every tick but the last goes on. */
  ghost predicate IsTurnRun(x: Setting, trace: seq<Turn>, maxTicks: nat, gaveUp: bool) {
    && |trace| >= 1 && trace[0] == Turn(0, None, 0, [], Receiver(0, [], []))
    && forall i: nat :: i < |trace| - 1 ==> TurnAt(x, trace, i, maxTicks, gaveUp)
  }

  ghost predicate TurnAt(x: Setting, trace: seq<Turn>, i: nat, maxTicks: nat, gaveUp: bool)
    requires i + 1 < |trace|
  {
    && TurnTick(x, i + 1, trace[i], trace[i + 1], gaveUp && i == |trace| - 2)
    && (i > 0 ==> i < maxTicks && !TurnsDone(x, trace[i]))
  }

  lemma TurnMore(x: Setting, trace: seq<Turn>, t': Turn, maxTicks: nat, gaveUp: bool)
    requires IsTurnRun(x, trace, maxTicks, false) && TurnTick(x, |trace|, trace[|trace| - 1], t', gaveUp)
    requires |trace| > 1 ==> |trace| - 1 < maxTicks && !TurnsDone(x, trace[|trace| - 1])
    ensures IsTurnRun(x, trace + [t'], maxTicks, gaveUp)
  {
    var t := trace + [t'];
    forall i: nat | i < |t| - 1 ensures TurnAt(x, t, i, maxTicks, gaveUp) {
      if i < |trace| - 1 { assert TurnAt(x, trace, i, maxTicks, false); }
    }
  }

  ghost predicate TurnOk(t: Turn, chunks: seq<seq<byte>>) {
    && OneOutstanding(t.unacked, chunks, t.r.expected, t.next)
    && ReceiverOk(t.r, chunks, t.next) && DataOnly(t.fwd, chunks, t.next)
  }

  /** One tick of the loop. */
  method TurnOnce(ghost x: Setting, chunks: seq<seq<byte>>, fwdLink: Link, backLink: Link, config: ArqConfig,
                  tick: nat, t: Turn)
    returns (t': Turn, gaveUp: bool)
    requires x == Setting(chunks, fwdLink, backLink, config, 1)
    requires Authentic(fwdLink) && Authentic(backLink) && Numbered(chunks) && TurnOk(t, chunks)
    ensures TurnOk(t', chunks) && TurnTick(x, tick, t, t', gaveUp)
  {
    var next, unacked, retries, fwd := t.next, t.unacked, t.retries, t.fwd;
    DataArrival(fwdLink, tick, fwd, chunks, next);
    OnArrivalsKeep(t.r, Heard(fwdLink, tick, fwd), chunks, next);
    StillOutstanding(unacked, chunks, t.r, OnArrivals(t.r, Heard(fwdLink, tick, fwd)), next);
    var r := Accept(Heard(fwdLink, tick, fwd), t.r);
    AckArrival(backLink, tick, r.back, r.expected);
    SettledIsDelivered(Heard(backLink, tick, r.back), unacked, chunks, r.expected, next);
    unacked, retries := TakeAck(Heard(backLink, tick, r.back), unacked, retries);
    if next < |chunks| { BatchKeeps(fwd, chunks, next, next + 1, next); }
    if unacked.Some? { BatchKeeps(fwd, chunks, unacked.value.seqNo, unacked.value.seqNo + 1, next); }
    next, unacked, retries, fwd, gaveUp := SendOrWait(chunks, config, tick, next, unacked, retries, fwd, r);
    t' := Turn(next, unacked, retries, fwd, r);
  }

  /** `run_stop_and_wait`; `trace` records both ends from the start and after each tick. */
  method RunStopAndWait(data: seq<byte>, fwdLink: Link, backLink: Link, config: ArqConfig, maxTicks: nat)
    returns (result: RunResult, ghost trace: seq<Turn>, ghost gaveUp: bool)
    requires Authentic(fwdLink) && Authentic(backLink) && |data| < U32_LIMIT
    ensures var chunks := Chunks(data, Max(config.segmentSize, 1));
            var x := Setting(chunks, fwdLink, backLink, config, 1);
            && IsTurnRun(x, trace, maxTicks, gaveUp) && |trace| == result.ticksUsed + 1 >= 2
            && (gaveUp || TurnsDone(x, trace[result.ticksUsed]) || result.ticksUsed >= maxTicks)
            && result.completed == (!gaveUp && TurnsDone(x, trace[result.ticksUsed]))
            && result.delivered == trace[result.ticksUsed].r.delivered
            && Delivered(result.delivered, chunks, trace[result.ticksUsed].r.expected)
    ensures forall i :: 0 <= i < |trace| ==> trace[i].r.expected <= trace[i].next <= trace[i].r.expected + 1
    ensures result.delivered <= data && (result.completed ==> result.delivered == data)
  {
    var chunks := Chunks(data, Max(config.segmentSize, 1));
    ghost var x := Setting(chunks, fwdLink, backLink, config, 1);
    var t := Turn(0, None, 0, [], Receiver(0, [], []));
    var tick: nat := 0;
    trace, gaveUp := [t], false;
    while true
      invariant TurnOk(t, chunks) && |trace| == tick + 1 && trace[tick] == t && IsTurnRun(x, trace, maxTicks, false)
      invariant tick > 0 ==> tick < maxTicks && !TurnsDone(x, t)
      invariant forall i :: 0 <= i < |trace| ==> trace[i].r.expected <= trace[i].next <= trace[i].r.expected + 1
      decreases Max(maxTicks, 1) - tick
    {
      tick := tick + 1;
      var quits;
      t, quits := TurnOnce(x, chunks, fwdLink, backLink, config, tick, t);
      TurnMore(x, trace, t, maxTicks, quits);
      trace, gaveUp := trace + [t], quits;
      DeliveredIsPrefix(data, Max(config.segmentSize, 1), t.r.delivered, t.r.expected);
      if quits { return RunResult(t.r.delivered, tick, false), trace, gaveUp; }
      var done := t.unacked.None? && t.next == |chunks|;
      if done || tick >= maxTicks { return RunResult(t.r.delivered, tick, done), trace, gaveUp; }
    }
  }
}
