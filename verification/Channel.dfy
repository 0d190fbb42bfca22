/**
 The virtual-time channel: faults are decided when a datagram is sent, and each resulting copy waits in a queue
 until its arrival tick. The random draws are parameters.
 */
module Channels {
  import opened Bytes
  import opened Damage

  // ---- The queue ----

  /** A queued copy: when it arrives, and its payload slot, which is also its place in sending order. */
  datatype Entry = Entry(arrives: nat, id: nat)

  predicate Before(e: Entry, f: Entry) { e.arrives < f.arrives || (e.arrives == f.arrives && e.id < f.id) }

  /** A copy as it was emitted. */
  datatype Emitted = Emitted(bytes: seq<byte>, sentAt: nat, arrives: nat)

  /** The queue and the payload slots, with their history: every copy ever emitted, and the slots delivered, in
      order of delivery. */
  datatype Queue = Queue(now: nat, waiting: set<Entry>, slots: seq<seq<byte>>, copies: seq<Emitted>, log: seq<nat>)

  function EntryOf(copies: seq<Emitted>, id: nat): Entry
    requires id < |copies|
  {
    Entry(copies[id].arrives, id)
  }

  /** Each slot is either waiting or delivered, and delivered at most once, not before its time. */
  ghost predicate SlotsOk(q: Queue) {
    && (forall e :: e in q.waiting ==> e.id < |q.copies| && e == EntryOf(q.copies, e.id) && e.id !in q.log)
    && (forall i :: 0 <= i < |q.log| ==> q.log[i] < |q.copies| && q.copies[q.log[i]].arrives <= q.now)
    && (forall i, j :: 0 <= i < j < |q.log| ==> q.log[i] != q.log[j])
    && (forall id: nat :: id < |q.copies| ==> id in q.log || EntryOf(q.copies, id) in q.waiting)
    && |q.waiting| + |q.log| == |q.copies|
  }

  ghost predicate InSendingOrder(copies: seq<Emitted>, now: nat) {
    && (forall i, j :: 0 <= i < j < |copies| ==> copies[i].sentAt <= copies[j].sentAt)
    && (forall i :: 0 <= i < |copies| ==> copies[i].sentAt <= now)
  }

  /** No copy was delayed beyond the base delay. */
  ghost predicate NoExtraDelay(copies: seq<Emitted>, baseDelay: nat) {
    forall i :: 0 <= i < |copies| ==> copies[i].arrives == copies[i].sentAt + baseDelay
  }

  /** Delivery has been in sending order so far, without gaps. */
  ghost predicate FirstInFirstOut(log: seq<nat>) { forall i :: 0 <= i < |log| ==> log[i] == i }

  /** A slot holds its copy until it is taken, and nothing after. */
  ghost predicate PayloadsOk(slots: seq<seq<byte>>, copies: seq<Emitted>, log: seq<nat>) {
    && |slots| == |copies|
    && forall id: nat :: id < |copies| ==> slots[id] == if id in log then [] else copies[id].bytes
  }

  ghost predicate QueueOk(q: Queue, baseDelay: nat) {
    && SlotsOk(q) && InSendingOrder(q.copies, q.now) && PayloadsOk(q.slots, q.copies, q.log)
    && (NoExtraDelay(q.copies, baseDelay) ==> FirstInFirstOut(q.log))
  }

  // ---- Runs of the queue ----

  datatype QueueOp = Enter(bytes: seq<byte>, delay: nat) | Leave(e: Entry) | Pass(to: nat)

  const EMPTY: Queue := Queue(0, {}, [], [], [])

  function Entered(q: Queue, bytes: seq<byte>, delay: nat): Queue {
    q.(waiting := q.waiting + {Entry(q.now + delay, |q.slots|)}, slots := q.slots + [bytes],
       copies := q.copies + [Emitted(bytes, q.now, q.now + delay)])
  }

  function Left(q: Queue, e: Entry): Queue {
    q.(waiting := q.waiting - {e}, slots := if e.id < |q.slots| then q.slots[e.id := []] else q.slots,
       log := q.log + [e.id])
  }

  function After(q: Queue, op: QueueOp): Queue {
    match op
    case Enter(bytes, delay) => Entered(q, bytes, delay)
    case Leave(e) => Left(q, e)
    case Pass(to) => q.(now := Max(q.now, to))
  }

  /** The queue after a run from the start. */
  function Replay(ops: seq<QueueOp>): Queue {
    if ops == [] then EMPTY else After(Replay(ops[..|ops| - 1]), ops[|ops| - 1])
  }

  /** Only the first entry leaves, and not before it is due. */
  ghost predicate Allowed(q: Queue, op: QueueOp) {
    op.Leave? ==> IsFirst(op.e, q.waiting) && op.e.arrives <= q.now
  }

  ghost predicate IsQueueRun(ops: seq<QueueOp>) {
    ops == [] || (IsQueueRun(ops[..|ops| - 1]) && Allowed(Replay(ops[..|ops| - 1]), ops[|ops| - 1]))
  }

  lemma OneMore(ops: seq<QueueOp>, op: QueueOp)
    requires IsQueueRun(ops) && Allowed(Replay(ops), op)
    ensures IsQueueRun(ops + [op]) && Replay(ops + [op]) == After(Replay(ops), op)
  {
    assert (ops + [op])[..|ops|] == ops;
  }

  ghost predicate IsFirst(e: Entry, waiting: set<Entry>) {
    e in waiting && forall f :: f in waiting ==> f == e || Before(e, f)
  }

  lemma EnteredSlots(q: Queue, bytes: seq<byte>, delay: nat)
    requires SlotsOk(q) && |q.slots| == |q.copies|
    ensures SlotsOk(Entered(q, bytes, delay))
  {
    var q' := Entered(q, bytes, delay);
    assert forall id: nat :: id < |q.copies| ==> q'.copies[id] == q.copies[id];
    assert Entry(q.now + delay, |q.copies|) !in q.waiting;
    forall id: nat | id < |q'.copies| ensures id in q'.log || EntryOf(q'.copies, id) in q'.waiting {
      if id < |q.copies| { assert id in q.log || EntryOf(q.copies, id) in q.waiting; }
    }
  }

  lemma EnteredKeeps(q: Queue, bytes: seq<byte>, delay: nat, baseDelay: nat)
    requires QueueOk(q, baseDelay)
    ensures QueueOk(Entered(q, bytes, delay), baseDelay)
  {
    var q' := Entered(q, bytes, delay);
    EnteredSlots(q, bytes, delay);
    assert forall id: nat :: id < |q.copies| ==> q'.copies[id] == q.copies[id];
    assert |q.copies| !in q.log;
  }

  lemma LeftSlots(q: Queue, e: Entry)
    requires SlotsOk(q) && e in q.waiting && e.arrives <= q.now
    ensures SlotsOk(Left(q, e))
  {
    var q' := Left(q, e);
    forall id: nat | id < |q'.copies| ensures id in q'.log || EntryOf(q'.copies, id) in q'.waiting {
      assert id in q.log || EntryOf(q.copies, id) in q.waiting;
      assert id in q.log ==> id in q'.log;
      assert q'.log[|q.log|] == e.id;
    }
    forall f | f in q'.waiting ensures f.id !in q'.log { assert f == EntryOf(q.copies, f.id); }
  }

  /** Without extra delay the first entry waiting is the next slot in sending order. */
  lemma FirstIsNext(q: Queue, e: Entry, baseDelay: nat)
    requires QueueOk(q, baseDelay) && NoExtraDelay(q.copies, baseDelay) && IsFirst(e, q.waiting)
    ensures e.id == |q.log|
  {
    var k := |q.log|;
    InOrderMeans(q.log, e.id);
    InOrderMeans(q.log, k);
    assert k <= e.id < |q.copies|;
    assert EntryOf(q.copies, k) in q.waiting;
  }

  lemma InOrderMeans(log: seq<nat>, id: nat)
    requires FirstInFirstOut(log)
    ensures id in log <==> id < |log|
  {
    if id < |log| { assert log[id] == id; }
  }

  lemma LeftKeeps(q: Queue, e: Entry, baseDelay: nat)
    requires QueueOk(q, baseDelay) && IsFirst(e, q.waiting) && e.arrives <= q.now
    ensures QueueOk(Left(q, e), baseDelay)
  {
    LeftSlots(q, e);
    if NoExtraDelay(q.copies, baseDelay) { FirstIsNext(q, e, baseDelay); }
  }

  lemma {:induction false} FirstExists(s: set<Entry>) returns (e: Entry)
    requires s != {}
    ensures IsFirst(e, s)
  {
    var x :| x in s;
    var rest := s - {x};
    if rest == {} {
      e := x;
      assert s == {x};
    } else {
      var y := FirstExists(rest);
      e := if Before(x, y) then x else y;
      assert s == rest + {x};
    }
  }

  /** `taken` lists exactly the waiting entries that are due, in order of arrival and then of sending. */
  ghost predicate IsDueList(taken: seq<Entry>, waiting: set<Entry>, now: nat) {
    && (forall e :: e in taken <==> e in waiting && e.arrives <= now)
    && (forall i, j :: 0 <= i < j < |taken| ==> Before(taken[i], taken[j]))
  }

  /** Every run of the queue: each slot is taken at most once, with its own payload and not before its time; what
      entered is what left plus what waits; and without extra delay everything leaves in the order it entered. */
  lemma {:induction false} RunKeepsQueue(ops: seq<QueueOp>, baseDelay: nat)
    requires IsQueueRun(ops)
    ensures QueueOk(Replay(ops), baseDelay)
    decreases |ops|
  {
    if ops != [] {
      var before, op := ops[..|ops| - 1], ops[|ops| - 1];
      RunKeepsQueue(before, baseDelay);
      match op {
        case Enter(bytes, delay) => EnteredKeeps(Replay(before), bytes, delay, baseDelay);
        case Leave(e) => LeftKeeps(Replay(before), e, baseDelay);
        case Pass(to) => PassKeeps(Replay(before), to, baseDelay);
      }
    }
  }

  lemma PassKeeps(q: Queue, to: nat, baseDelay: nat)
    requires QueueOk(q, baseDelay)
    ensures QueueOk(q.(now := Max(q.now, to)), baseDelay)
  {}

  lemma FirstSlot(ops: seq<QueueOp>, e: Entry)
    requires IsQueueRun(ops) && e in Replay(ops).waiting
    ensures var q := Replay(ops); e.id < |q.slots| == |q.copies| && q.slots[e.id] == q.copies[e.id].bytes
  {
    RunKeepsQueue(ops, 0);
  }

  // ---- Faults ----

  datatype ScriptedFault = Drop | Duplicate | Delay(ticks: nat) | Corrupt(byteOffset: nat) | Truncate(toLen: nat)

  /** The random draws for one copy. */
  datatype Draw = Draw(delay: nat, corrupt: bool, at: BitAt, truncate: bool, toLen: nat)

  /** The rules for datagram number `index`, in the order listed. */
  function RulesFor(script: seq<(nat, ScriptedFault)>, index: nat): seq<ScriptedFault> {
    if script == [] then []
    else (if script[0].0 == index then [script[0].1] else []) + RulesFor(script[1..], index)
  }

  function ScriptedDelay(rules: seq<ScriptedFault>): Option<nat> {
    if rules == [] then None else if rules[0].Delay? then Some(rules[0].ticks) else ScriptedDelay(rules[1..])
  }

  function ScriptedOffset(rules: seq<ScriptedFault>): Option<nat> {
    if rules == [] then None else if rules[0].Corrupt? then Some(rules[0].byteOffset) else ScriptedOffset(rules[1..])
  }

  function ScriptedCut(rules: seq<ScriptedFault>): Option<nat> {
    if rules == [] then None else if rules[0].Truncate? then Some(rules[0].toLen) else ScriptedCut(rules[1..])
  }

  /** A scripted fault takes the place of the draw for it. */
  function FaultFor(rules: seq<ScriptedFault>, draw: Draw): Fault {
    Fault(
      match ScriptedOffset(rules)
        case Some(offset) => Some(BitAt(offset, draw.at.bit))
        case None => if draw.corrupt then Some(draw.at) else None,
      match ScriptedCut(rules)
        case Some(len) => Some(len)
        case None => if draw.truncate then Some(draw.toLen) else None)
  }

  function ExtraDelay(rules: seq<ScriptedFault>, draw: Draw, reorderMaxDelay: nat): nat {
    match ScriptedDelay(rules)
    case Some(d) => d
    case None => if reorderMaxDelay > 0 then draw.delay else 0
  }

  // ---- What the script decides ----

  /** Entry `i` of the script is the first rule of its kind for datagram `index`. */
  predicate IsFirstRule(script: seq<(nat, ScriptedFault)>, index: nat, i: nat) {
    && i < |script| && script[i].0 == index
    && forall j :: 0 <= j < i && script[j].0 == index ==> !SameKind(script[j].1, script[i].1)
  }

  predicate SameKind(f: ScriptedFault, g: ScriptedFault) {
    (f.Drop? && g.Drop?) || (f.Duplicate? && g.Duplicate?) || (f.Delay? && g.Delay?) || (f.Corrupt? && g.Corrupt?)
    || (f.Truncate? && g.Truncate?)
  }

  lemma {:induction false} RulesAreListed(script: seq<(nat, ScriptedFault)>, index: nat, f: ScriptedFault)
    ensures f in RulesFor(script, index) <==> (index, f) in script
    decreases |script|
  {
    if script != [] {
      RulesAreListed(script[1..], index, f);
      assert script == [script[0]] + script[1..];
    }
  }

  /** The first rule of a kind for a datagram decides that fault, whatever comes after it. */
  lemma {:induction false} FirstRuleDecides(script: seq<(nat, ScriptedFault)>, index: nat, i: nat)
    requires IsFirstRule(script, index, i)
    ensures var rules := RulesFor(script, index);
            match script[i].1
            case Delay(ticks) => ScriptedDelay(rules) == Some(ticks)
            case Corrupt(offset) => ScriptedOffset(rules) == Some(offset)
            case Truncate(len) => ScriptedCut(rules) == Some(len)
            case _ => true
    decreases |script|
  {
    var rules, rest := RulesFor(script, index), RulesFor(script[1..], index);
    if i > 0 {
      assert IsFirstRule(script[1..], index, i - 1);
      FirstRuleDecides(script[1..], index, i - 1);
    }
    if script[0].0 == index { assert rules[0] == script[0].1 && rules[1..] == rest; } else { assert rules == rest; }
  }

  /** Without a rule of a kind there is no scripted fault of that kind. */
  lemma {:induction false} NoRuleNoFault(script: seq<(nat, ScriptedFault)>, index: nat)
    ensures var rules := RulesFor(script, index);
            && (ScriptedDelay(rules).Some? ==> (index, Delay(ScriptedDelay(rules).value)) in script)
            && (ScriptedOffset(rules).Some? ==> (index, Corrupt(ScriptedOffset(rules).value)) in script)
            && (ScriptedCut(rules).Some? ==> (index, Truncate(ScriptedCut(rules).value)) in script)
    decreases |script|
  {
    if script != [] {
      NoRuleNoFault(script[1..], index);
      var rules, rest := RulesFor(script, index), RulesFor(script[1..], index);
      if script[0].0 == index { assert rules[0] == script[0].1 && rules[1..] == rest; } else { assert rules == rest; }
      assert script == [script[0]] + script[1..];
    }
  }

  /** What one copy of a datagram must be: a rule takes the place of the draw for its fault, and only for that. */
  ghost predicate Scripted(script: seq<(nat, ScriptedFault)>, index: nat, draw: Draw, fault: Fault, extra: nat,
                           reorderMaxDelay: nat) {
    && (forall i :: 0 <= i < |script| && IsFirstRule(script, index, i) ==>
          match script[i].1
          case Delay(ticks) => extra == ticks
          case Corrupt(offset) => fault.flip == Some(BitAt(offset, draw.at.bit))
          case Truncate(len) => fault.cut == Some(len)
          case _ => true)
    && ((forall ticks :: (index, Delay(ticks)) !in script) ==> extra == if reorderMaxDelay > 0 then draw.delay else 0)
    && ((forall offset :: (index, Corrupt(offset)) !in script) ==> fault.flip == Drawn(draw.corrupt, draw.at))
    && ((forall len :: (index, Truncate(len)) !in script) ==> fault.cut == Drawn(draw.truncate, draw.toLen))
  }

  function Drawn<T>(hit: bool, value: T): Option<T> { if hit then Some(value) else None }

  /** Every copy is as the script and the draws say. */
  lemma ScriptDecides(script: seq<(nat, ScriptedFault)>, index: nat, draw: Draw, reorderMaxDelay: nat)
    ensures var rules := RulesFor(script, index);
            var fault, extra := FaultFor(rules, draw), ExtraDelay(rules, draw, reorderMaxDelay);
            Scripted(script, index, draw, fault, extra, reorderMaxDelay)
  {
    var rules := RulesFor(script, index);
    NoRuleNoFault(script, index);
    forall i | 0 <= i < |script| && IsFirstRule(script, index, i)
      ensures match script[i].1
              case Delay(ticks) => ExtraDelay(rules, draw, reorderMaxDelay) == ticks
              case Corrupt(offset) => FaultFor(rules, draw).flip == Some(BitAt(offset, draw.at.bit))
              case Truncate(len) => FaultFor(rules, draw).cut == Some(len)
              case _ => true
    {
      FirstRuleDecides(script, index, i);
    }
  }

  /** The configuration adds no delay: no random one, and none by a rule. */
  ghost predicate NeverDelays(reorderMaxDelay: nat, script: seq<(nat, ScriptedFault)>) {
    reorderMaxDelay == 0 && forall i :: 0 <= i < |script| && script[i].1.Delay? ==> script[i].1.ticks == 0
  }

  lemma {:induction false} NoScriptedDelay(script: seq<(nat, ScriptedFault)>, index: nat)
    requires forall i :: 0 <= i < |script| && script[i].1.Delay? ==> script[i].1.ticks == 0
    ensures ScriptedDelay(RulesFor(script, index)) in {None, Some(0)}
    decreases |script|
  {
    if script != [] {
      NoScriptedDelay(script[1..], index);
      var rules, rest := RulesFor(script, index), RulesFor(script[1..], index);
      if script[0].0 == index { assert rules[0] == script[0].1 && rules[1..] == rest; } else { assert rules == rest; }
    }
  }

  /** `bytes` is what some faults make of a datagram that was sent; only if `torn`, a flip in the length field together
      with a truncation. */
  ghost predicate IsCopy(bytes: seq<byte>, offered: seq<seq<byte>>, torn: bool) {
    exists j, fault :: 0 <= j < |offered| && MadeOf(bytes, offered[j], fault, torn)
  }

  predicate MadeOf(bytes: seq<byte>, payload: seq<byte>, fault: Fault, torn: bool) {
    bytes == Damaged(payload, fault) && (DoubleFault(payload, fault) ==> torn)
  }

  /** Every copy comes from a datagram that was sent, and on time if the configuration adds no delay. */
  ghost predicate CopiesOk(copies: seq<Emitted>, offered: seq<seq<byte>>, torn: bool, baseDelay: nat, prompt: bool) {
    && (forall i :: 0 <= i < |copies| ==> IsCopy(copies[i].bytes, offered, torn))
    && (prompt ==> NoExtraDelay(copies, baseDelay))
  }

  lemma OfferMore(copies: seq<Emitted>, offered: seq<seq<byte>>, torn: bool, baseDelay: nat, prompt: bool,
                  payload: seq<byte>)
    requires CopiesOk(copies, offered, torn, baseDelay, prompt)
    ensures CopiesOk(copies, offered + [payload], torn, baseDelay, prompt)
  {
    forall i | 0 <= i < |copies| ensures IsCopy(copies[i].bytes, offered + [payload], torn) {
      CopyOfMore(copies[i].bytes, offered, torn, payload);
    }
  }

  lemma CopyOfMore(bytes: seq<byte>, offered: seq<seq<byte>>, torn: bool, payload: seq<byte>)
    requires IsCopy(bytes, offered, torn)
    ensures IsCopy(bytes, offered + [payload], torn)
  {
    var j, fault :| 0 <= j < |offered| && MadeOf(bytes, offered[j], fault, torn);
    assert MadeOf(bytes, (offered + [payload])[j], fault, torn);
  }

  lemma MoreTorn(bytes: seq<byte>, offered: seq<seq<byte>>, torn: bool, torn': bool)
    requires IsCopy(bytes, offered, torn) && (torn ==> torn')
    ensures IsCopy(bytes, offered, torn')
  {
    var j, fault :| 0 <= j < |offered| && MadeOf(bytes, offered[j], fault, torn);
    assert MadeOf(bytes, offered[j], fault, torn');
  }

  lemma CopyMore(copies: seq<Emitted>, offered: seq<seq<byte>>, torn: bool, baseDelay: nat, prompt: bool,
                 copy: Emitted, fault: Fault)
    requires CopiesOk(copies, offered, torn, baseDelay, prompt) && offered != []
    requires copy.bytes == Damaged(offered[|offered| - 1], fault)
    requires prompt ==> copy.arrives == copy.sentAt + baseDelay
    ensures CopiesOk(copies + [copy], offered, torn || DoubleFault(offered[|offered| - 1], fault), baseDelay, prompt)
  {
    var copies', torn' := copies + [copy], torn || DoubleFault(offered[|offered| - 1], fault);
    forall i | 0 <= i < |copies'| ensures IsCopy(copies'[i].bytes, offered, torn') {
      if i < |copies| {
        MoreTorn(copies[i].bytes, offered, torn, torn');
      } else {
        assert MadeOf(copy.bytes, offered[|offered| - 1], fault, torn');
      }
    }
  }

  // ---- The channel ----

  class Channel {
    const baseDelay: nat
    const reorderMaxDelay: nat
    const script: seq<(nat, ScriptedFault)>
    var now: nat
    var inFlight: set<Entry>
    var payloads: seq<seq<byte>>
    var nextIndex: nat
    var sent: nat
    var delivered: nat
    var dropped: nat
    var duplicated: nat
    ghost var copies: seq<Emitted>
    ghost var log: seq<nat>
    ghost var history: seq<QueueOp>
    ghost var offered: seq<seq<byte>>
    /** Some copy had both its length field flipped and its end cut off. */
    ghost var torn: bool

    ghost function View(): Queue
      reads this
    {
      Queue(now, inFlight, payloads, copies, log)
    }

    ghost predicate QueueValid()
      reads this
    {
      IsQueueRun(history) && View() == Replay(history)
    }

    ghost predicate Authentic()
      reads this
    {
      CopiesOk(copies, offered, torn, baseDelay, NeverDelays(reorderMaxDelay, script))
    }

    ghost predicate Counted()
      reads this
    {
      QueueValid() && delivered == |log| && |copies| == sent - dropped + duplicated && nextIndex == sent == |offered|
    }

    ghost predicate Valid()
      reads this
    {
      Counted() && Authentic()
    }

    /** Conservation: every copy of what was sent and not dropped is either delivered or in flight. */
    lemma Conservation()
      requires Valid()
      ensures delivered + |inFlight| == sent - dropped + duplicated
    {
      RunKeepsQueue(history, baseDelay);
    }

    /** A channel configured without random and scripted delays delivers in sending order over all calls. */
    lemma FifoDelivery()
      requires Valid() && NeverDelays(reorderMaxDelay, script)
      ensures FirstInFirstOut(log)
    {
      RunKeepsQueue(history, baseDelay);
    }

    constructor (baseDelay: nat, reorderMaxDelay: nat, script: seq<(nat, ScriptedFault)>)
      ensures Valid() && View() == EMPTY && sent == 0 && offered == [] && !torn
      ensures this.baseDelay == baseDelay && this.reorderMaxDelay == reorderMaxDelay && this.script == script
    {
      this.baseDelay, this.reorderMaxDelay, this.script := baseDelay, reorderMaxDelay, script;
      now, inFlight, payloads, nextIndex := 0, {}, [], 0;
      sent, delivered, dropped, duplicated := 0, 0, 0, 0;
      copies, log, history, offered, torn := [], [], [], [], false;
    }

    /** `emit_one`: applies corruption and then truncation. */
    method EmitOne(payload: seq<byte>, rules: seq<ScriptedFault>, draw: Draw) returns (bytes: seq<byte>, delay: nat)
      ensures bytes == Damaged(payload, FaultFor(rules, draw))
      ensures delay == baseDelay + ExtraDelay(rules, draw, reorderMaxDelay)
    {
      bytes := payload;
      var extra := match ScriptedDelay(rules)
        case Some(d) => d
        case None => if reorderMaxDelay > 0 then draw.delay else 0;
      var offset := ScriptedOffset(rules);
      if offset.Some? || draw.corrupt {
        bytes := Flip(bytes, BitAt(if offset.Some? then offset.value else draw.at.offset, draw.at.bit));
      }
      var toLen := ScriptedCut(rules);
      if toLen.Some? || draw.truncate {
        bytes := Cut(bytes, if toLen.Some? then toLen.value else draw.toLen);
      }
      delay := baseDelay + extra;
    }

    /** `enqueue`. */
    method Enqueue(bytes: seq<byte>, delay: nat)
      requires QueueValid()
      modifies this`inFlight, this`payloads, this`copies, this`history
      ensures QueueValid() && View() == Entered(old(View()), bytes, delay)
      ensures copies == old(copies) + [Emitted(bytes, now, now + delay)]
    {
      OneMore(history, Enter(bytes, delay));
      var id := |payloads|;
      payloads := payloads + [bytes];
      inFlight := inFlight + {Entry(now + delay, id)};
      copies := copies + [Emitted(bytes, now, now + delay)];
      history := history + [Enter(bytes, delay)];
    }

    /** The queue after one more copy of `payload`. */
    ghost function Copied(q: Queue, payload: seq<byte>, rules: seq<ScriptedFault>, draw: Draw): Queue {
      Entered(q, Damaged(payload, FaultFor(rules, draw)), baseDelay + ExtraDelay(rules, draw, reorderMaxDelay))
    }

    /** Emits one copy and queues it. */
    method SendCopy(payload: seq<byte>, rules: seq<ScriptedFault>, draw: Draw)
      requires QueueValid() && Authentic() && offered != [] && offered[|offered| - 1] == payload
      requires NeverDelays(reorderMaxDelay, script) ==> ExtraDelay(rules, draw, reorderMaxDelay) == 0
      modifies this`inFlight, this`payloads, this`copies, this`history, this`torn
      ensures QueueValid() && Authentic() && View() == Copied(old(View()), payload, rules, draw)
      ensures torn == (old(torn) || DoubleFault(payload, FaultFor(rules, draw)))
    {
      var bytes, delay := EmitOne(payload, rules, draw);
      ghost var fault, prompt := FaultFor(rules, draw), NeverDelays(reorderMaxDelay, script);
      CopyMore(copies, offered, torn, baseDelay, prompt, Emitted(bytes, now, now + delay), fault);
      Enqueue(bytes, delay);
      torn := torn || DoubleFault(payload, fault);
    }

    /** The queue after one copy more, or two. */
    ghost function Emitting(q: Queue, payload: seq<byte>, rules: seq<ScriptedFault>, twice: bool, first: Draw,
                            second: Draw): Queue {
      var q1 := Copied(q, payload, rules, first);
      if twice then Copied(q1, payload, rules, second) else q1
    }

    /** The queue after `send`: one copy more, or two, or none. */
    ghost function SentInto(q: Queue, payload: seq<byte>, rules: seq<ScriptedFault>, loss: bool, duplication: bool,
                            first: Draw, second: Draw): Queue {
      if Drop in rules || loss then q
      else Emitting(q, payload, rules, Duplicate in rules || duplication, first, second)
    }

    /** A datagram enters the channel not at all, once or twice, as its rules and the draws say, and each copy of it is
        damaged and delayed as they say. */
    lemma EntersAsScripted(q: Queue, payload: seq<byte>, index: nat, loss: bool, duplication: bool, first: Draw,
                           second: Draw)
      ensures var q' := SentInto(q, payload, RulesFor(script, index), loss, duplication, first, second);
              var n := if (index, Drop) in script || loss then 0
                       else if (index, Duplicate) in script || duplication then 2 else 1;
              && |q'.copies| == |q.copies| + n && q.copies <= q'.copies && q'.now == q.now && q'.log == q.log
              && (n >= 1 ==> CopyAsScripted(q'.copies[|q.copies|], payload, q.now, index, first))
              && (n == 2 ==> CopyAsScripted(q'.copies[|q.copies| + 1], payload, q.now, index, second))
    {
      RulesAreListed(script, index, Drop);
      RulesAreListed(script, index, Duplicate);
      CopyIsScripted(q, payload, index, first);
      CopyIsScripted(Copied(q, payload, RulesFor(script, index), first), payload, index, second);
    }

    ghost predicate CopyAsScripted(copy: Emitted, payload: seq<byte>, sentAt: nat, index: nat, draw: Draw) {
      exists fault, extra: nat :: Scripted(script, index, draw, fault, extra, reorderMaxDelay)
                                  && copy == Emitted(Damaged(payload, fault), sentAt, sentAt + baseDelay + extra)
    }

    lemma CopyIsScripted(q: Queue, payload: seq<byte>, index: nat, draw: Draw)
      ensures var q' := Copied(q, payload, RulesFor(script, index), draw);
              && q'.copies == q.copies + [q'.copies[|q.copies|]] && q'.now == q.now && q'.log == q.log
              && CopyAsScripted(q'.copies[|q.copies|], payload, q.now, index, draw)
    {
      var rules := RulesFor(script, index);
      ScriptDecides(script, index, draw, reorderMaxDelay);
      var fault, extra := FaultFor(rules, draw), ExtraDelay(rules, draw, reorderMaxDelay);
      assert Scripted(script, index, draw, fault, extra, reorderMaxDelay);
    }

    /** One of the copies is flipped in its length field and cut short. */
    ghost predicate EmitsTorn(payload: seq<byte>, rules: seq<ScriptedFault>, twice: bool, first: Draw, second: Draw) {
      DoubleFault(payload, FaultFor(rules, first)) || (twice && DoubleFault(payload, FaultFor(rules, second)))
    }

    /** Numbers one more datagram and looks up its rules. */
    method Admit(ghost payload: seq<byte>) returns (rules: seq<ScriptedFault>)
      requires Authentic()
      modifies this`nextIndex, this`sent, this`offered
      ensures nextIndex == old(nextIndex) + 1 && sent == old(sent) + 1 && offered == old(offered) + [payload]
      ensures Authentic() && rules == RulesFor(script, old(nextIndex))
      ensures NeverDelays(reorderMaxDelay, script) ==> forall draw :: ExtraDelay(rules, draw, reorderMaxDelay) == 0
    {
      rules := RulesFor(script, nextIndex);
      OfferMore(copies, offered, torn, baseDelay, NeverDelays(reorderMaxDelay, script), payload);
      if NeverDelays(reorderMaxDelay, script) { NoScriptedDelay(script, nextIndex); }
      nextIndex, sent, offered := nextIndex + 1, sent + 1, offered + [payload];
    }

    /** The end of `send` for a datagram that is not dropped: one copy, or two. */
    method SendCopies(payload: seq<byte>, rules: seq<ScriptedFault>, twice: bool, first: Draw, second: Draw)
      requires QueueValid() && Authentic() && offered != [] && offered[|offered| - 1] == payload
      requires NeverDelays(reorderMaxDelay, script) ==> forall draw :: ExtraDelay(rules, draw, reorderMaxDelay) == 0
      modifies this`inFlight, this`payloads, this`copies, this`history, this`torn, this`duplicated
      ensures QueueValid() && Authentic() && View() == Emitting(old(View()), payload, rules, twice, first, second)
      ensures torn == (old(torn) || EmitsTorn(payload, rules, twice, first, second))
      ensures duplicated == old(duplicated) + if twice then 1 else 0
    {
      SendCopy(payload, rules, first);
      if twice {
        duplicated := duplicated + 1;
        SendCopy(payload, rules, second);
      }
    }

    /** `send`. */
    method Send(payload: seq<byte>, loss: bool, duplication: bool, first: Draw, second: Draw)
      requires Valid()
      modifies this
      ensures Valid() && sent == old(sent) + 1 && offered == old(offered) + [payload]
      ensures now == old(now) && log == old(log) && old(copies) <= copies
      ensures View() == SentInto(old(View()), payload, RulesFor(script, old(nextIndex)), loss, duplication,
                                 first, second)
      ensures torn == (old(torn) || var rules := RulesFor(script, old(nextIndex));
                                     && !(Drop in rules || loss)
                                     && EmitsTorn(payload, rules, Duplicate in rules || duplication, first, second))
    {
      var rules := Admit(payload);
      if Drop in rules || loss {
        dropped := dropped + 1;
        return;
      }
      SendCopies(payload, rules, Duplicate in rules || duplication, first, second);
    }

    /** Takes the first entry out of the queue and its payload out of its slot. */
    method TakeFirst(e: Entry) returns (bytes: seq<byte>)
      requires Counted() && IsFirst(e, inFlight) && e.arrives <= now
      modifies this`inFlight, this`payloads, this`delivered, this`log, this`history
      ensures Counted() && View() == Left(old(View()), e) && e.id < |copies| && bytes == copies[e.id].bytes
    {
      FirstSlot(history, e);
      OneMore(history, Leave(e));
      inFlight := inFlight - {e};
      bytes := payloads[e.id];
      payloads := payloads[e.id := []];
      delivered := delivered + 1;
      log := log + [e.id];
      history := history + [Leave(e)];
    }

    /** `deliver_ready`; `taken` lists the entries delivered. */
    method DeliverReady() returns (ready: seq<seq<byte>>, ghost taken: seq<Entry>)
      requires Valid()
      modifies this`inFlight, this`payloads, this`delivered, this`log, this`history
      ensures Valid() && IsDueList(taken, old(inFlight), now) && HandsOver(ready, taken, copies)
      ensures inFlight == old(inFlight) - (set e | e in taken) && log == old(log) + Ids(taken)
    {
      ready, taken := Collect();
      DueDone(taken, old(inFlight), inFlight, now);
    }

    /** The loop of `deliver_ready`. */
    method Collect() returns (ready: seq<seq<byte>>, ghost taken: seq<Entry>)
      requires Counted()
      modifies this`inFlight, this`payloads, this`delivered, this`log, this`history
      ensures Counted() && Collected(ready, taken, old(inFlight), old(log)) && NoneDue(inFlight, now)
    {
      ready, taken := [], [];
      NothingTaken(inFlight, log, now);
      while inFlight != {}
        invariant Counted() && Collected(ready, taken, old(inFlight), old(log))
        decreases |inFlight|
      {
        var e := Peek();
        if e.arrives > now {
          FirstNotDue(e, inFlight, now);
          return;
        }
        ready, taken := TakeDue(e, ready, taken, old(inFlight), old(log));
      }
    }

    /** What the loop has taken so far, out of what was waiting. */
    ghost predicate Collected(ready: seq<seq<byte>>, taken: seq<Entry>, waiting: set<Entry>, before: seq<nat>)
      reads this
    {
      HandsOver(ready, taken, copies) && TakenSoFar(taken, waiting, inFlight, now) && log == before + Ids(taken)
    }

    /** One round of the loop. */
    method TakeDue(e: Entry, ready: seq<seq<byte>>, ghost taken: seq<Entry>, ghost waiting: set<Entry>,
                   ghost before: seq<nat>)
      returns (ready': seq<seq<byte>>, ghost taken': seq<Entry>)
      requires Counted() && Collected(ready, taken, waiting, before) && IsFirst(e, inFlight) && e.arrives <= now
      modifies this`inFlight, this`payloads, this`delivered, this`log, this`history
      ensures Counted() && Collected(ready', taken', waiting, before) && inFlight == old(inFlight) - {e}
    {
      TakenOne(taken, waiting, inFlight, now, e);
      LogOne(before, taken, e);
      var bytes := TakeFirst(e);
      HandedOne(ready, taken, copies, bytes, e);
      ready', taken' := ready + [bytes], taken + [e];
    }

    /** The first entry in the queue. */
    method Peek() returns (e: Entry)
      requires inFlight != {}
      ensures IsFirst(e, inFlight)
    {
      ghost var f := FirstExists(inFlight);
      e :| e in inFlight && forall g :: g in inFlight ==> g == e || Before(e, g);
    }

    /** `advance`: the only way time moves. */
    method Advance(to: nat) returns (ready: seq<seq<byte>>, ghost taken: seq<Entry>)
      requires Valid()
      modifies this`now, this`inFlight, this`payloads, this`delivered, this`log, this`history
      ensures Valid() && now == Max(old(now), to) && IsDueList(taken, old(inFlight), now)
      ensures HandsOver(ready, taken, copies)
      ensures inFlight == old(inFlight) - (set e | e in taken) && log == old(log) + Ids(taken)
      ensures NoneDue(inFlight, now) && forall i :: 0 <= i < |ready| ==> IsCopy(ready[i], offered, torn)
    {
      OneMore(history, Pass(to));
      if to > now { now := to; }
      history := history + [Pass(to)];
      ready, taken := DeliverReady();
    }
  }

  /** The payloads handed to the caller are those of the entries taken, in the same order. */
  ghost predicate HandsOver(ready: seq<seq<byte>>, taken: seq<Entry>, copies: seq<Emitted>) {
    && |ready| == |taken|
    && forall i :: 0 <= i < |taken| ==> taken[i].id < |copies| && ready[i] == copies[taken[i].id].bytes
  }

  lemma HandedOne(ready: seq<seq<byte>>, taken: seq<Entry>, copies: seq<Emitted>, bytes: seq<byte>, e: Entry)
    requires HandsOver(ready, taken, copies) && e.id < |copies| && bytes == copies[e.id].bytes
    ensures HandsOver(ready + [bytes], taken + [e], copies)
  {}

  function Ids(es: seq<Entry>): (ids: seq<nat>)
    ensures |ids| == |es| && forall i :: 0 <= i < |es| ==> ids[i] == es[i].id
  {
    seq(|es|, i requires 0 <= i < |es| => es[i].id)
  }

  /** The loop of `deliver_ready`: `taken` so far, `rest` still queued. */
  ghost predicate TakenSoFar(taken: seq<Entry>, waiting: set<Entry>, rest: set<Entry>, now: nat) {
    && rest == waiting - (set e | e in taken)
    && (forall i :: 0 <= i < |taken| ==> taken[i] in waiting && taken[i].arrives <= now)
    && (forall i, j :: 0 <= i < j < |taken| ==> Before(taken[i], taken[j]))
    && (forall i, f :: 0 <= i < |taken| && f in rest ==> Before(taken[i], f))
  }

  lemma TakenOne(taken: seq<Entry>, waiting: set<Entry>, rest: set<Entry>, now: nat, e: Entry)
    requires TakenSoFar(taken, waiting, rest, now) && IsFirst(e, rest) && e.arrives <= now
    ensures TakenSoFar(taken + [e], waiting, rest - {e}, now)
  {}

  lemma LogOne(log: seq<nat>, taken: seq<Entry>, e: Entry)
    ensures (log + Ids(taken)) + [e.id] == log + Ids(taken + [e])
  {}

  ghost predicate NoneDue(waiting: set<Entry>, now: nat) { forall f :: f in waiting ==> f.arrives > now }

  lemma NothingTaken(waiting: set<Entry>, log: seq<nat>, now: nat)
    ensures TakenSoFar([], waiting, waiting, now) && log + Ids([]) == log
  {}

  lemma FirstNotDue(e: Entry, waiting: set<Entry>, now: nat)
    requires IsFirst(e, waiting) && e.arrives > now
    ensures NoneDue(waiting, now)
  {}

  lemma DueDone(taken: seq<Entry>, waiting: set<Entry>, rest: set<Entry>, now: nat)
    requires TakenSoFar(taken, waiting, rest, now) && NoneDue(rest, now)
    ensures IsDueList(taken, waiting, now)
  {
    forall f | f in waiting && f.arrives <= now ensures f in taken { assert f !in rest; }
  }
}
