# A verified model of the wire

The repository builds reliable communication on a datagram channel that guarantees nothing: a checksummed frame, a
transport with a handshake, cumulative and selective acknowledgements, a retransmission timer, flow and congestion
control and a teardown, an RPC layer with retries and deduplication, and two textbook schemes to compare against.
This project models that stack in Dafny and proves what it promises, for every input and every run.

Two networks are modelled. In a run, any segment ever sent may arrive any number of times, in any order, or as an
unreadable datagram. In a run with torn deliveries, the segment may also arrive with only a prefix of its data: that is
all that comes of the one damage of this channel that the checksum can miss, a flip in the length field together with
the matching truncation of the same copy. Stream safety, RPC exactly-once, the bounds of flow and congestion control
and the simulation loop are proved with torn deliveries, so for every copy the channel can emit. The theorems about
segment boundaries, acknowledgements, selective acknowledgements, teardown and progress hold in every run without a
torn delivery; `TornWitness` shows that acknowledgements and teardown really need that.

How the parts fit:

- `Bytes`, `Crc32c`, `CrcCheck`, `Frames`, `Damage`, `Overlap`: bytes and bits, the CRC-32C register (Appendix A of
  RFC 9260) as bits and as machine words, the frame format, and what flipped bits and truncation do to an encoded frame.
- `Channel`: the virtual-time queue, as a class, with every run of the queue as a list of operations.
- `Segments`, `Rto`, `Transport`: the segment format, the timeout estimator, and one endpoint as functions on values.
  `Connection` is the endpoint as the class it is in the source, each method proved equal to its function.
- `Network`: two endpoints and everything either ever sent. A step delivers any of it, any number of times, or an
  unreadable datagram, or a tick, or lets an application send, close or read. That covers loss, duplication, delay
  and reordering at once. `SendSafety`, `Sack`, `ReceiveSafety`, `Endpoint` and `Session` prove what each kind of step
  keeps; `Safety` combines them into one invariant; `Theorems` says what it means. `Witnesses` holds runs in which a
  documented bound does not hold.
- `HandshakeProgress`, `Progress`, `TeardownProgress`: what one delivery after another gets done, from the SYN to the
  acknowledged FIN. `Transmission`, `Reporting`, `Congestion`: that everything admitted goes out, that selective
  acknowledgements are used, what every header reports, how the window and the estimator react. `GiveUp`,
  `ExactGiveUp`: when a connection that hears nothing fails.
- `TornNetwork`, `TornSafety`: the same two endpoints with torn deliveries, what survives them, and why every damaged
  copy is one of the deliveries modelled. `TornWitness` is a run in which the rest does not survive.
- `Framing`, `Messages`, `Rpc`, `RpcLink`, `RpcStack`: the RPC layer on values, then joined by two byte streams, then
  on top of the two endpoints. `RpcProgress` says what the stack gets done, `Retrying` how long an unanswered call is
  retried. `RpcEndpoints` has the client and the server as classes.
- `Refinement`, `Rounds`, `Hosts`, `Driver`: back from bytes to runs. What the objects do with a datagram, a call or a
  tick is a step of the system. One round of the simulation is a function of what the channels hand over, it keeps the
  two sides a reachable state, and the simulation loop, two connections that feed each other through two channels, does
  what that function says.
- `Baselines`, `BaselineGiveUp`: go-back-N and stop-and-wait, tick by tick, and when they give up.

The key idea of the transport proof is that segment boundaries are fixed at first transmission and never change. The
invariant says that some list of boundaries for each direction explains everything: the unacknowledged segments are
the tail of that list, every data segment in the network and every buffered segment is one of its pieces, every
acknowledgement is one of its points, and no acknowledged point is ever selectively acknowledged.

Where documentation and code differ, the model follows the code:

- `in_flight_bytes` is documented as never above `effective_window` (crates/transport/src/connection.rs:229-231).
  `Witnesses.TimeoutExceedsWindow` is a run where it is; `Endpoint.AdmissionWithinExactly` says exactly when an
  admission pass leaves it within.
- `recv_window_capacity` is documented as a cap on unacknowledged data (crates/transport/src/connection.rs:50-54).
  `Witnesses.ProbeExceedsCapacity` is a run with capacity 0 and one byte in flight;
  `Witnesses.CapacityHoldsExactly` says that the cap holds in every run exactly for capacities of at least 1.
- A connection is documented to fail within bounded ticks when nothing arrives (docs/design/WIRE.md:80-87). The bound
  of `(max_retries + 1) * max_rto` ticks after a transmission fails for a segment overtaken by a fast retransmission
  and for a timer left overdue (`Witnesses.YoungerSegmentOutlasts`, `Witnesses.OverdueOutlasts`);
  `ExactGiveUp.BoundMetExactly` says exactly when it is met, and `GiveUp.TickedGiveUp` that right after a tick it
  always is for the handshake, the oldest segment and the FIN.
- A corrupted datagram is documented as rejected up to checksum collisions (docs/design/WIRE.md:74-79). `Damage` shows
  a systematic exception, a flip in the length field together with the matching truncation.
  `Damage.UnnoticedExactly` says exactly when such a copy is accepted and as what, and `Overlap.UnsafeExactly` for which
  lengths some payload makes it so.
- A side that has seen its peer's FIN is meant to have all of its data (crates/transport/src/connection.rs:220-227).
  After such a copy it need not: `TornWitness.TornFinLosesData`. `Theorems.TeardownSoundness` holds in every run
  without one.

## Model

| member | source | states |
|---|---|---|
| `Theorems.StreamSafety` | crates/transport/src/connection.rs:641-668 | In every state of every run, everything a side ever delivered, read by its application or not, is exactly the first `expected_seq` bytes of what the peer's application sent, also after either side failed |
| `Theorems.SenderTiling` | crates/transport/src/connection.rs:347-395 | Outside `Failed`, the unacknowledged segments tile `[send_base, next_seq)` of the stream without gap, overlap or empty piece; the queue is the rest of the stream; `send_base <= peer.expected_seq <= next_seq` |
| `Theorems.AcksAreSafe` | crates/transport/src/connection.rs:583-597 | In every run without a torn delivery, every acknowledgement in the network is at most what the peer has delivered, and cuts no unacknowledged segment in two, so dropping entries that start below it forgets no undelivered byte |
| `Theorems.SackSoundness` | crates/transport/src/connection.rs:628-632 | In every run a segment marked `sacked` is wholly delivered or buffered with the same bytes at the peer, and the oldest segment is never marked |
| `Theorems.ReceiveBufferHygiene` | crates/transport/src/connection.rs:272-291 | In every run buffered data lies strictly beyond `expected_seq`, does not overlap and is the peer's; the advertised ranges are the first at most four maximal runs held, sorted, separated, complete up to the last, and beyond the cumulative point |
| `Theorems.TeardownSoundness` | crates/transport/src/connection.rs:397-437 | In every run without a torn delivery, if neither side sends after `close`: a seen FIN means that the peer's whole stream was delivered, and a `Closed` side means both whole streams were delivered and both FINs were seen |
| `TornSafety.TornStreamSafety` | crates/transport/src/connection.rs:641-668 | In every state of every run with torn deliveries, what a side ever delivered is exactly the first `expected_seq` bytes of what the peer's application sent |
| `TornSafety.TornAckBracket` | crates/transport/src/connection.rs:582-598 | In every such run no acknowledgement, and no acknowledged point, is beyond what the peer delivered |
| `TornSafety.OverlapIsDelivered` | crates/transport/src/connection.rs:641-668 | A segment that reaches over an open side's cumulative point moves it at least to its end, even if its first part was delivered before |
| `TornSafety.TornFlowAndCongestion` | crates/transport/src/connection.rs:347-395 | In every such run bytes in flight are at most the peer's capacity or one probe byte, `cwnd` and `ssthresh` keep their least sizes and the armed timeout its limits |
| `TornSafety.TornWireFaithful` | crates/transport/src/connection.rs:329-338 | In every such run each segment ever sent fits its fields and is read back exactly |
| `TornSafety.TornRunKeeps` | docs/design/WIRE.md:80-87 | Everything sent, unacknowledged and buffered stays a piece of the stream at its own offset, whatever is delivered |
| `TornSafety.CopyParses` | crates/channel/src/lib.rs:128-186 | Whatever the channel does to a copy of a segment, it parses as that segment, whole or with a prefix of its data, or not at all |
| `TornSafety.EveryCopyActs` | crates/transport/src/connection.rs:446-464 | In every such run, every copy the channel can emit of anything a side sent has the effect of an action of the network with torn deliveries: its segment if intact, an unreadable datagram if damaged, and a torn segment at most for the double fault |
| `TornNetwork.RunIsTornRun` | docs/design/WIRE.md:80-87 | Every run is a run with torn deliveries, so what is proved of these holds of both |
| `TornWitness.RealTear` | crates/channel/src/lib.rs:146-180 | For the five bytes of the witness, one flipped bit and a truncation make a copy that parses as the segment with its first byte only |
| `TornWitness.TornAckCutsSegment` | crates/transport/src/connection.rs:583-597 | A run with a torn delivery in which an acknowledgement lies inside an unacknowledged segment |
| `TornWitness.TornFinLosesData` | crates/transport/src/connection.rs:397-416 | A run with a torn delivery in which the receiver has seen the FIN and four bytes are lost for good, though nobody sent after `close` |
| `Theorems.AdmissionOverRuns` | crates/transport/src/connection.rs:347-395 | In every run bytes in flight are at most the peer's receive capacity, or one probe byte |
| `Theorems.CongestionOverRuns` | crates/transport/src/connection.rs:599-613 | In every run `cwnd` is at least a segment, `ssthresh` at least two, the congestion-avoidance increment is between one byte and one segment, a data timeout re-enters slow start, and the armed timeout is within its limits |
| `Theorems.WireFaithful` | crates/transport/src/connection.rs:446-464 | Every segment ever sent is read back from its bytes exactly as meant: nothing wraps around or overflows a field |
| `Theorems.HandshakeAgreement` | crates/transport/src/connection.rs:485-551 | Neither side is ever open before the other has taken part in the handshake |
| `Progress.NoStuckHole` | crates/transport/src/connection.rs:698-723 | In every run, when the data timer fires and the side does not give up, the sweep sends the bytes at `send_base`, and one delivery of that frame makes the peer answer with an acknowledgement whose delivery strictly advances `send_base` |
| `HandshakeProgress.HandshakeCompletes` | crates/transport/src/connection.rs:485-551 | In every run, from a connecting side that has heard nothing and a listening side that has not failed, three deliveries open both: the SYN, the SYN-ACK it causes, and the acknowledgement that causes |
| `HandshakeProgress.SynAnswered` | crates/transport/src/connection.rs:486-501 | A SYN is answered with a SYN-ACK by a side that listens or has received it before, every time it comes |
| `HandshakeProgress.SynAckAnswered` | crates/transport/src/connection.rs:502-549 | A SYN-ACK opens a connecting side, and is answered with a completing acknowledgement then and whenever it comes again |
| `HandshakeProgress.HandshakeResent` | crates/transport/src/connection.rs:676-695 | When the handshake timer fires with an attempt left, the side's own segment of the handshake goes out again |
| `TeardownProgress.FinAnswered` | crates/transport/src/connection.rs:562-568 | A FIN that reaches an open, closed or half-open side is answered with `fin_ack` set, every time it comes, and is seen afterwards |
| `TeardownProgress.AnswerSettles` | crates/transport/src/connection.rs:633-637 | The acknowledgement of its FIN leaves a closing side without a pending FIN, and closes it if it has seen the peer's FIN |
| `TeardownProgress.FinSettles` | crates/transport/src/connection.rs:553-571 | In every run, when a side that sent nothing after `close` waits for its FIN, delivering that FIN to a peer that has not failed produces an answer whose delivery settles it, and closes the side if it has seen the peer's FIN |
| `TeardownProgress.FinResent` | crates/transport/src/connection.rs:731-744 | When the FIN's timer fires with an attempt left, the FIN goes out again |
| `TeardownProgress.NothingHeldBack` | crates/transport/src/connection.rs:397-437 | In every run an open side has an empty queue or a used-up window, and once its application has closed and everything is acknowledged its FIN is out or acknowledged |
| `Transmission.AdmittedIsSent` | crates/transport/src/connection.rs:347-395 | In every run, whatever any action newly takes from the queue goes out in that action as a data segment, and its timer starts then |
| `Transmission.MarksExactly` | crates/transport/src/connection.rs:628-632 | Unless it triggers a fast retransmission, a header marks exactly the remaining segments that its ranges cover, older marks stay, and nothing else about them changes |
| `Transmission.MarkedNeverResent` | crates/transport/src/connection.rs:711-723 | In every run a segment once marked is never sent again, by any action in any later state |
| `Transmission.SweepIsComplete` | crates/transport/src/connection.rs:698-723 | On a timeout every segment that is not marked goes out again |
| `Reporting.EveryHeaderReports` | crates/transport/src/connection.rs:248-291 | In every run every segment sent carries a header that reports the receive side: its cumulative point, its capacity less the bytes held, and the first maximal runs of its buffer |
| `Reporting.LengthsCountOffsets` | crates/transport/src/connection.rs:248-256 | The buffered lengths add up to the number of distinct offsets held |
| `Reporting.ClockAdvances` | crates/transport/src/connection.rs:446-452 | An endpoint's clock never goes back, and every action but reading moves it to the time given |
| `Congestion.StartsWithTwoSegments` | crates/transport/src/connection.rs:150-176 | Both sides start in slow start, with a window of two segments and nothing in flight |
| `Congestion.AckGrowsWindow` | crates/transport/src/connection.rs:599-607 | A new acknowledgement grows `cwnd` by exactly the bytes acknowledged in slow start and otherwise by about a segment's share, saturating at 32 bits, and restarts the count of duplicates |
| `Congestion.OtherAcksKeepWindow` | crates/transport/src/connection.rs:608-625 | Any other acknowledgement leaves `cwnd` and `ssthresh` alone, unless it triggers the fast retransmission |
| `Congestion.TimeoutDecreases` | crates/transport/src/connection.rs:702-709 | On a data timeout `ssthresh` becomes half of `cwnd`, at least two segments, and `cwnd` one segment |
| `Congestion.EveryNthDuplicate` | crates/transport/src/connection.rs:608-625 | Of any number of duplicates in a row exactly every `fast_retransmit_dup_acks`-th sends the oldest data again, and only that |
| `Congestion.AckMeasures` | crates/transport/src/connection.rs:583-597 | An acknowledgement drops exactly the segments that start below it and feeds the estimator one sample for each of them that was sent once |
| `Congestion.KarnsRule` | crates/transport/src/connection.rs:590-594 | Segments sent more than once give no sample |
| `Congestion.HandshakeMeasures` | crates/transport/src/connection.rs:502-539 | The handshake gives a sample exactly if it took one attempt |
| `GiveUp.TicksFail` | crates/transport/src/connection.rs:672-749 | From any state of an endpoint with a handshake, oldest segment or FIN outstanding, ticking past a deadline computed from its last transmission and its remaining retries ends in `Failed` |
| `GiveUp.FailureClears` | crates/transport/src/connection.rs:711-728 | A data timeout that uses up the retries of some unmarked segment fails the connection and leaves nothing in flight |
| `GiveUp.BoundedGiveUp` | crates/transport/src/connection.rs:676-744 | In every run, an outstanding handshake, oldest segment or FIN whose timer is not overdue fails the connection within `(max_retries + 1) * max(max_rto, 1)` ticks of its last transmission if nothing arrives |
| `GiveUp.TickedGiveUp` | crates/transport/src/connection.rs:672-749 | In every run, right after a tick no timer is overdue, so the bound holds without condition |
| `ExactGiveUp.FailsExactly` | crates/transport/src/connection.rs:672-749 | From any endpoint state with one running timer, the connection has failed after `n` silent ticks if and only if a tick has come that is the next timeout plus the sum of the armed timeouts, each twice the one before up to the cap, of the retries left |
| `ExactGiveUp.ConnectFailsExactly` | crates/transport/src/connection.rs:676-695 | A connection attempt that hears nothing has failed after `n` ticks if and only if `n` is at least the sum of `max_retries` waits, `min_rto` doubled each time up to 64 times and up to `max_rto` |
| `ExactGiveUp.GiveUpExactly` | crates/transport/src/connection.rs:676-744 | The same in every run without sends after `close`, for handshake, data and FIN |
| `ExactGiveUp.BoundMetExactly` | crates/transport/src/connection.rs:676-744 | In every such run, something sent at a given tick (a handshake, any one segment, a FIN) meets the bound of `(max_retries + 1) * max_rto` ticks if and only if the computed tick is within it |
| `Witnesses.YoungerSegmentOutlasts` | crates/transport/src/connection.rs:608-625 | A run, with a repeated SYN-ACK as the duplicate acknowledgement, in which a younger segment outlives its bound after a fast retransmission of the oldest one |
| `Witnesses.OverdueOutlasts` | crates/transport/src/connection.rs:446-452 | A run in which the clock moved without ticks and the handshake outlives its bound |
| `GiveUp.SegmentGiveUp` | crates/transport/src/connection.rs:698-723 | In every run, sends after `close` included, the bound holds from any unacknowledged segment sent no earlier than the oldest one, if the timer is not overdue |
| `GiveUp.OldestIsOutstanding` | crates/transport/src/connection.rs:698-709 | In every run an open side with unacknowledged data has a running data timer: the oldest segment is never hidden by a selective acknowledgement |
| `Safety.NextKeepsInv` | crates/transport/src/connection.rs:446-574 | Every step of the two endpoints and the network keeps the whole invariant of the transport |
| `Safety.RunKeepsInv` | docs/design/WIRE.md:80-87 | The invariant holds in every state of every run from the initial state |
| `SendSafety.OutgoingKept` | crates/transport/src/connection.rs:582-639 | Whatever a side does, its outgoing direction stays explained by the same boundaries, extended at the end only |
| `ReceiveSafety.IncomingKept` | crates/transport/src/connection.rs:641-668 | Whatever a side does, its incoming direction stays explained by the sender's unchanged boundaries, and every header it emits acknowledges only what it holds |
| `ReceiveSafety.DeliverKeeps` | crates/transport/src/connection.rs:641-668 | Delivering any piece of the stream keeps the delivered prefix exact and the buffer beyond it, gives up nothing held, and holds the piece afterwards |
| `Sack.RunsAreMaximal` | crates/transport/src/connection.rs:272-291 | For every non-overlapping buffer and limit, the ranges built are the first maximal runs of held bytes, sorted and separated, and nothing below the last is left out |
| `Endpoint.IncrementBounds` | crates/transport/src/connection.rs:604-613 | With `cwnd` at least a segment, the increment is in `[1, segment_size]`, so its cast to 32 bits is exact |
| `Endpoint.OnSegmentKeepsEndpoint` | crates/transport/src/connection.rs:446-574 | Any segment, authentic or not, keeps the bounds on `cwnd`, `ssthresh` and the timer and the consistency of the control state |
| `Endpoint.OnTickKeepsEndpoint` | crates/transport/src/connection.rs:672-749 | Any tick keeps the same |
| `Endpoint.AdmissionBound` | crates/transport/src/connection.rs:347-395 | One admission pass leaves in flight at most what was in flight before, or the smaller of the peer's window and `cwnd`, or one byte |
| `Endpoint.AdmissionExhausts` | crates/transport/src/connection.rs:347-395 | The pass ends only with an empty queue or a used-up window |
| `Endpoint.AdmissionWithinExactly` | crates/transport/src/connection.rs:347-395 | A pass leaves in flight at most the effective window if and only if it was not exceeded before and there was no occasion for a probe into a closed window |
| `Witnesses.TimeoutExceedsWindow` | crates/transport/src/connection.rs:702-709 | A run in which more is in flight than the effective window, after a timeout |
| `Witnesses.ProbeExceedsCapacity` | crates/transport/src/connection.rs:365-369 | A run in which one byte is in flight towards a side of capacity 0 |
| `Witnesses.CapacityHoldsExactly` | crates/transport/src/connection.rs:50-54 | At most the capacity is in flight in every run if and only if the capacity is at least 1 |
| `Session.OnSegmentStep` | crates/transport/src/connection.rs:446-574 | A segment moves the state and the FIN bookkeeping only in the permitted ways: a FIN goes out only when everything queued is acknowledged, and `fin_acked` only follows a `fin_ack` |
| `Connections.Connection.OnDatagram` | crates/transport/src/connection.rs:446-574 | The new state and the datagrams sent are those of `Transport.OnDatagram`, undecodable input included |
| `Connections.Connection.ApplyAck` | crates/transport/src/connection.rs:582-639 | In-place acknowledgement, congestion response, fast retransmit with its early return, marks and `fin_ack` equal the specification |
| `Connections.Connection.DeliverData` | crates/transport/src/connection.rs:641-668 | The in-place reassembly loop equals the specification |
| `Connections.Connection.TrySendMore` | crates/transport/src/connection.rs:347-395 | The in-place admission loop equals the specification and sends those segments |
| `Connections.Connection.OnTick` | crates/transport/src/connection.rs:672-749 | Handshake, data and FIN timers and the sweep equal the specification |
| `Connections.Connection.Send` | crates/transport/src/connection.rs:340-345 | Queues the bytes and sends what the window admits |
| `Connections.Connection.Close` | crates/transport/src/connection.rs:427-431 | Requests the close and sends the FIN if everything is settled |
| `Connections.Connection.Recv` | crates/transport/src/connection.rs:440-442 | Hands over all delivered bytes once |
| `Connections.Connection.StartHandshake` | crates/transport/src/connection.rs:186-195 | A connecting endpoint arms its handshake and sends the SYN |
| `Connections.Connection.CurrentSackRanges` | crates/transport/src/connection.rs:272-291 | The peeking loop yields the first maximal runs of the specification |
| `Segments.HeaderRoundTrip` | crates/transport/src/segment.rs:50-95 | Every header whose fields fit is read back exactly, with the rest of the payload untouched |
| `Segments.SegmentRoundTrip` | crates/transport/src/connection.rs:329-338 | Every segment whose fields fit survives encoding into a frame and parsing |
| `Segments.AppendHeader` | crates/transport/src/segment.rs:50-60 | The appending loop produces the header's bytes after what was there, at most four ranges |
| `Segments.ReadHeader` | crates/transport/src/segment.rs:66-95 | The reading loop equals the pure decoder on every input, too short and overrunning ones included |
| `Connections.ReadSegment` | crates/transport/src/connection.rs:450-470 | Decoding a datagram frame first, then sub-header, equals the parser that the round trip is proved of |
| `Rto.HistoryBounds` | crates/transport/src/rto.rs:37-73 | For every history of timeouts and samples in `[L, M]`, scaled SRTT stays in `[8L, 8M]`, scaled RTTVAR at most `4M`, and the armed timeout within `[min_rto, max_rto]` |
| `Rto.BackoffDoubles` | crates/transport/src/rto.rs:71-73 | After `n` timeouts in a row the backoff is `2^n` times what it was, at most 64, nothing else has changed, and the armed timeout is the base times that, at most `max_rto` |
| `Rto.SampleEndsBackoff` | crates/transport/src/rto.rs:53-55 | After a sample the armed timeout is the base timeout |
| `Rto.TimeoutFormula` | crates/transport/src/rto.rs:37-51 | The timeout before backoff is SRTT plus four times RTTVAR, up to rounding and at least four ticks more than SRTT, clamped to the limits, and the lower limit before the first sample |
| `Rto.SmoothingGains` | crates/transport/src/rto.rs:53-67 | A sample moves SRTT an eighth and RTTVAR a quarter of the way, up to rounding, and the first sample sets both (section 2.3 of RFC 6298) |
| `Rto.Converges` | crates/transport/src/rto.rs:37-67 | From any estimator state, constant samples `c` reach `clamp(c + 4, min_rto, max_rto)` and hold it for ever |
| `Rto.RtoEstimator.OnSample` | crates/transport/src/rto.rs:53-67 | The in-place smoothing equals the recurrence that the bounds are proved of |
| `Crc32c.Compute` | crates/frame/src/crc32c.rs:15-28 | The nested loops compute the checksum by register steps |
| `Crc32c.PolyValue` | crates/frame/src/crc32c.rs:13-13 | The polynomial of the register is 0x82F63B78 |
| `CrcCheck.StepIs` | crates/frame/src/crc32c.rs:19-25 | On every 32-bit machine word the source's shift and exclusive-or do what one step of the register of bits does |
| `CrcCheck.CheckValue` | crates/frame/src/crc32c.rs:35-38 | The checksum of "123456789" is the standard check value 0xE3069283 |
| `Crc32c.StepLinear` | crates/frame/src/crc32c.rs:19-26 | The one-bit step is linear over GF(2) |
| `Crc32c.StepZero` | crates/frame/src/crc32c.rs:13-25 | The step maps only zero to zero, so it is injective |
| `Crc32c.StepKeepsParity` | crates/frame/src/crc32c.rs:13-25 | The step preserves the parity of the register |
| `Crc32c.ChecksumResidue` | crates/frame/src/crc32c.rs:15-28 | Data followed by its own checksum always leaves the same register |
| `Crc32c.BurstLeavesRegisterNonzero` | crates/frame/src/crc32c.rs:15-28 | Any nonzero error pattern confined to 32 bits, at any place in any length, leaves the register nonzero |
| `Frames.RoundTrip` | crates/frame/src/lib.rs:55-115 | Decoding an encoded frame gives the frame back |
| `Frames.AcceptsOnlyEncodings` | crates/frame/src/lib.rs:72-115 | Whatever decodes is the encoding of the frame it decodes to, so `decode` accepts exactly the encodings |
| `Frames.BurstDetected` | crates/frame/src/lib.rs:101-107 | Every nonzero error within 32 consecutive bits of an encoding of any length, trailer included, is rejected |
| `Frames.OddWeightDetected` | crates/frame/src/lib.rs:101-107 | Every odd number of bit flips, anywhere, in an encoding of any length, is rejected |
| `Frames.AcceptedParity` | crates/frame/src/lib.rs:55-66 | Every accepted datagram has an even number of one bits |
| `Frames.EncodeFrame` | crates/frame/src/lib.rs:55-66 | The appending encoder produces the encoding |
| `Damage.CopyIsAuthentic` | crates/channel/src/lib.rs:128-186 | Every copy the channel emits of an encoded frame decodes to that frame exactly when it is untouched and is rejected otherwise, unless the copy has both a flip in its length field and a truncation |
| `Damage.FlipError` | crates/frame/src/lib.rs:72-107 | A flipped bit is reported as a wrong version, a wrong length or a wrong checksum, by the field it lies in |
| `Damage.CutError` | crates/frame/src/lib.rs:72-93 | A truncated frame is reported as too short or as a wrong length, with the numbers, by its length |
| `Damage.FlipChangesOneBit` | crates/channel/src/lib.rs:151-158 | A corruption changes exactly one bit, at the drawn place |
| `Damage.FalseAccept` | crates/channel/src/lib.rs:128-186 | The exception is real: for every frame there is a longer one that a length-field flip and the matching cut turn into it |
| `Damage.UnnoticedExactly` | crates/frame/src/lib.rs:72-115 | For every frame, every bit of the length field and every cut, the damaged copy is accepted if and only if the flip shortens the claimed length, the cut is exactly to it, and the bytes then read as trailer are the checksum of what precedes them; and it then decodes to the same frame with its payload cut to that length |
| `Damage.CopyIsTorn` | crates/channel/src/lib.rs:128-186 | For every frame and every fault of the channel, whatever decodes is that frame with its payload, or a prefix of it |
| `Overlap.OverlapFits` | crates/frame/src/crc32c.rs:15-28 | When the flip shortens the length by less than a checksum, the bytes read as trailer fit if and only if the end of the payload is the start of the checksum and a register computed from the two lengths alone is zero there |
| `Overlap.UnsafeExactly` | crates/frame/src/lib.rs:72-107 | For every payload length, length bit and cut, some payload goes unnoticed if and only if the flip shortens the length, the cut is exactly to it, and there is room for a checksum or the two lengths collide |
| `Channels.RunKeepsQueue` | crates/channel/src/lib.rs:188-221 | In every run of the queue each slot is taken at most once, with its own payload and not early; what entered is what left plus what waits; without extra delay everything leaves in sending order |
| `Channels.Channel.Conservation` | crates/channel/src/lib.rs:100-123 | `delivered + in_flight == sent - dropped + duplicated` |
| `Channels.Channel.FifoDelivery` | crates/channel/src/lib.rs:128-145 | A channel configured with no random reordering delay and no scripted delay delivers first in, first out over all calls, without gaps |
| `Channels.Channel.Send` | crates/channel/src/lib.rs:100-123 | None, one or two copies enter the queue, each with its own delay and damage, scripted rules taking the place of draws |
| `Channels.Channel.EmitOne` | crates/channel/src/lib.rs:128-186 | The copy's bytes and delay are those of the decided faults, corruption before truncation |
| `Channels.Channel.EntersAsScripted` | crates/channel/src/lib.rs:100-123 | A datagram enters not at all, once or twice as the script and the draws say, each copy damaged and delayed as they say: the first rule of a kind for its index replaces that draw and no other |
| `Channels.FirstRuleDecides` | crates/channel/src/lib.rs:128-164 | The first rule of a kind for a datagram decides that fault, whatever the script lists after it |
| `Channels.Channel.Advance` | crates/channel/src/lib.rs:201-221 | Time never goes back; what is returned is exactly the due datagrams, sorted by arrival and then by sending, nothing else leaves, and each is a copy of a datagram that was sent |
| `Channels.Channel.DeliverReady` | crates/channel/src/lib.rs:210-221 | The same at the current tick |
| `Framing.ChunkingIndependence` | crates/rpc/src/framing.rs:35-58 | However a stream is cut into feeds, with drains anywhere, the frames yielded and the rest are those of one feed and one drain |
| `Framing.DrainConserves` | crates/rpc/src/framing.rs:41-58 | The yielded frames, framed again, followed by the rest, are the bytes fed, and no whole frame is left |
| `Framing.FramesPrefix` | crates/rpc/src/framing.rs:15-58 | Frames read from a prefix of a framed stream are the first messages of the stream |
| `Framing.FrameReader.DrainFrames` | crates/rpc/src/framing.rs:41-58 | The in-place loop yields and leaves what the specification does |
| `Messages.RequestRoundTrip` | crates/rpc/src/message.rs:22-39 | Every request is read back exactly |
| `Messages.ResponseRoundTrip` | crates/rpc/src/message.rs:43-60 | Every response is read back exactly |
| `RpcStack.ExactlyOnce` | crates/rpc/src/server.rs:59-82 | In every run of client, server, endpoints and network, torn deliveries included: each id is executed at most once and `executions` is the size of the table; each answered call carries the result of the one execution of its own method and payload; each issued call is in exactly one of pending, answered and given up |
| `RpcProgress.EveryRequestAnswered` | crates/rpc/src/server.rs:59-82 | In every run of the stack the server has answered each request it has read, one for one and in the order sent, repeated requests included, by the answer in its table |
| `RpcProgress.EveryAnswerSettles` | crates/rpc/src/client.rs:85-100 | In every run of the stack no call whose answer the client has read is still pending |
| `RpcProgress.AllReadAllSettled` | crates/rpc/src/client.rs:65-123 | In every run of the stack, once both byte streams have been read to their ends, every call ever issued is answered or given up |
| `RpcStack.StackNextKeeps` | crates/rpc/src/client.rs:65-133 | Every event of the stack keeps the link between client, server and what the two endpoints carried |
| `Rpc.HandleFramesKeep` | crates/rpc/src/server.rs:59-82 | Whatever frames reach the server, with any repetition, the table holds exactly the responses of the executions, one for each id, each a run of the handler on the state the previous one left |
| `Rpc.RequestsAnswered` | crates/rpc/src/server.rs:66-79 | Whatever frames reach the server, the ids of its answers grow by exactly the ids asked for, in order |
| `Rpc.ClientFramesKeep` | crates/rpc/src/client.rs:85-100 | Answers complete only pending calls, each once, with an answer of the server |
| `Rpc.AnswerCompletes` | crates/rpc/src/client.rs:89-92 | An answer to a pending call completes it with that answer |
| `Rpc.RetriesKeep` | crates/rpc/src/client.rs:104-123 | Resending and giving up, in any order of the table, keeps each call in exactly one place and sends only issued requests |
| `Retrying.RetriedExactly` | crates/rpc/src/client.rs:104-123 | A call that is never answered, whatever else the client calls, reads and polls, is sent again every `retry_deadline` ticks and given up exactly `max_attempts` such periods after it was issued, having been sent exactly `max_attempts` times (periods of at least a tick, at least one attempt) |
| `Retrying.VisitedOnce` | crates/rpc/src/client.rs:107-122 | A tick does with each pending call what one visit to it does, in whatever order the table is visited |
| `RpcLink.ServerTakes` | crates/rpc/src/server.rs:59-82 | Taking any further part of the request stream executes only issued requests and writes one answer for each request read |
| `RpcLink.ClientTakes` | crates/rpc/src/client.rs:85-100 | Taking any further part of the answer stream completes calls only with answers from the table |
| `RpcEndpoints.RpcServer.OnDatagram` | crates/rpc/src/server.rs:59-82 | The in-place loop equals the specification, and the connection sends exactly the new answers after its own reply |
| `RpcEndpoints.RpcClient.Call` | crates/rpc/src/client.rs:65-83 | A fresh id, one framed request sent, one pending entry |
| `RpcEndpoints.RpcClient.OnDatagram` | crates/rpc/src/client.rs:85-100 | The in-place loop equals the specification |
| `RpcEndpoints.RpcClient.OnTick` | crates/rpc/src/client.rs:104-123 | For some order that visits each pending call once, the two loops equal the specification and the connection sends exactly the retried requests after its own timers |
| `RpcEndpoints.SideSends` | crates/rpc/src/server.rs:79-79 | What the classes send on their connection is what the end-to-end system does with that side |
| `Refinement.DatagramIsAction` | crates/transport/src/connection.rs:446-464 | In every reachable state, every copy of a segment of the peer, whatever the channel did to it, has the effect of an action that the system allows |
| `Refinement.ServerDatagramStep` | crates/rpc/src/server.rs:59-82 | What `RpcServer.OnDatagram` computes for such a copy, its tables, its connection and what it sends, is a step of the end-to-end stack |
| `Refinement.ClientDatagramStep` | crates/rpc/src/client.rs:85-100 | The same for `RpcClient.OnDatagram` |
| `Refinement.CallStep` | crates/rpc/src/client.rs:65-83 | The same for `RpcClient.Call` |
| `Refinement.ClientTickStep` | crates/rpc/src/client.rs:104-123 | The same for `RpcClient.OnTick`, in any order of the table |
| `Rounds.ArrivalAllowed` | crates/transport/tests/reliability.rs:97-102 | Whatever comes out of the peer's channel amounts to an action that the system allows, and to one without torn deliveries unless a copy was flipped in its length field and cut |
| `Rounds.RoundKeeps` | crates/transport/tests/reliability.rs:72-126 | A round of reading, arrivals, ticks and the applications' acts keeps the two sides a reachable state of the system, whatever the channels hand over |
| `Rounds.ClosedHasRead` | crates/transport/tests/reliability.rs:88-136 | If nothing torn was handed over, a server that is closed at the end of a round has handed all of the data to its application |
| `Rounds.PlayIsSound` | crates/transport/tests/reliability.rs:57-145 | So for any number of rounds: what the server has read is a prefix of the data, and all of it if it is closed and nothing torn was handed over |
| `Hosts.Host.Tick` | crates/transport/tests/reliability.rs:103-104 | A tick is the tick action of the host's side, exactly its datagrams wait for the channel, and everything sent is in the channel or waits |
| `Hosts.Host.Arrive` | crates/transport/tests/reliability.rs:97-102 | The same for any datagram and the action it amounts to |
| `Hosts.Host.Flush` | crates/transport/tests/reliability.rs:90-95 | Exactly what waits enters the channel, in order |
| `Hosts.Deliver` | crates/transport/tests/reliability.rs:97-102 | Letting time pass on one channel and handling what arrives: the channel has handed over exactly what is due, copies of what the other side sent, and the side and its replies are those of handling these in order |
| `Driver.Round` | crates/transport/tests/reliability.rs:72-126 | One pass of the loop is the round, for what the channels handed over |
| `Driver.Simulate` | crates/transport/tests/reliability.rs:57-145 | For all configurations, scripts, draws and data: the simulation plays rounds until one ends it and no longer, takes in what the channels hand over when it is due, and what it reads is a prefix of what was sent; a server that ends closed has read exactly that, unless some copy was flipped in its length field and cut |
| `Baselines.RunGoBackN` | crates/workload/src/baselines.rs:133-211 | Every tick takes in what arrives, moves the base, fills the window and runs the timer as specified, until one gives up, completes or is the last; at every tick `base <= expected <= next_seq <= base + window`; what is delivered is the first `expected` chunks, a prefix of the data; completion means all of it |
| `Baselines.RunStopAndWait` | crates/workload/src/baselines.rs:54-127 | The same for one outstanding chunk; at every tick `expected <= next_seq <= expected + 1`; what is delivered is the first `expected` chunks, a prefix of the data; completion means all of it |
| `BaselineGiveUp.SilentGoBackN` | crates/workload/src/baselines.rs:184-200 | If nothing comes back, go-back-N ends at a computed tick, `1 + (max_retries + 1) * rto` for a timeout of at least a tick, or at the last tick allowed, and gives up exactly in the first case |
| `BaselineGiveUp.SilentStopAndWait` | crates/workload/src/baselines.rs:103-116 | The same for stop-and-wait, at `1 + (max_retries + 1) * max(rto, 1)` |
| `BaselineGiveUp.GoBackMovesOn` | crates/workload/src/baselines.rs:158-175 | If the expected chunk arrives it is delivered and an acknowledgement beyond it is sent, and the base moves at least to any acknowledgement that arrives |
| `Baselines.OnArrivalsKeep` | crates/workload/src/baselines.rs:158-166 | Whatever authentic datagrams arrive, in any order and number, the delivered bytes stay the first `expected` chunks and no acknowledgement exceeds `expected` |
| `Baselines.TakeAcks` | crates/workload/src/baselines.rs:167-175 | `base` becomes the greatest acknowledgement that arrived, if any exceeds it, and only then the timer and the retries restart |
| `Baselines.Fill` | crates/workload/src/baselines.rs:177-183 | Exactly the chunks up to the window's end or the last one are sent, and the timer starts if it was idle |
| `Baselines.GoBack` | crates/workload/src/baselines.rs:195-197 | Exactly the whole unacknowledged window is sent again |
| `Baselines.TakeAck` | crates/workload/src/baselines.rs:85-96 | The outstanding chunk is settled exactly when an acknowledgement of the next one arrived |
| `Baselines.SendOrWait` | crates/workload/src/baselines.rs:98-116 | The next chunk, the outstanding one again, nothing, or giving up, each exactly when the source does it |

## Left out

- Wrap-around of sequence numbers: a direction carries fewer than 2^32 bytes; `WireFaithful` shows that under this
  bound nothing wraps.
- Configurations with `segment_size` 0 or at least 2^31, or `min_rto > max_rto`: the source does not support them.
- 64-bit overflow of tick arithmetic and of the estimator: ticks and samples are unbounded here; subtraction saturates
  as in the source.
- `unacked` is a list in order of sequence number and `recv_buffer` a map, where the source has ordered maps; the only
  panic this hides, a range that starts after its end, cannot come from a segment that was sent (part of `Safety.Inv`).
- The connection collects the segments of one public call and encodes them at its end; the source encodes each at once.
- Fault probabilities and both random generators: every draw is a parameter, and replay determinism is not stated.
- CRC double-bit detection and collision probability: they need the order of the polynomial.
- ExactGiveUp.GiveUpExactly: without sends after `close`; with them data and a FIN can wait at once on one estimator,
  and then `GiveUp.TicksFail` and `GiveUp.BoundedGiveUp` still bound the failure from above.
- GiveUp.SegmentGiveUp: a condition that suffices; the exact one is `ExactGiveUp.BoundMetExactly`.
- Driver.Simulate: one direction of data, as in the loop it models; that a simulation gets to its end is not stated.
- Theorems.TeardownSoundness: needs that no application sends after `close` and that no delivery is torn; with a torn
  one it fails (`TornWitness.TornFinLosesData`). `Progress.NoStuckHole` needs both too.
- Theorems.AcksAreSafe: needs that no delivery is torn; with a torn one it fails (`TornWitness.TornAckCutsSegment`). The
  theorems on tiling, selective acknowledgement, receive buffer and give-up in every run are stated without torn
  deliveries.
- Unconditional liveness: bounded retries may give up; what holds is that each delivery gets its part done
  (`HandshakeProgress`, `Progress`, `TeardownProgress`) and `GiveUp.BoundedGiveUp`.
- Baselines.RunGoBackN: over authentic links only, so without torn frames, with fewer than 2^32 chunks and window.
- Baselines.RunStopAndWait: over authentic links only, so without torn frames.
- The listener that accepts several clients, the key-value service, the chaos driver, the profiles and the command
  line: they add wiring over what is modelled.
- Statistics counters beyond those of the channel's conservation law, and error message texts.
- `FailureReason` has one value and is folded into `Failed`.
- The handler of the RPC server is a function of the application state it closes over.
