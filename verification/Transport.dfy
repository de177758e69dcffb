/** The state of one reliable transport and what each of its operations does to it.

    The object that the source updates in place is `ReliableTransports.ReliableTransport`; its methods are
    proved to compute the functions below, and every whole-run result is about these functions. */
module Transports {
  import opened Options
  import opened Bytes
  import opened Words
  import opened SequenceWindows
  import opened ReliablePackets

  const MSS := MAX_RELIABLE_PAYLOAD
  const INITIAL_CWND := 4 * MSS
  const MINIMUM_CWND := 2 * MSS
  const MAXIMUM_CWND := 64 * MSS
  /** Times are whole nanoseconds. */
  const INITIAL_RTO := 500_000_000
  const MINIMUM_RTO := 100_000_000
  const MAXIMUM_RTO := 5_000_000_000
  const MAX_QUEUED_BYTES := 0x40_0000
  const MAX_REASSEMBLY_BYTES := 0x40_0000
  const MAX_ASSEMBLIES := 4096
  const MAX_FRAGMENTS := 8192

  const FILE_DATA: uint16 := 6

  datatype Fragment = Fragment(
    channel: uint16,
    sequence: uint64,
    index: uint16,
    count: uint16,
    payload: bytes,
    sentAt: int,
    transmissions: nat,
    timeoutPending: bool)

  datatype Assembly = Assembly(count: uint16, fragments: map<uint16, bytes>, bytes: int)

  datatype Channel = Channel(
    nextFragmentSequence: uint64,
    received: Window,
    ackDirty: bool,
    nextDelivered: uint64,
    reassemblies: map<uint64, Assembly>)

  datatype Transport = Transport(
    channels: map<uint16, Channel>,
    outbound: seq<Fragment>,
    ackChannels: seq<uint16>,
    ackCursor: nat,
    dataCursor: nat,
    queuedBytes: int,
    bytesInFlight: int,
    reassemblyBytes: int,
    reassemblyCount: int,
    reassemblyParts: int,
    cwnd: int,
    ssthresh: int,
    rto: int,
    srtt: int,
    rttvar: int,
    haveRTT: bool,
    preferACK: bool)

  datatype Delivery = Delivery(channel: uint16, start: uint64, payload: bytes)

  datatype Kind = New | Retransmit

  datatype Reservation =
    | Data(kind: Kind, fragment: Fragment, dataIndex: nat, now: int)
    | Ack(channel: uint16, ackIndex: nat)

  datatype QueueError = UnknownChannel | EmptyMessage | MessageTooLarge | QueueFull | SequenceExhausted

  const NEW_CHANNEL := Channel(0, EMPTY_WINDOW, false, 1, map[])

  const NEW_TRANSPORT := Transport(map[], [], [], 0, 0, 0, 0, 0, 0, 0,
                                   INITIAL_CWND, MAXIMUM_CWND, INITIAL_RTO, 0, 0, false, true)

  function Min(a: int, b: int): int { if a <= b then a else b }
  function Max(a: int, b: int): int { if a >= b then a else b }

  /** Whether a channel delivers in order, and whether it exists at all. */
  function ChannelOrdered(channel: uint16): (bool, bool) {
    if 1 <= channel <= 5 then (true, true)
    else if channel == FILE_DATA then (false, true)
    else (false, false)
  }

  predicate Known(channel: uint16) { ChannelOrdered(channel).1 }
  predicate Ordered(channel: uint16) { ChannelOrdered(channel).0 }

  function AddChannel(t: Transport, channel: uint16): Transport {
    if channel in t.channels then t
    else t.(channels := t.channels[channel := NEW_CHANNEL], ackChannels := t.ackChannels + [channel])
  }

  // ----- queueing -----

  function FragmentCount(size: nat): nat {
    (size + MSS - 1) / MSS
  }

  /** Fragment `index` of a message. */
  function Part(payload: bytes, index: nat): bytes
    requires index < FragmentCount(|payload|)
  {
    payload[index * MSS..Min(index * MSS + MSS, |payload|)]
  }

  function FragmentsOf(channel: uint16, last: uint64, payload: bytes): seq<Fragment>
    requires FragmentCount(|payload|) <= MAX_RELIABLE_FRAGMENTS
    requires last + FragmentCount(|payload|) <= MAX_UINT64
  {
    var n := FragmentCount(|payload|);
    seq(n, i requires 0 <= i < n => Fragment(channel, last + 1 + i, i, n, Part(payload, i), 0, 0, false))
  }

  function CanQueue(t: Transport, channel: uint16, size: nat): Option<QueueError> {
    if !Known(channel) then Some(UnknownChannel)
    else if size == 0 then Some(EmptyMessage)
    else if size > MAX_RELIABLE_FRAGMENTS * MSS then Some(MessageTooLarge)
    else if size > MAX_QUEUED_BYTES - t.queuedBytes then Some(QueueFull)
    else if channel in t.channels && FragmentCount(size) > MAX_UINT64 - t.channels[channel].nextFragmentSequence then
      Some(SequenceExhausted)
    else None
  }

  function Queue(t: Transport, channel: uint16, payload: bytes): Transport {
    if CanQueue(t, channel, |payload|).Some? then t
    else
      var t1 := AddChannel(t, channel);
      var state := t1.channels[channel];
      var last := state.nextFragmentSequence;
      var n := FragmentCount(|payload|);
      t1.(channels := t1.channels[channel := state.(nextFragmentSequence := last + n)],
          outbound := t1.outbound + FragmentsOf(channel, last, payload),
          queuedBytes := t1.queuedBytes + |payload|)
  }

  // ----- choosing what to send -----

  predicate Expired(f: Fragment, rto: int, now: int) {
    f.transmissions != 0 && now >= f.sentAt + rto
  }

  /** The lowest transmitted sequence number waiting on a channel, or zero. */
  function OldestTransmitted(fragments: seq<Fragment>, channel: uint16): uint64 {
    if fragments == [] then 0
    else
      var f := fragments[|fragments| - 1];
      var oldest := OldestTransmitted(fragments[..|fragments| - 1], channel);
      if f.transmissions == 0 || f.channel != channel then oldest
      else if oldest == 0 || f.sequence < oldest then f.sequence
      else oldest
  }

  /** Unsigned subtraction wraps, so a fragment behind the oldest transmitted one is never within 64 of it. */
  function WrapSub(a: uint64, b: uint64): uint64 {
    (a - b) % WORD_SIZE
  }

  predicate Eligible(t: Transport, kind: Kind, f: Fragment, now: int) {
    match kind
    case Retransmit => f.transmissions != 0 && (f.timeoutPending || now >= f.sentAt + t.rto)
    case New =>
      && f.transmissions == 0
      && t.bytesInFlight + |f.payload| <= t.cwnd
      && var oldest := OldestTransmitted(t.outbound, f.channel);
         oldest == 0 || WrapSub(f.sequence, oldest) < 64
  }

  /** The first eligible fragment of one channel. */
  function FirstEligible(t: Transport, kind: Kind, channel: uint16, now: int, from: nat): Option<Fragment>
    requires from <= |t.outbound|
    decreases |t.outbound| - from
  {
    if from == |t.outbound| then None
    else if t.outbound[from].channel == channel && Eligible(t, kind, t.outbound[from], now) then
      Some(t.outbound[from])
    else FirstEligible(t, kind, channel, now, from + 1)
  }

  /** Where a round robin over `n` channels is after `offset` turns. */
  function Slot(cursor: nat, offset: nat, n: nat): (slot: nat)
    requires n > 0
    ensures slot < n
  {
    (cursor + offset) % n
  }

  function NextFragmentFrom(t: Transport, kind: Kind, now: int, offset: nat): Option<(Fragment, nat)>
    requires offset <= |t.ackChannels|
    decreases |t.ackChannels| - offset
  {
    if offset == |t.ackChannels| then None
    else
      var index := Slot(t.dataCursor, offset, |t.ackChannels|);
      match FirstEligible(t, kind, t.ackChannels[index], now, 0)
      case Some(f) => Some((f, index))
      case None => NextFragmentFrom(t, kind, now, offset + 1)
  }

  function NextFragment(t: Transport, kind: Kind, now: int): Option<(Fragment, nat)> {
    NextFragmentFrom(t, kind, now, 0)
  }

  function PacketFor(t: Transport, f: Fragment): Packet {
    var received := if f.channel in t.channels then t.channels[f.channel].received else EMPTY_WINDOW;
    Packet(f.channel, f.sequence, f.index, f.count, received.highest, received.seen, f.payload)
  }

  function NextPacket(t: Transport, now: int): Option<(Packet, Reservation)> {
    match NextFragment(t, Retransmit, now)
    case Some((f, index)) => Some((PacketFor(t, f), Data(Retransmit, f, index, now)))
    case None =>
      match NextFragment(t, New, now)
      case Some((f, index)) => Some((PacketFor(t, f), Data(New, f, index, now)))
      case None => None
  }

  predicate Dirty(t: Transport, channel: uint16) {
    channel in t.channels && t.channels[channel].ackDirty
  }

  function NextAckFrom(t: Transport, offset: nat): Option<(Packet, Reservation)>
    requires offset <= |t.ackChannels|
    decreases |t.ackChannels| - offset
  {
    if offset == |t.ackChannels| then None
    else
      var index := Slot(t.ackCursor, offset, |t.ackChannels|);
      var channel := t.ackChannels[index];
      if Dirty(t, channel) then
        var received := t.channels[channel].received;
        Some((Packet(channel, 0, 0, 0, received.highest, received.seen, []), Ack(channel, index)))
      else NextAckFrom(t, offset + 1)
  }

  function NextAck(t: Transport): Option<(Packet, Reservation)> {
    NextAckFrom(t, 0)
  }

  function NextSend(t: Transport, now: int): Option<(Packet, Reservation)> {
    if t.preferACK then
      var ack := NextAck(t);
      if ack.Some? then ack else NextPacket(t, now)
    else
      var packet := NextPacket(t, now);
      if packet.Some? then packet else NextAck(t)
  }

  // ----- committing or rejecting a reservation -----

  function Advance(t: Transport, r: Reservation): Transport
    requires |t.ackChannels| > 0
  {
    match r
    case Ack(_, index) => t.(ackCursor := Slot(index, 1, |t.ackChannels|), preferACK := false)
    case Data(_, _, index, _) => t.(dataCursor := Slot(index, 1, |t.ackChannels|), preferACK := true)
  }

  function Reject(t: Transport, r: Reservation): Transport
    requires |t.ackChannels| > 0
  {
    Advance(t, r)
  }

  predicate Same(f: Fragment, g: Fragment) {
    f.channel == g.channel && f.sequence == g.sequence
  }

  function Freeze(fragments: seq<Fragment>, rto: int, now: int): seq<Fragment> {
    seq(|fragments|, i requires 0 <= i < |fragments| =>
      if Expired(fragments[i], rto, now) then fragments[i].(timeoutPending := true) else fragments[i])
  }

  function Sent(f: Fragment, kind: Kind, now: int): Fragment {
    f.(transmissions := f.transmissions + 1, sentAt := now,
       timeoutPending := if kind == Retransmit then false else f.timeoutPending)
  }

  /** Marks the reserved fragment as sent. */
  function Touch(fragments: seq<Fragment>, r: Reservation): seq<Fragment>
    requires r.Data?
  {
    seq(|fragments|, i requires 0 <= i < |fragments| =>
      if Same(fragments[i], r.fragment) then Sent(fragments[i], r.kind, r.now) else fragments[i])
  }

  /** A timeout that no earlier wave accounted for: freeze what has expired, then back off once. */
  function BackOff(t: Transport, now: int): Transport {
    t.(outbound := Freeze(t.outbound, t.rto, now),
       ssthresh := Max(t.cwnd / 2, MINIMUM_CWND),
       cwnd := MINIMUM_CWND,
       rto := Min(t.rto * 2, MAXIMUM_RTO))
  }

  function ReservedChannel(r: Reservation): uint16 {
    if r.Ack? then r.channel else r.fragment.channel
  }

  /** What sending the reserved packet does to the fragments and to the congestion state. */
  function Marked(t: Transport, r: Reservation): Transport {
    if r.Ack? then t
    else if r.kind == New then
      t.(outbound := Touch(t.outbound, r), bytesInFlight := t.bytesInFlight + |r.fragment.payload|)
    else
      var t1 := if r.fragment.timeoutPending then t else BackOff(t, r.now);
      t1.(outbound := Touch(t1.outbound, r))
  }

  function ClearDirty(t: Transport, channel: uint16): Transport
    requires channel in t.channels
  {
    t.(channels := t.channels[channel := t.channels[channel].(ackDirty := false)])
  }

  function Commit(t: Transport, r: Reservation): Transport
    requires |t.ackChannels| > 0
    requires ReservedChannel(r) in t.channels
  {
    ClearDirty(Advance(Marked(t, r), r), ReservedChannel(r))
  }

  // ----- receiving -----

  predicate AckedBy(f: Fragment, channel: uint16, base: uint64, bitmap: uint64) {
    f.channel == channel && f.transmissions != 0 && AckContains(base, bitmap, f.sequence)
  }

  function UpdateRTT(t: Transport, sample: int): Transport {
    var t1 :=
      if !t.haveRTT then t.(srtt := sample, rttvar := sample / 2, haveRTT := true)
      else
        var deviation := if t.srtt - sample < 0 then sample - t.srtt else t.srtt - sample;
        t.(rttvar := (3 * t.rttvar + deviation) / 4, srtt := (7 * t.srtt + sample) / 8);
    t1.(rto := Min(Max(t1.srtt + 4 * t1.rttvar, MINIMUM_RTO), MAXIMUM_RTO))
  }

  /** Takes one acknowledged fragment out of the counters, sampling the round trip if it was sent once. */
  function AbsorbOne(t: Transport, f: Fragment, now: int): Transport {
    var t1 := t.(queuedBytes := t.queuedBytes - |f.payload|, bytesInFlight := t.bytesInFlight - |f.payload|);
    if f.transmissions == 1 && now >= f.sentAt then UpdateRTT(t1, now - f.sentAt) else t1
  }

  function Absorb(t: Transport, fragments: seq<Fragment>, channel: uint16, base: uint64, bitmap: uint64, now: int)
    : Transport
  {
    if fragments == [] then t
    else
      var f := fragments[|fragments| - 1];
      var t1 := Absorb(t, fragments[..|fragments| - 1], channel, base, bitmap, now);
      if AckedBy(f, channel, base, bitmap) then AbsorbOne(t1, f, now) else t1
  }

  function PayloadBytes(fragments: seq<Fragment>): nat {
    if fragments == [] then 0
    else PayloadBytes(fragments[..|fragments| - 1]) + |fragments[|fragments| - 1].payload|
  }

  function Unacked(fragments: seq<Fragment>, channel: uint16, base: uint64, bitmap: uint64): seq<Fragment> {
    if fragments == [] then []
    else
      var f := fragments[|fragments| - 1];
      Unacked(fragments[..|fragments| - 1], channel, base, bitmap)
      + if AckedBy(f, channel, base, bitmap) then [] else [f]
  }

  /** Slow start below the threshold, congestion avoidance above it, never past 64 segments. */
  function Grow(cwnd: int, ssthresh: int, acked: nat): int
    requires cwnd > 0
  {
    Min(if cwnd < ssthresh then cwnd + acked else cwnd + Max(MSS * acked / cwnd, 1), MAXIMUM_CWND)
  }

  function ConsumeAck(t: Transport, channel: uint16, base: uint64, bitmap: uint64, now: int): Transport
    requires t.cwnd > 0
  {
    if base == 0 || bitmap == 0 then t
    else
      var acked := PayloadBytes(t.outbound) - PayloadBytes(Unacked(t.outbound, channel, base, bitmap));
      var t1 := Absorb(t, t.outbound, channel, base, bitmap, now)
                .(outbound := Unacked(t.outbound, channel, base, bitmap));
      if acked <= 0 then t1 else t1.(cwnd := Grow(t.cwnd, t.ssthresh, acked))
  }

  function RemoveAssembly(t: Transport, channel: uint16, start: uint64): Transport {
    if channel !in t.channels || start !in t.channels[channel].reassemblies then t
    else
      var state := t.channels[channel];
      var a := state.reassemblies[start];
      t.(reassemblyBytes := t.reassemblyBytes - a.bytes,
         reassemblyCount := t.reassemblyCount - 1,
         reassemblyParts := t.reassemblyParts - |a.fragments|,
         channels := t.channels[channel := state.(reassemblies := state.reassemblies - {start})])
  }

  /** The fragments of an assembly, joined in index order. */
  function Assembled(a: Assembly, upTo: nat): bytes
    requires upTo <= a.count
  {
    if upTo == 0 then []
    else
      Assembled(a, upTo - 1) + if upTo - 1 in a.fragments then a.fragments[upTo - 1] else []
  }

  predicate Complete(a: Assembly) {
    |a.fragments| == a.count
  }

  /** The message an ordered channel delivers next is complete. */
  predicate HeadReady(t: Transport, channel: uint16) {
    && channel in t.channels
    && var state := t.channels[channel];
       state.nextDelivered in state.reassemblies && Complete(state.reassemblies[state.nextDelivered])
  }

  /** The sequence number after that message, as a wrapping 64-bit sum. */
  function AfterHead(t: Transport, channel: uint16): uint64
    requires HeadReady(t, channel)
  {
    var start := t.channels[channel].nextDelivered;
    (start + t.channels[channel].reassemblies[start].count) % WORD_SIZE
  }

  /** The sequence space is used up: nothing more can follow on this channel. */
  predicate Wraps(t: Transport, channel: uint16)
    requires HeadReady(t, channel)
  {
    AfterHead(t, channel) < t.channels[channel].nextDelivered
  }

  /** Delivers that message and moves on to the next one; a wrapped sequence closes the channel at zero. */
  function DeliverHead(t: Transport, channel: uint16): (Transport, Delivery)
    requires HeadReady(t, channel)
  {
    var start := t.channels[channel].nextDelivered;
    var a := t.channels[channel].reassemblies[start];
    var t1 := RemoveAssembly(t, channel, start);
    var next := if Wraps(t, channel) then 0 else AfterHead(t, channel);
    (t1.(channels := t1.channels[channel := t1.channels[channel].(nextDelivered := next)]),
     Delivery(channel, start, Assembled(a, a.count)))
  }

  /** Delivers every complete message at the head of an ordered channel. */
  function DeliverOrdered(t: Transport, channel: uint16): (Transport, seq<Delivery>)
    decreases if channel in t.channels then |t.channels[channel].reassemblies| else 0
  {
    if !HeadReady(t, channel) then (t, [])
    else
      var (t1, message) := DeliverHead(t, channel);
      if Wraps(t, channel) then (t1, [message])
      else
        var (t2, more) := DeliverOrdered(t1, channel);
        (t2, [message] + more)
  }

  /** Whether an arriving fragment is kept, given a channel that already exists. */
  predicate Retains(t: Transport, p: Packet)
    requires ValidBody(p) && !p.AckOnly() && p.channel in t.channels
  {
    var state := t.channels[p.channel];
    var start := p.sequence - p.index;
    && Takes(state.received, p.sequence)
    && !(Ordered(p.channel) && (state.nextDelivered == 0 || start < state.nextDelivered))
    && (start in state.reassemblies ==>
          && state.reassemblies[start].count == p.count
          && p.index !in state.reassemblies[start].fragments)
    && |p.payload| <= MAX_REASSEMBLY_BYTES - t.reassemblyBytes
    && t.reassemblyParts < MAX_FRAGMENTS
    && (start !in state.reassemblies ==> t.reassemblyCount < MAX_ASSEMBLIES)
  }

  /** The assembly a kept fragment goes into, with that fragment in it. */
  function Grown(state: Channel, p: Packet): Assembly
    requires ValidBody(p) && !p.AckOnly()
  {
    var start := p.sequence - p.index;
    var a := if start in state.reassemblies then state.reassemblies[start] else Assembly(p.count, map[], 0);
    a.(fragments := a.fragments[p.index := p.payload], bytes := a.bytes + |p.payload|)
  }

  /** A channel that has kept a fragment and marked its number as received. */
  function StoreIn(state: Channel, p: Packet): Channel
    requires ValidBody(p) && !p.AckOnly()
  {
    state.(received := Offer(state.received, p.sequence).0,
           reassemblies := state.reassemblies[p.sequence - p.index := Grown(state, p)])
  }

  function Store(t: Transport, p: Packet): Transport
    requires ValidBody(p) && !p.AckOnly() && p.channel in t.channels
  {
    var state := t.channels[p.channel];
    t.(reassemblyBytes := t.reassemblyBytes + |p.payload|,
       reassemblyCount := t.reassemblyCount + if p.sequence - p.index in state.reassemblies then 0 else 1,
       reassemblyParts := t.reassemblyParts + 1,
       channels := t.channels[p.channel := StoreIn(state, p)])
  }

  function MarkDirty(t: Transport, channel: uint16): Transport {
    var t1 := AddChannel(t, channel);
    t1.(channels := t1.channels[channel := t1.channels[channel].(ackDirty := true)])
  }

  /** What is delivered once a fragment has been stored. */
  function Deliver(t: Transport, p: Packet): (Transport, seq<Delivery>)
    requires ValidBody(p) && !p.AckOnly() && p.channel in t.channels
    requires p.sequence - p.index in t.channels[p.channel].reassemblies
  {
    var start := p.sequence - p.index;
    var a := t.channels[p.channel].reassemblies[start];
    if !Complete(a) then (t, [])
    else if Ordered(p.channel) then DeliverOrdered(t, p.channel)
    else (RemoveAssembly(t, p.channel, start), [Delivery(p.channel, start, Assembled(a, a.count))])
  }

  /** The part of a packet that is data; its channel is created on first use and always owes an acknowledgment. */
  function ReceiveData(t: Transport, p: Packet): (Transport, seq<Delivery>)
    requires ValidBody(p) && !p.AckOnly()
  {
    var t1 := MarkDirty(t, p.channel);
    if Retains(t1, p) then Deliver(Store(t1, p), p) else (t1, [])
  }

  function Receive(t: Transport, p: Packet, now: int): (Transport, seq<Delivery>)
    requires ValidBody(p) && t.cwnd > 0
  {
    if !Known(p.channel) then (t, [])
    else
      var t1 := ConsumeAck(t, p.channel, p.ackBase, p.ackBitmap, now);
      if p.AckOnly() then (t1, []) else ReceiveData(t1, p)
  }

  // ----- discarding -----

  function Without(fragments: seq<Fragment>, channel: uint16): seq<Fragment> {
    if fragments == [] then []
    else
      var f := fragments[|fragments| - 1];
      Without(fragments[..|fragments| - 1], channel) + if f.channel == channel then [] else [f]
  }

  function FlightBytes(fragments: seq<Fragment>): nat {
    if fragments == [] then 0
    else
      var f := fragments[|fragments| - 1];
      FlightBytes(fragments[..|fragments| - 1]) + if f.transmissions != 0 then |f.payload| else 0
  }

  function DiscardOutbound(t: Transport, channel: uint16): Transport {
    var kept := Without(t.outbound, channel);
    t.(outbound := kept,
       queuedBytes := t.queuedBytes - (PayloadBytes(t.outbound) - PayloadBytes(kept)),
       bytesInFlight := t.bytesInFlight - (FlightBytes(t.outbound) - FlightBytes(kept)))
  }

  /** What the receiver's three counters count: payload bytes, assemblies, and fragments. */
  datatype Measure = ByBytes | ByAssemblies | ByParts

  function Weight(measure: Measure, a: Assembly): int {
    match measure
    case ByBytes => a.bytes
    case ByAssemblies => 1
    case ByParts => |a.fragments|
  }

  /** The total over the assemblies of one channel. */
  ghost function Retained(measure: Measure, m: map<uint64, Assembly>): int
    decreases |m|
  {
    if m == map[] then 0
    else
      var s :| s in m;
      Weight(measure, m[s]) + Retained(measure, m - {s})
  }

  /** Drops every assembly of a channel and takes all of them out of the counters. */
  ghost function DiscardInbound(t: Transport, channel: uint16): Transport {
    if channel !in t.channels then t
    else
      var state := t.channels[channel];
      t.(reassemblyBytes := t.reassemblyBytes - Retained(ByBytes, state.reassemblies),
         reassemblyCount := t.reassemblyCount - Retained(ByAssemblies, state.reassemblies),
         reassemblyParts := t.reassemblyParts - Retained(ByParts, state.reassemblies),
         channels := t.channels[channel := state.(reassemblies := map[])])
  }
}
