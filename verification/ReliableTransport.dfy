/** The reliable transport as the object the source updates in place. Every method is proved to compute
    the function of the same name in `Transports` on the state before the call. */
module ReliableTransports {
  import opened Options
  import opened Bytes
  import opened Words
  import opened SequenceWindows
  import opened ReliablePackets
  import opened Transports
  import Accounting

  class ReliableTransport {
    var channels: map<uint16, Channel>
    var outbound: seq<Fragment>
    var ackChannels: seq<uint16>
    var ackCursor: nat
    var dataCursor: nat
    var queuedBytes: int
    var bytesInFlight: int
    var reassemblyBytes: int
    var reassemblyCount: int
    var reassemblyParts: int
    var cwnd: int
    var ssthresh: int
    var rto: int
    var srtt: int
    var rttvar: int
    var haveRTT: bool
    var preferACK: bool

    function State(): Transport
      reads this
    {
      Transport(channels, outbound, ackChannels, ackCursor, dataCursor, queuedBytes, bytesInFlight,
                reassemblyBytes, reassemblyCount, reassemblyParts, cwnd, ssthresh, rto, srtt, rttvar,
                haveRTT, preferACK)
    }

    constructor ()
      ensures State() == NEW_TRANSPORT
    {
      channels, outbound, ackChannels := map[], [], [];
      ackCursor, dataCursor := 0, 0;
      queuedBytes, bytesInFlight := 0, 0;
      reassemblyBytes, reassemblyCount, reassemblyParts := 0, 0, 0;
      cwnd, ssthresh, rto := INITIAL_CWND, MAXIMUM_CWND, INITIAL_RTO;
      srtt, rttvar, haveRTT := 0, 0, false;
      preferACK := true;
    }

    method AddChannel(channel: uint16)
      requires channel !in channels
      modifies this
      ensures State() == Transports.AddChannel(old(State()), channel)
    {
      channels := channels[channel := NEW_CHANNEL];
      ackChannels := ackChannels + [channel];
    }

    method CanQueue(channel: uint16, size: nat) returns (error: Option<QueueError>)
      ensures error == Transports.CanQueue(State(), channel, size)
    {
      if !Known(channel) {
        return Some(UnknownChannel);
      }
      if size == 0 {
        return Some(EmptyMessage);
      }
      if size > MAX_RELIABLE_FRAGMENTS * MSS {
        return Some(MessageTooLarge);
      }
      if size > MAX_QUEUED_BYTES - queuedBytes {
        return Some(QueueFull);
      }
      var fragmentCount := (size + MSS - 1) / MSS;
      if channel in channels && fragmentCount > MAX_UINT64 - channels[channel].nextFragmentSequence {
        return Some(SequenceExhausted);
      }
      return None;
    }

    method Queue(channel: uint16, payload: bytes) returns (error: Option<QueueError>)
      modifies this
      ensures error == Transports.CanQueue(old(State()), channel, |payload|)
      ensures State() == Transports.Queue(old(State()), channel, payload)
    {
      error := CanQueue(channel, |payload|);
      if error.Some? {
        return;
      }
      Accounting.FragmentCountFits(|payload|);
      if channel !in channels {
        AddChannel(channel);
      }
      AppendFragments(channel, payload);
      queuedBytes := queuedBytes + |payload|;
    }

    method AppendFragments(channel: uint16, payload: bytes)
      requires channel in channels
      requires FragmentCount(|payload|) <= MAX_RELIABLE_FRAGMENTS
      requires channels[channel].nextFragmentSequence + FragmentCount(|payload|) <= MAX_UINT64
      modifies this`channels, this`outbound
      ensures var state := old(channels)[channel];
        && channels == old(channels)[channel := state.(nextFragmentSequence := state.nextFragmentSequence + FragmentCount(|payload|))]
        && outbound == old(outbound) + FragmentsOf(channel, state.nextFragmentSequence, payload)
    {
      var fragmentCount := (|payload| + MSS - 1) / MSS;
      ghost var first := channels[channel];
      ghost var added := FragmentsOf(channel, first.nextFragmentSequence, payload);
      for index := 0 to fragmentCount
        invariant channels == old(channels)[channel := first.(nextFragmentSequence := first.nextFragmentSequence + index)]
        invariant outbound == old(outbound) + added[..index]
      {
        var start := index * MSS;
        var end := Min(start + MSS, |payload|);
        var state := channels[channel];
        state := state.(nextFragmentSequence := state.nextFragmentSequence + 1);
        channels := channels[channel := state];
        assert added[..index + 1] == added[..index] + [added[index]];
        outbound := outbound + [Fragment(channel, state.nextFragmentSequence, index, fragmentCount, payload[start..end],
                                         0, 0, false)];
      }
      assert added[..fragmentCount] == added;
    }

    // ----- choosing what to send -----

    method NextSend(now: int) returns (choice: Option<(Packet, Reservation)>)
      requires Accounting.ChannelInv(State())
      requires forall f :: f in outbound ==> f.channel in channels
      ensures choice == Transports.NextSend(State(), now)
    {
      if preferACK {
        choice := NextAck();
        if choice.None? {
          choice := NextPacket(now);
        }
      } else {
        choice := NextPacket(now);
        if choice.None? {
          choice := NextAck();
        }
      }
    }

    method NextPacket(now: int) returns (choice: Option<(Packet, Reservation)>)
      requires forall f :: f in outbound ==> f.channel in channels
      ensures choice == Transports.NextPacket(State(), now)
    {
      var found := NextFragment(Retransmit, now, map[]);
      if found.Some? {
        var (fragment, index) := found.value;
        Accounting.NextFragmentFacts(State(), Retransmit, now, 0);
        var packet := PacketFor(fragment);
        return Some((packet, Data(Retransmit, fragment, index, now)));
      }
      var oldest := OldestByChannel();
      found := NextFragment(New, now, oldest);
      if found.Some? {
        var (fragment, index) := found.value;
        Accounting.NextFragmentFacts(State(), New, now, 0);
        var packet := PacketFor(fragment);
        return Some((packet, Data(New, fragment, index, now)));
      }
      return None;
    }

    /** The lowest transmitted sequence number still waiting on each channel. */
    method OldestByChannel() returns (oldest: map<uint16, uint64>)
      ensures forall c: uint16 :: (if c in oldest then oldest[c] else 0) == OldestTransmitted(outbound, c)
    {
      oldest := map[];
      assert outbound[..0] == [];
      for i := 0 to |outbound|
        invariant forall c: uint16 :: (if c in oldest then oldest[c] else 0) == OldestTransmitted(outbound[..i], c)
      {
        var fragment := outbound[i];
        assert outbound[..i + 1][..i] == outbound[..i];
        if fragment.transmissions != 0 {
          var known := if fragment.channel in oldest then oldest[fragment.channel] else 0;
          if known == 0 || fragment.sequence < known {
            oldest := oldest[fragment.channel := fragment.sequence];
          }
        }
      }
      assert outbound[..|outbound|] == outbound;
    }

    method NextFragment(kind: Kind, now: int, oldest: map<uint16, uint64>) returns (found: Option<(Fragment, nat)>)
      requires kind == New ==>
        forall c: uint16 :: (if c in oldest then oldest[c] else 0) == OldestTransmitted(outbound, c)
      ensures found == Transports.NextFragment(State(), kind, now)
    {
      ghost var t := State();
      for offset := 0 to |ackChannels|
        invariant Transports.NextFragment(t, kind, now) == NextFragmentFrom(t, kind, now, offset)
      {
        var index := Slot(dataCursor, offset, |ackChannels|);
        var channel := ackChannels[index];
        for i := 0 to |outbound|
          invariant FirstEligible(t, kind, channel, now, 0) == FirstEligible(t, kind, channel, now, i)
        {
          var fragment := outbound[i];
          if fragment.channel == channel {
            var eligible: bool;
            if kind == Retransmit {
              eligible := fragment.transmissions != 0 && (fragment.timeoutPending || now >= fragment.sentAt + rto);
            } else if fragment.transmissions != 0 || bytesInFlight + |fragment.payload| > cwnd {
              eligible := false;
            } else {
              var first := if channel in oldest then oldest[channel] else 0;
              eligible := first == 0 || WrapSub(fragment.sequence, first) < 64;
            }
            if eligible {
              return Some((fragment, index));
            }
          }
        }
      }
      return None;
    }

    method PacketFor(fragment: Fragment) returns (packet: Packet)
      requires fragment.channel in channels
      ensures packet == Transports.PacketFor(State(), fragment)
    {
      var state := channels[fragment.channel];
      packet := Packet(fragment.channel, fragment.sequence, fragment.index, fragment.count,
                       state.received.highest, state.received.seen, fragment.payload);
    }

    method NextAck() returns (choice: Option<(Packet, Reservation)>)
      requires Accounting.ChannelInv(State())
      ensures choice == Transports.NextAck(State())
    {
      ghost var t := State();
      for offset := 0 to |ackChannels|
        invariant Transports.NextAck(t) == NextAckFrom(t, offset)
      {
        var index := Slot(ackCursor, offset, |ackChannels|);
        var channel := ackChannels[index];
        var state := channels[channel];
        if state.ackDirty {
          return Some((Packet(channel, 0, 0, 0, state.received.highest, state.received.seen, []), Ack(channel, index)));
        }
      }
      return None;
    }

    // ----- committing or rejecting -----

    method Commit(reservation: Reservation)
      requires |ackChannels| > 0 && ReservedChannel(reservation) in channels
      modifies this
      ensures State() == Transports.Commit(old(State()), reservation)
    {
      Mark(reservation);
      Advance(reservation);
      var channel := ReservedChannel(reservation);
      channels := channels[channel := channels[channel].(ackDirty := false)];
    }

    method Mark(reservation: Reservation)
      modifies this`outbound, this`bytesInFlight, this`ssthresh, this`cwnd, this`rto
      ensures State() == Marked(old(State()), reservation)
    {
      if reservation.Data? {
        if reservation.kind == New {
          MarkSent(reservation);
          bytesInFlight := bytesInFlight + |reservation.fragment.payload|;
        } else {
          if !reservation.fragment.timeoutPending {
            FreezeExpired(reservation.now);
            ssthresh := Max(cwnd / 2, MINIMUM_CWND);
            cwnd := MINIMUM_CWND;
            rto := Min(rto * 2, MAXIMUM_RTO);
          }
          MarkSent(reservation);
        }
      }
    }

    method FreezeExpired(now: int)
      modifies this`outbound
      ensures outbound == Freeze(old(outbound), rto, now)
    {
      ghost var before := outbound;
      for i := 0 to |outbound|
        invariant |outbound| == |before|
        invariant forall k :: 0 <= k < i ==> outbound[k] == Freeze(before, rto, now)[k]
        invariant forall k :: i <= k < |before| ==> outbound[k] == before[k]
      {
        var fragment := outbound[i];
        if fragment.transmissions != 0 && now >= fragment.sentAt + rto {
          outbound := outbound[i := fragment.(timeoutPending := true)];
        }
      }
    }

    method MarkSent(reservation: Reservation)
      requires reservation.Data?
      modifies this`outbound
      ensures outbound == Touch(old(outbound), reservation)
    {
      ghost var before := outbound;
      for i := 0 to |outbound|
        invariant |outbound| == |before|
        invariant forall k :: 0 <= k < i ==> outbound[k] == Touch(before, reservation)[k]
        invariant forall k :: i <= k < |before| ==> outbound[k] == before[k]
      {
        var fragment := outbound[i];
        if Same(fragment, reservation.fragment) {
          if reservation.kind == Retransmit {
            fragment := fragment.(timeoutPending := false);
          }
          fragment := fragment.(transmissions := fragment.transmissions + 1, sentAt := reservation.now);
          outbound := outbound[i := fragment];
        }
      }
    }

    method Reject(reservation: Reservation)
      requires |ackChannels| > 0
      modifies this`ackCursor, this`dataCursor, this`preferACK
      ensures State() == Transports.Reject(old(State()), reservation)
    {
      Advance(reservation);
    }

    method Advance(reservation: Reservation)
      requires |ackChannels| > 0
      modifies this`ackCursor, this`dataCursor, this`preferACK
      ensures State() == Transports.Advance(old(State()), reservation)
    {
      if reservation.Ack? {
        ackCursor := Slot(reservation.ackIndex, 1, |ackChannels|);
        preferACK := false;
        return;
      }
      dataCursor := Slot(reservation.dataIndex, 1, |ackChannels|);
      preferACK := true;
    }

    // ----- receiving -----

    method Receive(packet: Packet, now: int) returns (delivered: seq<Delivery>)
      requires ValidBody(packet) && cwnd > 0
      modifies this
      ensures (State(), delivered) == Transports.Receive(old(State()), packet, now)
    {
      if !Known(packet.channel) {
        return [];
      }
      ConsumeFragmentAck(packet.channel, packet.ackBase, packet.ackBitmap, now);
      if packet.AckOnly() {
        return [];
      }
      delivered := ReceiveData(packet);
    }

    method ReceiveData(packet: Packet) returns (delivered: seq<Delivery>)
      requires ValidBody(packet) && !packet.AckOnly()
      modifies this
      ensures (State(), delivered) == Transports.ReceiveData(old(State()), packet)
    {
      if packet.channel !in channels {
        AddChannel(packet.channel);
      }
      channels := channels[packet.channel := channels[packet.channel].(ackDirty := true)];
      hide Assembled, Offer;
      ghost var marked := State();
      assert marked == MarkDirty(old(State()), packet.channel);
      var state := channels[packet.channel];
      if !Takes(state.received, packet.sequence) {
        return [];
      }
      var messageStart := packet.sequence - packet.index;
      if Ordered(packet.channel) && (state.nextDelivered == 0 || messageStart < state.nextDelivered) {
        return [];
      }
      if messageStart in state.reassemblies {
        if state.reassemblies[messageStart].count != packet.count {
          return [];
        }
        if packet.index in state.reassemblies[messageStart].fragments {
          return [];
        }
      }
      if |packet.payload| > MAX_REASSEMBLY_BYTES - reassemblyBytes {
        return [];
      }
      if reassemblyParts >= MAX_FRAGMENTS {
        return [];
      }
      if messageStart !in state.reassemblies && reassemblyCount >= MAX_ASSEMBLIES {
        return [];
      }
      var complete := Store(packet);
      if !complete {
        return [];
      }
      if !Ordered(packet.channel) {
        var payload := Assemble(channels[packet.channel].reassemblies[messageStart]);
        RemoveAssembly(packet.channel, messageStart);
        return [Delivery(packet.channel, messageStart, payload)];
      }
      delivered := DeliverOrdered(packet.channel);
    }

    /** Keeps a fragment: its assembly is created on first use and its number enters the receive window. */
    method Store(packet: Packet) returns (complete: bool)
      requires ValidBody(packet) && !packet.AckOnly() && packet.channel in channels
      modifies this`channels, this`reassemblyBytes, this`reassemblyCount, this`reassemblyParts
      ensures State() == Transports.Store(old(State()), packet)
      ensures complete == Complete(channels[packet.channel].reassemblies[packet.sequence - packet.index])
    {
      hide Offer;
      var state := channels[packet.channel];
      var messageStart := packet.sequence - packet.index;
      var assembly;
      if messageStart in state.reassemblies {
        assembly := state.reassemblies[messageStart];
      } else {
        assembly := Assembly(packet.count, map[], 0);
        reassemblyCount := reassemblyCount + 1;
      }
      assembly := assembly.(fragments := assembly.fragments[packet.index := packet.payload],
                            bytes := assembly.bytes + |packet.payload|);
      reassemblyBytes := reassemblyBytes + |packet.payload|;
      reassemblyParts := reassemblyParts + 1;
      state := state.(received := Offer(state.received, packet.sequence).0,
                      reassemblies := state.reassemblies[messageStart := assembly]);
      channels := channels[packet.channel := state];
      complete := |assembly.fragments| == assembly.count;
    }

    method Assemble(assembly: Assembly) returns (payload: bytes)
      ensures payload == Assembled(assembly, assembly.count)
    {
      payload := [];
      for index := 0 to assembly.count
        invariant payload == Assembled(assembly, index)
      {
        if index in assembly.fragments {
          payload := payload + assembly.fragments[index];
        } else {
          assert payload + [] == payload;
        }
      }
    }

    method ConsumeFragmentAck(channel: uint16, base: uint64, bitmap: uint64, now: int)
      requires cwnd > 0
      modifies this
      ensures State() == Transports.ConsumeAck(old(State()), channel, base, bitmap, now)
    {
      if base == 0 || bitmap == 0 {
        return;
      }
      ghost var before := State();
      var ackedBytes, remaining := AbsorbAcked(channel, base, bitmap, now);
      Accounting.UnackedSums(outbound, channel, base, bitmap);
      outbound := remaining;
      if ackedBytes == 0 {
        return;
      }
      if cwnd < ssthresh {
        cwnd := cwnd + ackedBytes;
      } else {
        var increase := MSS * ackedBytes / cwnd;
        cwnd := cwnd + Max(increase, 1);
      }
      cwnd := Min(cwnd, MAXIMUM_CWND);
    }

    /** The loop over the outbound fragments: the acknowledged ones leave the counters, the others remain. */
    method AbsorbAcked(channel: uint16, base: uint64, bitmap: uint64, now: int)
      returns (ackedBytes: int, remaining: seq<Fragment>)
      modifies this
      ensures State() == Absorb(old(State()), old(outbound), channel, base, bitmap, now)
      ensures outbound == old(outbound) && cwnd == old(cwnd) && ssthresh == old(ssthresh)
      ensures remaining == Unacked(outbound, channel, base, bitmap)
      ensures ackedBytes == PayloadBytes(outbound) - PayloadBytes(remaining)
    {
      ghost var before := State();
      ghost var fs := outbound;
      ackedBytes, remaining := 0, [];
      assert fs[..0] == [];
      for i := 0 to |outbound|
        invariant outbound == fs && cwnd == before.cwnd && ssthresh == before.ssthresh
        invariant State() == Absorb(before, fs[..i], channel, base, bitmap, now)
        invariant remaining == Unacked(fs[..i], channel, base, bitmap)
        invariant ackedBytes == PayloadBytes(fs[..i]) - PayloadBytes(remaining)
      {
        hide PayloadBytes, AckContains, Unacked, Absorb, FlightBytes, AbsorbOne;
        var fragment := outbound[i];
        NextPrefix(before, fs, i, channel, base, bitmap, now);
        if fragment.channel != channel || fragment.transmissions == 0 || !AckContains(base, bitmap, fragment.sequence) {
          remaining := remaining + [fragment];
        } else {
          ackedBytes := ackedBytes + |fragment.payload|;
          AbsorbFragment(fragment, now);
        }
      }
      assert fs[..|outbound|] == fs;
    }

    method AbsorbFragment(fragment: Fragment, now: int)
      modifies this
      ensures State() == AbsorbOne(old(State()), fragment, now)
      ensures outbound == old(outbound) && cwnd == old(cwnd) && ssthresh == old(ssthresh)
    {
      queuedBytes := queuedBytes - |fragment.payload|;
      bytesInFlight := bytesInFlight - |fragment.payload|;
      if fragment.transmissions == 1 && now >= fragment.sentAt {
        UpdateRTT(now - fragment.sentAt);
      }
    }

    /** One more fragment in the prefix that the loop above has gone through. */
    static lemma NextPrefix(t: Transport, fs: seq<Fragment>, i: nat, channel: uint16, base: uint64, bitmap: uint64, now: int)
      requires i < |fs|
      ensures PayloadBytes(fs[..i + 1]) == PayloadBytes(fs[..i]) + |fs[i].payload|
      ensures FlightBytes(fs[..i + 1]) == FlightBytes(fs[..i]) + if fs[i].transmissions != 0 then |fs[i].payload| else 0
      ensures var kept := Unacked(fs[..i], channel, base, bitmap);
        if AckedBy(fs[i], channel, base, bitmap) then
          && Unacked(fs[..i + 1], channel, base, bitmap) == kept
          && Absorb(t, fs[..i + 1], channel, base, bitmap, now) == AbsorbOne(Absorb(t, fs[..i], channel, base, bitmap, now), fs[i], now)
        else
          && Unacked(fs[..i + 1], channel, base, bitmap) == kept + [fs[i]]
          && Absorb(t, fs[..i + 1], channel, base, bitmap, now) == Absorb(t, fs[..i], channel, base, bitmap, now)
          && PayloadBytes(kept + [fs[i]]) == PayloadBytes(kept) + |fs[i].payload|
      ensures var kept := Without(fs[..i], channel);
        if fs[i].channel == channel then Without(fs[..i + 1], channel) == kept
        else
          && Without(fs[..i + 1], channel) == kept + [fs[i]]
          && PayloadBytes(kept + [fs[i]]) == PayloadBytes(kept) + |fs[i].payload|
          && FlightBytes(kept + [fs[i]]) == FlightBytes(kept) + if fs[i].transmissions != 0 then |fs[i].payload| else 0
    {
      assert fs[..i + 1][..i] == fs[..i];
      var kept, stay := Unacked(fs[..i], channel, base, bitmap), Without(fs[..i], channel);
      assert kept + [] == kept && stay + [] == stay;
      assert (kept + [fs[i]])[..|kept|] == kept && (stay + [fs[i]])[..|stay|] == stay;
    }

    method UpdateRTT(sample: int)
      modifies this
      ensures State() == Transports.UpdateRTT(old(State()), sample)
    {
      hide Min, Max;
      if !haveRTT {
        srtt := sample;
        rttvar := sample / 2;
        haveRTT := true;
      } else {
        var deviation := srtt - sample;
        if deviation < 0 {
          deviation := -deviation;
        }
        rttvar := (3 * rttvar + deviation) / 4;
        srtt := (7 * srtt + sample) / 8;
      }
      rto := Min(Max(srtt + 4 * rttvar, MINIMUM_RTO), MAXIMUM_RTO);
    }

    method RemoveAssembly(channel: uint16, sequence: uint64)
      modifies this
      ensures State() == Transports.RemoveAssembly(old(State()), channel, sequence)
    {
      if channel !in channels || sequence !in channels[channel].reassemblies {
        return;
      }
      var state := channels[channel];
      var assembly := state.reassemblies[sequence];
      reassemblyBytes := reassemblyBytes - assembly.bytes;
      reassemblyCount := reassemblyCount - 1;
      reassemblyParts := reassemblyParts - |assembly.fragments|;
      channels := channels[channel := state.(reassemblies := state.reassemblies - {sequence})];
    }

    method DeliverOrdered(channel: uint16) returns (delivered: seq<Delivery>)
      requires channel in channels
      modifies this
      ensures (State(), delivered) == Transports.DeliverOrdered(old(State()), channel)
    {
      delivered := [];
      while true
        invariant channel in channels
        invariant var (end, all) := Transports.DeliverOrdered(old(State()), channel);
          var (end', rest) := Transports.DeliverOrdered(State(), channel);
          end == end' && all == delivered + rest
        decreases |channels[channel].reassemblies|
      {
        hide Transports.DeliverOrdered;
        ghost var t := State();
        DeliverOrderedStep(t, channel);
        var state := channels[channel];
        if state.nextDelivered !in state.reassemblies
           || |state.reassemblies[state.nextDelivered].fragments| != state.reassemblies[state.nextDelivered].count {
          assert !HeadReady(t, channel) && delivered + [] == delivered;
          return;
        }
        var message, wrapped := DeliverHead(channel);
        delivered := delivered + [message];
        if wrapped {
          return;
        }
      }
    }

    method DeliverHead(channel: uint16) returns (message: Delivery, wrapped: bool)
      requires HeadReady(State(), channel)
      modifies this
      ensures (State(), message) == Transports.DeliverHead(old(State()), channel)
      ensures wrapped == Wraps(old(State()), channel)
    {
      var start := channels[channel].nextDelivered;
      var assembly := channels[channel].reassemblies[start];
      var payload := Assemble(assembly);
      message := Delivery(channel, start, payload);
      RemoveAssembly(channel, start);
      var next := (start + assembly.count) % WORD_SIZE;
      wrapped := next < start;
      channels := channels[channel := channels[channel].(nextDelivered := if wrapped then 0 else next)];
    }

    static lemma DeliverOrderedStep(t: Transport, channel: uint16)
      ensures !HeadReady(t, channel) ==> Transports.DeliverOrdered(t, channel) == (t, [])
      ensures HeadReady(t, channel) && Wraps(t, channel) ==>
        var (t1, message) := Transports.DeliverHead(t, channel);
        Transports.DeliverOrdered(t, channel) == (t1, [message])
      ensures HeadReady(t, channel) && !Wraps(t, channel) ==>
        var (t1, message) := Transports.DeliverHead(t, channel);
        var (t2, rest) := Transports.DeliverOrdered(t1, channel);
        Transports.DeliverOrdered(t, channel) == (t2, [message] + rest)
    {
    }

    // ----- discarding -----

    method DiscardOutboundChannel(channel: uint16)
      modifies this
      ensures State() == DiscardOutbound(old(State()), channel)
    {
      ghost var before := State();
      var remaining := WithoutChannel(channel);
      outbound := remaining;
    }

    method WithoutChannel(channel: uint16) returns (remaining: seq<Fragment>)
      modifies this`queuedBytes, this`bytesInFlight
      ensures remaining == Without(outbound, channel)
      ensures queuedBytes == old(queuedBytes) - (PayloadBytes(outbound) - PayloadBytes(remaining))
      ensures bytesInFlight == old(bytesInFlight) - (FlightBytes(outbound) - FlightBytes(remaining))
    {
      var fs := outbound;
      remaining := [];
      assert fs[..0] == [];
      for i := 0 to |outbound|
        invariant remaining == Without(fs[..i], channel)
        invariant queuedBytes == old(queuedBytes) - (PayloadBytes(fs[..i]) - PayloadBytes(remaining))
        invariant bytesInFlight == old(bytesInFlight) - (FlightBytes(fs[..i]) - FlightBytes(remaining))
      {
        hide PayloadBytes, FlightBytes, Without, Absorb, Unacked;
        var fragment := fs[i];
        NextPrefix(NEW_TRANSPORT, fs, i, channel, 0, 0, 0);
        if fragment.channel != channel {
          remaining := remaining + [fragment];
        } else {
          queuedBytes := queuedBytes - |fragment.payload|;
          if fragment.transmissions != 0 {
            bytesInFlight := bytesInFlight - |fragment.payload|;
          }
        }
      }
      assert fs[..|outbound|] == fs;
    }

    /** Assemblies go one at a time, in whatever order the map yields them. */
    method DiscardInboundChannel(channel: uint16)
      modifies this
      ensures State() == DiscardInbound(old(State()), channel)
    {
      if channel !in channels {
        return;
      }
      while channels[channel].reassemblies != map[]
        invariant channel in channels
        invariant DiscardInbound(State(), channel) == DiscardInbound(old(State()), channel)
        decreases |channels[channel].reassemblies|
      {
        var sequence :| sequence in channels[channel].reassemblies;
        DiscardOne(State(), channel, sequence);
        RemoveAssembly(channel, sequence);
      }
      DiscardNothing(State(), channel);
    }

    static lemma DiscardOne(t: Transport, channel: uint16, sequence: uint64)
      requires channel in t.channels && sequence in t.channels[channel].reassemblies
      ensures DiscardInbound(Transports.RemoveAssembly(t, channel, sequence), channel) == DiscardInbound(t, channel)
    {
      hide Retained;
      var m := t.channels[channel].reassemblies;
      Accounting.RetainedWithout(ByBytes, m, sequence);
      Accounting.RetainedWithout(ByAssemblies, m, sequence);
      Accounting.RetainedWithout(ByParts, m, sequence);
    }

    static lemma DiscardNothing(t: Transport, channel: uint16)
      requires channel in t.channels && t.channels[channel].reassemblies == map[]
      ensures DiscardInbound(t, channel) == t
    {
      assert t.channels[channel := t.channels[channel]] == t.channels;
    }
  }
}
