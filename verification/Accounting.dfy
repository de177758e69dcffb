/** What every operation of a transport keeps: the cached counters equal the sums they stand for, the
    congestion state stays in its range, and no budget is exceeded. */
module Accounting {
  import opened Options
  import opened Bytes
  import opened Words
  import opened SequenceWindows
  import opened ReliablePackets
  import opened Transports

  // ----- the invariant -----

  ghost predicate CongestionInv(t: Transport) {
    && MINIMUM_CWND <= t.cwnd <= MAXIMUM_CWND
    && MINIMUM_CWND <= t.ssthresh <= MAXIMUM_CWND
    && MINIMUM_RTO <= t.rto <= MAXIMUM_RTO
    && t.srtt >= 0
    && t.rttvar >= 0
  }

  /** The order in which channels take turns lists each channel once. */
  ghost predicate ChannelInv(t: Transport) {
    && (forall c :: c in t.channels <==> c in t.ackChannels)
    && Distinct(t.ackChannels)
    && (forall c :: c in t.channels ==> Known(c))
    && t.ackCursor <= Max(0, |t.ackChannels| - 1)
    && t.dataCursor <= Max(0, |t.ackChannels| - 1)
  }

  ghost predicate GoodFragment(channels: map<uint16, Channel>, f: Fragment) {
    && f.channel in channels
    && 0 < |f.payload| <= MSS
    && f.index < f.count <= MAX_RELIABLE_FRAGMENTS
    && f.index < f.sequence
    && f.sequence - f.index + f.count - 1 <= channels[f.channel].nextFragmentSequence
    && (f.transmissions == 0 ==> !f.timeoutPending)
  }

  ghost predicate Increasing(fragments: seq<Fragment>) {
    forall i, j :: 0 <= i < j < |fragments| && fragments[i].channel == fragments[j].channel ==>
      fragments[i].sequence < fragments[j].sequence
  }

  ghost predicate SenderInv(t: Transport) {
    && (forall f :: f in t.outbound ==> GoodFragment(t.channels, f))
    && Increasing(t.outbound)
    && t.queuedBytes == PayloadBytes(t.outbound) <= MAX_QUEUED_BYTES
    && t.bytesInFlight == FlightBytes(t.outbound) <= MAXIMUM_CWND
  }

  ghost predicate GoodAssembly(a: Assembly) {
    && 0 < a.count
    && a.fragments != map[]
    && (forall i :: i in a.fragments ==> i < a.count)
    && a.bytes == |Assembled(a, a.count)|
  }

  /** The total over the channels listed in `order`. */
  ghost function Total(measure: Measure, channels: map<uint16, Channel>, order: seq<uint16>): int {
    if order == [] then 0
    else
      var c := order[|order| - 1];
      Total(measure, channels, order[..|order| - 1])
      + if c in channels then Retained(measure, channels[c].reassemblies) else 0
  }

  ghost predicate GoodAssemblies(m: map<uint64, Assembly>) {
    forall s :: s in m ==> GoodAssembly(m[s])
  }

  ghost predicate ReceiverInv(t: Transport) {
    && (forall c :: c in t.channels ==> GoodAssemblies(t.channels[c].reassemblies))
    && t.reassemblyBytes == Total(ByBytes, t.channels, t.ackChannels) <= MAX_REASSEMBLY_BYTES
    && t.reassemblyCount == Total(ByAssemblies, t.channels, t.ackChannels) <= MAX_ASSEMBLIES
    && t.reassemblyParts == Total(ByParts, t.channels, t.ackChannels) <= MAX_FRAGMENTS
  }

  ghost predicate Inv(t: Transport) {
    CongestionInv(t) && ChannelInv(t) && SenderInv(t) && ReceiverInv(t)
  }

  lemma InitialInv()
    ensures Inv(NEW_TRANSPORT)
  {
  }

  // ----- sums over outbound fragments -----

  lemma {:induction false} SumsAppend(a: seq<Fragment>, b: seq<Fragment>)
    ensures PayloadBytes(a + b) == PayloadBytes(a) + PayloadBytes(b)
    ensures FlightBytes(a + b) == FlightBytes(a) + FlightBytes(b)
  {
    if b == [] {
      assert a + b == a;
    } else {
      SumsAppend(a, b[..|b| - 1]);
      assert (a + b)[..|a + b| - 1] == a + b[..|b| - 1];
    }
  }

  lemma {:induction false} FragmentedBytes(channel: uint16, last: uint64, payload: bytes, upTo: nat)
    requires FragmentCount(|payload|) <= MAX_RELIABLE_FRAGMENTS
    requires last + FragmentCount(|payload|) <= MAX_UINT64
    requires upTo <= FragmentCount(|payload|)
    ensures PayloadBytes(FragmentsOf(channel, last, payload)[..upTo]) == Min(upTo * MSS, |payload|)
    ensures FlightBytes(FragmentsOf(channel, last, payload)[..upTo]) == 0
  {
    hide Part, FragmentCount;
    if upTo > 0 {
      FragmentedBytes(channel, last, payload, upTo - 1);
      var fs := FragmentsOf(channel, last, payload);
      assert fs[..upTo][..upTo - 1] == fs[..upTo - 1];
      PartAdds(payload, upTo - 1);
    }
  }

  lemma PartAdds(payload: bytes, i: nat)
    requires i < FragmentCount(|payload|)
    ensures Min((i + 1) * MSS, |payload|) == Min(i * MSS, |payload|) + |Part(payload, i)|
  {
  }

  /** What the acknowledgment filter keeps and what it takes away. */
  lemma {:induction false} UnackedMembers(fs: seq<Fragment>, channel: uint16, base: uint64, bitmap: uint64)
    ensures forall f :: f in Unacked(fs, channel, base, bitmap) <==> f in fs && !AckedBy(f, channel, base, bitmap)
  {
    if fs != [] {
      var front, f := fs[..|fs| - 1], fs[|fs| - 1];
      UnackedMembers(front, channel, base, bitmap);
      assert fs == front + [f];
    }
  }

  lemma {:induction false} UnackedSums(fs: seq<Fragment>, channel: uint16, base: uint64, bitmap: uint64)
    ensures PayloadBytes(fs) - PayloadBytes(Unacked(fs, channel, base, bitmap))
         == FlightBytes(fs) - FlightBytes(Unacked(fs, channel, base, bitmap)) >= 0
  {
    if fs != [] {
      var front, f := fs[..|fs| - 1], fs[|fs| - 1];
      UnackedSums(front, channel, base, bitmap);
      SumsAppend(Unacked(front, channel, base, bitmap), if AckedBy(f, channel, base, bitmap) then [] else [f]);
    }
  }

  lemma AppendIncreasing(fs: seq<Fragment>, f: Fragment)
    requires Increasing(fs)
    requires forall g :: g in fs && g.channel == f.channel ==> g.sequence < f.sequence
    ensures Increasing(fs + [f])
  {
  }

  lemma LastLargest(fs: seq<Fragment>)
    requires fs != [] && Increasing(fs)
    ensures Increasing(fs[..|fs| - 1])
    ensures forall g :: g in fs[..|fs| - 1] && g.channel == fs[|fs| - 1].channel ==> g.sequence < fs[|fs| - 1].sequence
  {
  }

  lemma {:induction false} UnackedIncreasing(fs: seq<Fragment>, channel: uint16, base: uint64, bitmap: uint64)
    requires Increasing(fs)
    ensures Increasing(Unacked(fs, channel, base, bitmap))
  {
    if fs != [] {
      var front, f := fs[..|fs| - 1], fs[|fs| - 1];
      LastLargest(fs);
      UnackedIncreasing(front, channel, base, bitmap);
      UnackedMembers(front, channel, base, bitmap);
      AppendIncreasing(Unacked(front, channel, base, bitmap), f);
    }
  }

  lemma {:induction false} WithoutMembers(fs: seq<Fragment>, channel: uint16)
    ensures forall f :: f in Without(fs, channel) <==> f in fs && f.channel != channel
  {
    if fs != [] {
      var front, f := fs[..|fs| - 1], fs[|fs| - 1];
      WithoutMembers(front, channel);
      assert fs == front + [f];
    }
  }

  lemma {:induction false} WithoutSums(fs: seq<Fragment>, channel: uint16)
    ensures PayloadBytes(Without(fs, channel)) <= PayloadBytes(fs)
    ensures FlightBytes(Without(fs, channel)) <= FlightBytes(fs)
  {
    if fs != [] {
      var front, f := fs[..|fs| - 1], fs[|fs| - 1];
      WithoutSums(front, channel);
      SumsAppend(Without(front, channel), if f.channel == channel then [] else [f]);
    }
  }

  lemma {:induction false} WithoutIncreasing(fs: seq<Fragment>, channel: uint16)
    requires Increasing(fs)
    ensures Increasing(Without(fs, channel))
  {
    if fs != [] {
      var front, f := fs[..|fs| - 1], fs[|fs| - 1];
      LastLargest(fs);
      WithoutIncreasing(front, channel);
      WithoutMembers(front, channel);
      AppendIncreasing(Without(front, channel), f);
    }
  }

  // ----- sums over assemblies -----

  /** The total does not depend on the assembly that is taken out first. */
  lemma {:induction false} RetainedWithout(measure: Measure, m: map<uint64, Assembly>, s: uint64)
    requires s in m
    ensures Retained(measure, m) == Weight(measure, m[s]) + Retained(measure, m - {s})
    decreases |m|
  {
    var j :| j in m && Retained(measure, m) == Weight(measure, m[j]) + Retained(measure, m - {j});
    if j != s {
      RetainedWithout(measure, m - {j}, s);
      RetainedWithout(measure, m - {s}, j);
      assert m - {j} - {s} == m - {s} - {j};
    }
  }

  lemma RetainedWith(measure: Measure, m: map<uint64, Assembly>, s: uint64, a: Assembly)
    ensures Retained(measure, m[s := a])
         == Retained(measure, m) - (if s in m then Weight(measure, m[s]) else 0) + Weight(measure, a)
  {
    RetainedWithout(measure, m[s := a], s);
    assert m[s := a] - {s} == m - {s};
    if s in m {
      RetainedWithout(measure, m, s);
    } else {
      assert m - {s} == m;
    }
  }

  lemma {:induction false} RetainedNonNegative(measure: Measure, m: map<uint64, Assembly>)
    requires GoodAssemblies(m)
    ensures Retained(measure, m) >= 0
    decreases |m|
  {
    if m != map[] {
      var s :| s in m;
      RetainedWithout(measure, m, s);
      RetainedNonNegative(measure, m - {s});
      assert GoodAssembly(m[s]);
    }
  }

  ghost predicate Distinct(order: seq<uint16>) {
    forall i, j :: 0 <= i < j < |order| ==> order[i] != order[j]
  }

  /** Replacing the record of one channel moves the total by the difference of its assemblies. */
  lemma {:induction false} TotalUpdate(measure: Measure, channels: map<uint16, Channel>, order: seq<uint16>, c: uint16, state: Channel)
    requires Distinct(order) && c in channels
    ensures Total(measure, channels[c := state], order) == Total(measure, channels, order)
         + if c in order then Retained(measure, state.reassemblies) - Retained(measure, channels[c].reassemblies) else 0
  {
    if order != [] {
      var front, last := order[..|order| - 1], order[|order| - 1];
      assert order == front + [last];
      TotalUpdate(measure, channels, front, c, state);
    }
  }

  lemma {:induction false} TotalNewChannel(measure: Measure, channels: map<uint16, Channel>, order: seq<uint16>, c: uint16)
    requires c !in channels && c !in order
    ensures Total(measure, channels[c := NEW_CHANNEL], order + [c]) == Total(measure, channels, order)
  {
    TotalIgnores(measure, channels, order, c);
    assert (order + [c])[..|order|] == order;
  }

  lemma {:induction false} TotalIgnores(measure: Measure, channels: map<uint16, Channel>, order: seq<uint16>, c: uint16)
    requires c !in order
    ensures Total(measure, channels[c := NEW_CHANNEL], order) == Total(measure, channels, order)
  {
    if order != [] {
      TotalIgnores(measure, channels, order[..|order| - 1], c);
    }
  }

  // ----- queueing -----

  lemma AddChannelInv(t: Transport, channel: uint16)
    requires Inv(t) && Known(channel)
    ensures Inv(AddChannel(t, channel))
  {
    if channel !in t.channels {
      TotalNewChannel(ByBytes, t.channels, t.ackChannels, channel);
      TotalNewChannel(ByAssemblies, t.channels, t.ackChannels, channel);
      TotalNewChannel(ByParts, t.channels, t.ackChannels, channel);
      var t1 := AddChannel(t, channel);
      forall f | f in t1.outbound
        ensures GoodFragment(t1.channels, f)
      {
        assert GoodFragment(t.channels, f);
      }
    }
  }

  /** Replacing a channel record without touching its assemblies keeps the receiver's sums. */
  lemma SameAssembliesInv(t: Transport, channel: uint16, state: Channel)
    requires ReceiverInv(t) && ChannelInv(t) && channel in t.channels
    requires state.reassemblies == t.channels[channel].reassemblies
    ensures ReceiverInv(t.(channels := t.channels[channel := state]))
  {
    TotalUpdate(ByBytes, t.channels, t.ackChannels, channel, state);
    TotalUpdate(ByAssemblies, t.channels, t.ackChannels, channel, state);
    TotalUpdate(ByParts, t.channels, t.ackChannels, channel, state);
  }

  lemma FragmentCountFits(size: nat)
    requires 0 < size <= MAX_RELIABLE_FRAGMENTS * MSS
    ensures 0 < FragmentCount(size) <= MAX_RELIABLE_FRAGMENTS
    ensures (FragmentCount(size) - 1) * MSS < size <= FragmentCount(size) * MSS
  {
  }

  lemma FragmentsAreGood(channels: map<uint16, Channel>, channel: uint16, last: uint64, payload: bytes)
    requires 0 < |payload| <= MAX_RELIABLE_FRAGMENTS * MSS && 0 < FragmentCount(|payload|) <= MAX_RELIABLE_FRAGMENTS
    requires last + FragmentCount(|payload|) <= MAX_UINT64
    requires channel in channels && channels[channel].nextFragmentSequence == last + FragmentCount(|payload|)
    ensures forall f :: f in FragmentsOf(channel, last, payload) ==> GoodFragment(channels, f)
  {
    hide GoodFragment, FragmentCount;
    var added := FragmentsOf(channel, last, payload);
    forall f | f in added
      ensures GoodFragment(channels, f)
    {
      var i :| 0 <= i < |added| && added[i] == f;
      FragmentIsGood(channels, channel, last, payload, i);
    }
  }

  lemma FragmentIsGood(channels: map<uint16, Channel>, channel: uint16, last: uint64, payload: bytes, i: nat)
    requires 0 < |payload| <= MAX_RELIABLE_FRAGMENTS * MSS && 0 < FragmentCount(|payload|) <= MAX_RELIABLE_FRAGMENTS
    requires last + FragmentCount(|payload|) <= MAX_UINT64 && i < FragmentCount(|payload|)
    requires channel in channels && channels[channel].nextFragmentSequence == last + FragmentCount(|payload|)
    ensures GoodFragment(channels, FragmentsOf(channel, last, payload)[i])
  {
    FragmentCountFits(|payload|);
    assert i * MSS <= (FragmentCount(|payload|) - 1) * MSS;
  }

  /** Queueing `added` behind what is outbound keeps the order in which a channel's fragments stand. */
  lemma QueueOrder(t: Transport, channel: uint16, added: seq<Fragment>)
    requires SenderInv(t) && channel in t.channels
    requires forall i :: 0 <= i < |added| ==>
      added[i].channel == channel && added[i].sequence == t.channels[channel].nextFragmentSequence + 1 + i
    ensures Increasing(t.outbound + added)
  {
    forall f | f in t.outbound && f.channel == channel
      ensures f.sequence <= t.channels[channel].nextFragmentSequence
    {
      assert GoodFragment(t.channels, f);
    }
    OldBeforeNew(t.outbound, added, channel, t.channels[channel].nextFragmentSequence);
  }

  lemma QueueSender(t: Transport, channel: uint16, payload: bytes)
    requires SenderInv(t) && channel in t.channels && CanQueue(t, channel, |payload|).None?
    ensures SenderInv(Queue(t, channel, payload))
  {
    var last, n := t.channels[channel].nextFragmentSequence, FragmentCount(|payload|);
    hide PayloadBytes, FlightBytes, Part;
    FragmentCountFits(|payload|);
    var added := FragmentsOf(channel, last, payload);
    var t1 := Queue(t, channel, payload);
    FragmentedBytes(channel, last, payload, n);
    assert added[..n] == added;
    SumsAppend(t.outbound, added);
    FragmentsAreGood(t1.channels, channel, last, payload);
    QueueOrder(t, channel, added);
    forall f | f in t.outbound
      ensures GoodFragment(t1.channels, f)
    {
      assert GoodFragment(t.channels, f);
    }
  }

  lemma QueueInv(t: Transport, channel: uint16, payload: bytes)
    requires Inv(t)
    ensures Inv(Queue(t, channel, payload))
  {
    hide Inv;
    if CanQueue(t, channel, |payload|).None? {
      var t1 := AddChannel(t, channel);
      AddChannelInv(t, channel);
      FragmentCountFits(|payload|);
      assert CanQueue(t1, channel, |payload|).None?;
      QueueKnownInv(t1, channel, payload);
      assert Queue(t1, channel, payload) == Queue(t, channel, payload);
    }
  }

  lemma QueueKnownInv(t: Transport, channel: uint16, payload: bytes)
    requires Inv(t) && channel in t.channels && CanQueue(t, channel, |payload|).None?
    ensures Inv(Queue(t, channel, payload))
  {
    QueueSender(t, channel, payload);
    SameAssembliesInv(t, channel, Queue(t, channel, payload).channels[channel]);
  }

  lemma OldBeforeNew(old': seq<Fragment>, added: seq<Fragment>, channel: uint16, last: uint64)
    requires Increasing(old')
    requires forall f :: f in old' && f.channel == channel ==> f.sequence <= last
    requires forall i :: 0 <= i < |added| ==> added[i].channel == channel && added[i].sequence == last + 1 + i
    ensures Increasing(old' + added)
  {
  }

  // ----- acknowledgments and the congestion window -----

  lemma UpdateRTTRange(t: Transport, sample: int)
    requires sample >= 0 && t.srtt >= 0 && t.rttvar >= 0
    ensures var u := UpdateRTT(t, sample);
      && u == t.(srtt := u.srtt, rttvar := u.rttvar, haveRTT := true, rto := u.rto)
      && u.srtt >= 0 && u.rttvar >= 0
      && MINIMUM_RTO <= u.rto <= MAXIMUM_RTO
  {
  }

  /** Two transports that differ in nothing but the round-trip estimate and the outbound counters. */
  ghost predicate SameButCounters(t: Transport, u: Transport) {
    u == t.(srtt := u.srtt, rttvar := u.rttvar, haveRTT := u.haveRTT, rto := u.rto,
            queuedBytes := u.queuedBytes, bytesInFlight := u.bytesInFlight)
  }

  lemma AbsorbOneFacts(t: Transport, f: Fragment, now: int)
    requires CongestionInv(t)
    ensures var u := AbsorbOne(t, f, now);
      && SameButCounters(t, u) && CongestionInv(u)
      && u.queuedBytes == t.queuedBytes - |f.payload|
      && u.bytesInFlight == t.bytesInFlight - |f.payload|
  {
    var t1 := t.(queuedBytes := t.queuedBytes - |f.payload|, bytesInFlight := t.bytesInFlight - |f.payload|);
    if f.transmissions == 1 && now >= f.sentAt {
      UpdateRTTRange(t1, now - f.sentAt);
    }
  }

  lemma {:induction false} AbsorbFacts(t: Transport, fs: seq<Fragment>, channel: uint16, base: uint64, bitmap: uint64, now: int)
    requires CongestionInv(t)
    ensures var u := Absorb(t, fs, channel, base, bitmap, now);
      var acked := PayloadBytes(fs) - PayloadBytes(Unacked(fs, channel, base, bitmap));
      && SameButCounters(t, u) && CongestionInv(u)
      && u.queuedBytes == t.queuedBytes - acked
      && u.bytesInFlight == t.bytesInFlight - acked
  {
    if fs != [] {
      var front, f := fs[..|fs| - 1], fs[|fs| - 1];
      AbsorbFacts(t, front, channel, base, bitmap, now);
      var t1 := Absorb(t, front, channel, base, bitmap, now);
      var kept := Unacked(front, channel, base, bitmap);
      if AckedBy(f, channel, base, bitmap) {
        AbsorbOneFacts(t1, f, now);
        assert Unacked(fs, channel, base, bitmap) == kept + [] == kept;
      } else {
        SumsAppend(kept, [f]);
        assert Unacked(fs, channel, base, bitmap) == kept + [f];
      }
    }
  }

  lemma GrowRange(cwnd: int, ssthresh: int, acked: nat)
    requires MINIMUM_CWND <= cwnd <= MAXIMUM_CWND
    ensures MINIMUM_CWND <= Grow(cwnd, ssthresh, acked) <= MAXIMUM_CWND
    ensures cwnd <= Grow(cwnd, ssthresh, acked)
  {
  }

  lemma ConsumeAckInv(t: Transport, channel: uint16, base: uint64, bitmap: uint64, now: int)
    requires Inv(t)
    ensures Inv(ConsumeAck(t, channel, base, bitmap, now))
    ensures ConsumeAck(t, channel, base, bitmap, now).channels == t.channels
    ensures ConsumeAck(t, channel, base, bitmap, now).ackChannels == t.ackChannels
    ensures t.cwnd <= ConsumeAck(t, channel, base, bitmap, now).cwnd
  {
    hide Absorb, Unacked, PayloadBytes, FlightBytes, Grow, GoodFragment, Increasing, Total, GoodAssemblies, Known, AckedBy;
    if base != 0 && bitmap != 0 {
      AbsorbFacts(t, t.outbound, channel, base, bitmap, now);
      UnackedMembers(t.outbound, channel, base, bitmap);
      UnackedSums(t.outbound, channel, base, bitmap);
      UnackedIncreasing(t.outbound, channel, base, bitmap);
      var acked := PayloadBytes(t.outbound) - PayloadBytes(Unacked(t.outbound, channel, base, bitmap));
      if acked > 0 {
        GrowRange(t.cwnd, t.ssthresh, acked);
      }
    }
  }

  // ----- choosing, committing, rejecting -----

  /** What `FirstEligible` finds: the first eligible fragment of the channel at or after `from`. */
  lemma {:induction false} FirstEligibleFacts(t: Transport, kind: Kind, channel: uint16, now: int, from: nat)
    requires from <= |t.outbound|
    ensures match FirstEligible(t, kind, channel, now, from)
      case Some(f) => f in t.outbound && f.channel == channel && Eligible(t, kind, f, now)
      case None => forall i :: from <= i < |t.outbound| && t.outbound[i].channel == channel ==>
        !Eligible(t, kind, t.outbound[i], now)
    decreases |t.outbound| - from
  {
    if from < |t.outbound| {
      FirstEligibleFacts(t, kind, channel, now, from + 1);
    }
  }

  lemma {:induction false} NextFragmentFacts(t: Transport, kind: Kind, now: int, offset: nat)
    requires offset <= |t.ackChannels|
    ensures match NextFragmentFrom(t, kind, now, offset)
      case Some((f, index)) =>
        && f in t.outbound && Eligible(t, kind, f, now)
        && index < |t.ackChannels| && f.channel == t.ackChannels[index]
      case None => forall o :: offset <= o < |t.ackChannels| ==>
        FirstEligible(t, kind, t.ackChannels[Slot(t.dataCursor, o, |t.ackChannels|)], now, 0).None?
    decreases |t.ackChannels| - offset
  {
    if offset < |t.ackChannels| {
      var index := Slot(t.dataCursor, offset, |t.ackChannels|);
      FirstEligibleFacts(t, kind, t.ackChannels[index], now, 0);
      NextFragmentFacts(t, kind, now, offset + 1);
    }
  }

  lemma {:induction false} NextAckFacts(t: Transport, offset: nat)
    requires offset <= |t.ackChannels|
    ensures match NextAckFrom(t, offset)
      case Some((p, r)) =>
        && r.Ack? && r.ackIndex < |t.ackChannels| && r.channel == t.ackChannels[r.ackIndex]
        && Dirty(t, r.channel)
        && p == Packet(r.channel, 0, 0, 0, t.channels[r.channel].received.highest, t.channels[r.channel].received.seen, [])
      case None => forall o :: offset <= o < |t.ackChannels| ==>
        !Dirty(t, t.ackChannels[Slot(t.ackCursor, o, |t.ackChannels|)])
    decreases |t.ackChannels| - offset
  {
    if offset < |t.ackChannels| {
      NextAckFacts(t, offset + 1);
    }
  }

  /** A reservation that the transport just handed out. */
  ghost predicate Live(t: Transport, r: Reservation) {
    match r
    case Ack(channel, index) => index < |t.ackChannels| && t.ackChannels[index] == channel
    case Data(kind, f, index, now) =>
      f in t.outbound && Eligible(t, kind, f, now) && index < |t.ackChannels| && t.ackChannels[index] == f.channel
  }

  lemma NextSendLive(t: Transport, now: int)
    requires NextSend(t, now).Some?
    ensures Live(t, NextSend(t, now).value.1)
    ensures var (p, r) := NextSend(t, now).value;
      if r.Data? then p == PacketFor(t, r.fragment)
      else
        && Dirty(t, r.channel)
        && p == Packet(r.channel, 0, 0, 0, t.channels[r.channel].received.highest, t.channels[r.channel].received.seen, [])
  {
    NextAckFacts(t, 0);
    NextFragmentFacts(t, Retransmit, now, 0);
    NextFragmentFacts(t, New, now, 0);
  }

  /** Re-marking fragments without changing what they carry. */
  ghost predicate SameContents(fs: seq<Fragment>, gs: seq<Fragment>) {
    && |fs| == |gs|
    && forall i :: 0 <= i < |fs| ==>
         gs[i] == fs[i].(sentAt := gs[i].sentAt, transmissions := gs[i].transmissions, timeoutPending := gs[i].timeoutPending)
  }

  lemma {:induction false} SameContentsSums(fs: seq<Fragment>, gs: seq<Fragment>)
    requires SameContents(fs, gs)
    ensures PayloadBytes(fs) == PayloadBytes(gs)
    ensures (forall i :: 0 <= i < |fs| ==> (fs[i].transmissions == 0 <==> gs[i].transmissions == 0)) ==>
      FlightBytes(fs) == FlightBytes(gs)
  {
    if fs != [] {
      SameContentsSums(fs[..|fs| - 1], gs[..|gs| - 1]);
    }
  }

  lemma {:induction false} TouchFlight(fs: seq<Fragment>, r: Reservation)
    requires r.Data? && r.fragment in fs && r.fragment.transmissions == 0 && Increasing(fs)
    ensures FlightBytes(Touch(fs, r)) == FlightBytes(fs) + |r.fragment.payload|
  {
    var front, f := fs[..|fs| - 1], fs[|fs| - 1];
    assert Touch(fs, r)[..|fs| - 1] == Touch(front, r);
    if Same(f, r.fragment) {
      var i :| 0 <= i < |fs| && fs[i] == r.fragment;
      assert i == |fs| - 1;
      assert forall k :: 0 <= k < |front| ==> !Same(front[k], r.fragment);
      assert Touch(front, r) == front;
    } else {
      assert r.fragment in front;
      TouchFlight(front, r);
    }
  }

  /** Re-marked fragments are still good fragments in the same order. */
  lemma SameContentsGood(channels: map<uint16, Channel>, fs: seq<Fragment>, gs: seq<Fragment>)
    requires SameContents(fs, gs) && Increasing(fs)
    requires forall f :: f in fs ==> GoodFragment(channels, f)
    requires forall g :: g in gs && g.transmissions == 0 ==> !g.timeoutPending
    ensures forall g :: g in gs ==> GoodFragment(channels, g)
    ensures Increasing(gs)
  {
    forall g | g in gs
      ensures GoodFragment(channels, g)
    {
      var i :| 0 <= i < |gs| && gs[i] == g;
      assert GoodFragment(channels, fs[i]);
    }
  }

  lemma FreezeSame(fs: seq<Fragment>, rto: int, now: int)
    ensures SameContents(fs, Freeze(fs, rto, now))
    ensures forall i :: 0 <= i < |fs| ==> fs[i].transmissions == Freeze(fs, rto, now)[i].transmissions
  {
  }

  lemma TouchSame(fs: seq<Fragment>, r: Reservation)
    requires r.Data?
    ensures SameContents(fs, Touch(fs, r))
    ensures forall i :: 0 <= i < |fs| && fs[i].transmissions != 0 ==> Touch(fs, r)[i].transmissions != 0
  {
  }

  /** A channel and a sequence number identify an outbound fragment. */
  lemma OnlyOne(fs: seq<Fragment>, i: nat, f: Fragment)
    requires Increasing(fs) && i < |fs| && f in fs && Same(fs[i], f)
    ensures fs[i] == f
  {
    var j :| 0 <= j < |fs| && fs[j] == f;
  }

  /** The outbound fragments as they stand when a reservation marks its own. */
  function BeforeTouch(t: Transport, r: Reservation): seq<Fragment>
    requires r.Data?
  {
    if r.kind == Retransmit && !r.fragment.timeoutPending then Freeze(t.outbound, t.rto, r.now) else t.outbound
  }

  lemma TouchedSums(t: Transport, r: Reservation)
    requires SenderInv(t) && Live(t, r) && r.Data?
    ensures var after := Touch(BeforeTouch(t, r), r);
      && PayloadBytes(after) == PayloadBytes(t.outbound)
      && FlightBytes(after) == FlightBytes(t.outbound) + if r.kind == New then |r.fragment.payload| else 0
  {
    var before := BeforeTouch(t, r);
    var after := Touch(before, r);
    FreezeSame(t.outbound, t.rto, r.now);
    TouchSame(before, r);
    SameContentsSums(t.outbound, before);
    SameContentsSums(before, after);
    if r.kind == New {
      TouchFlight(t.outbound, r);
    } else {
      forall i | 0 <= i < |before|
        ensures before[i].transmissions == 0 <==> after[i].transmissions == 0
      {
        if Same(before[i], r.fragment) {
          OnlyOne(t.outbound, i, r.fragment);
        }
      }
    }
  }

  lemma TouchedGood(t: Transport, r: Reservation)
    requires SenderInv(t) && Live(t, r) && r.Data?
    ensures var after := Touch(BeforeTouch(t, r), r);
      && (forall f :: f in after ==> GoodFragment(t.channels, f))
      && Increasing(after)
  {
    var before := BeforeTouch(t, r);
    var after := Touch(before, r);
    FreezeSame(t.outbound, t.rto, r.now);
    TouchSame(before, r);
    forall g | g in after && g.transmissions == 0
      ensures !g.timeoutPending
    {
      var i :| 0 <= i < |after| && after[i] == g;
      assert GoodFragment(t.channels, t.outbound[i]);
    }
    SameContentsGood(t.channels, t.outbound, after);
  }

  lemma MarkedInv(t: Transport, r: Reservation)
    requires Inv(t) && Live(t, r)
    ensures Inv(Marked(t, r))
  {
    if r.Data? {
      TouchedSums(t, r);
      TouchedGood(t, r);
      hide Touch, BeforeTouch, Freeze, PayloadBytes, FlightBytes, GoodFragment, GoodAssemblies, Total, Increasing, Known, Distinct;
      MarkedShape(t, r);
      if r.kind == New {
        ReservedFits(t, r);
      }
    }
  }

  lemma MarkedShape(t: Transport, r: Reservation)
    requires r.Data? && CongestionInv(t)
    ensures var u := Marked(t, r);
      && u == t.(outbound := Touch(BeforeTouch(t, r), r), cwnd := u.cwnd, ssthresh := u.ssthresh, rto := u.rto,
                 bytesInFlight := t.bytesInFlight + if r.kind == New then |r.fragment.payload| else 0)
      && CongestionInv(u)
  {
  }

  /** A fragment sent for the first time fits what may be in flight. */
  lemma ReservedFits(t: Transport, r: Reservation)
    requires CongestionInv(t) && Live(t, r) && r.Data? && r.kind == New
    ensures t.bytesInFlight + |r.fragment.payload| <= MAXIMUM_CWND
  {
  }

  lemma ClearDirtyInv(t: Transport, channel: uint16)
    requires Inv(t) && channel in t.channels
    ensures Inv(ClearDirty(t, channel))
  {
    var state := t.channels[channel].(ackDirty := false);
    SameAssembliesInv(t, channel, state);
    SameSequencesSender(t, channel, state);
  }

  lemma AdvanceInv(t: Transport, r: Reservation)
    requires Inv(t) && |t.ackChannels| > 0
    ensures Inv(Advance(t, r))
  {
  }

  lemma CommitInv(t: Transport, r: Reservation)
    requires Inv(t) && Live(t, r)
    ensures ReservedChannel(r) in t.channels && |t.ackChannels| > 0
    ensures Inv(Commit(t, r))
  {
    LiveChannel(t, r);
    hide Inv, Live;
    MarkedInv(t, r);
    AdvanceInv(Marked(t, r), r);
    ClearDirtyInv(Advance(Marked(t, r), r), ReservedChannel(r));
  }

  lemma LiveChannel(t: Transport, r: Reservation)
    requires ChannelInv(t) && Live(t, r)
    ensures ReservedChannel(r) in t.channels && |t.ackChannels| > 0
  {
    assert ReservedChannel(r) in t.ackChannels;
  }

  /** Apart from cursors and flags, committing is what `Marked` says and rejecting is nothing. */
  lemma CommitFields(t: Transport, r: Reservation)
    requires ChannelInv(t) && Live(t, r)
    ensures |t.ackChannels| > 0 && ReservedChannel(r) in t.channels
    ensures var u, m := Commit(t, r), Marked(t, r);
      && u.outbound == m.outbound && u.cwnd == m.cwnd && u.ssthresh == m.ssthresh && u.rto == m.rto
      && u.channels == t.channels[ReservedChannel(r) := t.channels[ReservedChannel(r)].(ackDirty := false)]
      && u.ackChannels == t.ackChannels
    ensures var u := Reject(t, r);
      && u.outbound == t.outbound && u.cwnd == t.cwnd && u.ssthresh == t.ssthresh && u.rto == t.rto
      && u.channels == t.channels && u.ackChannels == t.ackChannels
  {
    hide Marked, Advance, Eligible, NextFragmentFrom, ChannelInv;
    LiveChannel(t, r);
    MarkedFields(t, r);
    AdvanceFields(t, r);
    AdvanceFields(Marked(t, r), r);
  }

  lemma MarkedFields(t: Transport, r: Reservation)
    ensures Marked(t, r).channels == t.channels && Marked(t, r).ackChannels == t.ackChannels
  {
    hide Touch, Freeze;
  }

  lemma AdvanceFields(t: Transport, r: Reservation)
    requires |t.ackChannels| > 0
    ensures var u := Advance(t, r);
      && u.outbound == t.outbound && u.cwnd == t.cwnd && u.ssthresh == t.ssthresh && u.rto == t.rto
      && u.channels == t.channels && u.ackChannels == t.ackChannels
  {
  }

  lemma RejectInv(t: Transport, r: Reservation)
    requires Inv(t) && Live(t, r)
    ensures Inv(Reject(t, r))
  {
  }

  // ----- receiving and discarding -----

  lemma RemoveAssemblyReceiver(t: Transport, channel: uint16, start: uint64)
    requires ReceiverInv(t) && ChannelInv(t) && channel in t.channels && start in t.channels[channel].reassemblies
    ensures ReceiverInv(RemoveAssembly(t, channel, start))
  {
    var state := t.channels[channel];
    var m: map<uint64, Assembly> := state.reassemblies;
    var state1 := state.(reassemblies := m - {start});
    assert GoodAssembly(m[start]);
    assert GoodAssemblies(m - {start});
    TotalUpdate(ByBytes, t.channels, t.ackChannels, channel, state1);
    TotalUpdate(ByAssemblies, t.channels, t.ackChannels, channel, state1);
    TotalUpdate(ByParts, t.channels, t.ackChannels, channel, state1);
    RetainedWithout(ByBytes, m, start);
    RetainedWithout(ByAssemblies, m, start);
    RetainedWithout(ByParts, m, start);
  }

  /** Sequence numbers and assemblies aside, the sender's side of a transport does not look at a channel. */
  lemma SameSequencesSender(t: Transport, channel: uint16, state: Channel)
    requires SenderInv(t) && channel in t.channels
    requires state.nextFragmentSequence == t.channels[channel].nextFragmentSequence
    ensures SenderInv(t.(channels := t.channels[channel := state]))
  {
    var t1 := t.(channels := t.channels[channel := state]);
    forall f | f in t1.outbound
      ensures GoodFragment(t1.channels, f)
    {
      assert GoodFragment(t.channels, f);
    }
  }

  lemma RemoveAssemblyInv(t: Transport, channel: uint16, start: uint64)
    requires Inv(t)
    ensures Inv(RemoveAssembly(t, channel, start))
  {
    if channel in t.channels && start in t.channels[channel].reassemblies {
      var state := t.channels[channel];
      RemoveAssemblyReceiver(t, channel, start);
      SameSequencesSender(t, channel, state.(reassemblies := state.reassemblies - {start}));
    }
  }

  lemma DeliverHeadInv(t: Transport, channel: uint16)
    requires Inv(t) && HeadReady(t, channel)
    ensures Inv(DeliverHead(t, channel).0)
  {
    var start := t.channels[channel].nextDelivered;
    var t1 := RemoveAssembly(t, channel, start);
    var state := DeliverHead(t, channel).0.channels[channel];
    RemoveAssemblyInv(t, channel, start);
    SameAssembliesInv(t1, channel, state);
    SameSequencesSender(t1, channel, state);
  }

  lemma {:induction false} DeliverOrderedInv(t: Transport, channel: uint16)
    requires Inv(t)
    ensures Inv(DeliverOrdered(t, channel).0)
    decreases if channel in t.channels then |t.channels[channel].reassemblies| else 0
  {
    hide Inv;
    if HeadReady(t, channel) {
      DeliverHeadInv(t, channel);
      DeliverOrderedInv(DeliverHead(t, channel).0, channel);
    }
  }

  lemma {:induction false} AssembledStore(a: Assembly, index: uint16, part: bytes, upTo: nat)
    requires upTo <= a.count && index !in a.fragments
    ensures |Assembled(a.(fragments := a.fragments[index := part]), upTo)|
         == |Assembled(a, upTo)| + if index < upTo then |part| else 0
  {
    if upTo > 0 {
      AssembledStore(a, index, part, upTo - 1);
    }
  }

  lemma {:induction false} AssembledEmpty(count: uint16, size: int, upTo: nat)
    requires upTo <= count
    ensures Assembled(Assembly(count, map[], size), upTo) == []
  {
    if upTo > 0 {
      AssembledEmpty(count, size, upTo - 1);
    }
  }

  lemma {:induction false} AssembledIgnoresSize(a: Assembly, size: int, upTo: nat)
    requires upTo <= a.count
    ensures Assembled(a.(bytes := size), upTo) == Assembled(a, upTo)
  {
    if upTo > 0 {
      AssembledIgnoresSize(a, size, upTo - 1);
    }
  }

  lemma GrownIsGood(t: Transport, p: Packet)
    requires ReceiverInv(t) && ValidBody(p) && !p.AckOnly() && p.channel in t.channels && Retains(t, p)
    ensures GoodAssembly(Grown(t.channels[p.channel], p))
  {
    var m: map<uint64, Assembly> := t.channels[p.channel].reassemblies;
    var start := p.sequence - p.index;
    var a := if start in m then m[start] else Assembly(p.count, map[], 0);
    assert start in m ==> GoodAssembly(m[start]);
    AssembledEmpty(p.count, 0, p.count);
    AssembledStore(a, p.index, p.payload, a.count);
    AssembledIgnoresSize(a.(fragments := a.fragments[p.index := p.payload]), a.bytes + |p.payload|, a.count);
  }

  lemma StoreReceiver(t: Transport, p: Packet)
    requires ReceiverInv(t) && ChannelInv(t)
    requires ValidBody(p) && !p.AckOnly() && p.channel in t.channels && Retains(t, p)
    ensures ReceiverInv(Store(t, p))
  {
    hide Retained, Total, GoodAssembly, Assembled, Offer, Takes;
    var state := t.channels[p.channel];
    var m: map<uint64, Assembly> := state.reassemblies;
    var start := p.sequence - p.index;
    var grown := Grown(state, p);
    GrownIsGood(t, p);
    assert GoodAssemblies(m);
    assert GoodAssemblies(m[start := grown]);
    var state1 := StoreIn(state, p);
    StoreTotal(ByBytes, t, p);
    StoreTotal(ByAssemblies, t, p);
    StoreTotal(ByParts, t, p);
  }

  /** What storing a fragment adds to each total. */
  lemma StoreTotal(measure: Measure, t: Transport, p: Packet)
    requires ChannelInv(t) && ValidBody(p) && !p.AckOnly() && p.channel in t.channels && Retains(t, p)
    ensures Total(measure, Store(t, p).channels, t.ackChannels) == Total(measure, t.channels, t.ackChannels)
      + match measure
        case ByBytes => |p.payload|
        case ByAssemblies => if p.sequence - p.index in t.channels[p.channel].reassemblies then 0 else 1
        case ByParts => 1
  {
    hide Retained, Total, Offer, Takes;
    var state := t.channels[p.channel];
    TotalUpdate(measure, t.channels, t.ackChannels, p.channel, StoreIn(state, p));
    RetainedWith(measure, state.reassemblies, p.sequence - p.index, Grown(state, p));
  }

  lemma StoreInv(t: Transport, p: Packet)
    requires Inv(t) && ValidBody(p) && !p.AckOnly() && p.channel in t.channels && Retains(t, p)
    ensures Inv(Store(t, p))
  {
    StoreReceiver(t, p);
    SameSequencesSender(t, p.channel, Store(t, p).channels[p.channel]);
  }

  lemma MarkDirtyInv(t: Transport, channel: uint16)
    requires Inv(t) && Known(channel)
    ensures Inv(MarkDirty(t, channel))
  {
    var t1 := AddChannel(t, channel);
    AddChannelInv(t, channel);
    SameAssembliesInv(t1, channel, t1.channels[channel].(ackDirty := true));
    SameSequencesSender(t1, channel, t1.channels[channel].(ackDirty := true));
  }

  lemma DeliverInv(t: Transport, p: Packet)
    requires Inv(t) && ValidBody(p) && !p.AckOnly() && p.channel in t.channels
    requires p.sequence - p.index in t.channels[p.channel].reassemblies
    ensures Inv(Deliver(t, p).0)
  {
    hide Inv;
    if Complete(t.channels[p.channel].reassemblies[p.sequence - p.index]) {
      if Ordered(p.channel) {
        DeliverOrderedInv(t, p.channel);
      } else {
        RemoveAssemblyInv(t, p.channel, p.sequence - p.index);
      }
    }
  }

  lemma ReceiveDataInv(t: Transport, p: Packet)
    requires Inv(t) && ValidBody(p) && !p.AckOnly() && Known(p.channel)
    ensures Inv(ReceiveData(t, p).0)
  {
    hide Inv;
    MarkDirtyInv(t, p.channel);
    var t1 := MarkDirty(t, p.channel);
    if Retains(t1, p) {
      StoreInv(t1, p);
      DeliverInv(Store(t1, p), p);
    }
  }

  lemma ReceiveInv(t: Transport, p: Packet, now: int)
    requires Inv(t) && ValidBody(p)
    ensures Inv(Receive(t, p, now).0)
  {
    if Known(p.channel) {
      var t1 := ConsumeAck(t, p.channel, p.ackBase, p.ackBitmap, now);
      ConsumeAckInv(t, p.channel, p.ackBase, p.ackBitmap, now);
      if !p.AckOnly() {
        ReceiveDataInv(t1, p);
      }
    }
  }

  lemma DiscardOutboundInv(t: Transport, channel: uint16)
    requires Inv(t)
    ensures Inv(DiscardOutbound(t, channel))
  {
    WithoutMembers(t.outbound, channel);
    WithoutSums(t.outbound, channel);
    WithoutIncreasing(t.outbound, channel);
  }

  lemma DiscardInboundInv(t: Transport, channel: uint16)
    requires Inv(t)
    ensures Inv(DiscardInbound(t, channel))
  {
    if channel in t.channels {
      var state := t.channels[channel];
      var m: map<uint64, Assembly> := state.reassemblies;
      var state1 := state.(reassemblies := map[]);
      TotalUpdate(ByBytes, t.channels, t.ackChannels, channel, state1);
      TotalUpdate(ByAssemblies, t.channels, t.ackChannels, channel, state1);
      TotalUpdate(ByParts, t.channels, t.ackChannels, channel, state1);
      assert GoodAssemblies(m);
      RetainedNonNegative(ByBytes, m);
      RetainedNonNegative(ByAssemblies, m);
      RetainedNonNegative(ByParts, m);
      SameSequencesSender(t, channel, state1);
    }
  }

  // ----- whole runs -----

  datatype Op =
    | QueueOp(channel: uint16, payload: bytes)
    | SendOp(now: int, accepted: bool)
    | ReceiveOp(packet: Packet, now: int)
    | DiscardOutboundOp(channel: uint16)
    | DiscardInboundOp(channel: uint16)

  /** One step of the client loop: queue, reserve and then commit or reject, receive, or discard. */
  ghost function Apply(t: Transport, op: Op): Transport
    requires Inv(t)
  {
    match op
    case QueueOp(channel, payload) => Queue(t, channel, payload)
    case SendOp(now, accepted) =>
      if NextSend(t, now).None? then t
      else
        var r := NextSend(t, now).value.1;
        NextSendLive(t, now);
        LiveChannel(t, r);
        if accepted then Commit(t, r) else Reject(t, r)
    case ReceiveOp(p, now) => if ValidBody(p) then Receive(t, p, now).0 else t
    case DiscardOutboundOp(channel) => DiscardOutbound(t, channel)
    case DiscardInboundOp(channel) => DiscardInbound(t, channel)
  }

  lemma ApplyInv(t: Transport, op: Op)
    requires Inv(t)
    ensures Inv(Apply(t, op))
  {
    hide Inv, Queue, NextSend, Commit, Reject, Receive, DiscardOutbound, DiscardInbound, CanQueue;
    match op
    case QueueOp(channel, payload) => QueueInv(t, channel, payload);
    case SendOp(now, accepted) =>
      if NextSend(t, now).Some? {
        NextSendLive(t, now);
        CommitInv(t, NextSend(t, now).value.1);
        RejectInv(t, NextSend(t, now).value.1);
      }
    case ReceiveOp(p, now) =>
      if ValidBody(p) {
        ReceiveInv(t, p, now);
      }
    case DiscardOutboundOp(channel) => DiscardOutboundInv(t, channel);
    case DiscardInboundOp(channel) => DiscardInboundInv(t, channel);
  }

  ghost predicate Run(ops: seq<Op>, states: seq<Transport>) {
    && |states| == |ops| + 1
    && states[0] == NEW_TRANSPORT
    && forall i :: 0 <= i < |ops| ==> Inv(states[i]) ==> states[i + 1] == Apply(states[i], ops[i])
  }

  /** Every state of every run, whatever is queued, sent, received or discarded, keeps the accounting. */
  lemma {:induction false} EveryRunKeepsAccounting(ops: seq<Op>, states: seq<Transport>, k: nat)
    requires Run(ops, states) && k < |states|
    ensures Inv(states[k])
  {
    if k == 0 {
      InitialInv();
    } else {
      EveryRunKeepsAccounting(ops, states, k - 1);
      ApplyInv(states[k - 1], ops[k - 1]);
    }
  }
}
