/** That a transport keeps going: what waits can be sent, what was kept is reported, and what is reported leaves. */
module Progress {
  import opened Options
  import opened Bytes
  import opened Words
  import opened SequenceWindows
  import opened ReliablePackets
  import opened Transports
  import opened Accounting
  import opened SendSchedules
  import opened ReliableDelivery
  import opened SessionRuns

  /** Whatever may be sent at all is found by the search over the channels. */
  lemma EligibleIsFound(t: Transport, kind: Kind, i: nat, now: int)
    requires Inv(t) && i < |t.outbound| && Eligible(t, kind, t.outbound[i], now)
    ensures NextFragment(t, kind, now).Some?
  {
    hide Eligible, CongestionInv, ReceiverInv, Slot;
    var c, n := t.outbound[i].channel, |t.ackChannels|;
    assert GoodFragment(t.channels, t.outbound[i]);
    assert c in t.ackChannels;
    var pos :| 0 <= pos < n && t.ackChannels[pos] == c;
    SlotAfterGap(t.dataCursor, pos, n);
    FirstEligibleExists(t, kind, c, now, 0, i);
    SearchStops(t, kind, now, 0, Gap(t.dataCursor, pos, n));
  }

  lemma {:induction false} NothingInFlight(fs: seq<Fragment>, channel: uint16)
    requires forall f :: f in fs ==> f.transmissions == 0
    ensures FlightBytes(fs) == 0 && OldestTransmitted(fs, channel) == 0
  {
    if fs != [] {
      NothingInFlight(fs[..|fs| - 1], channel);
      assert fs[|fs| - 1] in fs;
    }
  }

  /** A transport with anything outbound is never stuck: once every timeout has passed, whatever the windows, there is a
      data packet to send; and at once if nothing has been sent yet. */
  lemma NeverStuck(t: Transport, now: int)
    requires Inv(t) && t.outbound != []
    requires forall f :: f in t.outbound && f.transmissions != 0 ==> f.sentAt + t.rto <= now
    ensures NextPacket(t, now).Some? && NextSend(t, now).Some?
  {
    hide NextFragmentFrom, NextAckFrom, ReceiverInv, ChannelInv;
    if f :| f in t.outbound && f.transmissions != 0 {
      var i :| 0 <= i < |t.outbound| && t.outbound[i] == f;
      EligibleIsFound(t, Retransmit, i, now);
    } else {
      var f := t.outbound[0];
      NothingInFlight(t.outbound, f.channel);
      assert GoodFragment(t.channels, f);
      assert Eligible(t, New, f, now);
      EligibleIsFound(t, New, 0, now);
    }
  }

  /** Nothing is sent again before its timeout, and nothing new beyond the congestion window. */
  lemma NothingTooSoon(t: Transport, now: int)
    requires NextPacket(t, now).Some?
    ensures var r := NextPacket(t, now).value.1;
      && r.Data? && r.fragment in t.outbound
      && (r.kind == Retransmit ==>
            r.fragment.transmissions != 0 && (r.fragment.timeoutPending || now - r.fragment.sentAt >= t.rto))
      && (r.kind == New ==> r.fragment.transmissions == 0 && t.bytesInFlight + |r.fragment.payload| <= t.cwnd)
  {
    NextFragmentFacts(t, Retransmit, now, 0);
    NextFragmentFacts(t, New, now, 0);
  }

  /** An acknowledgment is found whenever a channel owes one. */
  lemma OwedIsFound(t: Transport, c: uint16)
    requires Inv(t) && c in t.channels && t.channels[c].ackDirty
    ensures NextAck(t).Some?
  {
    hide CongestionInv, SenderInv, ReceiverInv, Slot;
    var pos :| 0 <= pos < |t.ackChannels| && t.ackChannels[pos] == c;
    SlotAfterGap(t.ackCursor, pos, |t.ackChannels|);
    AckSearchStops(t, 0, Gap(t.ackCursor, pos, |t.ackChannels|));
  }

  lemma {:induction false} AckSearchStops(t: Transport, offset: nat, target: nat)
    requires offset <= target < |t.ackChannels|
    requires Dirty(t, t.ackChannels[Slot(t.ackCursor, target, |t.ackChannels|)])
    ensures NextAckFrom(t, offset).Some?
    decreases target - offset
  {
    if offset < target {
      AckSearchStops(t, offset + 1, target);
    }
  }

  /** What a channel owes after a data packet of another channel was sent or refused, it sends next; and after an
      acknowledgment, data goes first. */
  lemma KindsAlternate(t: Transport, now: int, accepted: bool, later: int)
    requires Inv(t) && NextSend(t, now).Some?
    ensures var r, u := NextSend(t, now).value.1, SendAt(t, now, accepted);
      && (r.Data? && (exists c :: c in t.channels && t.channels[c].ackDirty && c != r.fragment.channel) ==>
            NextSend(u, later).Some? && NextSend(u, later).value.1.Ack?)
      && (r.Ack? && NextPacket(u, later).Some? ==> NextSend(u, later) == NextPacket(u, later))
  {
    hide Inv, NextFragmentFrom, NextAckFrom, Marked;
    var r, u := NextSend(t, now).value.1, SendAt(t, now, accepted);
    OneSend(t, now, accepted);
    NextSendLive(t, now);
    SentKeepsDirt(t, r, accepted);
    if r.Data? && exists c :: c in t.channels && t.channels[c].ackDirty && c != r.fragment.channel {
      var c :| c in t.channels && t.channels[c].ackDirty && c != r.fragment.channel;
      OwedIsFound(u, c);
    }
    AckReservations(u);
  }

  lemma AckReservations(t: Transport)
    ensures NextAck(t).Some? ==> NextAck(t).value.1.Ack?
  {
    AckReservationsFrom(t, 0);
  }

  lemma {:induction false} AckReservationsFrom(t: Transport, offset: nat)
    requires offset <= |t.ackChannels|
    ensures NextAckFrom(t, offset).Some? ==> NextAckFrom(t, offset).value.1.Ack?
    decreases |t.ackChannels| - offset
  {
    if offset < |t.ackChannels| {
      AckReservationsFrom(t, offset + 1);
    }
  }

  lemma SentKeepsDirt(t: Transport, r: Reservation, accepted: bool)
    requires Inv(t) && Live(t, r)
    ensures ReservedChannel(r) in t.channels && |t.ackChannels| > 0
    ensures var u := if accepted then Commit(t, r) else Reject(t, r);
      && u.preferACK == r.Data?
      && forall c :: c in t.channels && c != ReservedChannel(r) ==> c in u.channels && u.channels[c].ackDirty == t.channels[c].ackDirty
  {
    LiveChannel(t, r);
    CommitFields(t, r);
    hide Marked, Live, CongestionInv, SenderInv, ReceiverInv;
  }

  /** A message is taken exactly when its channel exists, it is not empty, it fits 1024 fragments and what is left of four
      mebibytes, and the numbers of its channel suffice; it then waits at the end of the queue, all of it. */
  lemma QueuedIff(t: Transport, c: uint16, payload: bytes)
    requires Inv(t)
    ensures var last := if c in t.channels then t.channels[c].nextFragmentSequence else 0;
      if 1 <= c <= 6 && 0 < |payload| <= 1024 * MSS && |payload| + t.queuedBytes <= 0x40_0000
         && last + FragmentCount(|payload|) <= MAX_UINT64 then
        Queue(t, c, payload).outbound == t.outbound + FragmentsOf(c, last, payload)
      else Queue(t, c, payload) == t
  {
    hide Inv, FragmentsOf;
    if 0 < |payload| <= 1024 * MSS {
      FragmentCountFits(|payload|);
    }
  }

  lemma {:induction false} DeliveringKeepsQueue(t: Transport, c: uint16)
    ensures DeliverOrdered(t, c).0.outbound == t.outbound
    decreases if c in t.channels then |t.channels[c].reassemblies| else 0
  {
    hide Assembled;
    if HeadReady(t, c) && !Wraps(t, c) {
      DeliveringKeepsQueue(DeliverHead(t, c).0, c);
    }
  }

  lemma DataKeepsQueue(t: Transport, p: Packet)
    requires ValidBody(p) && !p.AckOnly()
    ensures ReceiveData(t, p).0.outbound == t.outbound
  {
    hide DeliverOrdered, ValidBody, Retains, Assembled, Offer, Complete;
    var t1 := MarkDirty(t, p.channel);
    DeliveringKeepsQueue(Store(t1, p), p.channel);
  }

  /** A fragment that was sent leaves the queue as soon as an acknowledgment names it. */
  lemma NamedLeaves(t: Transport, p: Packet, now: int, f: Fragment)
    requires Inv(t) && ValidBody(p) && Known(p.channel)
    requires f in t.outbound && f.channel == p.channel && f.transmissions != 0
    requires AckContains(p.ackBase, p.ackBitmap, f.sequence)
    ensures t.cwnd > 0 && f !in Receive(t, p, now).0.outbound
  {
    hide ReceiveData, Inv, ValidBody, ConsumeAck, AckContains;
    CwndIsPositive(t);
    NamedIsConsumed(t, p, now, f);
    if !p.AckOnly() {
      DataKeepsQueue(ConsumeAck(t, p.channel, p.ackBase, p.ackBitmap, now), p);
    }
  }

  lemma NamedIsConsumed(t: Transport, p: Packet, now: int, f: Fragment)
    requires t.cwnd > 0 && f.channel == p.channel && f.transmissions != 0
    requires AckContains(p.ackBase, p.ackBitmap, f.sequence)
    ensures f !in ConsumeAck(t, p.channel, p.ackBase, p.ackBitmap, now).outbound
  {
    hide Absorb, PayloadBytes, Grow;
    UnackedMembers(t.outbound, p.channel, p.ackBase, p.ackBitmap);
    BitOfZero(p.ackBase - f.sequence);
  }

  /** The acknowledgment that an end attaches to a packet on a channel. */
  ghost predicate Reports(y: Side, p: Packet) {
    var received := ChannelOf(y.t, p.channel).received;
    ValidBody(p) && Known(p.channel) && p.ackBase == received.highest && p.ackBitmap == received.seen
  }

  /** Between the two ends of any run, in any of its states: a sent fragment that the other end has kept, less than 64
      behind the highest number kept there, leaves the queue when a packet with the other end's report arrives. */
  lemma KeptIsAcknowledged(steps: seq<Step>, states: seq<Pair>, i: nat, x: Side, y: Side, p: Packet, now: int, f: Fragment)
    requires SessionRun(steps, states) && i < |states| && (states[i] == Pair(x, y) || states[i] == Pair(y, x))
    requires f in x.t.outbound && f.transmissions != 0 && f.channel == p.channel && Reports(y, p)
    requires f.sequence in KeptOn(y, f.channel) && ChannelOf(y.t, f.channel).received.highest - f.sequence < 64
    ensures x.t.cwnd > 0 && f !in Receive(x.t, p, now).0.outbound
  {
    hide SessionRun, Inv, Receive, ValidBody, AckContains, Tracks, GoodParts, InOrder, OnceEach, NothingLost;
    EveryStateLinked(steps, states, i);
    if states[i] == Pair(y, x) {
      LinkedBothWays(y, x);
    }
    assert ReceivesOn(x, y, f.channel);
    TracksHas(ChannelOf(y.t, f.channel).received, KeptOn(y, f.channel), f.sequence);
    NamedLeaves(x.t, p, now, f);
  }
}
