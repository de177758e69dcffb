/** Two ends of a session exchanging packets over a network that drops, duplicates and reorders.

    Each side carries, besides its transport, what a run has queued, sent, kept and delivered. The network is
    the set of packets a side ever sent: a packet may be received never, once or many times, at any time. */
module SessionRuns {
  import opened Options
  import opened Bytes
  import opened Words
  import opened SequenceWindows
  import opened ReliablePackets
  import opened Transports
  import opened Accounting
  import opened MessageStreams
  import opened ReliableDelivery

  datatype Side = Side(
    t: Transport,
    queued: map<uint16, seq<bytes>>,
    sent: set<Packet>,
    delivered: map<uint16, seq<Delivery>>,
    kept: map<uint16, set<uint64>>)

  const NEW_SIDE := Side(NEW_TRANSPORT, map[], {}, map[], map[])

  /** What was queued on a channel. */
  function QueuedOn(s: Side, c: uint16): seq<bytes> {
    if c in s.queued then s.queued[c] else []
  }

  /** What a channel delivered. */
  function DeliveredOn(s: Side, c: uint16): seq<Delivery> {
    if c in s.delivered then s.delivered[c] else []
  }

  /** The sequence numbers a channel ever kept. */
  function KeptOn(s: Side, c: uint16): set<uint64> {
    if c in s.kept then s.kept[c] else {}
  }

  // ----- steps -----

  datatype Action =
    | Enqueue(channel: uint16, payload: bytes)
    | Transmit(now: int, accepted: bool)
    | Take(packet: Packet, now: int)
    | DropOutbound
    | DropInbound

  /** The receiver keeps the data of this packet. */
  predicate Keeps(t: Transport, p: Packet, now: int)
    requires ValidBody(p) && t.cwnd > 0
  {
    && Known(p.channel)
    && !p.AckOnly()
    && Retains(MarkDirty(ConsumeAck(t, p.channel, p.ackBase, p.ackBitmap, now), p.channel), p)
  }

  ghost function DoEnqueue(me: Side, c: uint16, payload: bytes): Side {
    if CanQueue(me.t, c, |payload|).Some? then me
    else me.(t := Queue(me.t, c, payload), queued := me.queued[c := QueuedOn(me, c) + [payload]])
  }

  /** Reserve a packet and hand it to the network, which may refuse it. */
  ghost function DoTransmit(me: Side, now: int, accepted: bool): Side
    requires Inv(me.t)
  {
    if NextSend(me.t, now).None? then me
    else
      var (p, r) := NextSend(me.t, now).value;
      NextSendLive(me.t, now);
      LiveChannel(me.t, r);
      if accepted then me.(t := Commit(me.t, r), sent := me.sent + {p}) else me.(t := Reject(me.t, r))
  }

  ghost function DoTake(me: Side, p: Packet, now: int): Side
    requires ValidBody(p) && me.t.cwnd > 0
  {
    var (t, messages) := Receive(me.t, p, now);
    var c := p.channel;
    me.(t := t,
        delivered := me.delivered[c := DeliveredOn(me, c) + messages],
        kept := me.kept[c := if Keeps(me.t, p, now) then KeptOn(me, c) + {p.sequence} else KeptOn(me, c)])
  }

  /** File transfers are the only ones to discard, and they only discard file data. */
  ghost function Act(me: Side, a: Action): Side
    requires Inv(me.t)
  {
    match a
    case Enqueue(c, payload) => DoEnqueue(me, c, payload)
    case Transmit(now, accepted) => DoTransmit(me, now, accepted)
    case Take(p, now) => if ValidBody(p) then DoTake(me, p, now) else me
    case DropOutbound => me.(t := DiscardOutbound(me.t, FILE_DATA))
    case DropInbound => me.(t := DiscardInbound(me.t, FILE_DATA))
  }

  // ----- the invariant -----

  ghost predicate GoodChannel(x: Side, c: uint16) {
    && Numbered(QueuedOn(x, c))
    && |Stream(QueuedOn(x, c))| == ChannelOf(x.t, c).nextFragmentSequence
  }

  ghost predicate QueuedFragment(x: Side, f: Fragment) {
    Carries(QueuedOn(x, f.channel), f.sequence, f.index, f.count, f.payload)
  }

  /** A packet carries a fragment that was queued, and acknowledges only what was kept. */
  ghost predicate GoodPacket(x: Side, p: Packet) {
    && ValidBody(p)
    && Known(p.channel)
    && (!p.AckOnly() ==> Carries(QueuedOn(x, p.channel), p.sequence, p.index, p.count, p.payload))
    && forall q: uint64 :: AckContains(p.ackBase, p.ackBitmap, q) ==> q in KeptOn(x, p.channel)
  }

  ghost predicate GoodSide(x: Side) {
    && Inv(x.t)
    && (forall c: uint16 :: GoodChannel(x, c))
    && (forall f :: f in x.t.outbound ==> QueuedFragment(x, f))
    && (forall p :: p in x.sent ==> GoodPacket(x, p))
  }

  ghost predicate ReceivesOn(x: Side, y: Side, c: uint16) {
    ReceivingOn(c, QueuedOn(x, c), ChannelOf(y.t, c), DeliveredOn(y, c), KeptOn(y, c))
  }

  /** Side y receives what side x queued. */
  ghost predicate Receives(x: Side, y: Side) {
    forall c: uint16 :: ReceivesOn(x, y, c)
  }

  ghost predicate Waiting(t: Transport, c: uint16, n: uint64) {
    exists f :: f in t.outbound && f.channel == c && f.sequence == n
  }

  /** A fragment queued on an ordered channel is still waiting at the sender or was kept by the receiver. */
  ghost predicate Accounted(x: Side, y: Side, c: uint16, n: uint64) {
    Waiting(x.t, c, n) || n in KeptOn(y, c)
  }

  ghost predicate NothingLost(x: Side, y: Side) {
    forall c: uint16, n: uint64 :: Ordered(c) && 0 < n <= |Stream(QueuedOn(x, c))| ==> Accounted(x, y, c, n)
  }

  ghost predicate Linked(x: Side, y: Side) {
    GoodSide(x) && GoodSide(y) && Receives(x, y) && Receives(y, x) && NothingLost(x, y) && NothingLost(y, x)
  }

  lemma NewSidesLinked()
    ensures Linked(NEW_SIDE, NEW_SIDE)
  {
    InitialInv();
    TracksEmpty();
    forall c: uint16
      ensures ReceivesOn(NEW_SIDE, NEW_SIDE, c) && GoodChannel(NEW_SIDE, c)
    {
    }
  }

  // ----- queueing -----

  lemma NumberedMore(messages: seq<bytes>, payload: bytes)
    requires Numbered(messages) && 0 < |payload| <= MAX_RELIABLE_FRAGMENTS * MSS
    requires |Stream(messages)| + FragmentCount(|payload|) <= MAX_UINT64
    ensures Numbered(messages + [payload])
    ensures Stream(messages + [payload]) == Stream(messages) + Pieces(payload)
  {
    assert (messages + [payload])[..|messages|] == messages;
  }

  /** What the sending half of a transport looks like after a message has been queued. */
  lemma QueueEffect(t: Transport, c: uint16, payload: bytes)
    requires CanQueue(t, c, |payload|).None?
    ensures var n := FragmentCount(|payload|);
      var last := ChannelOf(t, c).nextFragmentSequence;
      && 0 < n <= MAX_RELIABLE_FRAGMENTS && last + n <= MAX_UINT64
      && ChannelOf(Queue(t, c, payload), c) == ChannelOf(t, c).(nextFragmentSequence := last + n)
      && (forall d :: d != c ==> ChannelOf(Queue(t, c, payload), d) == ChannelOf(t, d))
      && Queue(t, c, payload).outbound == t.outbound + FragmentsOf(c, last, payload)
  {
    FragmentCountFits(|payload|);
  }

  lemma EnqueueSide(me: Side, c: uint16, payload: bytes)
    requires GoodSide(me) && CanQueue(me.t, c, |payload|).None?
    ensures GoodSide(DoEnqueue(me, c, payload))
  {
    hide Inv, FragmentCount, Stream, Queue, Numbered, Part, ValidBody;
    var next := DoEnqueue(me, c, payload);
    QueueInv(me.t, c, payload);
    QueueEffect(me.t, c, payload);
    assert GoodChannel(me, c);
    NumberedMore(QueuedOn(me, c), payload);
    forall d: uint16
      ensures GoodChannel(next, d)
    {
      assert GoodChannel(me, d);
    }
    forall f | f in next.t.outbound
      ensures QueuedFragment(next, f)
    {
      if f in me.t.outbound {
        assert QueuedFragment(me, f);
        if f.channel == c {
          CarriesMore(QueuedOn(me, c), payload, f.sequence, f.index, f.count, f.payload);
        }
      } else {
        NewlyQueued(me, c, payload, f);
      }
    }
    forall p | p in next.sent
      ensures GoodPacket(next, p)
    {
      assert GoodPacket(me, p);
      if p.channel == c && !p.AckOnly() {
        CarriesMore(QueuedOn(me, c), payload, p.sequence, p.index, p.count, p.payload);
      }
    }
  }

  lemma NewlyQueued(me: Side, c: uint16, payload: bytes, f: Fragment)
    requires GoodChannel(me, c) && CanQueue(me.t, c, |payload|).None?
    requires FragmentCount(|payload|) <= MAX_RELIABLE_FRAGMENTS
    requires ChannelOf(me.t, c).nextFragmentSequence + FragmentCount(|payload|) <= MAX_UINT64
    requires f in FragmentsOf(c, ChannelOf(me.t, c).nextFragmentSequence, payload)
    ensures QueuedFragment(DoEnqueue(me, c, payload), f)
  {
    var messages := QueuedOn(me, c);
    assert (messages + [payload])[..|messages|] == messages;
    var fs := FragmentsOf(c, ChannelOf(me.t, c).nextFragmentSequence, payload);
    var i :| 0 <= i < |fs| && fs[i] == f;
    assert Stream(messages + [payload])[f.sequence - 1] == Pieces(payload)[i];
  }

  lemma EnqueueReceives(me: Side, peer: Side, c: uint16, payload: bytes)
    requires GoodSide(me) && GoodSide(peer) && Receives(me, peer) && Receives(peer, me)
    requires CanQueue(me.t, c, |payload|).None?
    ensures Receives(DoEnqueue(me, c, payload), peer) && Receives(peer, DoEnqueue(me, c, payload))
  {
    hide Inv, ReceivingOn, Queue, FragmentCount, Numbered;
    var next := DoEnqueue(me, c, payload);
    QueueEffect(me.t, c, payload);
    forall d: uint16
      ensures ReceivesOn(next, peer, d) && ReceivesOn(peer, next, d)
    {
      assert ReceivesOn(me, peer, d) && ReceivesOn(peer, me, d);
      SameReceiving(d, QueuedOn(peer, d), ChannelOf(me.t, d), ChannelOf(next.t, d), DeliveredOn(me, d), KeptOn(me, d));
      if d == c {
        MoreMessages(d, QueuedOn(me, d), payload, ChannelOf(peer.t, d), DeliveredOn(peer, d), KeptOn(peer, d));
      }
    }
  }

  /** Queueing more at one end does not disturb what the other end has received. */
  lemma MoreMessages(c: uint16, messages: seq<bytes>, payload: bytes, state: Channel, log: seq<Delivery>, kept: set<uint64>)
    requires ReceivingOn(c, messages, state, log, kept)
    ensures ReceivingOn(c, messages + [payload], state, log, kept)
  {
    hide Tracks, Carries, Retaining, FragmentCount;
    forall s, i | s in state.reassemblies && i in state.reassemblies[s].fragments
      ensures GoodPart(messages + [payload], kept, s, state.reassemblies[s], i)
    {
      var a := state.reassemblies[s];
      assert GoodPart(messages, kept, s, a, i);
      CarriesMore(messages, payload, s + i, i, a.count, a.fragments[i]);
    }
    if Ordered(c) {
      BeforeMore(messages, payload, |log|);
    } else {
      forall j | 0 <= j < |log|
        ensures SomeMessage(messages + [payload], kept, log[j])
      {
        assert SomeMessage(messages, kept, log[j]);
        var k :| IsMessage(messages, kept, log[j], k);
        BeforeMore(messages, payload, k);
        assert IsMessage(messages + [payload], kept, log[j], k);
      }
    }
  }

  lemma EnqueueLosesNothing(me: Side, peer: Side, c: uint16, payload: bytes)
    requires GoodSide(me) && NothingLost(me, peer) && NothingLost(peer, me)
    requires CanQueue(me.t, c, |payload|).None?
    ensures NothingLost(DoEnqueue(me, c, payload), peer) && NothingLost(peer, DoEnqueue(me, c, payload))
  {
    hide Inv, FragmentCount, Stream, Queue, Numbered, Part;
    var next := DoEnqueue(me, c, payload);
    QueueEffect(me.t, c, payload);
    assert GoodChannel(me, c);
    NumberedMore(QueuedOn(me, c), payload);
    var last := ChannelOf(me.t, c).nextFragmentSequence;
    var added := FragmentsOf(c, last, payload);
    forall d: uint16, n: uint64 | Ordered(d) && 0 < n <= |Stream(QueuedOn(next, d))|
      ensures Accounted(next, peer, d, n)
    {
      if d == c && n > last {
        assert added[n - last - 1] in next.t.outbound;
      } else {
        assert Accounted(me, peer, d, n);
        if Waiting(me.t, d, n) {
          var f :| f in me.t.outbound && f.channel == d && f.sequence == n;
          assert f in next.t.outbound;
        }
      }
    }
    forall d: uint16, n: uint64 | Ordered(d) && 0 < n <= |Stream(QueuedOn(peer, d))|
      ensures Accounted(peer, next, d, n)
    {
      assert Accounted(peer, me, d, n);
    }
  }

  // ----- sending -----

  /** Two transports that differ only in marks, flags, cursors and congestion state. */
  ghost predicate Remarked(t: Transport, u: Transport) {
    && SameContents(t.outbound, u.outbound)
    && forall c :: ChannelOf(u, c) == ChannelOf(t, c).(ackDirty := ChannelOf(u, c).ackDirty)
  }

  lemma MarkedContents(t: Transport, r: Reservation)
    ensures SameContents(t.outbound, Marked(t, r).outbound)
  {
    if r.Data? {
      FreezeSame(t.outbound, t.rto, r.now);
      TouchSame(BeforeTouch(t, r), r);
    }
  }

  lemma CommitRemarks(t: Transport, r: Reservation)
    requires Inv(t) && Live(t, r)
    ensures |t.ackChannels| > 0 && ReservedChannel(r) in t.channels
    ensures Remarked(t, Commit(t, r)) && Remarked(t, Reject(t, r))
  {
    hide SenderInv, ReceiverInv, CongestionInv, Commit, Reject, Marked, Known, Live;
    CommitFields(t, r);
    MarkedContents(t, r);
  }

  lemma RemarkedSide(me: Side, t: Transport, sent: set<Packet>)
    requires GoodSide(me) && Inv(t) && Remarked(me.t, t)
    requires forall p :: p in sent ==> GoodPacket(me, p)
    ensures GoodSide(me.(t := t, sent := sent))
  {
    hide Inv, Numbered, Stream, Carries, ValidBody;
    var next := me.(t := t, sent := sent);
    forall c: uint16
      ensures GoodChannel(next, c)
    {
      assert GoodChannel(me, c);
    }
    forall f | f in t.outbound
      ensures QueuedFragment(next, f)
    {
      var i :| 0 <= i < |t.outbound| && t.outbound[i] == f;
      assert QueuedFragment(me, me.t.outbound[i]);
    }
    forall p | p in next.sent
      ensures GoodPacket(next, p)
    {
      assert GoodPacket(me, p);
    }
  }

  lemma RemarkedLinks(me: Side, peer: Side, t: Transport, sent: set<Packet>)
    requires Receives(me, peer) && Receives(peer, me) && NothingLost(me, peer) && NothingLost(peer, me)
    requires Remarked(me.t, t)
    ensures var next := me.(t := t, sent := sent);
      Receives(next, peer) && Receives(peer, next) && NothingLost(next, peer) && NothingLost(peer, next)
  {
    hide Numbered, Stream, ReceivingOn;
    var next := me.(t := t, sent := sent);
    forall c: uint16
      ensures ReceivesOn(next, peer, c) && ReceivesOn(peer, next, c)
    {
      assert ReceivesOn(me, peer, c) && ReceivesOn(peer, me, c);
      SameReceiving(c, QueuedOn(peer, c), ChannelOf(me.t, c), ChannelOf(t, c), DeliveredOn(me, c), KeptOn(me, c));
    }
    forall c: uint16, n: uint64 | Ordered(c) && 0 < n <= |Stream(QueuedOn(next, c))|
      ensures Accounted(next, peer, c, n)
    {
      assert Accounted(me, peer, c, n);
      if Waiting(me.t, c, n) {
        var i :| 0 <= i < |me.t.outbound| && me.t.outbound[i].channel == c && me.t.outbound[i].sequence == n;
        assert t.outbound[i] in t.outbound;
      }
    }
    forall c: uint16, n: uint64 | Ordered(c) && 0 < n <= |Stream(QueuedOn(peer, c))|
      ensures Accounted(peer, next, c, n)
    {
      assert Accounted(peer, me, c, n);
    }
  }

  /** Every packet a transport offers passes the checks of the wire, carries a queued fragment, and
      acknowledges nothing that was not kept. */
  lemma OfferedPacket(me: Side, peer: Side, now: int)
    requires GoodSide(me) && Receives(peer, me) && NextSend(me.t, now).Some?
    ensures GoodPacket(me, NextSend(me.t, now).value.0)
  {
    NextSendLive(me.t, now);
    var (p, r) := NextSend(me.t, now).value;
    LiveChannel(me.t, r);
    hide NextSend, Numbered, Stream, Carries, Tracks, Eligible, ValidAck, AckContains;
    var c := ReservedChannel(r);
    assert ReceivesOn(peer, me, c);
    var received, kept := ChannelOf(me.t, c).received, KeptOn(me, c);
    TrackedAckIsValid(received, kept);
    assert p.channel == c && p.ackBase == received.highest && p.ackBitmap == received.seen;
    if r.Data? {
      assert QueuedFragment(me, r.fragment);
      assert GoodFragment(me.t.channels, r.fragment);
      assert GoodChannel(me, c);
    }
    KnownNonZero(c);
    forall q: uint64 | AckContains(p.ackBase, p.ackBitmap, q)
      ensures q in KeptOn(me, p.channel)
    {
      assert Has(received, q);
      TracksHas(received, kept, q);
    }
  }

  lemma KnownNonZero(c: uint16)
    requires Known(c)
    ensures c != 0
  {
  }

  lemma TransmitLinks(me: Side, peer: Side, now: int, accepted: bool)
    requires Linked(me, peer)
    ensures Linked(DoTransmit(me, now, accepted), peer)
  {
    hide Inv, Commit, Reject, Remarked, NextSend, Live, GoodPacket, Receives, NothingLost, Known;
    if NextSend(me.t, now).Some? {
      var (p, r) := NextSend(me.t, now).value;
      NextSendLive(me.t, now);
      CommitRemarks(me.t, r);
      CommitInv(me.t, r);
      RejectInv(me.t, r);
      OfferedPacket(me, peer, now);
      if accepted {
        RemarkedSide(me, Commit(me.t, r), me.sent + {p});
        RemarkedLinks(me, peer, Commit(me.t, r), me.sent + {p});
      } else {
        RemarkedSide(me, Reject(me.t, r), me.sent);
        RemarkedLinks(me, peer, Reject(me.t, r), me.sent);
      }
    }
  }

  // ----- receiving -----

  /** What consuming an acknowledgment does to the sending half. */
  lemma ConsumeAckEffect(t: Transport, p: Packet, now: int)
    requires Inv(t)
    ensures var u := ConsumeAck(t, p.channel, p.ackBase, p.ackBitmap, now);
      && Inv(u) && u.channels == t.channels
      && (forall f :: f in u.outbound ==> f in t.outbound)
      && (forall f :: f in t.outbound && f !in u.outbound ==>
            f.channel == p.channel && AckContains(p.ackBase, p.ackBitmap, f.sequence))
  {
    ConsumeAckInv(t, p.channel, p.ackBase, p.ackBitmap, now);
    if p.ackBase != 0 && p.ackBitmap != 0 {
      UnackedMembers(t.outbound, p.channel, p.ackBase, p.ackBitmap);
    }
  }

  lemma TakeReceives(me: Side, peer: Side, p: Packet, now: int)
    requires GoodSide(me) && GoodSide(peer) && Receives(peer, me) && GoodPacket(peer, p)
    requires ValidBody(p) && me.t.cwnd > 0
    ensures Receives(peer, DoTake(me, p, now))
    ensures var next := DoTake(me, p, now);
      && (forall f :: f in next.t.outbound ==> f in me.t.outbound)
      && (forall f :: f in me.t.outbound && f !in next.t.outbound ==> f.channel == p.channel && AckContains(p.ackBase, p.ackBitmap, f.sequence))
      && (forall c :: ChannelOf(next.t, c).nextFragmentSequence == ChannelOf(me.t, c).nextFragmentSequence)
      && (forall c :: KeptOn(me, c) <= KeptOn(next, c))
  {
    hide Inv, Numbered, Carries, ReceivingOn, ConsumeAck, ReceiveData, AckContains, ValidBody, Retains, MarkDirty;
    var next := DoTake(me, p, now);
    var c := p.channel;
    var t1 := ConsumeAck(me.t, c, p.ackBase, p.ackBitmap, now);
    ConsumeAckEffect(me.t, p, now);
    assert GoodChannel(peer, c);
    assert ReceivesOn(peer, me, c);
    assert DeliveredOn(me, c) + [] == DeliveredOn(me, c);
    if !p.AckOnly() {
      ReceiveDataReceives(t1, p, QueuedOn(peer, c), DeliveredOn(me, c), KeptOn(me, c));
    }
    forall d: uint16
      ensures ReceivesOn(peer, next, d)
    {
      assert ReceivesOn(peer, me, d);
    }
  }

  lemma TakeShape(me: Side, p: Packet, now: int)
    requires ValidBody(p) && me.t.cwnd > 0
    ensures var next := DoTake(me, p, now); next.t == Receive(me.t, p, now).0 && next.queued == me.queued && next.sent == me.sent
  {
    hide Receive, Keeps;
  }

  lemma TakeSide(me: Side, peer: Side, p: Packet, now: int)
    requires GoodSide(me) && GoodSide(peer) && Receives(peer, me) && GoodPacket(peer, p)
    ensures GoodSide(DoTake(me, p, now))
  {
    hide Inv, ReceivesOn, Receive, DoTake, ValidBody, GoodChannel, QueuedFragment, GoodPacket;
    PacketBody(me, peer, p);
    TakeReceives(me, peer, p, now);
    ReceiveInv(me.t, p, now);
    TakeShape(me, p, now);
    SameQueueing(me, DoTake(me, p, now));
  }

  lemma PacketBody(me: Side, peer: Side, p: Packet)
    requires GoodSide(me) && GoodPacket(peer, p)
    ensures ValidBody(p) && me.t.cwnd > 0
  {
  }

  /** An end that queued and sent the same, and kept no less, is as good. */
  lemma SameQueueing(me: Side, next: Side)
    requires GoodSide(me) && Inv(next.t) && next.queued == me.queued && next.sent == me.sent
    requires forall f :: f in next.t.outbound ==> f in me.t.outbound
    requires forall c :: ChannelOf(next.t, c).nextFragmentSequence == ChannelOf(me.t, c).nextFragmentSequence
    requires forall c :: KeptOn(me, c) <= KeptOn(next, c)
    ensures GoodSide(next)
  {
    hide Inv, Numbered, Stream, Carries, ValidBody, AckContains, ChannelOf;
    forall c: uint16
      ensures GoodChannel(next, c)
    {
      assert GoodChannel(me, c);
    }
    forall f | f in next.t.outbound
      ensures QueuedFragment(next, f)
    {
      assert QueuedFragment(me, f);
    }
    forall q | q in next.sent
      ensures GoodPacket(next, q)
    {
      assert GoodPacket(me, q);
    }
  }

  /** A fragment leaves the sender's queue only on an acknowledgment that names it, and whoever wrote that
      acknowledgment had kept the fragment. */
  lemma TakeLosesNothing(me: Side, peer: Side, p: Packet, now: int)
    requires GoodSide(me) && GoodSide(peer) && Receives(peer, me) && GoodPacket(peer, p)
    requires NothingLost(me, peer) && NothingLost(peer, me)
    ensures forall f :: f in me.t.outbound && f !in DoTake(me, p, now).t.outbound ==>
      f.channel == p.channel && AckContains(p.ackBase, p.ackBitmap, f.sequence) && f.sequence in KeptOn(peer, f.channel)
    ensures NothingLost(DoTake(me, p, now), peer) && NothingLost(peer, DoTake(me, p, now))
  {
    TakeReceives(me, peer, p, now);
    hide Inv, Numbered, Stream, Carries, Receive, ValidBody, AckContains, Keeps;
    var next := DoTake(me, p, now);
    forall c: uint16, n: uint64 | Ordered(c) && 0 < n <= |Stream(QueuedOn(next, c))|
      ensures Accounted(next, peer, c, n)
    {
      assert Accounted(me, peer, c, n);
      if Waiting(me.t, c, n) {
        var f :| f in me.t.outbound && f.channel == c && f.sequence == n;
        if f in next.t.outbound {
          assert Waiting(next.t, c, n);
        }
      }
    }
    forall c: uint16, n: uint64 | Ordered(c) && 0 < n <= |Stream(QueuedOn(peer, c))|
      ensures Accounted(peer, next, c, n)
    {
      assert Accounted(peer, me, c, n);
      assert KeptOn(me, c) <= KeptOn(next, c);
    }
  }

  lemma TakeLinks(me: Side, peer: Side, p: Packet, now: int)
    requires Linked(me, peer) && p in peer.sent
    ensures ValidBody(p) && Linked(DoTake(me, p, now), peer)
  {
    assert GoodPacket(peer, p);
    hide Inv, Receive, Keeps, ReceivingOn;
    TakeReceives(me, peer, p, now);
    TakeSide(me, peer, p, now);
    TakeLosesNothing(me, peer, p, now);
    var next := DoTake(me, p, now);
    forall c: uint16
      ensures ReceivesOn(next, peer, c)
    {
      assert ReceivesOn(me, peer, c);
    }
  }

  // ----- discarding file data -----

  /** Dropping file data touches neither the other channels' records nor any other queued fragment. */
  ghost predicate Dropped(t: Transport, u: Transport) {
    && Inv(u)
    && (forall c :: c != FILE_DATA ==> ChannelOf(u, c) == ChannelOf(t, c))
    && ChannelOf(u, FILE_DATA) == ChannelOf(t, FILE_DATA).(reassemblies := ChannelOf(u, FILE_DATA).reassemblies)
    && (ChannelOf(u, FILE_DATA).reassemblies == ChannelOf(t, FILE_DATA).reassemblies
        || ChannelOf(u, FILE_DATA).reassemblies == map[])
    && (forall f :: f in u.outbound ==> f in t.outbound)
    && (forall f :: f in t.outbound && f.channel != FILE_DATA ==> f in u.outbound)
  }

  lemma DropEffect(t: Transport)
    requires Inv(t)
    ensures Dropped(t, DiscardOutbound(t, FILE_DATA)) && Dropped(t, DiscardInbound(t, FILE_DATA))
  {
    hide Inv;
    DiscardOutboundInv(t, FILE_DATA);
    WithoutMembers(t.outbound, FILE_DATA);
    DiscardInboundInv(t, FILE_DATA);
  }

  lemma FewerAssemblies(c: uint16, messages: seq<bytes>, state: Channel, log: seq<Delivery>, kept: set<uint64>)
    requires ReceivingOn(c, messages, state, log, kept) && !Ordered(c)
    ensures ReceivingOn(c, messages, state.(reassemblies := map[]), log, kept)
  {
  }

  lemma DropSide(me: Side, t: Transport)
    requires GoodSide(me) && Dropped(me.t, t)
    ensures GoodSide(me.(t := t))
  {
    hide Inv, Numbered, Stream, Carries, ValidBody, AckContains;
    var next := me.(t := t);
    forall c: uint16
      ensures GoodChannel(next, c)
    {
      assert GoodChannel(me, c);
    }
    forall f | f in next.t.outbound
      ensures QueuedFragment(next, f)
    {
      assert QueuedFragment(me, f);
    }
    forall q | q in next.sent
      ensures GoodPacket(next, q)
    {
      assert GoodPacket(me, q);
    }
  }

  lemma DropReceives(me: Side, peer: Side, t: Transport)
    requires Receives(me, peer) && Receives(peer, me) && Dropped(me.t, t)
    ensures Receives(me.(t := t), peer) && Receives(peer, me.(t := t))
  {
    hide Inv, ReceivingOn;
    var next := me.(t := t);
    forall c: uint16
      ensures ReceivesOn(next, peer, c) && ReceivesOn(peer, next, c)
    {
      assert ReceivesOn(me, peer, c) && ReceivesOn(peer, me, c);
      if c == FILE_DATA {
        FewerAssemblies(c, QueuedOn(peer, c), ChannelOf(me.t, c), DeliveredOn(me, c), KeptOn(me, c));
      }
    }
  }

  lemma DropLosesNothing(me: Side, peer: Side, t: Transport)
    requires NothingLost(me, peer) && NothingLost(peer, me) && Dropped(me.t, t)
    ensures NothingLost(me.(t := t), peer) && NothingLost(peer, me.(t := t))
  {
    hide Inv, Stream;
    var next := me.(t := t);
    forall c: uint16, n: uint64 | Ordered(c) && 0 < n <= |Stream(QueuedOn(next, c))|
      ensures Accounted(next, peer, c, n)
    {
      assert Accounted(me, peer, c, n);
      if Waiting(me.t, c, n) {
        var f :| f in me.t.outbound && f.channel == c && f.sequence == n;
        assert f in next.t.outbound;
      }
    }
    forall c: uint16, n: uint64 | Ordered(c) && 0 < n <= |Stream(QueuedOn(peer, c))|
      ensures Accounted(peer, next, c, n)
    {
      assert Accounted(peer, me, c, n);
    }
  }

  lemma DropLinks(me: Side, peer: Side, t: Transport)
    requires Linked(me, peer) && Dropped(me.t, t)
    ensures Linked(me.(t := t), peer)
  {
    hide Receives, NothingLost, GoodSide, Dropped;
    DropSide(me, t);
    DropReceives(me, peer, t);
    DropLosesNothing(me, peer, t);
  }

  // ----- whole runs -----

  /** A step of the session: which end acts, and how. A packet taken must have been sent by the other end. */
  datatype Step = Step(first: bool, action: Action)

  ghost predicate Enabled(peer: Side, a: Action) {
    a.Take? ==> a.packet in peer.sent
  }

  lemma ActLinks(me: Side, peer: Side, a: Action)
    requires Linked(me, peer) && Enabled(peer, a)
    ensures Linked(Act(me, a), peer)
  {
    match a
    case Enqueue(c, payload) =>
      if CanQueue(me.t, c, |payload|).None? {
        EnqueueSide(me, c, payload);
        EnqueueReceives(me, peer, c, payload);
        EnqueueLosesNothing(me, peer, c, payload);
      }
    case Transmit(now, accepted) => TransmitLinks(me, peer, now, accepted);
    case Take(p, now) => TakeLinks(me, peer, p, now);
    case DropOutbound =>
      DropEffect(me.t);
      DropLinks(me, peer, DiscardOutbound(me.t, FILE_DATA));
    case DropInbound =>
      DropEffect(me.t);
      DropLinks(me, peer, DiscardInbound(me.t, FILE_DATA));
  }

  datatype Pair = Pair(a: Side, b: Side)

  ghost predicate Steps(w: Pair, step: Step, next: Pair) {
    if step.first then
      Inv(w.a.t) && Enabled(w.b, step.action) && next == Pair(Act(w.a, step.action), w.b)
    else
      Inv(w.b.t) && Enabled(w.a, step.action) && next == Pair(w.a, Act(w.b, step.action))
  }

  ghost predicate SessionRun(steps: seq<Step>, states: seq<Pair>) {
    && |states| == |steps| + 1
    && states[0] == Pair(NEW_SIDE, NEW_SIDE)
    && forall i :: 0 <= i < |steps| ==> Steps(states[i], steps[i], states[i + 1])
  }

  lemma LinkedBothWays(x: Side, y: Side)
    requires Linked(x, y)
    ensures Linked(y, x)
  {
  }

  lemma {:induction false} EveryStateLinked(steps: seq<Step>, states: seq<Pair>, k: nat)
    requires SessionRun(steps, states) && k < |states|
    ensures Linked(states[k].a, states[k].b)
  {
    hide Linked, Inv, Act, Enabled;
    if k == 0 {
      NewSidesLinked();
    } else {
      EveryStateLinked(steps, states, k - 1);
      var w, step := states[k - 1], steps[k - 1];
      assert Steps(w, step, states[k]);
      LinkedBothWays(w.a, w.b);
      if step.first {
        ActLinks(w.a, w.b, step.action);
      } else {
        ActLinks(w.b, w.a, step.action);
        LinkedBothWays(states[k].b, states[k].a);
      }
    }
  }

  /** The payloads of a delivery log. */
  function Payloads(log: seq<Delivery>): seq<bytes> {
    seq(|log|, i requires 0 <= i < |log| => log[i].payload)
  }

  /** In every state of every run, what an ordered channel has delivered is a prefix, byte for byte, of what
      was queued on it at the other end. */
  lemma OrderedDeliveryIsPrefix(steps: seq<Step>, states: seq<Pair>, k: nat, c: uint16)
    requires SessionRun(steps, states) && k < |states| && Ordered(c)
    ensures Payloads(DeliveredOn(states[k].b, c)) <= QueuedOn(states[k].a, c)
    ensures Payloads(DeliveredOn(states[k].a, c)) <= QueuedOn(states[k].b, c)
  {
    EveryStateLinked(steps, states, k);
    assert ReceivesOn(states[k].a, states[k].b, c) && ReceivesOn(states[k].b, states[k].a, c);
  }

  /** Which queued message each delivery is. */
  ghost predicate Matching(queued: seq<bytes>, log: seq<Delivery>, which: seq<nat>) {
    && |which| == |log|
    && (forall i :: 0 <= i < |log| ==> which[i] < |queued| && log[i].payload == queued[which[i]])
    && (forall i, j :: 0 <= i < j < |log| ==> which[i] != which[j])
  }

  lemma {:induction false} OnceEachMatches(queued: seq<bytes>, log: seq<Delivery>, kept: set<uint64>, n: nat) returns (which: seq<nat>)
    requires OnceEach(queued, log, kept) && n <= |log|
    ensures |which| == n
    ensures forall i :: 0 <= i < n ==> IsMessage(queued, kept, log[i], which[i])
  {
    which := [];
    if n > 0 {
      which := OnceEachMatches(queued, log, kept, n - 1);
      assert SomeMessage(queued, kept, log[n - 1]);
      var k :| IsMessage(queued, kept, log[n - 1], k);
      which := which + [k];
    }
  }

  /** In every state of every run, what the file-data channel has delivered are different queued messages,
      each byte for byte: no message arrives twice, in part, or mixed with another. */
  lemma UnorderedDeliveryIsOnceEach(steps: seq<Step>, states: seq<Pair>, k: nat)
    requires SessionRun(steps, states) && k < |states|
    ensures exists which :: Matching(QueuedOn(states[k].a, FILE_DATA), DeliveredOn(states[k].b, FILE_DATA), which)
    ensures exists which :: Matching(QueuedOn(states[k].b, FILE_DATA), DeliveredOn(states[k].a, FILE_DATA), which)
  {
    EveryStateLinked(steps, states, k);
    var a, b := states[k].a, states[k].b;
    assert ReceivesOn(a, b, FILE_DATA) && ReceivesOn(b, a, FILE_DATA);
    var atB := OnceEachMatches(QueuedOn(a, FILE_DATA), DeliveredOn(b, FILE_DATA), KeptOn(b, FILE_DATA), |DeliveredOn(b, FILE_DATA)|);
    var atA := OnceEachMatches(QueuedOn(b, FILE_DATA), DeliveredOn(a, FILE_DATA), KeptOn(a, FILE_DATA), |DeliveredOn(a, FILE_DATA)|);
    assert Matching(QueuedOn(a, FILE_DATA), DeliveredOn(b, FILE_DATA), atB);
    assert Matching(QueuedOn(b, FILE_DATA), DeliveredOn(a, FILE_DATA), atA);
  }

  /** Number `n` of what x queued on an ordered channel is still waiting at x, or is retained in an assembly at y, or lies
      in a message that y has delivered. */
  ghost predicate NotLost(x: Side, y: Side, c: uint16, n: uint64) {
    || Waiting(x.t, c, n)
    || Retaining(ChannelOf(y.t, c), n)
    || (|DeliveredOn(y, c)| <= |QueuedOn(x, c)| && n <= Before(QueuedOn(x, c), |DeliveredOn(y, c)|))
  }

  /** In every state of every run no fragment ever queued on an ordered channel is lost, in either direction. */
  lemma NoFragmentIsLost(steps: seq<Step>, states: seq<Pair>, k: nat, c: uint16, n: uint64)
    requires SessionRun(steps, states) && k < |states| && Ordered(c) && n > 0
    ensures n <= |Stream(QueuedOn(states[k].a, c))| ==> NotLost(states[k].a, states[k].b, c, n)
    ensures n <= |Stream(QueuedOn(states[k].b, c))| ==> NotLost(states[k].b, states[k].a, c, n)
  {
    EveryStateLinked(steps, states, k);
    var x, y := states[k].a, states[k].b;
    hide SessionRun, Inv, GoodSide, Tracks, GoodParts;
    assert ReceivesOn(x, y, c) && ReceivesOn(y, x, c);
    assert n <= |Stream(QueuedOn(x, c))| ==> Accounted(x, y, c, n);
    assert n <= |Stream(QueuedOn(y, c))| ==> Accounted(y, x, c, n);
  }

  /** Every packet either end ever hands to the network passes the checks applied on both ends of the wire. */
  lemma EverySentPacketIsValid(steps: seq<Step>, states: seq<Pair>, k: nat, p: Packet)
    requires SessionRun(steps, states) && k < |states|
    requires p in states[k].a.sent || p in states[k].b.sent
    ensures ValidBody(p) && DecodeBody(EncodeBody(p)) == Decoded(p)
  {
    EveryStateLinked(steps, states, k);
    assert p in states[k].a.sent ==> GoodPacket(states[k].a, p);
    assert p in states[k].b.sent ==> GoodPacket(states[k].b, p);
    BodyRoundTrip(p);
  }
}
