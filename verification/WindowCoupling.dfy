/** How the sender's 64-fragment limit fits the receiver's 64-entry window. */
module WindowCoupling {
  import opened Options
  import opened Bytes
  import opened Words
  import opened SequenceWindows
  import opened ReliablePackets
  import opened Transports
  import opened Accounting
  import opened MessageStreams
  import opened ReliableDelivery
  import opened SessionRuns

  /** What `OldestTransmitted` computes: zero when nothing was transmitted, else the least transmitted number. */
  lemma {:induction false} OldestFacts(fs: seq<Fragment>, c: uint16)
    requires forall f :: f in fs ==> f.sequence > 0
    ensures forall f :: f in fs && f.channel == c && f.transmissions != 0 ==> 0 < OldestTransmitted(fs, c) <= f.sequence
    ensures OldestTransmitted(fs, c) != 0 ==>
      exists f :: f in fs && f.channel == c && f.transmissions != 0 && f.sequence == OldestTransmitted(fs, c)
  {
    if fs != [] {
      var front, last := fs[..|fs| - 1], fs[|fs| - 1];
      assert fs == front + [last];
      OldestFacts(front, c);
      var oldest := OldestTransmitted(fs, c);
      if oldest != 0 {
        if last.transmissions != 0 && last.channel == c && oldest == last.sequence {
          assert last in fs;
        } else {
          var f :| f in front && f.channel == c && f.transmissions != 0 && f.sequence == OldestTransmitted(front, c);
          assert f in fs;
        }
      }
    }
  }

  ghost predicate DataOf(p: Packet, c: uint16) {
    !p.AckOnly() && p.channel == c
  }

  /** No fragment on the wire is 64 or more ahead of one that was sent and still waits for its acknowledgment. */
  ghost predicate Close(p: Packet, f: Fragment) {
    DataOf(p, f.channel) && f.transmissions != 0 ==> p.sequence - f.sequence < 64
  }

  ghost predicate SentBefore(x: Side, f: Fragment) {
    exists p :: p in x.sent && DataOf(p, f.channel) && p.sequence == f.sequence
  }

  ghost predicate CameFrom(x: Side, c: uint16, q: uint64) {
    exists p :: p in x.sent && DataOf(p, c) && p.sequence == q
  }

  ghost predicate Coupled(x: Side, y: Side) {
    && (forall p, f :: p in x.sent && f in x.t.outbound ==> Close(p, f))
    && (forall f :: f in x.t.outbound && f.transmissions != 0 ==> SentBefore(x, f))
    && (forall c: uint16, q :: q in KeptOn(y, c) ==> CameFrom(x, c, q))
  }

  /** Some number already sent on the channel is 64 or more ahead of this fragment. */
  ghost predicate Late(x: Side, f: Fragment) {
    exists p :: p in x.sent && DataOf(p, f.channel) && p.sequence - f.sequence >= 64
  }

  /** The one thing the choice of fragments does not guarantee by itself: a fragment goes out for the first time while
      every number already sent on its channel is less than 64 ahead of it. */
  ghost predicate FirstInTime(x: Side, a: Action) {
    a.Transmit? && a.accepted && NextSend(x.t, a.now).Some? ==>
      var r := NextSend(x.t, a.now).value.1;
      r.Data? && r.kind == New ==> !Late(x, r.fragment)
  }

  lemma FirstTransmissionIsClose(x: Side, f: Fragment, now: int, g: Fragment)
    requires GoodSide(x) && f in x.t.outbound && Eligible(x.t, New, f, now)
    requires g in x.t.outbound && g.channel == f.channel && g.transmissions != 0
    ensures f.sequence - g.sequence < 64
  {
    hide Numbered, Carries, ReceiverInv, CongestionInv, ChannelInv, GoodPacket, QueuedFragment;
    forall h | h in x.t.outbound
      ensures h.sequence > 0
    {
      assert GoodFragment(x.t.channels, h);
    }
    OldestFacts(x.t.outbound, f.channel);
    var oldest := OldestTransmitted(x.t.outbound, f.channel);
    if oldest <= f.sequence {
      SmallMod(f.sequence - oldest);
    }
  }

  lemma SmallMod(x: int)
    requires 0 <= x < WORD_SIZE
    ensures x % WORD_SIZE == x
  {
  }

  lemma TransmitCoupled(me: Side, peer: Side, now: int, accepted: bool)
    requires Linked(me, peer) && Coupled(me, peer) && Coupled(peer, me)
    requires FirstInTime(me, Transmit(now, accepted))
    ensures Coupled(DoTransmit(me, now, accepted), peer) && Coupled(peer, DoTransmit(me, now, accepted))
  {
    hide NextAck, NextPacket, Eligible, GoodSide, Receives, NothingLost, Marked;
    if NextSend(me.t, now).Some? {
      var (p, r) := NextSend(me.t, now).value;
      NextSendLive(me.t, now);
      if accepted {
        if r.Data? {
          DataCoupled(me, peer, now);
        } else {
          AckCoupled(me, peer, now);
        }
      }
    }
  }

  lemma AckCoupled(me: Side, peer: Side, now: int)
    requires Linked(me, peer) && Coupled(me, peer) && Coupled(peer, me)
    requires NextSend(me.t, now).Some? && NextSend(me.t, now).value.1.Ack?
    ensures Coupled(DoTransmit(me, now, true), peer) && Coupled(peer, DoTransmit(me, now, true))
  {
    AckEffect(me, now);
    hide Linked, Inv, NextSend, Known, Live, DoTransmit;
    var next := DoTransmit(me, now, true);
    forall f | f in next.t.outbound && f.transmissions != 0
      ensures SentBefore(next, f)
    {
      assert SentBefore(me, f);
    }
    MoreSent(me, next, peer);
    forall c: uint16, q | q in KeptOn(next, c)
      ensures CameFrom(peer, c, q)
    {
      assert q in KeptOn(me, c);
    }
  }

  /** Sending an acknowledgment leaves the fragments alone. */
  lemma AckEffect(me: Side, now: int)
    requires Inv(me.t) && NextSend(me.t, now).Some? && NextSend(me.t, now).value.1.Ack?
    ensures var next := DoTransmit(me, now, true);
      && next.t.outbound == me.t.outbound && next.kept == me.kept && next.sent == me.sent + {NextSend(me.t, now).value.0}
      && NextSend(me.t, now).value.0.sequence == 0
  {
    NextSendLive(me.t, now);
    hide Known;
  }

  lemma MoreSent(me: Side, next: Side, peer: Side)
    requires me.sent <= next.sent
    requires forall c: uint16, q :: q in KeptOn(peer, c) ==> CameFrom(me, c, q)
    ensures forall c: uint16, q :: q in KeptOn(peer, c) ==> CameFrom(next, c, q)
  {
    forall c: uint16, q | q in KeptOn(peer, c)
      ensures CameFrom(next, c, q)
    {
      assert CameFrom(me, c, q);
      var p :| p in me.sent && DataOf(p, c) && p.sequence == q;
      assert p in next.sent;
    }
  }

  /** Each fragment after a data packet goes out is the fragment before, with new marks. */
  lemma MarkedFragment(t: Transport, r: Reservation, g: Fragment) returns (f: Fragment)
    requires Inv(t) && Live(t, r) && r.Data? && g in Marked(t, r).outbound
    ensures f in t.outbound && Same(f, g)
    ensures if Same(f, r.fragment) then f == r.fragment && g.transmissions != 0
            else g.transmissions == f.transmissions
  {
    var u := Marked(t, r);
    FreezeSame(t.outbound, t.rto, r.now);
    var before := BeforeTouch(t, r);
    assert u.outbound == Touch(before, r);
    var i :| 0 <= i < |u.outbound| && u.outbound[i] == g;
    f := t.outbound[i];
    assert before[i].transmissions == f.transmissions;
    if Same(f, r.fragment) {
      OnlyOne(t.outbound, i, r.fragment);
    }
  }

  lemma ReservedIsClose(me: Side, r: Reservation, g: Fragment)
    requires GoodSide(me) && Live(me.t, r) && r.Data? && g in me.t.outbound && g.channel == r.fragment.channel
    requires forall p, h :: p in me.sent && h in me.t.outbound ==> Close(p, h)
    requires forall h :: h in me.t.outbound && h.transmissions != 0 ==> SentBefore(me, h)
    ensures g.transmissions != 0 || Same(g, r.fragment) ==> r.fragment.sequence - g.sequence < 64
  {
    hide Numbered, Carries, ReceiverInv, CongestionInv, ChannelInv, GoodPacket, QueuedFragment, GoodFragment;
    var f := r.fragment;
    if Same(g, f) {
    } else if r.kind == New {
      if g.transmissions != 0 {
        FirstTransmissionIsClose(me, f, r.now, g);
      }
    } else {
      assert SentBefore(me, f);
      var p :| p in me.sent && DataOf(p, f.channel) && p.sequence == f.sequence;
      assert Close(p, g);
    }
  }

  /** What the next lemmas need of a side about to send a fragment. */
  ghost predicate Sending(me: Side, now: int) {
    && GoodSide(me) && FirstInTime(me, Transmit(now, true))
    && NextSend(me.t, now).Some? && NextSend(me.t, now).value.1.Data?
    && (forall p, f :: p in me.sent && f in me.t.outbound ==> Close(p, f))
    && (forall f :: f in me.t.outbound && f.transmissions != 0 ==> SentBefore(me, f))
  }

  lemma DataClose(me: Side, now: int, q: Packet, g: Fragment)
    requires Sending(me, now)
    requires q in DoTransmit(me, now, true).sent && g in DoTransmit(me, now, true).t.outbound
    ensures Close(q, g)
  {
    NextSendLive(me.t, now);
    DataLive(me, now);
    hide NextSend, Known, Live, Marked, DoTransmit, GoodFragment, ChannelInv, ReceiverInv, CongestionInv, SenderInv;
    var (p, r) := NextSend(me.t, now).value;
    var f := MarkedFragment(me.t, r, g);
    if f.channel == r.fragment.channel {
      ReservedIsClose(me, r, f);
    }
    if q in me.sent {
      assert Close(q, f);
    }
  }

  lemma DataSentBefore(me: Side, now: int, g: Fragment)
    requires Sending(me, now)
    requires g in DoTransmit(me, now, true).t.outbound && g.transmissions != 0
    ensures SentBefore(DoTransmit(me, now, true), g)
  {
    NextSendLive(me.t, now);
    DataLive(me, now);
    hide NextSend, Known, Live, Marked, DoTransmit, GoodFragment, ChannelInv, ReceiverInv, CongestionInv, SenderInv, Close;
    var (p, r) := NextSend(me.t, now).value;
    var next := DoTransmit(me, now, true);
    var f := MarkedFragment(me.t, r, g);
    if Same(f, r.fragment) {
      assert p in next.sent;
    } else {
      assert SentBefore(me, f);
      var q :| q in me.sent && DataOf(q, f.channel) && q.sequence == f.sequence;
      assert q in next.sent;
    }
  }

  lemma DataCoupled(me: Side, peer: Side, now: int)
    requires Linked(me, peer) && Coupled(me, peer) && Coupled(peer, me)
    requires FirstInTime(me, Transmit(now, true))
    requires NextSend(me.t, now).Some? && NextSend(me.t, now).value.1.Data?
    ensures Coupled(DoTransmit(me, now, true), peer) && Coupled(peer, DoTransmit(me, now, true))
  {
    DataLive(me, now);
    var next := DoTransmit(me, now, true);
    assert next.kept == me.kept;
    hide Inv, NextSend, GoodSide, DoTransmit, Receives, NothingLost, SentBefore, Close, FirstInTime;
    forall q, g | q in next.sent && g in next.t.outbound
      ensures Close(q, g)
    {
      DataClose(me, now, q, g);
    }
    forall g | g in next.t.outbound && g.transmissions != 0
      ensures SentBefore(next, g)
    {
      DataSentBefore(me, now, g);
    }
    MoreSent(me, next, peer);
    forall c: uint16, q | q in KeptOn(next, c)
      ensures CameFrom(peer, c, q)
    {
      assert q in KeptOn(me, c);
    }
  }

  /** The facts about a data reservation that the proof above uses. */
  lemma DataLive(me: Side, now: int)
    requires GoodSide(me) && NextSend(me.t, now).Some? && NextSend(me.t, now).value.1.Data?
    ensures var (p, r) := NextSend(me.t, now).value;
      && Live(me.t, r)
      && p == PacketFor(me.t, r.fragment) && p.sequence > 0
      && DoTransmit(me, now, true).t.outbound == Marked(me.t, r).outbound
      && DoTransmit(me, now, true).sent == me.sent + {p}
  {
    NextSendLive(me.t, now);
    var (p, r) := NextSend(me.t, now).value;
    assert GoodFragment(me.t.channels, r.fragment);
  }

  lemma EnqueueCoupled(me: Side, peer: Side, c: uint16, payload: bytes)
    requires Linked(me, peer) && Coupled(me, peer) && Coupled(peer, me)
    requires CanQueue(me.t, c, |payload|).None?
    ensures Coupled(DoEnqueue(me, c, payload), peer) && Coupled(peer, DoEnqueue(me, c, payload))
  {
    hide Inv, Numbered, Receives, NothingLost, Queue, FragmentCount, Stream, QueuedFragment, ValidBody, AckContains;
    var next := DoEnqueue(me, c, payload);
    QueueEffect(me.t, c, payload);
    assert GoodChannel(me, c);
    forall p, f | p in next.sent && f in next.t.outbound
      ensures Close(p, f)
    {
      if f in me.t.outbound {
        assert Close(p, f);
      } else {
        assert GoodPacket(me, p);
      }
    }
    forall f | f in next.t.outbound && f.transmissions != 0
      ensures SentBefore(next, f)
    {
      assert SentBefore(me, f);
    }
    forall d: uint16, q | q in KeptOn(peer, d)
      ensures CameFrom(next, d, q)
    {
      assert CameFrom(me, d, q);
    }
    forall d: uint16, q | q in KeptOn(next, d)
      ensures CameFrom(peer, d, q)
    {
      assert q in KeptOn(me, d);
    }
  }

  lemma TakeCoupled(me: Side, peer: Side, p: Packet, now: int)
    requires Linked(me, peer) && Coupled(me, peer) && Coupled(peer, me) && p in peer.sent
    ensures ValidBody(p) && me.t.cwnd > 0
    ensures Coupled(DoTake(me, p, now), peer) && Coupled(peer, DoTake(me, p, now))
  {
    assert GoodPacket(peer, p);
    TakeReceives(me, peer, p, now);
    hide Linked, Receive, AckContains, GoodPacket, ReceivesOn;
    var next := DoTake(me, p, now);
    forall f | f in next.t.outbound && f.transmissions != 0
      ensures SentBefore(next, f)
    {
      assert SentBefore(me, f);
    }
    forall d: uint16, q | q in KeptOn(peer, d)
      ensures CameFrom(next, d, q)
    {
      assert CameFrom(me, d, q);
    }
    forall d: uint16, q | q in KeptOn(next, d)
      ensures CameFrom(peer, d, q)
    {
      if q !in KeptOn(me, d) {
        assert DataOf(p, d);
      }
    }
  }

  lemma DropCoupled(me: Side, peer: Side, t: Transport)
    requires Coupled(me, peer) && Coupled(peer, me) && Dropped(me.t, t)
    ensures Coupled(me.(t := t), peer) && Coupled(peer, me.(t := t))
  {
    hide Inv;
    var next := me.(t := t);
    forall f | f in next.t.outbound && f.transmissions != 0
      ensures SentBefore(next, f)
    {
      assert SentBefore(me, f);
    }
    forall d: uint16, q | q in KeptOn(peer, d)
      ensures CameFrom(next, d, q)
    {
      assert CameFrom(me, d, q);
    }
    forall d: uint16, q | q in KeptOn(next, d)
      ensures CameFrom(peer, d, q)
    {
      assert q in KeptOn(me, d);
    }
  }

  lemma ActCoupled(me: Side, peer: Side, a: Action)
    requires Linked(me, peer) && Coupled(me, peer) && Coupled(peer, me)
    requires Enabled(peer, a) && FirstInTime(me, a)
    ensures Coupled(Act(me, a), peer) && Coupled(peer, Act(me, a))
  {
    match a
    case Enqueue(c, payload) =>
      if CanQueue(me.t, c, |payload|).None? {
        EnqueueCoupled(me, peer, c, payload);
      }
    case Transmit(now, accepted) => TransmitCoupled(me, peer, now, accepted);
    case Take(p, now) => TakeCoupled(me, peer, p, now);
    case DropOutbound =>
      DropEffect(me.t);
      DropCoupled(me, peer, DiscardOutbound(me.t, FILE_DATA));
    case DropInbound =>
      DropEffect(me.t);
      DropCoupled(me, peer, DiscardInbound(me.t, FILE_DATA));
  }

  ghost predicate InTimeRun(steps: seq<Step>, states: seq<Pair>) {
    && SessionRun(steps, states)
    && forall i :: 0 <= i < |steps| ==>
         FirstInTime(if steps[i].first then states[i].a else states[i].b, steps[i].action)
  }

  lemma NewSidesCoupled()
    ensures Coupled(NEW_SIDE, NEW_SIDE)
  {
  }

  lemma {:induction false} EveryStateCoupled(steps: seq<Step>, states: seq<Pair>, k: nat)
    requires InTimeRun(steps, states) && k < |states|
    ensures Coupled(states[k].a, states[k].b) && Coupled(states[k].b, states[k].a)
  {
    hide Linked, Coupled, Inv, Act, FirstInTime;
    if k == 0 {
      NewSidesCoupled();
    } else {
      EveryStateCoupled(steps, states, k - 1);
      EveryStateLinked(steps, states, k - 1);
      var w, step := states[k - 1], steps[k - 1];
      assert Steps(w, step, states[k]);
      LinkedBothWays(w.a, w.b);
      if step.first {
        ActCoupled(w.a, w.b, step.action);
      } else {
        ActCoupled(w.b, w.a, step.action);
      }
    }
  }

  /** While first transmissions stay in time, no transmitted fragment is ever stranded: as long as it waits
      for an acknowledgment, the receiver's window would still take it or already reports it as received. */
  lemma TransmittedStaysInWindow(steps: seq<Step>, states: seq<Pair>, k: nat, f: Fragment)
    requires InTimeRun(steps, states) && k < |states|
    requires f in states[k].a.t.outbound && f.transmissions != 0
    ensures var w := ChannelOf(states[k].b.t, f.channel).received;
      Takes(w, f.sequence) || Has(w, f.sequence)
  {
    EveryStateCoupled(steps, states, k);
    EveryStateLinked(steps, states, k);
    var x, y := states[k].a, states[k].b;
    var w, kept := ChannelOf(y.t, f.channel).received, KeptOn(y, f.channel);
    assert GoodFragment(x.t.channels, f);
    assert ReceivesOn(x, y, f.channel);
    hide Linked, SessionRun, Offer, AckContains;
    AcceptTracks(w, kept, f.sequence);
    TracksHas(w, kept, f.sequence);
    if w.highest != 0 {
      assert CameFrom(x, f.channel, w.highest);
      var p :| p in x.sent && DataOf(p, f.channel) && p.sequence == w.highest;
      assert Close(p, f);
    }
  }

  // ----- what comes of being late -----

  ghost predicate Stranded(x: Side, y: Side, c: uint16, n: uint64) {
    && (exists g :: g in x.t.outbound && g.channel == c && g.sequence == n && g.transmissions != 0)
    && var w := ChannelOf(y.t, c).received; !Takes(w, n) && !Has(w, n)
  }

  /** The next packet would send a fragment for the first time although packet `p` is 64 or more ahead of it. */
  ghost predicate SendsLate(x: Side, now: int, p: Packet) {
    NextSend(x.t, now).Some? &&
      var r := NextSend(x.t, now).value.1;
      && r.Data? && r.kind == New
      && p in x.sent && DataOf(p, r.fragment.channel) && p.sequence - r.fragment.sequence >= 64
  }

  /** The fragment a new reservation names goes out and waits. */
  lemma NewWaits(x: Side, now: int)
    requires Inv(x.t) && NextSend(x.t, now).Some?
    requires var r := NextSend(x.t, now).value.1; r.Data? && r.kind == New
    ensures var f := NextSend(x.t, now).value.1.fragment;
      exists g :: g in DoTransmit(x, now, true).t.outbound && g.channel == f.channel && g.sequence == f.sequence && g.transmissions != 0
  {
    hide NextSend, Eligible, ChannelInv, ReceiverInv, CongestionInv;
    NextSendLive(x.t, now);
    var r := NextSend(x.t, now).value.1;
    var i :| 0 <= i < |x.t.outbound| && x.t.outbound[i] == r.fragment;
    var u := DoTransmit(x, now, true).t;
    assert u.outbound == Touch(x.t.outbound, r);
    assert u.outbound[i] == Sent(r.fragment, New, r.now);
    assert u.outbound[i] in u.outbound;
  }

  /** A number kept puts every number 64 or more behind it out of the window. */
  lemma KeptAhead(x: Side, y: Side, c: uint16, ahead: uint64, n: uint64)
    requires ReceivesOn(x, y, c) && ahead in KeptOn(y, c) && ahead - n >= 64
    ensures var w := ChannelOf(y.t, c).received; !Takes(w, n) && !Has(w, n)
  {
    hide Offer, AckContains;
    AcceptTracks(ChannelOf(y.t, c).received, KeptOn(y, c), n);
    TracksHas(ChannelOf(y.t, c).received, KeptOn(y, c), n);
  }

  /** A first transmission that is late, while the receiver keeps the packet 64 or more ahead of it, strands its
      fragment: it waits for an acknowledgment that no window will give. */
  lemma LateIsStranded(steps: seq<Step>, states: seq<Pair>, now: int, p: Packet, later: int)
    requires SessionRun(steps, states)
    requires SendsLate(states[|steps|].a, now, p)
    requires ValidBody(p) && states[|steps|].b.t.cwnd > 0
    requires p.sequence in KeptOn(states[|steps|].b, p.channel) || Keeps(states[|steps|].b.t, p, later)
    ensures Inv(states[|steps|].a.t)
    ensures var x, y := states[|steps|].a, states[|steps|].b;
      var u, v := DoTransmit(x, now, true), DoTake(y, p, later);
      && SessionRun(steps + [Step(true, Transmit(now, true)), Step(false, Take(p, later))], states + [Pair(u, y), Pair(u, v)])
      && Stranded(u, v, p.channel, NextSend(x.t, now).value.1.fragment.sequence)
  {
    hide Linked, NextSend, DoTransmit, DoTake, Keeps, Receive, ReceivingOn, Inv;
    EveryStateLinked(steps, states, |steps|);
    var x, y := states[|steps|].a, states[|steps|].b;
    LinkedParts(x, y);
    var u, v := DoTransmit(x, now, true), DoTake(y, p, later);
    var run := steps + [Step(true, Transmit(now, true)), Step(false, Take(p, later))];
    var all := states + [Pair(u, y), Pair(u, v)];
    SentStays(x, now);
    TakeLinks(y, x, p, later);
    LinkedParts(v, x);
    forall i | 0 <= i < |run|
      ensures Steps(all[i], run[i], all[i + 1])
    {
      if i < |steps| {
        assert Steps(states[i], steps[i], states[i + 1]);
      }
    }
    NewWaits(x, now);
    assert ReceivesOn(x, v, p.channel);
    TakeKeeps(y, p, later);
    KeptAhead(x, v, p.channel, p.sequence, NextSend(x.t, now).value.1.fragment.sequence);
  }

  lemma SentStays(x: Side, now: int)
    requires Inv(x.t)
    ensures x.sent <= DoTransmit(x, now, true).sent
  {
    hide Inv, NextSend;
  }

  lemma TakeKeeps(y: Side, p: Packet, later: int)
    requires ValidBody(p) && y.t.cwnd > 0
    requires p.sequence in KeptOn(y, p.channel) || Keeps(y.t, p, later)
    ensures p.sequence in KeptOn(DoTake(y, p, later), p.channel)
  {
    hide Keeps, Receive;
  }

  lemma LinkedParts(x: Side, y: Side)
    requires Linked(x, y)
    ensures Inv(x.t) && Inv(y.t) && Receives(x, y) && Receives(y, x) && Linked(y, x)
  {
    hide Inv, ReceivesOn;
  }
}
