/** Timeout waves and turn taking in the choice of what to send next. */
module SendSchedules {
  import opened Options
  import opened Bytes
  import opened Words
  import opened ReliablePackets
  import opened Transports
  import opened Accounting

  // ----- one backoff for everything that expires at one instant -----

  /** Every fragment expired at this instant belongs to a timeout wave already accounted for. */
  ghost predicate AllFrozen(t: Transport, now: int) {
    forall f :: f in t.outbound && Expired(f, t.rto, now) ==> f.timeoutPending
  }

  /** Sending a fragment at this instant, or raising the timeout, expires nothing. */
  lemma MarkedStaysFrozen(t: Transport, r: Reservation)
    requires Inv(t) && Live(t, r)
    requires AllFrozen(t, if r.Data? then r.now else 0) || (r.Data? && r.kind == Retransmit && !r.fragment.timeoutPending)
    ensures r.Data? ==> AllFrozen(Marked(t, r), r.now)
  {
    if r.Data? {
      var u := Marked(t, r);
      assert u.outbound == Touch(BeforeTouch(t, r), r);
      forall g | g in u.outbound && Expired(g, u.rto, r.now)
        ensures g.timeoutPending
      {
        var i :| 0 <= i < |u.outbound| && u.outbound[i] == g;
        var before := BeforeTouch(t, r)[i];
        if !Same(before, r.fragment) {
          assert g == before;
          assert t.outbound[i] in t.outbound;
        }
      }
    }
  }

  /** The transport after one more send at instant `now`. */
  ghost function SendAt(t: Transport, now: int, accepted: bool): Transport
    requires Inv(t)
  {
    Apply(t, SendOp(now, accepted))
  }

  /** This send retransmits a fragment that no earlier wave had frozen. */
  ghost predicate BacksOff(t: Transport, now: int, accepted: bool) {
    && accepted
    && NextSend(t, now).Some?
    && var r := NextSend(t, now).value.1;
       r.Data? && r.kind == Retransmit && !r.fragment.timeoutPending
  }

  ghost predicate SameCongestion(t: Transport, u: Transport) {
    u.cwnd == t.cwnd && u.ssthresh == t.ssthresh && u.rto == t.rto
  }

  ghost predicate BackedOffOnce(t: Transport, u: Transport) {
    && u.cwnd == MINIMUM_CWND
    && u.ssthresh == Max(t.cwnd / 2, MINIMUM_CWND)
    && u.rto == Min(2 * t.rto, MAXIMUM_RTO)
  }

  lemma MarkedCongestion(t: Transport, r: Reservation)
    ensures if r.Data? && r.kind == Retransmit && !r.fragment.timeoutPending then BackedOffOnce(t, Marked(t, r))
            else SameCongestion(t, Marked(t, r))
  {
  }

  /** A live reservation at an instant where everything expired is frozen is not a fresh timeout. */
  lemma FrozenIsPending(t: Transport, r: Reservation)
    requires Live(t, r) && r.Data? && r.kind == Retransmit && AllFrozen(t, r.now)
    ensures r.fragment.timeoutPending
  {
  }

  lemma OneSend(t: Transport, now: int, accepted: bool)
    requires Inv(t)
    ensures var u := SendAt(t, now, accepted);
      && Inv(u)
      && (if BacksOff(t, now, accepted) then BackedOffOnce(t, u) && AllFrozen(u, now) else SameCongestion(t, u))
      && (AllFrozen(t, now) ==> !BacksOff(t, now, accepted) && AllFrozen(u, now))
  {
    ApplyInv(t, SendOp(now, accepted));
    hide ReceiverInv, SenderInv, CongestionInv, Commit, Reject, Marked, NextSend, Live;
    if NextSend(t, now).Some? {
      var r := NextSend(t, now).value.1;
      NextSendLive(t, now);
      ReservedAt(t, now);
      CommitFields(t, r);
      MarkedCongestion(t, r);
      if r.Data? && (AllFrozen(t, now) || (r.kind == Retransmit && !r.fragment.timeoutPending)) {
        MarkedStaysFrozen(t, r);
        if AllFrozen(t, now) && r.kind == Retransmit {
          FrozenIsPending(t, r);
        }
      }
    }
  }

  lemma ReservedAt(t: Transport, now: int)
    requires NextSend(t, now).Some?
    ensures NextSend(t, now).value.1.Data? ==> NextSend(t, now).value.1.now == now
  {
    NextAckFacts(t, 0);
  }

  /** How often a series of sends at one instant backs off. */
  ghost function Backoffs(t: Transport, now: int, accepted: seq<bool>): nat
    requires Inv(t)
    decreases |accepted|
  {
    if accepted == [] then 0
    else
      OneSend(t, now, accepted[0]);
      (if BacksOff(t, now, accepted[0]) then 1 else 0) + Backoffs(SendAt(t, now, accepted[0]), now, accepted[1..])
  }

  ghost function AfterSends(t: Transport, now: int, accepted: seq<bool>): Transport
    requires Inv(t)
    decreases |accepted|
  {
    if accepted == [] then t
    else
      OneSend(t, now, accepted[0]);
      AfterSends(SendAt(t, now, accepted[0]), now, accepted[1..])
  }

  /** However many fragments have expired at an instant, and however many of them are sent again, in whatever
      order and with whatever failures: they halve the window and double the timeout once, or not at all when
      an earlier wave had already frozen them. */
  lemma {:induction false} OneBackoffPerInstant(t: Transport, now: int, accepted: seq<bool>)
    requires Inv(t)
    ensures Backoffs(t, now, accepted) <= if AllFrozen(t, now) then 0 else 1
    ensures var u := AfterSends(t, now, accepted);
      if Backoffs(t, now, accepted) == 0 then SameCongestion(t, u) else BackedOffOnce(t, u)
    ensures Backoffs(t, now, accepted) == 1 <==> exists i :: FreshTimeout(t, now, accepted, i)
    decreases |accepted|
  {
    hide Inv, AllFrozen, BacksOff, SendAt, FreshTimeout;
    if accepted != [] {
      OneSend(t, now, accepted[0]);
      OneBackoffPerInstant(SendAt(t, now, accepted[0]), now, accepted[1..]);
      FreshTimeoutLater(t, now, accepted);
    } else {
      NoFreshTimeout(t, now);
    }
  }

  /** Send number `i` of the series is accepted and retransmits a fragment that is not frozen when its turn comes. */
  ghost predicate FreshTimeout(t: Transport, now: int, accepted: seq<bool>, i: int)
    requires Inv(t)
  {
    0 <= i < |accepted| && BacksOff(AfterSends(t, now, accepted[..i]), now, accepted[i])
  }

  lemma NoFreshTimeout(t: Transport, now: int)
    requires Inv(t)
    ensures forall i :: !FreshTimeout(t, now, [], i)
  {
  }

  /** The first send, or one of the series after it. */
  lemma FreshTimeoutLater(t: Transport, now: int, accepted: seq<bool>)
    requires Inv(t) && accepted != []
    ensures Inv(SendAt(t, now, accepted[0]))
    ensures (exists i :: FreshTimeout(t, now, accepted, i))
      <==> BacksOff(t, now, accepted[0]) || exists i :: FreshTimeout(SendAt(t, now, accepted[0]), now, accepted[1..], i)
  {
    hide Inv, BacksOff, SendAt, AllFrozen;
    OneSend(t, now, accepted[0]);
    var u := SendAt(t, now, accepted[0]);
    assert accepted[..0] == [];
    assert FreshTimeout(t, now, accepted, 0) <==> BacksOff(t, now, accepted[0]);
    forall i: int | 0 <= i < |accepted| - 1
      ensures FreshTimeout(t, now, accepted, i + 1) <==> FreshTimeout(u, now, accepted[1..], i)
    {
      assert accepted[..i + 1][1..] == accepted[1..][..i];
      assert accepted[..i + 1][0] == accepted[0];
    }
    if i :| FreshTimeout(t, now, accepted, i) {
      assert i > 0 ==> FreshTimeout(u, now, accepted[1..], i - 1);
    }
    if i :| FreshTimeout(u, now, accepted[1..], i) {
      assert FreshTimeout(t, now, accepted, i + 1);
    }
  }

  // ----- turns -----

  /** Channel `c` has a fragment to send again. */
  ghost predicate Retransmittable(t: Transport, c: uint16, now: int) {
    exists f :: f in t.outbound && f.channel == c && Eligible(t, Retransmit, f, now)
  }

  /** How many turns after the cursor position `pos` comes up. */
  function Gap(cursor: nat, pos: nat, n: nat): (gap: nat)
    requires cursor < n && pos < n
    ensures gap < n
  {
    if pos >= cursor then pos - cursor else pos + n - cursor
  }

  lemma SlotValue(cursor: nat, offset: nat, n: nat)
    requires cursor < n && offset <= n
    ensures Slot(cursor, offset, n) == if cursor + offset < n then cursor + offset else cursor + offset - n
  {
    var x := cursor + offset;
    var q, r := x / n, x % n;
    assert x == q * n + r;
    if q >= 2 {
      Scale(2, q, n);
      assert false;
    }
    assert q == 0 || q == 1;
  }

  lemma Scale(a: nat, b: nat, n: nat)
    requires a <= b
    ensures a * n <= b * n
  {
  }

  lemma SlotAfterGap(cursor: nat, pos: nat, n: nat)
    requires cursor < n && pos < n
    ensures Slot(cursor, Gap(cursor, pos, n), n) == pos
  {
    SlotValue(cursor, Gap(cursor, pos, n), n);
  }

  /** Moving the cursor past a slot that comes before `pos` brings `pos` closer. */
  lemma Closer(cursor: nat, offset: nat, pos: nat, n: nat)
    requires cursor < n && pos < n && offset < Gap(cursor, pos, n)
    ensures Gap(Slot(Slot(cursor, offset, n), 1, n), pos, n) < Gap(cursor, pos, n)
  {
    SlotValue(cursor, offset, n);
    SlotValue(Slot(cursor, offset, n), 1, n);
  }

  /** The search stops no later than at a channel that has something to offer. */
  lemma {:induction false} SearchStops(t: Transport, kind: Kind, now: int, offset: nat, target: nat)
    requires offset <= target < |t.ackChannels|
    requires FirstEligible(t, kind, t.ackChannels[Slot(t.dataCursor, target, |t.ackChannels|)], now, 0).Some?
    ensures NextFragmentFrom(t, kind, now, offset).Some?
    ensures exists o ::
      offset <= o <= target && NextFragmentFrom(t, kind, now, offset).value.1 == Slot(t.dataCursor, o, |t.ackChannels|)
    decreases target - offset
  {
    var here := Slot(t.dataCursor, offset, |t.ackChannels|);
    if FirstEligible(t, kind, t.ackChannels[here], now, 0).None? {
      SearchStops(t, kind, now, offset + 1, target);
    }
  }

  lemma {:induction false} FirstEligibleExists(t: Transport, kind: Kind, c: uint16, now: int, from: nat, i: nat)
    requires from <= i < |t.outbound| && t.outbound[i].channel == c && Eligible(t, kind, t.outbound[i], now)
    ensures FirstEligible(t, kind, c, now, from).Some?
    decreases i - from
  {
    if from < i {
      FirstEligibleExists(t, kind, c, now, from + 1, i);
    }
  }

  /** A reservation of data that passes over a retransmittable channel brings that channel's turn closer. */
  lemma PassedOver(t: Transport, c: uint16, pos: nat, now: int, accepted: bool)
    requires Inv(t) && pos < |t.ackChannels| && t.ackChannels[pos] == c
    requires Retransmittable(t, c, now)
    requires NextSend(t, now).Some? && NextSend(t, now).value.1.Data?
    requires NextSend(t, now).value.1.fragment.channel != c
    ensures var u := SendAt(t, now, accepted);
      && u.ackChannels == t.ackChannels
      && t.dataCursor < |t.ackChannels| && u.dataCursor < |t.ackChannels|
      && Gap(u.dataCursor, pos, |t.ackChannels|) < Gap(t.dataCursor, pos, |t.ackChannels|)
  {
    hide SenderInv, ReceiverInv, CongestionInv, Known, Eligible, Gap, Slot;
    var n := |t.ackChannels|;
    var gap := Gap(t.dataCursor, pos, n);
    var r := NextSend(t, now).value.1;
    NextSendLive(t, now);
    LiveChannel(t, r);
    SlotAfterGap(t.dataCursor, pos, n);
    var i :| 0 <= i < |t.outbound| && t.outbound[i].channel == c && Eligible(t, Retransmit, t.outbound[i], now);
    FirstEligibleExists(t, Retransmit, c, now, 0, i);
    SearchStops(t, Retransmit, now, 0, gap);
    var o :| 0 <= o <= gap && NextFragment(t, Retransmit, now).value.1 == Slot(t.dataCursor, o, n);
    ChosenIndex(t, now);
    assert o != gap;
    Closer(t.dataCursor, o, pos, n);
  }

  /** When something can be retransmitted, a data reservation is for the fragment the round robin finds. */
  lemma ChosenIndex(t: Transport, now: int)
    requires NextFragment(t, Retransmit, now).Some?
    requires NextSend(t, now).Some? && NextSend(t, now).value.1.Data?
    ensures NextSend(t, now).value.1.dataIndex == NextFragment(t, Retransmit, now).value.1
    ensures NextSend(t, now).value.1.fragment == NextFragment(t, Retransmit, now).value.0
  {
    NextAckFacts(t, 0);
  }

  ghost predicate ReservesData(t: Transport, op: Op) {
    op.SendOp? && NextSend(t, op.now).Some? && NextSend(t, op.now).value.1.Data?
  }

  /** Nothing but a data reservation moves the data cursor. */
  lemma CursorStays(t: Transport, op: Op)
    requires Inv(t) && !ReservesData(t, op)
    ensures Apply(t, op).dataCursor == t.dataCursor
  {
    match op
    case QueueOp(c, payload) =>
    case SendOp(now, accepted) =>
    case ReceiveOp(p, now) =>
      if ValidBody(p) {
        ReceiveKeepsCursor(t, p, now);
      }
    case DiscardOutboundOp(c) =>
    case DiscardInboundOp(c) =>
  }

  lemma ReceiveKeepsCursor(t: Transport, p: Packet, now: int)
    requires Inv(t) && ValidBody(p)
    ensures Receive(t, p, now).0.dataCursor == t.dataCursor
  {
    CwndIsPositive(t);
    hide Inv, ConsumeAck, Store, DeliverOrdered, ValidBody, Retains, MarkDirty;
    AckKeepsCursor(t, p.channel, p.ackBase, p.ackBitmap, now);
    var t1 := ConsumeAck(t, p.channel, p.ackBase, p.ackBitmap, now);
    if Known(p.channel) && !p.AckOnly() {
      DataKeepsCursor(t1, p);
    }
  }

  lemma CwndIsPositive(t: Transport)
    requires Inv(t)
    ensures t.cwnd > 0
  {
  }

  lemma DataKeepsCursor(t: Transport, p: Packet)
    requires ValidBody(p) && !p.AckOnly()
    ensures ReceiveData(t, p).0.dataCursor == t.dataCursor
  {
    hide Store, DeliverOrdered, ValidBody, Retains, MarkDirty, Assembled;
    StoreKeepsCursor(t, p);
    var t1 := MarkDirty(t, p.channel);
    if Retains(t1, p) {
      DeliverKeepsCursor(Store(t1, p), p.channel);
    }
  }

  lemma AckKeepsCursor(t: Transport, c: uint16, base: uint64, bitmap: uint64, now: int)
    requires Inv(t)
    ensures ConsumeAck(t, c, base, bitmap, now).dataCursor == t.dataCursor
  {
    hide SenderInv, ReceiverInv, ChannelInv, Unacked, PayloadBytes, Absorb, Grow;
    AbsorbFacts(t, t.outbound, c, base, bitmap, now);
  }

  lemma StoreKeepsCursor(t: Transport, p: Packet)
    ensures MarkDirty(t, p.channel).dataCursor == t.dataCursor && p.channel in MarkDirty(t, p.channel).channels
    ensures ValidBody(p) && !p.AckOnly() && Retains(MarkDirty(t, p.channel), p) ==>
      Store(MarkDirty(t, p.channel), p).dataCursor == t.dataCursor
  {
    hide Retains, Assembled, ValidBody;
  }

  lemma {:induction false} DeliverKeepsCursor(t: Transport, c: uint16)
    ensures DeliverOrdered(t, c).0.dataCursor == t.dataCursor
    decreases if c in t.channels then |t.channels[c].reassemblies| else 0
  {
    hide Assembled;
    if HeadReady(t, c) && !Wraps(t, c) {
      DeliverKeepsCursor(DeliverHead(t, c).0, c);
    }
  }

  /** A stretch of a run in which channel `c` always has a fragment to send again but is never reserved. */
  ghost predicate Starved(ops: seq<Op>, states: seq<Transport>, c: uint16) {
    && |states| == |ops| + 1
    && (forall i :: 0 <= i < |states| ==> Inv(states[i]) && states[i].ackChannels == states[0].ackChannels)
    && forall i :: 0 <= i < |ops| ==>
         && states[i + 1] == Apply(states[i], ops[i])
         && (ReservesData(states[i], ops[i]) ==>
               && Retransmittable(states[i], c, ops[i].now)
               && NextSend(states[i], ops[i].now).value.1.fragment.channel != c)
  }

  /** The data reservations of a stretch. */
  ghost function DataReservations(ops: seq<Op>, states: seq<Transport>): nat
    requires |states| == |ops| + 1
  {
    if ops == [] then 0
    else
      DataReservations(ops[..|ops| - 1], states[..|ops|])
      + if ReservesData(states[|ops| - 1], ops[|ops| - 1]) then 1 else 0
  }

  lemma CursorInRange(t: Transport, pos: nat)
    requires Inv(t) && pos < |t.ackChannels|
    ensures t.dataCursor < |t.ackChannels|
  {
  }

  lemma {:induction false} TurnApproaches(ops: seq<Op>, states: seq<Transport>, c: uint16, pos: nat)
    requires Starved(ops, states, c)
    requires pos < |states[0].ackChannels| && states[0].ackChannels[pos] == c
    ensures states[0].dataCursor < |states[0].ackChannels| && states[|ops|].dataCursor < |states[0].ackChannels|
    ensures DataReservations(ops, states) + Gap(states[|ops|].dataCursor, pos, |states[0].ackChannels|)
         <= Gap(states[0].dataCursor, pos, |states[0].ackChannels|)
  {
    CursorInRange(states[0], pos);
    CursorInRange(states[|ops|], pos);
    hide Inv, Apply, NextSend, Retransmittable, Gap, ReservesData;
    if ops != [] {
      var k := |ops| - 1;
      StarvedPrefix(ops, states, c);
      TurnApproaches(ops[..k], states[..k + 1], c, pos);
      if ReservesData(states[k], ops[k]) {
        StarvedStep(states[k], ops[k], states[k + 1], c, pos);
      } else {
        CursorStays(states[k], ops[k]);
      }
    }
  }

  lemma StarvedPrefix(ops: seq<Op>, states: seq<Transport>, c: uint16)
    requires Starved(ops, states, c) && ops != []
    ensures var k := |ops| - 1; Starved(ops[..k], states[..k + 1], c) && states[..k + 1] == states[..|ops|]
  {
    hide Inv, Apply, NextSend, Retransmittable, ReservesData;
  }

  lemma StarvedStep(t: Transport, op: Op, u: Transport, c: uint16, pos: nat)
    requires Inv(t) && u == Apply(t, op) && ReservesData(t, op)
    requires Retransmittable(t, c, op.now) && NextSend(t, op.now).value.1.fragment.channel != c
    requires pos < |t.ackChannels| && t.ackChannels[pos] == c && u.ackChannels == t.ackChannels
    requires t.dataCursor < |t.ackChannels| && u.dataCursor < |t.ackChannels|
    ensures Gap(u.dataCursor, pos, |t.ackChannels|) + 1 <= Gap(t.dataCursor, pos, |t.ackChannels|)
  {
    hide Inv, NextSend, Retransmittable, Gap;
    PassedOver(t, c, pos, op.now, op.accepted);
    assert SendAt(t, op.now, op.accepted) == u;
  }

  /** With a fixed set of n channels, a channel that keeps having a fragment to send again is reserved within
      n data reservations, whatever else is queued, received, accepted or refused in between. */
  lemma ReservedWithinOneRound(ops: seq<Op>, states: seq<Transport>, c: uint16)
    requires |states| > 0 && c in states[0].ackChannels
    requires Starved(ops, states, c)
    ensures DataReservations(ops, states) < |states[0].ackChannels|
  {
    var pos :| 0 <= pos < |states[0].ackChannels| && states[0].ackChannels[pos] == c;
    TurnApproaches(ops, states, c, pos);
  }
}
