/** When a fragment goes out before an earlier one of its channel, and what becomes of the earlier one. */
module Overtaking {
  import opened Options
  import opened Bytes
  import opened Words
  import opened SequenceWindows
  import opened ReliablePackets
  import opened Transports
  import opened Accounting
  import opened SessionRuns
  import opened WindowCoupling

  /** A fragment goes out for the first time only after every earlier fragment of its channel. */
  ghost predicate FirstInOrder(x: Side, a: Action) {
    a.Transmit? && a.accepted && NextSend(x.t, a.now).Some? ==>
      var r := NextSend(x.t, a.now).value.1;
      r.Data? && r.kind == New ==>
        forall g :: g in x.t.outbound && g.channel == r.fragment.channel && g.sequence < r.fragment.sequence ==>
          g.transmissions != 0
  }

  /** The first fragment of the channel that was never sent. */
  ghost predicate FirstUnsent(t: Transport, c: uint16, g: Fragment) {
    && g in t.outbound && g.channel == c && g.transmissions == 0
    && forall h :: h in t.outbound && h.channel == c && h.transmissions == 0 ==> g.sequence <= h.sequence
  }

  /** The first unsent fragment of the channel passes the two guards: it fits what the congestion window leaves, and it
      is neither behind nor 64 ahead of the oldest one in flight. */
  ghost predicate FirstPasses(t: Transport, c: uint16, now: int) {
    forall g :: FirstUnsent(t, c, g) ==> Eligible(t, New, g, now)
  }

  /** `FirstEligible` finds the eligible fragment with the lowest sequence number. */
  lemma {:induction false} LowestEligible(t: Transport, kind: Kind, c: uint16, now: int, from: nat)
    requires Increasing(t.outbound) && from <= |t.outbound|
    ensures var r := FirstEligible(t, kind, c, now, from);
      r.Some? ==> forall i :: from <= i < |t.outbound| && t.outbound[i].channel == c && Eligible(t, kind, t.outbound[i], now) ==>
        r.value.sequence <= t.outbound[i].sequence
    decreases |t.outbound| - from
  {
    hide Eligible;
    if from < |t.outbound| {
      LowestEligible(t, kind, c, now, from + 1);
    }
  }

  lemma {:induction false} FoundIsLowest(t: Transport, now: int, offset: nat)
    requires Increasing(t.outbound) && offset <= |t.ackChannels|
    ensures match NextFragmentFrom(t, New, now, offset)
      case Some((f, index)) => forall g :: g in t.outbound && g.channel == f.channel && Eligible(t, New, g, now) ==> f.sequence <= g.sequence
      case None => true
    decreases |t.ackChannels| - offset
  {
    hide Eligible;
    if offset < |t.ackChannels| {
      var c := t.ackChannels[Slot(t.dataCursor, offset, |t.ackChannels|)];
      LowestEligible(t, New, c, now, 0);
      FirstEligibleFacts(t, New, c, now, 0);
      FoundIsLowest(t, now, offset + 1);
    }
  }

  /** A fragment sent for the first time overtakes no earlier one exactly when the first unsent fragment of its channel
      passes the guards itself. */
  lemma InOrderIffFirstPasses(x: Side, now: int)
    requires Inv(x.t) && NextSend(x.t, now).Some?
    requires var r := NextSend(x.t, now).value.1; r.Data? && r.kind == New
    ensures FirstInOrder(x, Transmit(now, true)) <==> FirstPasses(x.t, NextSend(x.t, now).value.1.fragment.channel, now)
  {
    hide Eligible, NextSend, NextFragmentFrom;
    var f := NextSend(x.t, now).value.1.fragment;
    ChosenIsLowest(x.t, now);
    EligibleIsUnsent(x.t, f, now);
    if FirstInOrder(x, Transmit(now, true)) {
      forall g | FirstUnsent(x.t, f.channel, g)
        ensures Eligible(x.t, New, g, now)
      {
        SameFragment(x.t.outbound, f, g);
      }
    }
    if FirstPasses(x.t, f.channel, now) {
      var g := EarliestUnsent(x.t.outbound, f);
      assert FirstUnsent(x.t, f.channel, g);
      assert f.sequence <= g.sequence;
    }
  }

  lemma ChosenIsLowest(t: Transport, now: int)
    requires Inv(t) && NextSend(t, now).Some?
    requires var r := NextSend(t, now).value.1; r.Data? && r.kind == New
    ensures var f := NextSend(t, now).value.1.fragment;
      && f in t.outbound && Eligible(t, New, f, now)
      && forall g :: g in t.outbound && g.channel == f.channel && Eligible(t, New, g, now) ==> f.sequence <= g.sequence
  {
    hide Eligible, NextFragmentFrom, NextAckFrom;
    NextAckFacts(t, 0);
    NextFragmentFacts(t, Retransmit, now, 0);
    NextFragmentFacts(t, New, now, 0);
    FoundIsLowest(t, now, 0);
  }

  lemma EligibleIsUnsent(t: Transport, f: Fragment, now: int)
    requires Eligible(t, New, f, now)
    ensures f.transmissions == 0
  {
  }

  lemma SameFragment(fs: seq<Fragment>, f: Fragment, g: Fragment)
    requires Increasing(fs) && f in fs && g in fs && f.channel == g.channel
    ensures f.sequence == g.sequence ==> f == g
  {
    var i :| 0 <= i < |fs| && fs[i] == f;
    var j :| 0 <= j < |fs| && fs[j] == g;
  }

  lemma {:induction false} EarliestUnsent(fs: seq<Fragment>, f: Fragment) returns (g: Fragment)
    requires f in fs && f.transmissions == 0
    ensures g in fs && g.channel == f.channel && g.transmissions == 0
    ensures forall h :: h in fs && h.channel == f.channel && h.transmissions == 0 ==> g.sequence <= h.sequence
  {
    var front, last := fs[..|fs| - 1], fs[|fs| - 1];
    assert fs == front + [last];
    if f in front {
      g := EarliestUnsent(front, f);
      if last.channel == f.channel && last.transmissions == 0 && last.sequence < g.sequence {
        g := last;
      }
    } else if h :| h in front && h.channel == f.channel && h.transmissions == 0 {
      g := EarliestUnsent(front, h);
      if last.sequence < g.sequence {
        g := last;
      }
    } else {
      g := last;
    }
  }

  /** A fragment never sent that is behind the oldest one in flight on its channel: the difference of the guard wraps, so
      it is blocked however open the congestion window is, unless it is almost 2^64 behind. */
  lemma BehindIsBlocked(t: Transport, g: Fragment, now: int)
    requires g.transmissions == 0 && 0 < g.sequence < OldestTransmitted(t.outbound, g.channel)
    ensures Eligible(t, New, g, now) <==>
      && t.bytesInFlight + |g.payload| <= t.cwnd
      && OldestTransmitted(t.outbound, g.channel) - g.sequence > WORD_SIZE - 64
  {
    var behind := OldestTransmitted(t.outbound, g.channel) - g.sequence;
    assert WrapSub(g.sequence, OldestTransmitted(t.outbound, g.channel)) == (WORD_SIZE - behind) % WORD_SIZE;
    SmallMod(WORD_SIZE - behind);
  }

  /** Nothing was overtaken so far: what was never sent comes after everything in flight on its channel. */
  ghost predicate NothingOvertaken(t: Transport) {
    forall f, g :: f in t.outbound && g in t.outbound && f.channel == g.channel && f.transmissions != 0 && g.transmissions == 0 ==>
      f.sequence < g.sequence
  }

  /** As long as nothing was overtaken, room for a whole fragment in the congestion window keeps the order. */
  lemma RoomKeepsOrder(x: Side, now: int)
    requires Inv(x.t) && x.t.bytesInFlight + MSS <= x.t.cwnd && NothingOvertaken(x.t)
    ensures FirstInOrder(x, Transmit(now, true))
  {
    if NextSend(x.t, now).Some? && NextSend(x.t, now).value.1.Data? && NextSend(x.t, now).value.1.kind == New {
      hide NextSend;
      InOrderIffFirstPasses(x, now);
      ChosenIsLowest(x.t, now);
      var f := NextSend(x.t, now).value.1.fragment;
      forall g | FirstUnsent(x.t, f.channel, g)
        ensures Eligible(x.t, New, g, now)
      {
        FirstIsNear(x.t, f, g, now);
      }
    }
  }

  lemma FirstIsNear(t: Transport, f: Fragment, g: Fragment, now: int)
    requires Inv(t) && t.bytesInFlight + MSS <= t.cwnd && NothingOvertaken(t)
    requires f in t.outbound && Eligible(t, New, f, now) && FirstUnsent(t, f.channel, g)
    ensures Eligible(t, New, g, now)
  {
    hide CongestionInv, ChannelInv, ReceiverInv;
    assert GoodFragment(t.channels, g) && GoodFragment(t.channels, f);
    forall h | h in t.outbound
      ensures h.sequence > 0
    {
      assert GoodFragment(t.channels, h);
    }
    OldestFacts(t.outbound, f.channel);
    var oldest := OldestTransmitted(t.outbound, f.channel);
    if oldest != 0 {
      assert oldest < g.sequence;
      SmallMod(g.sequence - oldest);
      SmallMod(f.sequence - oldest);
    }
  }
}
