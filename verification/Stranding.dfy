/** A number that the receiver's window has left behind: its message is never delivered. */
module Stranding {
  import opened Options
  import opened Bytes
  import opened Words
  import opened SequenceWindows
  import opened ReliablePackets
  import opened Transports
  import opened Accounting
  import opened MessageStreams
  import opened ReliableDelivery
  import opened SessionRuns

  /** A number not kept that lies 64 or more behind the highest kept. */
  ghost predicate LeftBehind(y: Side, c: uint16, n: uint64) {
    n !in KeptOn(y, c) && ChannelOf(y.t, c).received.highest - n >= 64
  }

  function End(w: Pair, first: bool): Side {
    if first then w.a else w.b
  }

  /** Once 64 behind the highest number accepted, a number is never accepted again, whatever else arrives. */
  lemma {:induction false} NeverTakenAgain(w: Window, accepted: set<uint64>, s: uint64, offers: seq<uint64>)
    requires Tracks(w, accepted) && w.highest - s >= 64
    ensures s !in Taken(w, offers)
    decreases |offers|
  {
    if offers != [] {
      AcceptTracks(w, accepted, offers[0]);
      var next := Offer(w, offers[0]).0;
      HighestGrows(w, accepted, offers[0]);
      NeverTakenAgain(next, if Takes(w, offers[0]) then accepted + {offers[0]} else accepted, s, offers[1..]);
    }
  }

  lemma HighestGrows(w: Window, accepted: set<uint64>, q: uint64)
    requires Tracks(w, accepted)
    ensures w.highest <= Offer(w, q).0.highest
  {
  }

  /** What is kept was taken by the window. */
  lemma KeepsTakes(y: Side, p: Packet, now: int)
    requires Inv(y.t) && ValidBody(p) && y.t.cwnd > 0 && Keeps(y.t, p, now)
    ensures Takes(ChannelOf(y.t, p.channel).received, p.sequence)
  {
    hide Inv, ConsumeAck, Takes;
    ConsumeAckInv(y.t, p.channel, p.ackBase, p.ackBitmap, now);
  }

  /** The numbers kept by an end grow by at most the number taken. */
  lemma KeptGrows(y: Side, a: Action, c: uint16)
    requires Inv(y.t)
    ensures KeptOn(y, c) <= KeptOn(Act(y, a), c)
    ensures forall q :: q in KeptOn(Act(y, a), c) && q !in KeptOn(y, c) ==>
      a.Take? && ValidBody(a.packet) && a.packet.channel == c && a.packet.sequence == q && Keeps(y.t, a.packet, a.now)
  {
    hide NextSend, Keeps, Receive, ValidBody, Queue, DiscardOutbound, DiscardInbound, CanQueue;
  }

  lemma StaysBehind(x: Side, y: Side, a: Action, c: uint16, n: uint64)
    requires Linked(x, y) && Linked(x, Act(y, a)) && LeftBehind(y, c, n)
    ensures LeftBehind(Act(y, a), c, n)
  {
    hide Inv, Act, Keeps, Receives, NothingLost, Offer;
    var z := Act(y, a);
    TracksOf(x, y, c);
    TracksOf(x, z, c);
    KeptGrows(y, a, c);
    if n in KeptOn(z, c) {
      KeepsTakes(y, a.packet, a.now);
      AcceptTracks(ChannelOf(y.t, c).received, KeptOn(y, c), n);
    }
  }

  lemma TracksOf(x: Side, y: Side, c: uint16)
    requires Linked(x, y)
    ensures Inv(y.t) && y.t.cwnd > 0 && Tracks(ChannelOf(y.t, c).received, KeptOn(y, c))
  {
    hide Tracks, GoodParts, InOrder, OnceEach, SenderInv, ReceiverInv, ChannelInv;
    assert ReceivesOn(x, y, c);
  }

  /** Once left behind, a number stays behind whatever happens. */
  lemma {:induction false} BehindForEver(steps: seq<Step>, states: seq<Pair>, k: nat, n: nat, first: bool, c: uint16, q: uint64)
    requires SessionRun(steps, states) && k <= n < |states|
    requires LeftBehind(End(states[k], first), c, q)
    ensures LeftBehind(End(states[n], first), c, q)
    decreases n
  {
    hide Linked, Inv, Act, Enabled, LeftBehind;
    if k < n {
      BehindForEver(steps, states, k, n - 1, first, c, q);
      var w, step := states[n - 1], steps[n - 1];
      assert Steps(w, step, states[n]);
      EveryStateLinked(steps, states, n - 1);
      EveryStateLinked(steps, states, n);
      LinkedBothWays(w.a, w.b);
      LinkedBothWays(states[n].a, states[n].b);
      if step.first == first {
        StaysBehind(End(w, !first), End(w, first), step.action, c, q);
      }
    }
  }

  /** The message with a number left behind is never delivered on an ordered channel, nor is any after it. */
  lemma NeverDelivered(steps: seq<Step>, states: seq<Pair>, k: nat, n: nat, first: bool, c: uint16, q: uint64, m: nat)
    requires SessionRun(steps, states) && k <= n < |states| && Ordered(c)
    requires LeftBehind(End(states[k], first), c, q)
    requires m < |QueuedOn(End(states[n], !first), c)|
    requires var messages := QueuedOn(End(states[n], !first), c); Before(messages, m) < q <= Before(messages, m + 1)
    ensures |DeliveredOn(End(states[n], first), c)| <= m
  {
    BehindForEver(steps, states, k, n, first, c, q);
    EveryStateLinked(steps, states, n);
    var x, y := End(states[n], !first), End(states[n], first);
    hide Inv, Tracks, GoodParts, GoodSide, NothingLost;
    assert ReceivesOn(x, y, c);
    var messages, delivered := QueuedOn(x, c), |DeliveredOn(y, c)|;
    if delivered > m {
      BeforeMonotone(messages, m + 1, delivered);
    }
  }
}
