/** A run in which a fragment is sent at last, but too late: its receiver has left it behind, so it waits for an
    acknowledgment that never comes.

    The run of `OvertakingRun` goes on: the receiver takes the 64 small messages, its acknowledgment empties the sender's
    queue but for the whole fragment, and that one goes out. */
module LateRun {
  import opened Options
  import opened Bytes
  import opened Words
  import opened SequenceWindows
  import opened ReliablePackets
  import opened Transports
  import opened Accounting
  import opened MessageStreams
  import opened ReliableDelivery
  import opened SessionRuns
  import opened WindowCoupling
  import opened Stranding
  import opened OvertakingRun

  // ----- the receiver takes the small messages -----

  /** The numbers of the first `k` small messages. */
  function Numbers(k: nat): (numbers: set<uint64>)
    requires k < 1000
    ensures forall n: uint64 :: n in numbers <==> 2 <= n <= k + 1
  {
    if k == 0 then {} else Numbers(k - 1) + {k + 1}
  }

  function SmallAssembly(): Assembly {
    Assembly(1, map[0 := [0]], 1)
  }

  function Assemblies(k: nat): (m: map<uint64, Assembly>)
    requires k < 1000
    ensures m.Keys == Numbers(k)
  {
    if k == 0 then map[] else Assemblies(k - 1)[k + 1 := SmallAssembly()]
  }

  /** The receiver after `k` small messages, with this window. */
  function Taken(k: nat, w: Window): Transport
    requires k < 1000
  {
    NEW_TRANSPORT.(channels := map[TOPOLOGY := Channel(0, w, true, 1, Assemblies(k))], ackChannels := [TOPOLOGY],
                   reassemblyBytes := k, reassemblyCount := k, reassemblyParts := k)
  }

  /** The receiver has the channel and has marked it already. */
  lemma AlreadyMarked(k: nat, w: Window)
    requires k < 1000
    ensures MarkDirty(Taken(k, w), TOPOLOGY) == Taken(k, w)
  {
    assert MarkDirty(Taken(k, w), TOPOLOGY).channels == Taken(k, w).channels;
  }

  lemma SmallKept(k: nat, w: Window)
    requires k < 64 && Takes(w, k + 2)
    ensures ValidBody(SmallPacket(k + 2)) && Retains(Taken(k, w), SmallPacket(k + 2))
  {
    hide Offer;
    assert k + 2 !in Assemblies(k);
  }

  lemma SmallStored(k: nat, w: Window)
    requires k < 64
    ensures ValidBody(SmallPacket(k + 2)) && Store(Taken(k, w), SmallPacket(k + 2)) == Taken(k + 1, Offer(w, k + 2).0)
  {
    hide Offer;
    var t, p := Taken(k, w), SmallPacket(k + 2);
    assert k + 2 !in Assemblies(k);
    assert Grown(t.channels[TOPOLOGY], p) == SmallAssembly();
    assert Store(t, p).channels == Taken(k + 1, Offer(w, k + 2).0).channels;
  }

  lemma NothingReady(k: nat, w: Window)
    requires 0 < k < 1000
    ensures TOPOLOGY in Taken(k, w).channels && k + 1 in Taken(k, w).channels[TOPOLOGY].reassemblies
    ensures Taken(k, w).channels[TOPOLOGY].reassemblies[k + 1] == SmallAssembly() && Complete(SmallAssembly())
    ensures DeliverOrdered(Taken(k, w), TOPOLOGY) == (Taken(k, w), [])
  {
    assert 1 !in Assemblies(k);
  }

  /** The next small message is kept, and nothing is delivered. */
  lemma SmallTaken(k: nat, w: Window)
    requires k < 64 && Tracks(w, Numbers(k)) && w.highest <= k + 1
    ensures ValidBody(SmallPacket(k + 2)) && Taken(k, w).cwnd > 0
    ensures Takes(w, k + 2) && Keeps(Taken(k, w), SmallPacket(k + 2), 0)
    ensures Receive(Taken(k, w), SmallPacket(k + 2), 0) == (Taken(k + 1, Offer(w, k + 2).0), [])
  {
    AcceptTracks(w, Numbers(k), k + 2);
    AlreadyMarked(k, w);
    SmallKept(k, w);
    SmallStored(k, w);
    NothingReady(k + 1, Offer(w, k + 2).0);
    hide Offer, MarkDirty, Store, DeliverOrdered, Retains, Assemblies;
  }

  /** The receiver has taken `k` small messages. */
  ghost predicate Receiving(steps: seq<Step>, states: seq<Pair>, before: Side, k: nat, w: Window)
    requires k < 1000
  {
    && SessionRun(steps, states)
    && states[|steps|].a == before
    && states[|steps|].b.t == Taken(k, w) && states[|steps|].b.sent == {}
    && KeptOn(states[|steps|].b, TOPOLOGY) == Numbers(k)
    && Tracks(w, Numbers(k))
  }

  lemma HighestIs(w: Window, k: nat)
    requires k < 1000 && Tracks(w, Numbers(k))
    ensures w.highest == if k == 0 then 0 else k + 1
  {
    if k > 0 {
      assert k + 1 in Numbers(k);
    }
  }

  /** The first small message finds no channel yet. */
  lemma FirstSmallTaken()
    ensures ValidBody(SmallPacket(2)) && NEW_TRANSPORT.cwnd > 0 && Taken(0, EMPTY_WINDOW).cwnd > 0
    ensures Keeps(NEW_TRANSPORT, SmallPacket(2), 0) <==> Keeps(Taken(0, EMPTY_WINDOW), SmallPacket(2), 0)
    ensures Receive(NEW_TRANSPORT, SmallPacket(2), 0) == Receive(Taken(0, EMPTY_WINDOW), SmallPacket(2), 0)
  {
    var t := Taken(0, EMPTY_WINDOW);
    assert MarkDirty(NEW_TRANSPORT, TOPOLOGY) == t by {
      assert MarkDirty(NEW_TRANSPORT, TOPOLOGY).channels == t.channels;
    }
    assert MarkDirty(t, TOPOLOGY) == t by {
      assert MarkDirty(t, TOPOLOGY).channels == t.channels;
    }
    hide MarkDirty, Taken, ReceiveData, Retains;
    Remarked(NEW_TRANSPORT, t, SmallPacket(2));
  }

  lemma Remarked(t: Transport, u: Transport, p: Packet)
    requires ValidBody(p) && !p.AckOnly() && MarkDirty(t, p.channel) == MarkDirty(u, p.channel)
    ensures ReceiveData(t, p) == ReceiveData(u, p)
  {
  }

  /** Where one more small message leads. */
  lemma SmallTakenFrom(y: Side, k: nat, v: Window)
    requires k < 64 && KeptOn(y, TOPOLOGY) == Numbers(k) && Tracks(v, Numbers(k))
    requires y.t == Taken(k, v) || (k == 0 && v == EMPTY_WINDOW && y.t == NEW_TRANSPORT)
    ensures ValidBody(SmallPacket(k + 2)) && y.t.cwnd > 0
    ensures var z := DoTake(y, SmallPacket(k + 2), 0);
      z.t == Taken(k + 1, Offer(v, k + 2).0) && KeptOn(z, TOPOLOGY) == Numbers(k + 1) && z.sent == y.sent
    ensures Tracks(Offer(v, k + 2).0, Numbers(k + 1))
  {
    hide Receive, Keeps, ValidBody, Tracks, Offer, Numbers, Assemblies;
    HighestIs(v, k);
    SmallTaken(k, v);
    FirstSmallTaken();
    AcceptTracks(v, Numbers(k), k + 2);
    NumbersMore(k);
    hide Taken;
  }

  /** One more small message. */
  lemma TakesOne(before: seq<Step>, was: seq<Pair>, k: nat, v: Window) returns (steps: seq<Step>, states: seq<Pair>)
    requires SessionRun(before, was) && k < 64 && SmallPacket(k + 2) in was[|before|].a.sent
    requires was[|before|].b.t == Taken(k, v) || (k == 0 && v == EMPTY_WINDOW && was[|before|].b.t == NEW_TRANSPORT)
    requires was[|before|].b.sent == {} && KeptOn(was[|before|].b, TOPOLOGY) == Numbers(k) && Tracks(v, Numbers(k))
    ensures Receiving(steps, states, was[|before|].a, k + 1, Offer(v, k + 2).0)
  {
    hide Inv, Steps, DoTake, ValidBody, Linked, Tracks, Taken, Offer, Numbers, SmallPacket;
    SmallTakenFrom(was[|before|].b, k, v);
    steps, states := GoOn(before, was, Step(false, Take(SmallPacket(k + 2), 0)));
  }

  lemma NumbersMore(k: nat)
    requires k < 999
    ensures Numbers(k) + {k + 2} == Numbers(k + 1)
  {
  }

  lemma {:induction false} TakesSmall(k: nat) returns (steps: seq<Step>, states: seq<Pair>, w: Window)
    requires 0 < k <= 64
    ensures SessionRun(steps, states) && Receiving(steps, states, states[|steps|].a, k, w)
    ensures states[|steps|].a.t == Claiming(65, Ahead(64), MSS + 64, 64)
    ensures forall n: nat :: 2 <= n <= 65 ==> SmallPacket(n) in states[|steps|].a.sent
  {
    hide Inv, Ahead, Steps, Receive, Keeps, ValidBody, Linked, Tracks, Taken, Claiming, Offer, SmallPacket;
    var before, was, v;
    if k == 1 {
      before, was := GoesOn(64);
      v := EMPTY_WINDOW;
      TracksEmpty();
      assert Numbers(0) == {};
    } else {
      before, was, v := TakesSmall(k - 1);
    }
    steps, states := TakesOne(before, was, k - 1, v);
    w := Offer(v, k + 1).0;
  }

  // ----- the acknowledgment -----

  function Answer(w: Window): Packet {
    Packet(TOPOLOGY, 0, 0, 0, w.highest, w.seen, [])
  }

  lemma AnswerSent(y: Side, w: Window)
    requires y.t == Taken(64, w) && Inv(y.t)
    ensures Answer(w) in DoTransmit(y, 0, true).sent
    ensures DoTransmit(y, 0, true).kept == y.kept
  {
    hide Inv, Assemblies;
    var t := y.t;
    assert NextAckFrom(t, 0) == Some((Answer(w), Ack(TOPOLOGY, 0)));
    TransmitKept(y);
  }

  lemma TransmitKept(y: Side)
    requires Inv(y.t)
    ensures DoTransmit(y, 0, true).kept == y.kept
  {
    hide Inv, NextSend;
  }

  /** Only the whole fragment is left. */
  lemma OnlyWholeLeft(w: Window)
    requires Tracks(w, Numbers(64)) && Increasing(Ahead(64))
    ensures Unacked(Ahead(64), TOPOLOGY, w.highest, w.seen) == [Whole()]
  {
    hide Offer, Numbers;
    HighestIs(w, 64);
    AheadMembers(64);
    var left := Unacked(Ahead(64), TOPOLOGY, w.highest, w.seen);
    UnackedMembers(Ahead(64), TOPOLOGY, w.highest, w.seen);
    UnackedIncreasing(Ahead(64), TOPOLOGY, w.highest, w.seen);
    assert Whole() in Ahead(64);
    forall f | f in left
      ensures f == Whole()
    {
      if f != Whole() {
        TracksHas(w, Numbers(64), f.sequence);
      }
    }
    AllSame(left, Whole());
  }

  lemma AllSame(fs: seq<Fragment>, f: Fragment)
    requires Increasing(fs) && f in fs && forall g :: g in fs ==> g == f
    ensures fs == [f]
  {
    assert fs[0] in fs;
    if |fs| > 1 {
      TwoDiffer(fs);
      assert false;
    }
  }

  lemma TwoDiffer(fs: seq<Fragment>)
    requires Increasing(fs) && |fs| > 1
    ensures fs[0] in fs && fs[1] in fs && (fs[0].channel == fs[1].channel ==> fs[0] != fs[1])
  {
  }

  /** What the sender is like when it has taken the acknowledgment. */
  lemma AnswerTaken(x: Side, w: Window)
    requires Inv(x.t) && x.t == Claiming(65, Ahead(64), MSS + 64, 64) && Tracks(w, Numbers(64))
    ensures ValidBody(Answer(w)) && x.t.cwnd > 0
    ensures var t := DoTake(x, Answer(w), 0).t;
      && t.outbound == [Whole()] && t.channels == x.t.channels && t.ackChannels == x.t.ackChannels
      && t.dataCursor == 0 && t.preferACK && DoTake(x, Answer(w), 0).sent == x.sent
  {
    HighestIs(w, 64);
    TrackedAckIsValid(w, Numbers(64));
    hide Tracks, Numbers, Ahead, CongestionInv, ReceiverInv, ChannelInv, Offer, Unacked, Absorb;
    assert Increasing(Ahead(64)) by {
      assert SenderInv(x.t);
    }
    OnlyWholeLeft(w);
    AbsorbFacts(x.t, Ahead(64), TOPOLOGY, w.highest, w.seen, 0);
    BitmapSet(w);
  }

  lemma BitmapSet(w: Window)
    requires Tracks(w, Numbers(64))
    ensures w.highest == 65 && w.seen != 0
  {
    HighestIs(w, 64);
    assert Bit(w.seen, 0);
  }

  // ----- too late -----

  lemma WholeNext(x: Side)
    requires Inv(x.t) && x.t.outbound == [Whole()] && x.t.dataCursor == 0 && x.t.preferACK
    requires x.t.ackChannels == [FILE_DATA, TOPOLOGY] && (forall c :: c in x.t.channels ==> !x.t.channels[c].ackDirty)
    ensures Next(x.t, 0)
  {
    var t := x.t;
    assert t.outbound[..0] == [];
    assert OldestTransmitted([], TOPOLOGY) == 0;
    assert OldestTransmitted(t.outbound, TOPOLOGY) == 0;
    assert FlightBytes([]) == 0;
    assert FlightBytes(t.outbound) == 0;
  }

  /** A run at whose end the next packet carries number 1 for the first time although number 65 has been sent and kept. */
  lemma LateHappens() returns (steps: seq<Step>, states: seq<Pair>)
    ensures SessionRun(steps, states)
    ensures SendsLate(states[|steps|].a, 0, SmallPacket(65)) && !FirstInTime(states[|steps|].a, Transmit(0, true))
    ensures 65 in KeptOn(states[|steps|].b, TOPOLOGY)
    ensures NextSend(states[|steps|].a.t, 0).value.1.fragment.sequence == 1
  {
    hide Inv, Steps, DoTake, ValidBody, Linked, Tracks, Taken, Offer, SmallPacket, NextSend, Ahead, DoTransmit, Next, Numbers;
    var w;
    steps, states, w := TakesSmall(64);
    var x, y := states[|steps|].a, states[|steps|].b;
    EndLinked(steps, states);
    LinkedParts(x, y);
    AnswerSent(y, w);
    AnswerTaken(x, w);
    steps, states := GoOn(steps, states, Step(false, Transmit(0, true)));
    steps, states := GoOn(steps, states, Step(true, Take(Answer(w), 0)));
    x := states[|steps|].a;
    EndLinked(steps, states);
    LinkedParts(x, states[|steps|].b);
    WholeNext(x);
    NextIsChosen(x.t, 0);
    SmallIs(65);
  }

  lemma SmallIs(n: uint64)
    requires n > 0
    ensures SmallPacket(n).channel == TOPOLOGY && SmallPacket(n).sequence == n && ValidBody(SmallPacket(n))
  {
  }

  /** So a run ends with a fragment that waits for its acknowledgment and that the receiver's window neither takes nor
      reports. */
  lemma StrandedHappens() returns (steps: seq<Step>, states: seq<Pair>)
    ensures SessionRun(steps, states) && Stranded(states[|steps|].a, states[|steps|].b, TOPOLOGY, 1)
  {
    hide Inv, Steps, DoTake, ValidBody, SendsLate, NextSend, DoTransmit, SmallPacket, Linked, Keeps, FirstInTime;
    var before, was := LateHappens();
    EndLinked(before, was);
    LinkedParts(was[|before|].a, was[|before|].b);
    TracksOf(was[|before|].a, was[|before|].b, TOPOLOGY);
    SmallIs(65);
    LateIsStranded(before, was, 0, SmallPacket(65), 0);
    steps := before + [Step(true, Transmit(0, true)), Step(false, Take(SmallPacket(65), 0))];
    states := was + [Pair(DoTransmit(was[|before|].a, 0, true), was[|before|].b),
                     Pair(DoTransmit(was[|before|].a, 0, true), DoTake(was[|before|].b, SmallPacket(65), 0))];
  }
}
