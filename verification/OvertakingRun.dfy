/** A run in which a whole fragment is overtaken, stays blocked although the congestion window opens, and is left behind
    by the receiver's window.

    Four fragments of file data fill the window but for one byte. A whole fragment on channel 1 must wait, and a
    one-byte message behind it goes first. The file data is then dropped. */
module OvertakingRun {
  import opened Options
  import opened Bytes
  import opened Words
  import opened SequenceWindows
  import opened ReliablePackets
  import opened Transports
  import opened Accounting
  import opened MessageStreams
  import opened ReliableDelivery
  import opened SessionRuns
  import opened WindowCoupling
  import opened Overtaking
  import opened Stranding

  const TOPOLOGY: uint16 := 1

  function Zeroes(n: nat): (b: bytes)
    ensures |b| == n
  {
    seq(n, _ => 0)
  }

  // ----- one step -----

  /** One end acts and the run goes on. */
  lemma GoOn(steps: seq<Step>, states: seq<Pair>, step: Step) returns (more: seq<Step>, all: seq<Pair>)
    requires SessionRun(steps, states)
    requires var w := states[|steps|]; Enabled(End(w, !step.first), step.action)
    ensures Inv(End(states[|steps|], step.first).t)
    ensures SessionRun(more, all) && more == steps + [step] && |states| == |more| && |all| == |more| + 1
    ensures all[..|states|] == states
    ensures var w := states[|steps|];
      all[|more|] == if step.first then Pair(Act(w.a, step.action), w.b) else Pair(w.a, Act(w.b, step.action))
  {
    hide Linked, Act, Inv;
    EveryStateLinked(steps, states, |steps|);
    var w := states[|steps|];
    LinkedParts(w.a, w.b);
    more := steps + [step];
    all := states + [if step.first then Pair(Act(w.a, step.action), w.b) else Pair(w.a, Act(w.b, step.action))];
    forall i | 0 <= i < |more|
      ensures Steps(all[i], more[i], all[i + 1])
    {
      if i < |steps| {
        assert Steps(states[i], steps[i], states[i + 1]);
      }
    }
  }

  /** Fragment `i` is the one the next packet carries, for the first time. */
  ghost predicate Next(t: Transport, i: nat) {
    && i < |t.outbound|
    && t.ackChannels != [] && t.ackChannels[|t.ackChannels| - 1] == t.outbound[i].channel
    && t.dataCursor == 0 && t.preferACK
    && (forall c :: c in t.channels ==> !t.channels[c].ackDirty)
    && (forall f :: f in t.outbound ==> !Eligible(t, Retransmit, f, 0))
    && Eligible(t, New, t.outbound[i], 0)
    && (forall j :: 0 <= j < |t.outbound| && (j < i || t.outbound[j].channel != t.outbound[i].channel) ==> !Eligible(t, New, t.outbound[j], 0))
  }

  function AfterSend(t: Transport, i: nat): Transport
    requires i < |t.outbound|
  {
    t.(outbound := t.outbound[i := t.outbound[i].(transmissions := t.outbound[i].transmissions + 1, sentAt := 0)],
       bytesInFlight := t.bytesInFlight + |t.outbound[i].payload|)
  }

  lemma NothingElseFirst(t: Transport, i: nat)
    requires Next(t, i)
    ensures NextAck(t) == None && NextFragment(t, Retransmit, 0) == None
  {
    hide Eligible;
    NextAckFacts(t, 0);
    NextFragmentFacts(t, Retransmit, 0, 0);
  }

  lemma FoundNext(t: Transport, i: nat)
    requires Inv(t) && Next(t, i)
    ensures NextFragment(t, New, 0) == Some((t.outbound[i], |t.ackChannels| - 1))
  {
    hide Eligible, CongestionInv, ReceiverInv, GoodFragment, NextFragmentFrom, FirstEligible, ChannelInv, PayloadBytes, FlightBytes;
    var n := |t.ackChannels|;
    NextFragmentFacts(t, New, 0, 0);
    FoundIsLowest(t, 0, 0);
    FirstEligibleFacts(t, New, t.outbound[i].channel, 0, 0);
    assert Slot(t.dataCursor, n - 1, n) == n - 1;
    var found := NextFragmentFrom(t, New, 0, 0);
    assert found.Some?;
    var f, index := found.value.0, found.value.1;
    assert f in t.outbound;
    var j :| 0 <= j < |t.outbound| && t.outbound[j] == f;
    assert j == i;
    SameSlot(t, index, n - 1);
  }

  lemma SameSlot(t: Transport, i: nat, j: nat)
    requires ChannelInv(t) && i < |t.ackChannels| && j < |t.ackChannels| && t.ackChannels[i] == t.ackChannels[j]
    ensures i == j
  {
    hide Known;
  }

  lemma NextIsChosen(t: Transport, i: nat)
    requires Inv(t) && Next(t, i)
    ensures NextSend(t, 0) == Some((PacketFor(t, t.outbound[i]), Data(New, t.outbound[i], |t.ackChannels| - 1, 0)))
  {
    hide Eligible, Inv, NextFragment, NextAck;
    NothingElseFirst(t, i);
    FoundNext(t, i);
  }

  lemma SendsNext(x: Side, i: nat)
    requires Inv(x.t) && Next(x.t, i)
    ensures DoTransmit(x, 0, true) == x.(t := AfterSend(x.t, i), sent := x.sent + {PacketFor(x.t, x.t.outbound[i])})
  {
    NextIsChosen(x.t, i);
    hide NextSend, Eligible, CongestionInv, ReceiverInv;
    var r := Data(New, x.t.outbound[i], |x.t.ackChannels| - 1, 0);
    var t, u := x.t, DoTransmit(x, 0, true).t;
    assert t.outbound[i] in t.outbound;
    assert GoodFragment(t.channels, t.outbound[i]);
    assert Slot(|t.ackChannels| - 1, 1, |t.ackChannels|) == 0;
    assert Touch(t.outbound, r) == AfterSend(t, i).outbound by {
      forall j | 0 <= j < |t.outbound|
        ensures Touch(t.outbound, r)[j] == AfterSend(t, i).outbound[j]
      {
        if Same(t.outbound[j], t.outbound[i]) {
          OnlyOne(t.outbound, j, t.outbound[i]);
        }
      }
    }
    assert t.channels[t.outbound[i].channel].(ackDirty := false) == t.channels[t.outbound[i].channel];
    assert u.channels == t.channels;
  }

  // ----- the file data -----

  const FILLER: bytes := Zeroes(4 * MSS - 1)

  function Filler(j: nat, sent: bool): Fragment
    requires j < 4
  {
    Fragment(FILE_DATA, j + 1, j, 4, Part(FILLER, j), 0, if sent then 1 else 0, false)
  }

  /** The first `i` of the four fragments have been sent. */
  function Fillers(i: nat): seq<Fragment> {
    [Filler(0, 0 < i), Filler(1, 1 < i), Filler(2, 2 < i), Filler(3, 3 < i)]
  }

  function Queued(n: uint64): Channel {
    NEW_CHANNEL.(nextFragmentSequence := n)
  }

  function Filling(i: nat): Transport {
    NEW_TRANSPORT.(channels := map[FILE_DATA := Queued(4)], ackChannels := [FILE_DATA], outbound := Fillers(i),
                   queuedBytes := 4 * MSS - 1, bytesInFlight := if i < 4 then i * MSS else 4 * MSS - 1)
  }

  lemma FillerQueued()
    ensures CanQueue(NEW_TRANSPORT, FILE_DATA, |FILLER|) == None
    ensures Queue(NEW_TRANSPORT, FILE_DATA, FILLER) == Filling(0)
  {
    assert FragmentsOf(FILE_DATA, 0, FILLER) == Fillers(0);
  }

  lemma FillerOldest(i: nat)
    requires i <= 4
    ensures OldestTransmitted(Fillers(i), FILE_DATA) <= i
  {
    hide OldestTransmitted;
    OldestFacts(Fillers(i), FILE_DATA);
  }

  lemma FillerAt(i: nat, j: nat)
    requires i < 4 && j < 4
    ensures var f := Fillers(i)[j];
      && f == Filler(j, j < i) && f.channel == FILE_DATA && f.sequence == j + 1 && |f.payload| == (if j < 3 then MSS else MSS - 1)
      && !Eligible(Filling(i), Retransmit, f, 0) && (j < i ==> !Eligible(Filling(i), New, f, 0))
  {
  }

  lemma FillerNext(i: nat)
    requires i < 4
    ensures Next(Filling(i), i) && AfterSend(Filling(i), i) == Filling(i + 1)
  {
    hide OldestTransmitted;
    var t := Filling(i);
    FillerOldest(i);
    SmallMod(i + 1 - OldestTransmitted(t.outbound, FILE_DATA));
    FillerAt(i, 0);
    FillerAt(i, 1);
    FillerAt(i, 2);
    FillerAt(i, 3);
    assert |t.outbound| == 4;
    assert Eligible(t, New, t.outbound[i], 0);
    assert Next(t, i);
    assert AfterSend(t, i).outbound == Fillers(i + 1);
  }

  // ----- channel 1 -----

  function Whole(): Fragment {
    Fragment(TOPOLOGY, 1, 0, 1, Zeroes(MSS), 0, 0, false)
  }

  function Small(n: uint64, sent: bool): Fragment {
    Fragment(TOPOLOGY, n, 0, 1, [0], 0, if sent then 1 else 0, false)
  }

  /** What an end that has queued `n` messages on channel 1 is like, with these fragments outbound. */
  function Claiming(n: uint64, outbound: seq<Fragment>, queued: nat, flight: nat): Transport {
    NEW_TRANSPORT.(channels := map[FILE_DATA := Queued(4), TOPOLOGY := Queued(n)], ackChannels := [FILE_DATA, TOPOLOGY],
                   outbound := outbound, queuedBytes := queued, bytesInFlight := flight)
  }

  lemma OneFragment(last: uint64, payload: bytes)
    requires 0 < |payload| <= MSS && last < 1000
    ensures FragmentCount(|payload|) == 1
    ensures FragmentsOf(TOPOLOGY, last, payload) == [Fragment(TOPOLOGY, last + 1, 0, 1, payload, 0, 0, false)]
  {
    assert Part(payload, 0) == payload;
  }

  lemma WholeQueued()
    ensures CanQueue(Filling(4), TOPOLOGY, MSS) == None
    ensures Queue(Filling(4), TOPOLOGY, Zeroes(MSS)) == Claiming(1, Fillers(4) + [Whole()], 5 * MSS - 1, 4 * MSS - 1)
  {
    OneFragment(0, Zeroes(MSS));
  }

  lemma SmallQueued(n: uint64, outbound: seq<Fragment>, queued: nat, flight: nat)
    requires n < 1000 && queued < 8 * MSS
    ensures CanQueue(Claiming(n, outbound, queued, flight), TOPOLOGY, 1) == None
    ensures Queue(Claiming(n, outbound, queued, flight), TOPOLOGY, [0])
         == Claiming(n + 1, outbound + [Small(n + 1, false)], queued + 1, flight)
  {
    OneFragment(n, [0]);
  }

  /** The first small message goes before the whole one, which does not fit. */
  lemma SmallOvertakes()
    requires Inv(Claiming(2, Fillers(4) + [Whole(), Small(2, false)], 5 * MSS, 4 * MSS - 1))
    ensures var t := Claiming(2, Fillers(4) + [Whole(), Small(2, false)], 5 * MSS, 4 * MSS - 1);
      Next(t, 5) && AfterSend(t, 5) == Claiming(2, Fillers(4) + [Whole(), Small(2, true)], 5 * MSS, 4 * MSS)
  {
    hide Inv;
    var t := Claiming(2, Fillers(4) + [Whole(), Small(2, false)], 5 * MSS, 4 * MSS - 1);
    OldestFacts(t.outbound, TOPOLOGY);
  }

  /** The whole fragment and the first `k` small ones, all of them sent. */
  function Ahead(k: nat): seq<Fragment> {
    [Whole()] + seq(k, j requires 0 <= j < k => Small(if j < 1000 then j + 2 else 0, true))
  }

  lemma FillerDropped()
    requires Inv(Claiming(2, Fillers(4) + [Whole(), Small(2, true)], 5 * MSS, 4 * MSS))
    requires Inv(DiscardOutbound(Claiming(2, Fillers(4) + [Whole(), Small(2, true)], 5 * MSS, 4 * MSS), FILE_DATA))
    ensures DiscardOutbound(Claiming(2, Fillers(4) + [Whole(), Small(2, true)], 5 * MSS, 4 * MSS), FILE_DATA)
         == Claiming(2, Ahead(1), MSS + 1, 1)
  {
    hide CongestionInv, ChannelInv, ReceiverInv, GoodFragment;
    var a, b := Whole(), Small(2, true);
    var all := Fillers(4) + [a, b];
    assert Without([], FILE_DATA) == [];
    WithoutMore([], Filler(0, true));
    WithoutMore([Filler(0, true)], Filler(1, true));
    WithoutMore([Filler(0, true), Filler(1, true)], Filler(2, true));
    WithoutMore([Filler(0, true), Filler(1, true), Filler(2, true)], Filler(3, true));
    WithoutMore(Fillers(4), a);
    WithoutMore(Fillers(4) + [a], b);
    InParts(a, b);
    hide Without, PayloadBytes, FlightBytes;
    SumsOfTwo(a, b);
    var kept := Without(all, FILE_DATA);
    assert kept == [a, b];
    assert Ahead(1) == [a, b];
  }

  lemma WithoutMore(fs: seq<Fragment>, f: Fragment)
    ensures Without(fs + [f], FILE_DATA) == Without(fs, FILE_DATA) + if f.channel == FILE_DATA then [] else [f]
  {
    assert (fs + [f])[..|fs|] == fs;
  }

  lemma InParts(a: Fragment, b: Fragment)
    ensures [] + [Filler(0, true)] == [Filler(0, true)]
    ensures [Filler(0, true)] + [Filler(1, true)] == [Filler(0, true), Filler(1, true)]
    ensures [Filler(0, true), Filler(1, true)] + [Filler(2, true)] == [Filler(0, true), Filler(1, true), Filler(2, true)]
    ensures [Filler(0, true), Filler(1, true), Filler(2, true)] + [Filler(3, true)] == Fillers(4)
    ensures Fillers(4) + [a] + [b] == Fillers(4) + [a, b]
    ensures [] + [a] + [b] == [a, b]
  {
  }

  lemma SumsOfTwo(a: Fragment, b: Fragment)
    requires a.transmissions == 0 && b.transmissions != 0
    ensures PayloadBytes([a, b]) == |a.payload| + |b.payload|
    ensures FlightBytes([a, b]) == |b.payload|
  {
    assert [a, b][..1] == [a] && [a][..0] == [];
    assert PayloadBytes([a]) == PayloadBytes([]) + |a.payload|;
    assert FlightBytes([a]) == FlightBytes([]);
  }

  lemma AheadMembers(k: nat)
    requires k < 1000
    ensures forall f :: f in Ahead(k) ==> f == Whole() || (2 <= f.sequence <= k + 1 && f == Small(f.sequence, true))
    ensures |Ahead(k)| == k + 1 && Ahead(k)[0] == Whole() && (k > 0 ==> Small(2, true) in Ahead(k))
  {
    forall f | f in Ahead(k)
      ensures f == Whole() || (2 <= f.sequence <= k + 1 && f == Small(f.sequence, true))
    {
      var i :| 0 <= i < |Ahead(k)| && Ahead(k)[i] == f;
      assert i > 0 ==> f == Small(i + 1, true);
    }
    assert k > 0 ==> Ahead(k)[1] == Small(2, true);
  }

  function Crowd(k: nat): Transport
    requires k < 1000
  {
    Claiming(k + 2, Ahead(k) + [Small(k + 2, false)], MSS + k + 1, k)
  }

  lemma CrowdMembers(k: nat)
    requires 0 < k < 64
    ensures var t := Crowd(k);
      && |t.outbound| == k + 2 && t.outbound[k + 1] == Small(k + 2, false) && t.outbound[0] == Whole()
      && (forall f :: f in t.outbound ==> f == Whole() || f == Small(k + 2, false) || (2 <= f.sequence <= k + 1 && f == Small(f.sequence, true)))
      && Whole() in t.outbound
      && OldestTransmitted(t.outbound, TOPOLOGY) == 2
  {
    var t := Crowd(k);
    AheadMembers(k);
    assert forall f :: f in t.outbound ==> f in Ahead(k) || f == Small(k + 2, false);
    assert forall f :: f in Ahead(k) ==> f in t.outbound;
    OldestFacts(t.outbound, TOPOLOGY);
    assert t.outbound[0] == Whole();
  }

  /** However open the congestion window, the next small message goes before the whole one. */
  lemma SmallGoesOn(k: nat)
    requires 0 < k < 64
    ensures var t := Crowd(k); Next(t, k + 1) && AfterSend(t, k + 1) == Claiming(k + 2, Ahead(k + 1), MSS + k + 1, k + 1)
  {
    CrowdMembers(k);
    SmallMod(k);
    BehindIsBlocked(Crowd(k), Whole(), 0);
    AheadMore(k);
    hide Ahead, OldestTransmitted;
    var t := Crowd(k);
    forall j | 0 <= j < k + 1
      ensures !Eligible(t, New, t.outbound[j], 0)
    {
      assert t.outbound[j] in t.outbound;
      assert t.outbound[j] == Ahead(k)[j];
      CrowdAt(k, j);
    }
    assert Next(t, k + 1);
    assert AfterSend(t, k + 1).outbound == Ahead(k + 1);
  }

  lemma CrowdAt(k: nat, j: nat)
    requires k < 64 && j <= k
    ensures |Ahead(k)| == k + 1 && Ahead(k)[j] == if j == 0 then Whole() else Small(j + 1, true)
  {
  }

  lemma AheadMore(k: nat)
    requires k < 64
    ensures |Ahead(k)| == k + 1 && (Ahead(k) + [Small(k + 2, false)])[k + 1 := Small(k + 2, true)] == Ahead(k + 1)
  {
  }

  // ----- the run -----

  /** The first end is in this state, the other has done nothing. */
  ghost predicate At(steps: seq<Step>, states: seq<Pair>, t: Transport) {
    SessionRun(steps, states) && states[|steps|].a.t == t && states[|steps|].b == NEW_SIDE
  }

  lemma Queues(steps: seq<Step>, states: seq<Pair>, t: Transport, c: uint16, payload: bytes) returns (more: seq<Step>, all: seq<Pair>)
    requires At(steps, states, t) && CanQueue(t, c, |payload|) == None
    ensures At(more, all, Queue(t, c, payload)) && states <= all && all[|more|].a.sent == states[|steps|].a.sent
  {
    hide SessionRun, Inv, Queue, CanQueue;
    more, all := GoOn(steps, states, Step(true, Enqueue(c, payload)));
    assert states == all[..|states|];
  }

  lemma Sends(steps: seq<Step>, states: seq<Pair>, t: Transport, i: nat) returns (more: seq<Step>, all: seq<Pair>)
    requires At(steps, states, t) && i < |t.outbound| && (Inv(t) ==> Next(t, i))
    ensures At(more, all, AfterSend(t, i)) && states <= all
    ensures PacketFor(t, t.outbound[i]) in all[|more|].a.sent
    ensures states[|steps|].a.sent <= all[|more|].a.sent
    ensures more == steps + [Step(true, Transmit(0, true))]
  {
    hide SessionRun, Inv, Next, AfterSend, DoTransmit;
    more, all := GoOn(steps, states, Step(true, Transmit(0, true)));
    SendsNext(states[|steps|].a, i);
    assert states == all[..|states|];
  }

  /** The next fragment to be sent for the first time overtakes an earlier one. */
  lemma Overtakes(x: Side, i: nat)
    requires Inv(x.t) && Next(x.t, i) && Whole() in x.t.outbound
    requires x.t.outbound[i].channel == TOPOLOGY && x.t.outbound[i].sequence > 1
    ensures !FirstInOrder(x, Transmit(0, true))
    ensures NextSend(x.t, 0).Some? && NextSend(x.t, 0).value.0.sequence == x.t.outbound[i].sequence
  {
    NextIsChosen(x.t, i);
    hide NextSend, Inv, Next;
  }

  lemma EndInv(steps: seq<Step>, states: seq<Pair>, t: Transport)
    requires At(steps, states, t)
    ensures Inv(t)
  {
    hide Inv, Linked, Steps;
    EveryStateLinked(steps, states, |steps|);
    LinkedParts(states[|steps|].a, states[|steps|].b);
  }

  /** File data up to one byte less than the congestion window is in flight. */
  lemma {:induction false} Fills(i: nat) returns (steps: seq<Step>, states: seq<Pair>)
    requires i <= 4
    ensures At(steps, states, Filling(i))
  {
    hide Inv, Next, Filling, Queue, CanQueue;
    if i == 0 {
      FillerQueued();
      Start();
      steps, states := Queues([], [Pair(NEW_SIDE, NEW_SIDE)], NEW_TRANSPORT, FILE_DATA, FILLER);
    } else {
      var before, was := Fills(i - 1);
      EndInv(before, was, Filling(i - 1));
      FillerNext(i - 1);
      Sizes(i - 1);
      steps, states := Sends(before, was, Filling(i - 1), i - 1);
    }
  }

  lemma Sizes(i: nat)
    requires i < 4
    ensures |Filling(i).outbound| == 4
  {
  }

  lemma Start()
    ensures At([], [Pair(NEW_SIDE, NEW_SIDE)], NEW_TRANSPORT)
  {
  }

  /** A run at whose end a small message goes out before the whole fragment queued first, which does not fit. */
  lemma OvertakingHappens() returns (steps: seq<Step>, states: seq<Pair>)
    ensures At(steps, states, Claiming(2, Fillers(4) + [Whole(), Small(2, false)], 5 * MSS, 4 * MSS - 1))
    ensures var x := states[|steps|].a;
      !FirstInOrder(x, Transmit(0, true)) && NextSend(x.t, 0).Some? && NextSend(x.t, 0).value.0.sequence == 2
  {
    hide Inv, Next, Queue, CanQueue, NextSend, FirstInOrder;
    steps, states := Fills(4);
    WholeQueued();
    steps, states := Queues(steps, states, Filling(4), TOPOLOGY, Zeroes(MSS));
    SmallQueued(1, Fillers(4) + [Whole()], 5 * MSS - 1, 4 * MSS - 1);
    var t := Claiming(2, Fillers(4) + [Whole(), Small(2, false)], 5 * MSS, 4 * MSS - 1);
    assert Fillers(4) + [Whole()] + [Small(2, false)] == Fillers(4) + [Whole(), Small(2, false)];
    steps, states := Queues(steps, states, Claiming(1, Fillers(4) + [Whole()], 5 * MSS - 1, 4 * MSS - 1), TOPOLOGY, [0]);
    EndInv(steps, states, t);
    SmallOvertakes();
    assert t.outbound[5] == Small(2, false) && t.outbound[4] == Whole();
    Overtakes(states[|steps|].a, 5);
  }

  /** The packet that carries a small message. */
  function SmallPacket(n: uint64): Packet {
    Packet(TOPOLOGY, n, 0, 1, 0, 0, [0])
  }

  /** After `k` small messages the whole fragment still waits, with nothing but them in flight. */
  lemma {:induction false} GoesOn(k: nat) returns (steps: seq<Step>, states: seq<Pair>)
    requires 0 < k <= 64
    ensures At(steps, states, Claiming(k + 1, Ahead(k), MSS + k, k))
    ensures forall n: nat :: 2 <= n <= k + 1 ==> SmallPacket(n) in states[|steps|].a.sent
    decreases k, 0
  {
    hide Inv, Next, Queue, CanQueue, Ahead, AfterSend, SessionRun, FirstInOrder, NextSend;
    if k == 1 {
      steps, states := FirstSmall();
    } else {
      steps, states := Crowded(k - 1);
      SmallGoesOn(k - 1);
      CrowdMembers(k - 1);
      steps, states := Sends(steps, states, Crowd(k - 1), k);
      assert PacketFor(Crowd(k - 1), Small(k + 1, false)) == SmallPacket(k + 1);
    }
  }

  lemma {:induction false} Crowded(k: nat) returns (steps: seq<Step>, states: seq<Pair>)
    requires 0 < k < 64
    ensures At(steps, states, Crowd(k))
    ensures forall n: nat :: 2 <= n <= k + 1 ==> SmallPacket(n) in states[|steps|].a.sent
    decreases k, 1
  {
    hide Inv, Next, Queue, CanQueue, Ahead, AfterSend, SessionRun, FirstInOrder, NextSend;
    steps, states := GoesOn(k);
    SmallQueued(k + 1, Ahead(k), MSS + k, k);
    steps, states := Queues(steps, states, Claiming(k + 1, Ahead(k), MSS + k, k), TOPOLOGY, [0]);
  }

  /** The small message goes out, then the file data is dropped. */
  lemma FirstSmall() returns (steps: seq<Step>, states: seq<Pair>)
    ensures At(steps, states, Claiming(2, Ahead(1), MSS + 1, 1)) && SmallPacket(2) in states[|steps|].a.sent
  {
    hide Inv, Next, Ahead, SessionRun, FirstInOrder, NextSend, DiscardOutbound;
    steps, states := OvertakingHappens();
    var t := Claiming(2, Fillers(4) + [Whole(), Small(2, false)], 5 * MSS, 4 * MSS - 1);
    var u := Claiming(2, Fillers(4) + [Whole(), Small(2, true)], 5 * MSS, 4 * MSS);
    EndInv(steps, states, t);
    SmallOvertakes();
    steps, states := Sends(steps, states, t, 5);
    EndInv(steps, states, u);
    steps, states := GoOn(steps, states, Step(true, DropOutbound));
    EndInv(steps, states, DiscardOutbound(u, FILE_DATA));
    FillerDropped();
  }

  /** A run at whose end there is room for a whole fragment, and yet the one queued first is overtaken again. */
  lemma BlockedThoughRoom() returns (steps: seq<Step>, states: seq<Pair>)
    ensures At(steps, states, Crowd(1))
    ensures var x := states[|steps|].a;
      && x.t.bytesInFlight + MSS <= x.t.cwnd
      && !FirstInOrder(x, Transmit(0, true)) && NextSend(x.t, 0).Some? && NextSend(x.t, 0).value.0.sequence == 3
  {
    hide Inv, Next, Ahead, Steps, FirstInOrder, NextSend;
    steps, states := Crowded(1);
    EndInv(steps, states, Crowd(1));
    SmallGoesOn(1);
    CrowdMembers(1);
    Overtakes(states[|steps|].a, 2);
  }

  lemma LastIsKept()
    ensures ValidBody(SmallPacket(65)) && NEW_TRANSPORT.cwnd > 0 && Keeps(NEW_TRANSPORT, SmallPacket(65), 0)
  {
  }

  /** A run at whose end the receiver has left the fragment queued first behind, while it still waits at the sender. */
  lemma StrandedRun() returns (steps: seq<Step>, states: seq<Pair>)
    ensures SessionRun(steps, states)
    ensures LeftBehind(states[|steps|].b, TOPOLOGY, 1) && Waiting(states[|steps|].a.t, TOPOLOGY, 1)
    ensures QueuedOn(states[|steps|].a, TOPOLOGY) != []
  {
    hide Inv, Next, Ahead, SessionRun, NextSend, Receive, Keeps, Linked;
    var before, was := GoesOn(64);
    LastIsKept();
    steps, states := GoOn(before, was, Step(false, Take(SmallPacket(65), 0)));
    EndLinked(steps, states);
    var x, y := states[|steps|].a, states[|steps|].b;
    TracksOf(x, y, TOPOLOGY);
    AheadMembers(64);
    assert x.t.outbound[0] == Whole();
    assert GoodChannel(x, TOPOLOGY);
  }

  lemma EndLinked(steps: seq<Step>, states: seq<Pair>)
    requires SessionRun(steps, states)
    ensures Linked(states[|steps|].a, states[|steps|].b) && GoodSide(states[|steps|].a)
  {
    hide Inv, Steps;
    EveryStateLinked(steps, states, |steps|);
  }

  lemma FirstNumber(messages: seq<bytes>)
    requires Numbered(messages) && messages != []
    ensures Before(messages, 0) == 0 && 1 <= Before(messages, 1)
  {
    hide Stream;
    BeforeNext(messages, 0);
    assert messages[..0] == [];
    NoMessages();
  }

  lemma NoMessages()
    ensures |Stream([])| == 0
  {
  }

  /** However such a run goes on, channel 1 never delivers anything. */
  lemma TopologyStandsStill(steps: seq<Step>, states: seq<Pair>, k: nat, n: nat)
    requires SessionRun(steps, states) && k <= n < |states| && LeftBehind(states[k].b, TOPOLOGY, 1)
    ensures DeliveredOn(states[n].b, TOPOLOGY) == []
  {
    hide Inv, LeftBehind, Steps, Numbered, Payloads, Stream;
    var messages := QueuedOn(states[n].a, TOPOLOGY);
    if messages == [] {
      OrderedDeliveryIsPrefix(steps, states, n, TOPOLOGY);
      PayloadsSize(DeliveredOn(states[n].b, TOPOLOGY));
    } else {
      EveryStateLinked(steps, states, n);
      assert GoodChannel(states[n].a, TOPOLOGY);
      FirstNumber(messages);
      NeverDelivered(steps, states, k, n, false, TOPOLOGY, 1, 0);
    }
  }

  lemma PayloadsSize(log: seq<Delivery>)
    ensures |Payloads(log)| == |log|
  {
  }
}
