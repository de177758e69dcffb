/** A run in which a file-data message of two fragments is lost: both fragments are kept, but the receiver discards
    between them. */
module DiscardingRun {
  import opened Options
  import opened Bytes
  import opened Words
  import opened SequenceWindows
  import opened ReliablePackets
  import opened Transports
  import opened Accounting
  import opened MessageStreams
  import opened ReliableDelivery
  import opened SessionRuns
  import opened WindowCoupling
  import opened Stranding
  import opened OvertakingRun
  import opened Discarding

  const PAIR: bytes := Zeroes(MSS + 1)

  function Half(j: nat, sent: bool): Fragment
    requires j < 2
  {
    Fragment(FILE_DATA, j + 1, j, 2, Part(PAIR, j), 0, if sent then 1 else 0, false)
  }

  /** The sender with the first `i` of the two fragments sent. */
  function Sending(i: nat): Transport {
    NEW_TRANSPORT.(channels := map[FILE_DATA := Queued(2)], ackChannels := [FILE_DATA], outbound := [Half(0, 0 < i), Half(1, 1 < i)],
                   queuedBytes := MSS + 1, bytesInFlight := if i == 0 then 0 else MSS + i - 1)
  }

  function HalfPacket(j: nat): Packet
    requires j < 2
  {
    Packet(FILE_DATA, j + 1, j, 2, 0, 0, Part(PAIR, j))
  }

  lemma PairQueued()
    ensures CanQueue(NEW_TRANSPORT, FILE_DATA, |PAIR|) == None
    ensures Queue(NEW_TRANSPORT, FILE_DATA, PAIR) == Sending(0)
  {
    assert FragmentsOf(FILE_DATA, 0, PAIR) == [Half(0, false), Half(1, false)];
  }

  lemma HalfNext(i: nat)
    requires i < 2
    ensures |Sending(i).outbound| == 2 && PacketFor(Sending(i), Sending(i).outbound[i]) == HalfPacket(i)
    ensures Next(Sending(i), i) && AfterSend(Sending(i), i) == Sending(i + 1)
  {
    var t := Sending(i);
    OldestFacts(t.outbound, FILE_DATA);
    SmallMod(i + 1 - OldestTransmitted(t.outbound, FILE_DATA));
    assert t.outbound[i := t.outbound[i].(transmissions := 1)] == Sending(i + 1).outbound;
  }

  // ----- the receiver -----

  /** What the receiver is like with this window and these assemblies of so many bytes. */
  function Receiving(w: Window, m: map<uint64, Assembly>, size: nat): Transport {
    NEW_TRANSPORT.(channels := map[FILE_DATA := Channel(0, w, true, 1, m)], ackChannels := [FILE_DATA],
                   reassemblyBytes := size, reassemblyCount := |m|, reassemblyParts := |m|)
  }

  function First(): Window {
    Offer(EMPTY_WINDOW, 1).0
  }

  function HalfAssembly(): Assembly {
    Assembly(2, map[0 := Part(PAIR, 0)], MSS)
  }

  lemma Windows()
    ensures Takes(EMPTY_WINDOW, 1) && First().highest == 1 && Takes(First(), 2)
  {
    TracksEmpty();
    AcceptTracks(EMPTY_WINDOW, {}, 1);
    AcceptTracks(First(), {1}, 2);
  }

  lemma FirstHalfTaken()
    ensures ValidBody(HalfPacket(0)) && NEW_TRANSPORT.cwnd > 0
    ensures Receive(NEW_TRANSPORT, HalfPacket(0), 0) == (Receiving(First(), map[1 := HalfAssembly()], MSS), [])
    ensures Keeps(NEW_TRANSPORT, HalfPacket(0), 0)
  {
    Windows();
    hide Offer, Part;
    assert |Part(PAIR, 0)| == MSS by {
      PartSizes();
    }
    var t1 := MarkDirty(NEW_TRANSPORT, FILE_DATA);
    assert t1.channels == map[FILE_DATA := NEW_CHANNEL.(ackDirty := true)];
    var u := Store(t1, HalfPacket(0));
    assert u.channels[FILE_DATA].reassemblies == map[1 := HalfAssembly()];
    assert u.channels == map[FILE_DATA := Channel(0, First(), true, 1, map[1 := HalfAssembly()])];
    assert u == Receiving(First(), map[1 := HalfAssembly()], MSS);
    assert !Complete(HalfAssembly());
  }

  lemma PartSizes()
    ensures FragmentCount(|PAIR|) == 2 && |Part(PAIR, 0)| == MSS && |Part(PAIR, 1)| == 1
  {
  }

  lemma HalfDiscarded()
    ensures DiscardInbound(Receiving(First(), map[1 := HalfAssembly()], MSS), FILE_DATA) == Receiving(First(), map[], 0)
  {
    hide Offer, Part;
    var m: map<uint64, Assembly> := map[1 := HalfAssembly()];
    RetainedWithout(ByBytes, m, 1);
    RetainedWithout(ByAssemblies, m, 1);
    RetainedWithout(ByParts, m, 1);
    assert m - {1} == map[];
  }

  lemma SecondHalfKept()
    ensures ValidBody(HalfPacket(1)) && Keeps(Receiving(First(), map[], 0), HalfPacket(1), 0)
    ensures Receive(Receiving(First(), map[], 0), HalfPacket(1), 0).1 == []
  {
    Windows();
    PartSizes();
    hide Offer, Part;
  }

  // ----- the run -----

  /** Both halves have gone out. */
  lemma BothSent() returns (steps: seq<Step>, states: seq<Pair>)
    ensures At(steps, states, Sending(2))
    ensures HalfPacket(0) in states[|steps|].a.sent && HalfPacket(1) in states[|steps|].a.sent
  {
    hide Inv, Next, Queue, CanQueue, Steps, AfterSend, Sending, PacketFor, HalfPacket;
    PairQueued();
    Start();
    steps, states := Queues([], [Pair(NEW_SIDE, NEW_SIDE)], NEW_TRANSPORT, FILE_DATA, PAIR);
    HalfNext(0);
    steps, states := Sends(steps, states, Sending(0), 0);
    HalfNext(1);
    steps, states := Sends(steps, states, Sending(1), 1);
  }

  /** A run at whose end both fragments of a message have been kept, and yet it is not delivered, nor can it ever be
      (`LostForEver`): the first was discarded before the second came. */
  lemma DiscardedRun() returns (steps: seq<Step>, states: seq<Pair>)
    ensures SessionRun(steps, states)
    ensures KeptOn(states[|steps|].b, FILE_DATA) == {1, 2} && DeliveredOn(states[|steps|].b, FILE_DATA) == []
    ensures !HeldAt(states[|steps|].b, 1)
  {
    hide Inv, Steps, Receive, Keeps, DiscardInbound, ValidBody, Linked, HeldAt, HalfPacket, Receiving;
    steps, states := BothSent();
    FirstHalfTaken();
    HalfDiscarded();
    SecondHalfKept();
    PacketNumbers();
    steps, states := GoOn(steps, states, Step(false, Take(HalfPacket(0), 0)));
    steps, states := GoOn(steps, states, Step(false, DropInbound));
    var y := states[|steps|].b;
    assert y.t == Receiving(First(), map[], 0);
    NothingHeld(y);
    steps, states := GoOn(steps, states, Step(false, Take(HalfPacket(1), 0)));
    LostForEver(steps, states, |steps| - 1, |steps|, false, 1, 0);
  }

  lemma PacketNumbers()
    ensures HalfPacket(0).channel == FILE_DATA && HalfPacket(0).sequence == 1
    ensures HalfPacket(1).channel == FILE_DATA && HalfPacket(1).sequence == 2
  {
  }

  lemma NothingHeld(y: Side)
    requires y.t == Receiving(First(), map[], 0) && DeliveredOn(y, FILE_DATA) == []
    ensures !HeldAt(y, 1)
  {
    hide Offer;
  }
}
