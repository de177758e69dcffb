/** What arrival achieves: a message all of whose fragments arrive in time is delivered, whole and once, whatever the
    order in which they come and however often each is repeated. */
module MessageArrivals {
  import opened Options
  import opened Bytes
  import opened Words
  import opened SequenceWindows
  import opened ReliablePackets
  import opened Transports
  import opened Accounting
  import opened MessageStreams
  import opened ReliableDelivery
  import opened SessionRuns

  datatype Arrival = Arrival(packet: Packet, now: int)

  /** The transport after some arrivals, and all that they deliver. */
  ghost function ReceiveAll(t: Transport, arrivals: seq<Arrival>): (Transport, seq<Delivery>)
    requires Inv(t) && forall a :: a in arrivals ==> ValidBody(a.packet)
    decreases |arrivals|
  {
    if arrivals == [] then (t, [])
    else
      ReceiveInv(t, arrivals[0].packet, arrivals[0].now);
      var (t1, first) := Receive(t, arrivals[0].packet, arrivals[0].now);
      var (t2, more) := ReceiveAll(t1, arrivals[1..]);
      (t2, first + more)
  }

  /** A message on a channel, its fragments numbered from `start`. */
  datatype Message = Message(channel: uint16, start: uint64, body: bytes)
  {
    ghost function Size(): nat {
      FragmentCount(|body|)
    }

    /** What queueing allows. */
    ghost predicate Fits() {
      Known(channel) && 0 < start && 0 < Size() <= 1024 && start + Size() - 1 <= MAX_UINT64
    }

    /** One of its fragments, with whatever acknowledgment. */
    ghost predicate Fragment(p: Packet) {
      && ValidBody(p) && p.channel == channel
      && p.index < Size() && p.count == Size() && p.sequence == start + p.index
      && p.payload == Part(body, p.index)
    }

    ghost predicate Fragments(arrivals: seq<Arrival>) {
      forall a :: a in arrivals ==> Fragment(a.packet)
    }
  }

  /** The fragments that arrive. */
  function Indexes(arrivals: seq<Arrival>): set<uint16> {
    set a | a in arrivals :: a.packet.index
  }

  /** Every fragment not held yet is less than 64 behind the highest number received when it arrives. */
  predicate InTime(highest: uint64, got: set<uint16>, arrivals: seq<Arrival>)
    decreases |arrivals|
  {
    arrivals != [] ==>
      var q := arrivals[0].packet.sequence;
      && (arrivals[0].packet.index in got || highest - q < 64)
      && InTime(Max(highest, q), got + {arrivals[0].packet.index}, arrivals[1..])
  }

  /** In particular when the whole message lies in the window from the start. */
  lemma {:induction false} InsideIsInTime(highest: uint64, m: Message, got: set<uint16>, arrivals: seq<Arrival>)
    requires m.Fits() && m.Fragments(arrivals)
    requires m.Size() <= 64 && highest - m.start < 64
    ensures InTime(highest, got, arrivals)
    decreases |arrivals|
  {
    if arrivals != [] {
      assert m.Fragment(arrivals[0].packet);
      InsideIsInTime(Max(highest, arrivals[0].packet.sequence), m, got + {arrivals[0].packet.index}, arrivals[1..]);
    }
  }

  // ----- what follows the head of an ordered channel -----

  /** The messages an ordered channel has complete from number `next` on. */
  function Backlog(c: uint16, m: map<uint64, Assembly>, next: uint64): seq<Delivery>
    decreases |m|, 0
  {
    if next !in m || !Complete(m[next]) then []
    else
      [Delivery(c, next, Assembled(m[next], m[next].count))]
      + BacklogAfter(c, m - {next}, next, m[next].count)
  }

  /** What follows a message; nothing does once the sequence space is used up. */
  function BacklogAfter(c: uint16, m: map<uint64, Assembly>, start: uint64, count: nat): seq<Delivery>
    decreases |m|, 1
  {
    var after := (start + count) % WORD_SIZE;
    if after < start then [] else Backlog(c, m, after)
  }

  lemma {:induction false} DeliverOrderedIsBacklog(t: Transport, c: uint16)
    requires c in t.channels
    ensures var (u, ms) := DeliverOrdered(t, c);
      && ms == Backlog(c, t.channels[c].reassemblies, t.channels[c].nextDelivered)
      && c in u.channels && u.channels[c].received == t.channels[c].received
    decreases |t.channels[c].reassemblies|
  {
    hide Assembled;
    if HeadReady(t, c) {
      DeliverHeadChannel(t, c);
      var (t1, m) := DeliverHead(t, c);
      if !Wraps(t, c) {
        DeliverOrderedIsBacklog(t1, c);
      }
    }
  }

  // ----- one message gathering -----

  /** An assembly that holds those fragments of a message and no others. */
  ghost predicate Holds(a: Assembly, m: Message, got: set<uint16>) {
    && a.count == m.Size()
    && a.fragments.Keys == got
    && forall i :: i in got ==> i < m.Size() && a.fragments[i] == Part(m.body, i)
  }

  /** A channel that has kept those fragments of a message; `rest` are its other assemblies. */
  ghost predicate Gathers(state: Channel, m: Message, kept: set<uint64>, got: set<uint16>, rest: map<uint64, Assembly>)
  {
    && Tracks(state.received, kept)
    && (forall q: uint64 :: m.start <= q < m.start + m.Size() ==> (q - m.start in got <==> q in kept))
    && state.reassemblies - {m.start} == rest
    && (m.start in state.reassemblies <==> got != {})
    && (m.start in state.reassemblies ==> Holds(state.reassemblies[m.start], m, got))
    && (Ordered(m.channel) ==> state.nextDelivered == m.start)
  }

  function HeldBytes(state: Channel, m: Message): int {
    if m.start in state.reassemblies then state.reassemblies[m.start].bytes else 0
  }

  /** The budgets have room for what is missing. */
  ghost predicate Room(t: Transport, m: Message, got: set<uint16>) {
    && |m.body| - HeldBytes(ChannelOf(t, m.channel), m) <= MAX_REASSEMBLY_BYTES - t.reassemblyBytes
    && m.Size() - |got| <= MAX_FRAGMENTS - t.reassemblyParts
    && (got == {} ==> t.reassemblyCount < MAX_ASSEMBLIES)
  }

  /** All numbers of the message have been received. */
  ghost predicate Settled(t: Transport, m: Message, kept: set<uint64>) {
    && Tracks(ChannelOf(t, m.channel).received, kept)
    && forall q: uint64 :: m.start <= q < m.start + m.Size() ==> q in kept
  }

  /** Looking at a packet's data touches nothing that receiving depends on. */
  lemma LookedKeeps(t: Transport, p: Packet, now: int)
    requires Inv(t) && Known(p.channel)
    ensures t.cwnd > 0
    ensures var u := Looked(t, p, now);
      && Inv(u) && p.channel in u.channels
      && u.channels[p.channel] == ChannelOf(t, p.channel).(ackDirty := true)
      && u.reassemblyBytes == t.reassemblyBytes && u.reassemblyParts == t.reassemblyParts
      && u.reassemblyCount == t.reassemblyCount
  {
    hide Absorb, Unacked, PayloadBytes, Grow, FlightBytes, Total, GoodFragment, Increasing, GoodAssemblies;
    LookedChannel(t, p, now);
    AbsorbFacts(t, t.outbound, p.channel, p.ackBase, p.ackBitmap, now);
  }

  /** A fragment received before is not kept again. */
  lemma RepeatIsIgnored(t: Transport, m: Message, p: Packet, now: int, kept: set<uint64>)
    requires Inv(t) && m.Fits() && m.Fragment(p)
    requires Tracks(ChannelOf(t, m.channel).received, kept) && p.sequence in kept
    ensures t.cwnd > 0 && Receive(t, p, now) == (Looked(t, p, now), [])
  {
    hide ConsumeAck, MarkDirty, Deliver, Store, Offer, ValidBody, Part, FragmentCount, Tracks, Inv;
    LookedKeeps(t, p, now);
    AcceptTracks(ChannelOf(t, m.channel).received, kept, p.sequence);
  }

  /** Fragments of one message never add up to more than the message. */
  lemma {:induction false} HeldFits(a: Assembly, m: Message, got: set<uint16>, upTo: nat)
    requires Holds(a, m, got) && upTo <= a.count
    ensures |Assembled(a, upTo)| <= Min(upTo * MSS, |m.body|)
  {
    hide Part, FragmentCount;
    if upTo > 0 {
      HeldFits(a, m, got, upTo - 1);
      PartAdds(m.body, upTo - 1);
    }
  }

  lemma StoredHolds(state: Channel, m: Message, p: Packet, kept: set<uint64>, got: set<uint16>, rest: map<uint64, Assembly>)
    requires m.Fits() && m.Fragment(p) && p.index !in got && Gathers(state, m, kept, got, rest)
    ensures Holds(Grown(state, p), m, got + {p.index})
  {
    hide Part, FragmentCount, Tracks, ValidBody;
  }

  /** What is held and the fragment that arrives fit the message together. */
  lemma HeldAndOneMore(t: Transport, m: Message, p: Packet, kept: set<uint64>, got: set<uint16>, rest: map<uint64, Assembly>)
    requires Inv(t) && m.Fits() && m.Fragment(p) && p.index !in got
    requires Gathers(ChannelOf(t, m.channel), m, kept, got, rest)
    ensures HeldBytes(ChannelOf(t, m.channel), m) + |p.payload| <= |m.body|
  {
    hide Part, FragmentCount, Tracks, ValidBody, Assembled, Inv, GoodAssembly;
    var state := ChannelOf(t, m.channel);
    StoredHolds(state, m, p, kept, got, rest);
    var a := if m.start in state.reassemblies then state.reassemblies[m.start] else Assembly(p.count, map[], 0);
    HeldSize(t, m, a);
    AssembledStore(a, p.index, p.payload, a.count);
    HeldFits(Grown(state, p), m, got + {p.index}, a.count);
    AssembledIgnoresSize(a.(fragments := a.fragments[p.index := p.payload]), a.bytes + |p.payload|, a.count);
  }

  lemma HeldSize(t: Transport, m: Message, a: Assembly)
    requires Inv(t)
    requires var state := ChannelOf(t, m.channel);
      if m.start in state.reassemblies then a == state.reassemblies[m.start] else a == Assembly(a.count, map[], 0)
    ensures |Assembled(a, a.count)| == HeldBytes(ChannelOf(t, m.channel), m)
  {
    hide CongestionInv, SenderInv, ChannelInv, Total, Assembled;
    if m.start in ChannelOf(t, m.channel).reassemblies {
      HeldAssemblies(t, m.channel);
    } else {
      AssembledEmpty(a.count, 0, a.count);
    }
  }

  /** A fragment not held yet is kept when it arrives in time. */
  lemma NewIsKept(t: Transport, m: Message, p: Packet, now: int, kept: set<uint64>, got: set<uint16>, rest: map<uint64, Assembly>)
    requires Inv(t) && m.Fits() && m.Fragment(p) && p.index !in got && |got| < m.Size()
    requires Gathers(ChannelOf(t, m.channel), m, kept, got, rest) && Room(t, m, got)
    requires ChannelOf(t, m.channel).received.highest - p.sequence < 64
    ensures t.cwnd > 0 && p.channel in Looked(t, p, now).channels && !p.AckOnly() && Retains(Looked(t, p, now), p)
  {
    hide Part, FragmentCount, Tracks, ValidBody, Assembled, Inv, Looked, Offer;
    LookedKeeps(t, p, now);
    HeldAndOneMore(t, m, p, kept, got, rest);
    AcceptTracks(ChannelOf(t, m.channel).received, kept, p.sequence);
  }

  lemma StoredGathers(state: Channel, m: Message, p: Packet, kept: set<uint64>, got: set<uint16>, rest: map<uint64, Assembly>)
    requires m.Fits() && m.Fragment(p) && p.index !in got && Takes(state.received, p.sequence)
    requires Gathers(state, m, kept, got, rest)
    ensures Gathers(StoreIn(state, p), m, kept + {p.sequence}, got + {p.index}, rest)
  {
    hide Part, FragmentCount, Tracks, ValidBody, Offer, Holds, Grown;
    AcceptTracks(state.received, kept, p.sequence);
    StoredHolds(state, m, p, kept, got, rest);
  }

  /** What the last fragment brings: the message, and on an ordered channel whatever was waiting behind it. */
  ghost function Brings(m: Message, rest: map<uint64, Assembly>): seq<Delivery> {
    [Delivery(m.channel, m.start, m.body)]
    + if Ordered(m.channel) then BacklogAfter(m.channel, rest, m.start, m.Size()) else []
  }

  lemma TakenHighest(w: Window, q: uint64)
    requires Takes(w, q)
    ensures Offer(w, q).0.highest == Max(w.highest, q)
  {
    hide SetBit, ShiftLeft, Bit;
  }

  /** Storing a new fragment, before anything is delivered. */
  lemma Stored(t: Transport, m: Message, p: Packet, kept: set<uint64>, got: set<uint16>, rest: map<uint64, Assembly>)
    requires Inv(t) && m.Fits() && m.Fragment(p) && p.index !in got && p.channel in t.channels
    requires Gathers(t.channels[p.channel], m, kept, got, rest) && Room(t, m, got) && Retains(t, p)
    ensures var u := Store(t, p);
      && Inv(u) && p.channel in u.channels && m.start in u.channels[p.channel].reassemblies
      && Gathers(u.channels[p.channel], m, kept + {p.sequence}, got + {p.index}, rest)
      && Room(u, m, got + {p.index})
      && |u.channels[p.channel].reassemblies[m.start].fragments| == |got| + 1
      && u.channels[p.channel].received.highest == Max(t.channels[p.channel].received.highest, p.sequence)
  {
    hide Part, FragmentCount, Tracks, ValidBody, Offer, Holds, Inv;
    StoreInv(t, p);
    TakenHighest(t.channels[p.channel].received, p.sequence);
    StoredGathers(t.channels[p.channel], m, p, kept, got, rest);
    StoredHolds(t.channels[p.channel], m, p, kept, got, rest);
    HoldsSize(Grown(t.channels[p.channel], p), m, got + {p.index});
    assert |got + {p.index}| == |got| + 1;
  }

  lemma HoldsSize(a: Assembly, m: Message, got: set<uint16>)
    requires Holds(a, m, got)
    ensures |a.fragments| == |got| && a.count == m.Size()
  {
    assert |a.fragments| == |a.fragments.Keys|;
  }

  /** Receiving a new fragment that does not complete the message. */
  lemma OneMore(t: Transport, m: Message, p: Packet, now: int, kept: set<uint64>, got: set<uint16>, rest: map<uint64, Assembly>)
    requires Inv(t) && m.Fits() && m.Fragment(p) && p.index !in got && |got| + 1 < m.Size()
    requires Gathers(ChannelOf(t, m.channel), m, kept, got, rest) && Room(t, m, got)
    requires ChannelOf(t, m.channel).received.highest - p.sequence < 64
    ensures t.cwnd > 0
    ensures var (u, ms) := Receive(t, p, now);
      && ms == []
      && Gathers(ChannelOf(u, m.channel), m, kept + {p.sequence}, got + {p.index}, rest)
      && Room(u, m, got + {p.index})
      && ChannelOf(u, m.channel).received.highest == Max(ChannelOf(t, m.channel).received.highest, p.sequence)
  {
    hide Part, FragmentCount, ValidBody, Inv, Looked, Retains, Store, Tracks, Holds;
    LookedKeeps(t, p, now);
    NewIsKept(t, m, p, now, kept, got, rest);
    Stored(Looked(t, p, now), m, p, kept, got, rest);
    HoldsSize(Store(Looked(t, p, now), p).channels[p.channel].reassemblies[m.start], m, got + {p.index});
    assert Receive(t, p, now) == (Store(Looked(t, p, now), p), []) by {
      ReceiveStores(t, p, now);
    }
  }

  lemma ReceiveStores(t: Transport, p: Packet, now: int)
    requires Inv(t) && ValidBody(p) && !p.AckOnly() && Known(p.channel)
    ensures t.cwnd > 0 && p.channel in Looked(t, p, now).channels
    ensures Retains(Looked(t, p, now), p) ==> Receive(t, p, now) == Deliver(Store(Looked(t, p, now), p), p)
  {
    LookedKeeps(t, p, now);
    hide Inv, ValidBody, ConsumeAck, Store, Deliver, Retains;
  }

  /** A gathered assembly that has them all is the message. */
  lemma AllHeld(state: Channel, m: Message, kept: set<uint64>, got: set<uint16>, rest: map<uint64, Assembly>)
    requires m.Fits() && Gathers(state, m, kept, got, rest) && |got| == m.Size()
    requires m.start in state.reassemblies && GoodAssembly(state.reassemblies[m.start])
    ensures var a := state.reassemblies[m.start];
      Complete(a) && a.count == m.Size() && Assembled(a, a.count) == m.body
    ensures forall q: uint64 :: m.start <= q < m.start + m.Size() ==> q in kept
  {
    hide Part, FragmentCount, Tracks;
    var a := state.reassemblies[m.start];
    HoldsSize(a, m, got);
    CompleteHasAll(a);
    CompleteIsMessage(a, m.body);
    forall q: uint64 | m.start <= q < m.start + m.Size()
      ensures q in kept
    {
      var i: nat := q - m.start;
      assert i in a.fragments;
    }
  }

  /** Delivering a message that is complete. */
  lemma CompleteIsDelivered(t: Transport, m: Message, p: Packet, kept: set<uint64>, got: set<uint16>, rest: map<uint64, Assembly>)
    requires Inv(t) && m.Fits() && m.Fragment(p) && |got| == m.Size() && p.channel in t.channels && !p.AckOnly()
    requires Gathers(t.channels[p.channel], m, kept, got, rest) && m.start in t.channels[p.channel].reassemblies
    ensures var (u, ms) := Deliver(t, p);
      ms == Brings(m, rest) && Settled(u, m, kept)
  {
    hide Part, FragmentCount, Tracks, Inv, ValidBody, Assembled, Holds, Complete, GoodAssembly;
    var c := p.channel;
    HeldAssemblies(t, c);
    AllHeld(t.channels[c], m, kept, got, rest);
    if Ordered(c) {
      DeliverOrderedIsBacklog(t, c);
    }
  }

  /** Receiving the last fragment. */
  lemma LastOne(t: Transport, m: Message, p: Packet, now: int, kept: set<uint64>, got: set<uint16>, rest: map<uint64, Assembly>)
    requires Inv(t) && m.Fits() && m.Fragment(p) && p.index !in got && |got| + 1 == m.Size()
    requires Gathers(ChannelOf(t, m.channel), m, kept, got, rest) && Room(t, m, got)
    requires ChannelOf(t, m.channel).received.highest - p.sequence < 64
    ensures t.cwnd > 0
    ensures var (u, ms) := Receive(t, p, now);
      ms == Brings(m, rest) && Settled(u, m, kept + {p.sequence})
  {
    hide Part, FragmentCount, ValidBody, Inv, Looked, Retains, Store, Tracks, Deliver, Holds, Brings;
    LookedKeeps(t, p, now);
    NewIsKept(t, m, p, now, kept, got, rest);
    Stored(Looked(t, p, now), m, p, kept, got, rest);
    assert |got + {p.index}| == |got| + 1;
    CompleteIsDelivered(Store(Looked(t, p, now), p), m, p, kept + {p.sequence}, got + {p.index}, rest);
    ReceiveStores(t, p, now);
  }

  // ----- all arrivals -----

  /** Once a message is settled, more copies of its fragments bring nothing. */
  lemma {:induction false} SettledIsQuiet(t: Transport, m: Message, kept: set<uint64>, arrivals: seq<Arrival>)
    requires Inv(t) && m.Fits() && m.Fragments(arrivals) && Settled(t, m, kept)
    ensures ReceiveAll(t, arrivals).1 == []
    decreases |arrivals|
  {
    hide Part, FragmentCount, ValidBody, Inv, Looked, Receive, Tracks;
    if arrivals != [] {
      var p, now := arrivals[0].packet, arrivals[0].now;
      assert m.Fragment(p);
      RepeatIsIgnored(t, m, p, now, kept);
      LookedKeeps(t, p, now);
      SettledIsQuiet(Looked(t, p, now), m, kept, arrivals[1..]);
    }
  }

  lemma FirstIndex(arrivals: seq<Arrival>)
    requires arrivals != []
    ensures Indexes(arrivals) == {arrivals[0].packet.index} + Indexes(arrivals[1..])
  {
    assert arrivals == [arrivals[0]] + arrivals[1..];
  }

  /** Every fragment of the message is held or arrives. */
  ghost predicate Covers(m: Message, got: set<uint16>, arrivals: seq<Arrival>) {
    forall i: uint16 :: i < m.Size() ==> i in got + Indexes(arrivals)
  }

  lemma CoversRest(m: Message, got: set<uint16>, arrivals: seq<Arrival>)
    requires Covers(m, got, arrivals) && arrivals != []
    ensures Covers(m, got + {arrivals[0].packet.index}, arrivals[1..])
  {
    FirstIndex(arrivals);
    hide Indexes;
    forall i: uint16 | i < m.Size()
      ensures i in (got + {arrivals[0].packet.index}) + Indexes(arrivals[1..])
    {
      assert i in got + Indexes(arrivals);
    }
  }

  lemma {:induction false} AllIndexes(got: set<uint16>, n: nat)
    requires forall i: uint16 :: i < n ==> i in got
    requires n <= MAX_RELIABLE_FRAGMENTS
    ensures |got| >= n
  {
    if n > 0 {
      AllIndexes(got - {n - 1}, n - 1);
    }
  }

  lemma NoneMissing(m: Message, got: set<uint16>)
    requires m.Fits() && Covers(m, got, [])
    ensures |got| >= m.Size()
  {
    hide FragmentCount;
    forall i: uint16 | i < m.Size()
      ensures i in got
    {
      assert i in got + Indexes([]);
    }
    AllIndexes(got, m.Size());
  }

  /** A fragment held already changes nothing when it comes again. */
  lemma Again(t: Transport, m: Message, p: Packet, now: int, kept: set<uint64>, got: set<uint16>, rest: map<uint64, Assembly>)
    requires Inv(t) && m.Fits() && m.Fragment(p) && p.index in got
    requires Gathers(ChannelOf(t, m.channel), m, kept, got, rest) && Room(t, m, got)
    ensures t.cwnd > 0
    ensures var (u, ms) := Receive(t, p, now);
      && ms == [] && u == Looked(t, p, now)
      && Gathers(ChannelOf(u, m.channel), m, kept, got, rest) && Room(u, m, got)
      && ChannelOf(u, m.channel).received.highest == Max(ChannelOf(t, m.channel).received.highest, p.sequence)
  {
    hide Part, FragmentCount, ValidBody, Inv, Looked, Receive, Holds;
    LookedKeeps(t, p, now);
    RepeatIsIgnored(t, m, p, now, kept);
  }

  /** From any fragments held on: if the others arrive in time, the message is delivered, whole and once. */
  lemma {:induction false} GatheringEnds(t: Transport, m: Message, kept: set<uint64>, got: set<uint16>,
                                         rest: map<uint64, Assembly>, arrivals: seq<Arrival>)
    requires Inv(t) && m.Fits() && m.Fragments(arrivals) && Covers(m, got, arrivals) && |got| < m.Size()
    requires Gathers(ChannelOf(t, m.channel), m, kept, got, rest) && Room(t, m, got)
    requires InTime(ChannelOf(t, m.channel).received.highest, got, arrivals)
    ensures ReceiveAll(t, arrivals).1 == Brings(m, rest)
    decreases |arrivals|
  {
    hide Part, FragmentCount, ValidBody, Inv, Looked, Receive, Tracks, Settled, Room, Holds, Brings;
    if arrivals == [] {
      NoneMissing(m, got);
    } else {
      var p, now := arrivals[0].packet, arrivals[0].now;
      assert m.Fragment(p);
      LookedKeeps(t, p, now);
      CoversRest(m, got, arrivals);
      ReceiveInv(t, p, now);
      if p.index in got {
        assert got + {p.index} == got;
        Again(t, m, p, now, kept, got, rest);
        GatheringEnds(Looked(t, p, now), m, kept, got, rest, arrivals[1..]);
      } else {
        var u := Receive(t, p, now).0;
        if |got| + 1 < m.Size() {
          OneMore(t, m, p, now, kept, got, rest);
          assert |got + {p.index}| == |got| + 1;
          GatheringEnds(u, m, kept + {p.sequence}, got + {p.index}, rest, arrivals[1..]);
        } else {
          LastOne(t, m, p, now, kept, got, rest);
          SettledIsQuiet(u, m, kept + {p.sequence}, arrivals[1..]);
        }
      }
    }
  }

  /** A message none of whose fragments has been received, next in turn if its channel is ordered, and for which the
      budgets have room: once all of its fragments have arrived in time, in any order and with any repeats, exactly that
      message has been delivered, and on an ordered channel the messages that were complete behind it. */
  lemma MessageArrives(t: Transport, m: Message, kept: set<uint64>, arrivals: seq<Arrival>)
    requires Inv(t) && m.Fits() && m.Fragments(arrivals)
    requires forall i: uint16 :: i < m.Size() ==> i in Indexes(arrivals)
    requires var state := ChannelOf(t, m.channel);
      && Tracks(state.received, kept)
      && (forall q: uint64 :: m.start <= q < m.start + m.Size() ==> q !in kept)
      && m.start !in state.reassemblies
      && (Ordered(m.channel) ==> state.nextDelivered == m.start)
      && InTime(state.received.highest, {}, arrivals)
    requires |m.body| <= 0x40_0000 - t.reassemblyBytes
    requires m.Size() <= 8192 - t.reassemblyParts
    requires t.reassemblyCount < 4096
    ensures ReceiveAll(t, arrivals).1
         == [Delivery(m.channel, m.start, m.body)]
            + if Ordered(m.channel) then BacklogAfter(m.channel, ChannelOf(t, m.channel).reassemblies, m.start, m.Size()) else []
  {
    hide Part, FragmentCount, ValidBody, Inv, ReceiveAll, Tracks, InTime, Indexes, BacklogAfter;
    var rest := ChannelOf(t, m.channel).reassemblies;
    assert rest - {m.start} == rest;
    assert Covers(m, {}, arrivals) by {
      forall i: uint16 | i < m.Size()
        ensures i in {} + Indexes(arrivals)
      {
      }
    }
    GatheringEnds(t, m, kept, {}, rest, arrivals);
  }

  /** Message `k` queued on a channel, with its numbers. */
  ghost predicate IsQueued(x: Side, m: Message, k: nat) {
    && Known(m.channel) && k < |QueuedOn(x, m.channel)|
    && m.start == Before(QueuedOn(x, m.channel), k) + 1
    && m.body == QueuedOn(x, m.channel)[k]
  }

  lemma QueuedFits(x: Side, m: Message, k: nat)
    requires GoodChannel(x, m.channel) && IsQueued(x, m, k)
    ensures m.Fits()
    ensures m.start + m.Size() - 1 == Before(QueuedOn(x, m.channel), k + 1)
  {
    var messages := QueuedOn(x, m.channel);
    hide Stream;
    BeforeNext(messages, k);
    BeforeMonotone(messages, k + 1, |messages|);
    assert messages[..|messages|] == messages;
  }

  /** A message none of whose fragments has been kept has no assembly. */
  lemma NotBegun(messages: seq<bytes>, state: Channel, kept: set<uint64>, m: Message)
    requires GoodParts(messages, state, kept) && GoodAssemblies(state.reassemblies)
    requires forall q: uint64 :: m.start <= q < m.start + m.Size() ==> q !in kept
    requires exists k :: 0 <= k < |messages| && m.start == Before(messages, k) + 1 && m.body == messages[k] && m.body != []
    ensures m.start !in state.reassemblies
  {
    hide FragmentCount, Part, Stream, Assembled;
    if m.start in state.reassemblies {
      var a := state.reassemblies[m.start];
      assert GoodAssembly(a);
      var i :| i in a.fragments;
      assert GoodPart(messages, kept, m.start, a, i);
      var j := PartOf(messages, kept, m.start, a, i);
      var k :| 0 <= k < |messages| && m.start == Before(messages, k) + 1 && m.body == messages[k];
      SameStartSameMessage(messages, j, k);
    }
  }

  /** Nothing of the message has been kept, it is next in turn if its channel is ordered, and the budgets have room. */
  ghost predicate Awaited(x: Side, y: Side, m: Message, k: nat) {
    && IsQueued(x, m, k)
    && (forall q: uint64 :: m.start <= q < m.start + m.Size() ==> q !in KeptOn(y, m.channel))
    && (Ordered(m.channel) ==> k == |DeliveredOn(y, m.channel)|)
    && |m.body| <= 0x40_0000 - y.t.reassemblyBytes
    && m.Size() <= 8192 - y.t.reassemblyParts
    && y.t.reassemblyCount < 4096
  }

  lemma AwaitedState(x: Side, y: Side, m: Message, k: nat)
    requires Linked(x, y) && Awaited(x, y, m, k)
    ensures m.Fits() && Inv(y.t)
    ensures var state := ChannelOf(y.t, m.channel);
      && Tracks(state.received, KeptOn(y, m.channel))
      && m.start !in state.reassemblies
      && (Ordered(m.channel) ==> state.nextDelivered == m.start)
  {
    hide Part, FragmentCount, ValidBody, Inv, Tracks, Stream, GoodParts, NothingLost;
    var c := m.channel;
    assert ReceivesOn(x, y, c) && GoodChannel(x, c);
    QueuedFits(x, m, k);
    HeldOn(y.t, c);
    NotBegun(QueuedOn(x, c), ChannelOf(y.t, c), KeptOn(y, c), m);
  }

  /** Between the two ends of any run, in any of its states: such a queued message is delivered, whole and once, when all
      of its fragments have arrived in time. */
  lemma QueuedMessageArrives(steps: seq<Step>, states: seq<Pair>, i: nat, x: Side, y: Side, m: Message, k: nat, arrivals: seq<Arrival>)
    requires SessionRun(steps, states) && i < |states| && (states[i] == Pair(x, y) || states[i] == Pair(y, x))
    requires Awaited(x, y, m, k) && m.Fragments(arrivals)
    requires forall i: uint16 :: i < m.Size() ==> i in Indexes(arrivals)
    requires InTime(ChannelOf(y.t, m.channel).received.highest, {}, arrivals)
    ensures Inv(y.t)
    ensures ReceiveAll(y.t, arrivals).1
         == [Delivery(m.channel, m.start, QueuedOn(x, m.channel)[k])]
            + if Ordered(m.channel) then
                BacklogAfter(m.channel, ChannelOf(y.t, m.channel).reassemblies, m.start, m.Size())
              else []
  {
    EveryStateLinked(steps, states, i);
    hide SessionRun, Linked, Inv, ReceiveAll, Tracks, InTime, Indexes, BacklogAfter, Stream, ValidBody, Part, FragmentCount;
    if states[i] == Pair(y, x) {
      LinkedBothWays(y, x);
    }
    AwaitedState(x, y, m, k);
    MessageArrives(y.t, m, KeptOn(y, m.channel), arrivals);
  }

  lemma HeldOn(t: Transport, c: uint16)
    requires Inv(t)
    ensures GoodAssemblies(ChannelOf(t, c).reassemblies)
  {
    if c in t.channels {
      HeldAssemblies(t, c);
    }
  }
}
