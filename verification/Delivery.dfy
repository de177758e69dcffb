/** What one channel has received, relative to the messages queued on it at the other end. */
module ReliableDelivery {
  import opened Bytes
  import opened Words
  import opened SequenceWindows
  import opened ReliablePackets
  import opened Transports
  import opened Accounting
  import opened MessageStreams

  function ChannelOf(t: Transport, c: uint16): Channel {
    if c in t.channels then t.channels[c] else NEW_CHANNEL
  }

  // ----- the receiving half of the invariant, one channel at a time -----

  ghost predicate GoodPart(messages: seq<bytes>, kept: set<uint64>, s: uint64, a: Assembly, i: uint16)
    requires i in a.fragments
  {
    && s > 0
    && Carries(messages, s + i, i, a.count, a.fragments[i])
    && s + i in kept
  }

  /** Every retained fragment is a fragment of some queued message, filed under that message. */
  ghost predicate GoodParts(messages: seq<bytes>, state: Channel, kept: set<uint64>) {
    forall s, i :: s in state.reassemblies && i in state.reassemblies[s].fragments ==>
      GoodPart(messages, kept, s, state.reassemblies[s], i)
  }

  ghost predicate Retaining(state: Channel, q: uint64) {
    exists s :: s in state.reassemblies && s <= q && q - s in state.reassemblies[s].fragments
  }

  /** An ordered channel has delivered a prefix, all of which it kept, and still holds everything it kept beyond it. */
  ghost predicate InOrder(messages: seq<bytes>, state: Channel, log: seq<Delivery>, kept: set<uint64>) {
    && |log| <= |messages|
    && (forall k :: 0 <= k < |log| ==> log[k].payload == messages[k])
    && state.nextDelivered == (Before(messages, |log|) + 1) % WORD_SIZE
    && (forall q :: q in kept ==> q <= Before(messages, |log|) || Retaining(state, q))
    && DeliveredKept(messages, |log|, kept)
  }

  /** Every fragment of the first `n` messages has been kept. */
  ghost predicate DeliveredKept(messages: seq<bytes>, n: nat, kept: set<uint64>)
    requires n <= |messages|
  {
    forall q: uint64 :: 0 < q <= Before(messages, n) ==> q in kept
  }

  /** A delivery is message `k`, and all of its fragments have been kept. */
  ghost predicate IsMessage(messages: seq<bytes>, kept: set<uint64>, d: Delivery, k: nat) {
    && k < |messages|
    && d.start == Before(messages, k) + 1
    && d.payload == messages[k]
    && forall q: uint64 :: Before(messages, k) < q <= Before(messages, k) + FragmentCount(|messages[k]|) ==> q in kept
  }

  ghost predicate SomeMessage(messages: seq<bytes>, kept: set<uint64>, d: Delivery) {
    exists k :: IsMessage(messages, kept, d, k)
  }

  /** An unordered channel delivers whole messages, each at most once. */
  ghost predicate OnceEach(messages: seq<bytes>, log: seq<Delivery>, kept: set<uint64>) {
    && (forall j :: 0 <= j < |log| ==> SomeMessage(messages, kept, log[j]))
    && (forall i, j :: 0 <= i < j < |log| ==> log[i].start != log[j].start)
  }

  ghost predicate ReceivingOn(c: uint16, messages: seq<bytes>, state: Channel, log: seq<Delivery>, kept: set<uint64>) {
    && GoodParts(messages, state, kept)
    && Tracks(state.received, kept)
    && if Ordered(c) then InOrder(messages, state, log, kept) else OnceEach(messages, log, kept)
  }

  // ----- storing a fragment -----

  /** What makes a message a message: it has fragments, and the channel never outgrows its numbering. */
  ghost predicate Numbered(messages: seq<bytes>) {
    && |Stream(messages)| <= MAX_UINT64
    && forall k :: 0 <= k < |messages| ==> 0 < |messages[k]| <= MAX_RELIABLE_FRAGMENTS * MSS
  }

  lemma GrownParts(messages: seq<bytes>, state: Channel, kept: set<uint64>, p: Packet)
    requires GoodParts(messages, state, kept) && ValidBody(p) && !p.AckOnly()
    requires Carries(messages, p.sequence, p.index, p.count, p.payload)
    requires p.sequence - p.index in state.reassemblies ==> state.reassemblies[p.sequence - p.index].count == p.count
    ensures GoodParts(messages, StoreIn(state, p), kept + {p.sequence})
  {
    hide Carries, Offer;
    var next := StoreIn(state, p);
    var start := p.sequence - p.index;
    forall s, i | s in next.reassemblies && i in next.reassemblies[s].fragments
      ensures GoodPart(messages, kept + {p.sequence}, s, next.reassemblies[s], i)
    {
      if s != start || i != p.index {
        assert s in state.reassemblies && i in state.reassemblies[s].fragments;
        assert GoodPart(messages, kept, s, state.reassemblies[s], i);
      }
    }
  }

  lemma StillRetaining(state: Channel, p: Packet, q: uint64)
    requires ValidBody(p) && !p.AckOnly() && Retaining(state, q)
    ensures Retaining(StoreIn(state, p), q)
  {
    hide Offer;
    var s :| s in state.reassemblies && s <= q && q - s in state.reassemblies[s].fragments;
    assert s in StoreIn(state, p).reassemblies;
  }

  lemma MoreKept(messages: seq<bytes>, log: seq<Delivery>, kept: set<uint64>, q: uint64)
    requires OnceEach(messages, log, kept)
    ensures OnceEach(messages, log, kept + {q})
  {
    forall j | 0 <= j < |log|
      ensures SomeMessage(messages, kept + {q}, log[j])
    {
      assert SomeMessage(messages, kept, log[j]);
      var k :| IsMessage(messages, kept, log[j], k);
      assert IsMessage(messages, kept + {q}, log[j], k);
    }
  }

  lemma StoreReceives(c: uint16, messages: seq<bytes>, state: Channel, log: seq<Delivery>, kept: set<uint64>, p: Packet)
    requires ReceivingOn(c, messages, state, log, kept) && ValidBody(p) && !p.AckOnly()
    requires Carries(messages, p.sequence, p.index, p.count, p.payload)
    requires Takes(state.received, p.sequence)
    requires p.sequence - p.index in state.reassemblies ==> state.reassemblies[p.sequence - p.index].count == p.count
    ensures p.sequence !in kept
    ensures ReceivingOn(c, messages, StoreIn(state, p), log, kept + {p.sequence})
  {
    hide Carries, GoodParts, Tracks, IsMessage;
    GrownParts(messages, state, kept, p);
    AcceptTracks(state.received, kept, p.sequence);
    var next, all := StoreIn(state, p), kept + {p.sequence};
    if Ordered(c) {
      forall q | q in all
        ensures q <= Before(messages, |log|) || Retaining(next, q)
      {
        if q == p.sequence {
          assert p.sequence - p.index in next.reassemblies;
        } else if Retaining(state, q) {
          StillRetaining(state, p, q);
        }
      }
    } else {
      MoreKept(messages, log, kept, p.sequence);
    }
  }

  // ----- delivering -----

  /** Every fragment of a good assembly belongs to the one message that starts where the assembly does. */
  lemma PartOf(messages: seq<bytes>, kept: set<uint64>, s: uint64, a: Assembly, i: uint16) returns (k: nat)
    requires i in a.fragments && GoodPart(messages, kept, s, a, i)
    ensures k < |messages| && s == Before(messages, k) + 1 && a.count == FragmentCount(|messages[k]|)
    ensures i < a.count && a.fragments[i] == Part(messages[k], i)
    ensures messages[k] != []
  {
    k := MessageOf(messages, s, i, a.count, a.fragments[i]);
  }

  lemma CompleteParts(messages: seq<bytes>, kept: set<uint64>, s: uint64, a: Assembly) returns (k: nat)
    requires GoodAssembly(a) && Complete(a)
    requires forall i :: i in a.fragments ==> GoodPart(messages, kept, s, a, i)
    ensures k < |messages| && s == Before(messages, k) + 1 && a.count == FragmentCount(|messages[k]|)
    ensures forall i: nat :: i < a.count ==> i in a.fragments && a.fragments[i] == Part(messages[k], i) && s + i in kept
  {
    CompleteHasAll(a);
    hide FragmentCount, Part, Assembled, Stream, Pieces;
    k := PartOf(messages, kept, s, a, 0);
    forall i: nat | i < a.count
      ensures i in a.fragments && a.fragments[i] == Part(messages[k], i) && s + i in kept
    {
      assert GoodPart(messages, kept, s, a, i);
      var j := PartOf(messages, kept, s, a, i);
      SameStartSameMessage(messages, j, k);
    }
  }

  /** A complete assembly is byte for byte the message it is filed under. */
  lemma CompleteAssembly(c: uint16, messages: seq<bytes>, state: Channel, kept: set<uint64>, s: uint64) returns (k: nat)
    requires GoodParts(messages, state, kept) && s in state.reassemblies
    requires GoodAssembly(state.reassemblies[s]) && Complete(state.reassemblies[s])
    ensures IsMessage(messages, kept, Delivery(c, s, Assembled(state.reassemblies[s], state.reassemblies[s].count)), k)
    ensures state.reassemblies[s].count == FragmentCount(|messages[k]|)
    ensures s > 0
  {
    hide FragmentCount, Part, Assembled, Stream, Pieces;
    var a := state.reassemblies[s];
    k := CompleteParts(messages, kept, s, a);
    CompleteIsMessage(a, messages[k]);
    forall q: uint64 | Before(messages, k) < q <= Before(messages, k) + FragmentCount(|messages[k]|)
      ensures q in kept
    {
      var i: nat := q - s;
      assert i in a.fragments;
      assert s + i in kept;
    }
  }

  lemma RemovalKeepsParts(messages: seq<bytes>, state: Channel, kept: set<uint64>, s: uint64)
    requires GoodParts(messages, state, kept)
    ensures GoodParts(messages, state.(reassemblies := state.reassemblies - {s}), kept)
  {
    hide GoodPart;
    var next := state.(reassemblies := state.reassemblies - {s});
    forall r, i | r in next.reassemblies && i in next.reassemblies[r].fragments
      ensures GoodPart(messages, kept, r, next.reassemblies[r], i)
    {
      assert r in state.reassemblies;
    }
  }

  /** Taking out the assembly of the delivered message loses nothing beyond the delivered prefix. */
  lemma RemovalKeepsRest(messages: seq<bytes>, state: Channel, kept: set<uint64>, n: nat, q: uint64)
    requires GoodParts(messages, state, kept) && n < |messages|
    requires Before(messages, n) + 1 in state.reassemblies
    requires state.reassemblies[Before(messages, n) + 1].count == FragmentCount(|messages[n]|)
    requires GoodAssembly(state.reassemblies[Before(messages, n) + 1])
    requires q <= Before(messages, n) || Retaining(state, q)
    ensures q <= Before(messages, n + 1) || Retaining(state.(reassemblies := state.reassemblies - {Before(messages, n) + 1}), q)
  {
    BeforeNext(messages, n);
    if Retaining(state, q) {
      var s :| s in state.reassemblies && s <= q && q - s in state.reassemblies[s].fragments;
      if s != Before(messages, n) + 1 {
        assert s in state.reassemblies - {Before(messages, n) + 1};
      }
    }
  }

  /** What delivering the head leaves of its channel. */
  lemma DeliverHeadChannel(t: Transport, c: uint16)
    requires HeadReady(t, c)
    ensures var (t1, m) := DeliverHead(t, c);
      var state := t.channels[c];
      var start := state.nextDelivered;
      && t1.channels == t.channels[c := state.(reassemblies := state.reassemblies - {start},
                                               nextDelivered := if Wraps(t, c) then 0 else AfterHead(t, c))]
      && m == Delivery(c, start, Assembled(state.reassemblies[start], state.reassemblies[start].count))
      && t1.outbound == t.outbound
      && |t1.channels[c].reassemblies| < |state.reassemblies|
  {
    hide Assembled;
  }

  lemma HeadDelivered(c: uint16, messages: seq<bytes>, state: Channel, next: Channel, m: Delivery, log: seq<Delivery>, kept: set<uint64>)
    requires Ordered(c) && Numbered(messages) && GoodAssemblies(state.reassemblies)
    requires ReceivingOn(c, messages, state, log, kept)
    requires var start := state.nextDelivered;
      && start in state.reassemblies
      && var a := state.reassemblies[start];
         var after := (start + a.count) % WORD_SIZE;
         && Complete(a)
         && m == Delivery(c, start, Assembled(a, a.count))
         && next == state.(reassemblies := state.reassemblies - {start}, nextDelivered := if after < start then 0 else after)
    ensures ReceivingOn(c, messages, next, log + [m], kept)
  {
    hide Tracks, Assembled, Carries, FragmentCount, Stream, GoodPart, GoodAssembly, Complete;
    var start := state.nextDelivered;
    var a := state.reassemblies[start];
    var k := CompleteAssembly(c, messages, state, kept, start);
    var n := |log|;
    AtNext(messages, n, k, start);
    BeforeNext(messages, n);
    BeforeMonotone(messages, n + 1, |messages|);
    assert messages[..|messages|] == messages;
    RemovalKeepsParts(messages, state, kept, start);
    var removed := state.(reassemblies := state.reassemblies - {start});
    PartsIgnoreCursor(messages, removed, next, kept);
    forall q | q in kept
      ensures q <= Before(messages, n + 1) || Retaining(next, q)
    {
      RemovalKeepsRest(messages, state, kept, n, q);
      RetainingIgnoresCursor(removed, next, q);
    }
  }

  lemma RetainingIgnoresCursor(state: Channel, next: Channel, q: uint64)
    requires next.reassemblies == state.reassemblies
    ensures Retaining(state, q) <==> Retaining(next, q)
  {
  }

  lemma PartsIgnoreCursor(messages: seq<bytes>, state: Channel, next: Channel, kept: set<uint64>)
    requires GoodParts(messages, state, kept) && next.reassemblies == state.reassemblies
    ensures GoodParts(messages, next, kept)
  {
  }

  /** The cursor of an ordered channel points at the message after the delivered prefix. */
  lemma AtNext(messages: seq<bytes>, n: nat, k: nat, start: uint64)
    requires Numbered(messages) && n <= |messages| && k < |messages|
    requires start > 0 && start == (Before(messages, n) + 1) % WORD_SIZE && start == Before(messages, k) + 1
    ensures k == n && n < |messages|
  {
    BeforeMonotone(messages, n, |messages|);
    assert messages[..|messages|] == messages;
    BeforeNext(messages, k);
    if n < |messages| {
      SameStartSameMessage(messages, n, k);
    } else {
      BeforeMonotone(messages, k + 1, n);
    }
  }

  /** Two transports that differ at most in how one channel receives. */
  ghost predicate Touches(t: Transport, u: Transport, c: uint16) {
    && c in t.channels && c in u.channels
    && u.channels == t.channels[c := u.channels[c]]
    && u.channels[c].nextFragmentSequence == t.channels[c].nextFragmentSequence
    && u.outbound == t.outbound
  }

  lemma TouchesTwice(t: Transport, u: Transport, v: Transport, c: uint16)
    requires Touches(t, u, c) && Touches(u, v, c)
    ensures Touches(t, v, c)
  {
  }

  lemma HeldAssemblies(t: Transport, c: uint16)
    requires Inv(t) && c in t.channels
    ensures GoodAssemblies(t.channels[c].reassemblies)
  {
  }

  lemma DeliverHeadReceives(t: Transport, c: uint16, messages: seq<bytes>, log: seq<Delivery>, kept: set<uint64>)
    requires Inv(t) && HeadReady(t, c) && Ordered(c) && Numbered(messages)
    requires ReceivingOn(c, messages, t.channels[c], log, kept)
    ensures var (u, m) := DeliverHead(t, c);
      && Inv(u) && Touches(t, u, c)
      && |u.channels[c].reassemblies| < |t.channels[c].reassemblies|
      && ReceivingOn(c, messages, u.channels[c], log + [m], kept)
  {
    hide Inv, ReceivingOn, GoodAssemblies, DeliverHead, Assembled, Numbered, Complete, Ordered;
    var (u, m) := DeliverHead(t, c);
    DeliverHeadChannel(t, c);
    HeldAssemblies(t, c);
    DeliverHeadInv(t, c);
    HeadDelivered(c, messages, t.channels[c], u.channels[c], m, log, kept);
  }

  lemma {:induction false} DeliverOrderedReceives(t: Transport, c: uint16, messages: seq<bytes>, log: seq<Delivery>, kept: set<uint64>)
    requires Inv(t) && c in t.channels && Ordered(c) && Numbered(messages)
    requires ReceivingOn(c, messages, t.channels[c], log, kept)
    ensures var (u, ms) := DeliverOrdered(t, c);
      Touches(t, u, c) && ReceivingOn(c, messages, u.channels[c], log + ms, kept)
    decreases |t.channels[c].reassemblies|
  {
    hide Inv, ReceivingOn, DeliverHead, Numbered, Wraps;
    if HeadReady(t, c) {
      DeliverHeadReceives(t, c, messages, log, kept);
      var (t1, m) := DeliverHead(t, c);
      if !Wraps(t, c) {
        DeliverOrderedReceives(t1, c, messages, log + [m], kept);
        var (u, more) := DeliverOrdered(t1, c);
        assert log + ([m] + more) == (log + [m]) + more;
        TouchesTwice(t, t1, u, c);
      }
    } else {
      assert log + [] == log;
      assert t.channels == t.channels[c := t.channels[c]];
    }
  }

  /** On an unordered channel a message just completed was not delivered before: the fragment that
      completed it was not kept until now. */
  lemma UnorderedDelivers(messages: seq<bytes>, log: seq<Delivery>, kept: set<uint64>, p: Packet, m: Delivery, k: nat)
    requires OnceEach(messages, log, kept) && Numbered(messages)
    requires ValidBody(p) && !p.AckOnly() && p.sequence !in kept
    requires Carries(messages, p.sequence, p.index, p.count, p.payload)
    requires IsMessage(messages, kept + {p.sequence}, m, k) && m.start == p.sequence - p.index
    ensures OnceEach(messages, log + [m], kept + {p.sequence})
  {
    MoreKept(messages, log, kept, p.sequence);
    forall j | 0 <= j < |log|
      ensures log[j].start != m.start
    {
      if log[j].start == m.start {
        assert SomeMessage(messages, kept, log[j]);
        var i :| IsMessage(messages, kept, log[j], i);
        var h := MessageOf(messages, m.start, p.index, p.count, p.payload);
        SameStartSameMessage(messages, h, i);
        assert false;
      }
    }
    assert SomeMessage(messages, kept + {p.sequence}, m);
  }

  /** Delivering after a fragment has been stored. */
  lemma DeliverReceives(t: Transport, p: Packet, messages: seq<bytes>, log: seq<Delivery>, kept: set<uint64>)
    requires ValidBody(p) && !p.AckOnly() && p.channel in t.channels
    requires p.sequence - p.index in t.channels[p.channel].reassemblies
    requires Inv(t) && Numbered(messages) && p.sequence !in kept
    requires Carries(messages, p.sequence, p.index, p.count, p.payload)
    requires ReceivingOn(p.channel, messages, t.channels[p.channel], log, kept + {p.sequence})
    requires !Ordered(p.channel) ==> OnceEach(messages, log, kept)
    ensures var (u, ms) := Deliver(t, p);
      Touches(t, u, p.channel) && ReceivingOn(p.channel, messages, u.channels[p.channel], log + ms, kept + {p.sequence})
  {
    hide Assembled, Carries, FragmentCount, Stream, GoodPart, DeliverOrdered, Tracks;
    var c, start := p.channel, p.sequence - p.index;
    var state := t.channels[c];
    assert log + [] == log;
    if Complete(state.reassemblies[start]) {
      if Ordered(c) {
        DeliverOrderedReceives(t, c, messages, log, kept + {p.sequence});
      } else {
        assert GoodAssembly(state.reassemblies[start]) by {
          assert GoodAssemblies(state.reassemblies);
        }
        var k := CompleteAssembly(c, messages, state, kept + {p.sequence}, start);
        var m := Deliver(t, p).1[0];
        UnorderedDelivers(messages, log, kept, p, m, k);
        RemovalKeepsParts(messages, state, kept + {p.sequence}, start);
      }
    }
  }

  /** A channel receives the same when only its flags or its sending side change. */
  lemma SameReceiving(c: uint16, messages: seq<bytes>, state: Channel, next: Channel, log: seq<Delivery>, kept: set<uint64>)
    requires ReceivingOn(c, messages, state, log, kept)
    requires next.reassemblies == state.reassemblies && next.received == state.received
    requires next.nextDelivered == state.nextDelivered
    ensures ReceivingOn(c, messages, next, log, kept)
  {
    hide Tracks, GoodPart;
    PartsIgnoreCursor(messages, state, next, kept);
    if Ordered(c) {
      forall q | q in kept
        ensures q <= Before(messages, |log|) || Retaining(next, q)
      {
        RetainingIgnoresCursor(state, next, q);
      }
    }
  }

  lemma MarkDirtyReceives(t: Transport, c: uint16, messages: seq<bytes>, log: seq<Delivery>, kept: set<uint64>)
    requires Inv(t) && Known(c) && ReceivingOn(c, messages, ChannelOf(t, c), log, kept)
    ensures var u := MarkDirty(t, c);
      Inv(u) && Touches(AddChannel(t, c), u, c) && ReceivingOn(c, messages, u.channels[c], log, kept)
  {
    hide Inv, ReceivingOn;
    MarkDirtyInv(t, c);
    SameReceiving(c, messages, ChannelOf(t, c), MarkDirty(t, c).channels[c], log, kept);
  }

  /** Storing a fragment and delivering what it completes. */
  function StoreAndDeliver(t: Transport, p: Packet): (Transport, seq<Delivery>)
    requires ValidBody(p) && !p.AckOnly() && p.channel in t.channels
  {
    Deliver(Store(t, p), p)
  }

  lemma RetainedReceives(t: Transport, p: Packet, messages: seq<bytes>, log: seq<Delivery>, kept: set<uint64>)
    requires Inv(t) && ValidBody(p) && !p.AckOnly() && p.channel in t.channels && Numbered(messages)
    requires Carries(messages, p.sequence, p.index, p.count, p.payload)
    requires Retains(t, p) && ReceivingOn(p.channel, messages, t.channels[p.channel], log, kept)
    ensures var (u, ms) := StoreAndDeliver(t, p);
      Touches(t, u, p.channel) && ReceivingOn(p.channel, messages, u.channels[p.channel], log + ms, kept + {p.sequence})
  {
    hide Inv, Carries, Tracks, Offer, Grown, GoodParts, InOrder, OnceEach, Deliver, Numbered, ValidBody;
    var c := p.channel;
    var stored := Store(t, p);
    StoreInv(t, p);
    StoreReceives(c, messages, t.channels[c], log, kept, p);
    DeliverReceives(stored, p, messages, log, kept);
    assert Touches(t, stored, c);
    TouchesTwice(t, stored, Deliver(stored, p).0, c);
  }

  /** The state in which a packet's data is looked at. */
  function Looked(t: Transport, p: Packet, now: int): Transport
    requires t.cwnd > 0
  {
    MarkDirty(ConsumeAck(t, p.channel, p.ackBase, p.ackBitmap, now), p.channel)
  }

  lemma LookedChannel(t: Transport, p: Packet, now: int)
    requires Inv(t) && Known(p.channel)
    ensures t.cwnd > 0 && p.channel in Looked(t, p, now).channels && Inv(Looked(t, p, now))
    ensures Looked(t, p, now).channels[p.channel] == ChannelOf(t, p.channel).(ackDirty := true)
  {
    hide ConsumeAck, SenderInv, ReceiverInv, ChannelInv;
    var t1 := ConsumeAck(t, p.channel, p.ackBase, p.ackBitmap, now);
    ConsumeAckInv(t, p.channel, p.ackBase, p.ackBitmap, now);
    MarkDirtyInv(t1, p.channel);
  }

  lemma ReceiveDataReceives(t: Transport, p: Packet, messages: seq<bytes>, log: seq<Delivery>, kept: set<uint64>)
    requires Inv(t) && ValidBody(p) && !p.AckOnly() && Known(p.channel) && Numbered(messages)
    requires Carries(messages, p.sequence, p.index, p.count, p.payload)
    requires ReceivingOn(p.channel, messages, ChannelOf(t, p.channel), log, kept)
    ensures var (u, ms) := ReceiveData(t, p);
      && Touches(AddChannel(t, p.channel), u, p.channel)
      && ReceivingOn(p.channel, messages, u.channels[p.channel], log + ms,
                     if Retains(MarkDirty(t, p.channel), p) then kept + {p.sequence} else kept)
  {
    hide Inv, ReceivingOn, Carries, Numbered, Retains, Deliver, Store, MarkDirty, AddChannel;
    var c := p.channel;
    MarkDirtyReceives(t, c, messages, log, kept);
    assert log + [] == log;
    if Retains(MarkDirty(t, c), p) {
      RetainedReceives(MarkDirty(t, c), p, messages, log, kept);
      TouchesTwice(AddChannel(t, c), MarkDirty(t, c), ReceiveData(t, p).0, c);
    }
  }
}
