/** What discarding received file data loses: exactly the fragments retained at that moment, and with each of them the
    whole message it belongs to. */
module Discarding {
  import opened Options
  import opened Bytes
  import opened Words
  import opened SequenceWindows
  import opened ReliablePackets
  import opened Transports
  import opened Accounting
  import opened MessageStreams
  import opened ReliableDelivery
  import opened SessionRuns
  import opened WindowCoupling
  import opened Stranding

  /** The number belongs to the message delivered. */
  predicate InDelivery(d: Delivery, q: uint64) {
    d.start <= q < d.start + FragmentCount(|d.payload|)
  }

  ghost predicate Covered(log: seq<Delivery>, q: uint64) {
    exists j :: 0 <= j < |log| && InDelivery(log[j], q)
  }

  /** The number is retained in an assembly, or lies in a delivered message. */
  ghost predicate HeldIn(state: Channel, log: seq<Delivery>, q: uint64) {
    Retaining(state, q) || Covered(log, q)
  }

  /** No number is both. */
  ghost predicate ApartIn(state: Channel, log: seq<Delivery>) {
    forall q: uint64 :: !(Retaining(state, q) && Covered(log, q))
  }

  // ----- one fragment -----

  /** Storing a fragment retains its number besides those retained before. */
  lemma StoredRetains(state: Channel, p: Packet, q: uint64)
    requires ValidBody(p) && !p.AckOnly()
    ensures Retaining(StoreIn(state, p), q) <==> Retaining(state, q) || q == p.sequence
  {
    hide Offer, ValidBody;
    var next, start := StoreIn(state, p), p.sequence - p.index;
    if Retaining(state, q) {
      StillRetaining(state, p, q);
    }
    if q == p.sequence {
      assert start in next.reassemblies && q - start in next.reassemblies[start].fragments;
    }
    if Retaining(next, q) {
      var s :| s in next.reassemblies && s <= q && q - s in next.reassemblies[s].fragments;
      if s != start || q != p.sequence {
        assert s in state.reassemblies && q - s in state.reassemblies[s].fragments;
      }
    }
  }

  lemma CoveredIsKept(messages: seq<bytes>, log: seq<Delivery>, kept: set<uint64>, q: uint64)
    requires OnceEach(messages, log, kept) && Covered(log, q)
    ensures q in kept
  {
    hide FragmentCount, Stream;
    var j :| 0 <= j < |log| && InDelivery(log[j], q);
    assert SomeMessage(messages, kept, log[j]);
    var k :| IsMessage(messages, kept, log[j], k);
  }

  lemma CoveredMore(log: seq<Delivery>, d: Delivery, q: uint64)
    ensures Covered(log + [d], q) <==> Covered(log, q) || InDelivery(d, q)
  {
    hide InDelivery;
    if Covered(log, q) {
      var j :| 0 <= j < |log| && InDelivery(log[j], q);
      assert (log + [d])[j] == log[j];
    }
    if InDelivery(d, q) {
      assert (log + [d])[|log|] == d;
    }
  }

  /** A complete assembly holds the numbers of its message and no others. */
  lemma CompleteHolds(c: uint16, messages: seq<bytes>, state: Channel, kept: set<uint64>, s: uint64, q: uint64)
    requires GoodParts(messages, state, kept) && s in state.reassemblies
    requires GoodAssembly(state.reassemblies[s]) && Complete(state.reassemblies[s])
    ensures var a := state.reassemblies[s];
      InDelivery(Delivery(c, s, Assembled(a, a.count)), q) <==> s <= q && q - s in a.fragments
  {
    hide FragmentCount, Assembled, Stream, GoodParts;
    var a := state.reassemblies[s];
    CompleteHasAll(a);
    var k := CompleteAssembly(c, messages, state, kept, s);
  }

  /** No other assembly holds a number of that message. */
  lemma OthersHoldOthers(messages: seq<bytes>, state: Channel, kept: set<uint64>, s: uint64, r: uint64, q: uint64)
    requires GoodParts(messages, state, kept) && s in state.reassemblies && r in state.reassemblies
    requires s <= q && q - s in state.reassemblies[s].fragments && r <= q && q - r in state.reassemblies[r].fragments
    ensures r == s
  {
    hide FragmentCount, Stream, Part, Assembled;
    assert GoodPart(messages, kept, s, state.reassemblies[s], q - s) && GoodPart(messages, kept, r, state.reassemblies[r], q - r);
    var j := PartOf(messages, kept, s, state.reassemblies[s], q - s);
    var k := PartOf(messages, kept, r, state.reassemblies[r], q - r);
    RangesApart(messages, j, k);
    RangesApart(messages, k, j);
  }

  /** Taking out a complete assembly and delivering its message. */
  lemma DeliveredHolds(messages: seq<bytes>, state: Channel, log: seq<Delivery>, kept: set<uint64>, s: uint64, c: uint16, q: uint64)
    requires GoodParts(messages, state, kept) && s in state.reassemblies && ApartIn(state, log)
    requires GoodAssembly(state.reassemblies[s]) && Complete(state.reassemblies[s])
    ensures var a, next := state.reassemblies[s], state.(reassemblies := state.reassemblies - {s});
      var all := log + [Delivery(c, s, Assembled(a, a.count))];
      && (HeldIn(next, all, q) <==> HeldIn(state, log, q))
      && !(Retaining(next, q) && Covered(all, q))
  {
    hide Assembled, FragmentCount, GoodParts, GoodAssembly, Complete, Covered, InDelivery;
    var a, next := state.reassemblies[s], state.(reassemblies := state.reassemblies - {s});
    CoveredMore(log, Delivery(c, s, Assembled(a, a.count)), q);
    CompleteHolds(c, messages, state, kept, s, q);
    if Retaining(state, q) {
      var r :| r in state.reassemblies && r <= q && q - r in state.reassemblies[r].fragments;
      if r != s {
        assert r in next.reassemblies;
      }
      if s <= q && q - s in a.fragments {
        OthersHoldOthers(messages, state, kept, s, r, q);
      }
    }
    if Retaining(next, q) {
      var r :| r in next.reassemblies && r <= q && q - r in next.reassemblies[r].fragments;
      assert r in state.reassemblies && r != s;
      if s <= q && q - s in a.fragments {
        OthersHoldOthers(messages, state, kept, s, r, q);
      }
    }
  }

  /** A fragment just stored belongs to no delivered message. */
  lemma StoredApart(messages: seq<bytes>, state: Channel, log: seq<Delivery>, kept: set<uint64>, p: Packet)
    requires ValidBody(p) && !p.AckOnly() && p.sequence !in kept && OnceEach(messages, log, kept) && ApartIn(state, log)
    ensures ApartIn(StoreIn(state, p), log)
  {
    hide StoreIn, Retaining, Covered, OnceEach, ValidBody;
    forall q: uint64
      ensures !(Retaining(StoreIn(state, p), q) && Covered(log, q))
    {
      StoredRetains(state, p, q);
      if Covered(log, q) {
        CoveredIsKept(messages, log, kept, q);
      }
    }
  }

  /** Taking a fragment of an unordered channel holds its number, and what was held stays held. */
  lemma FragmentHolds(t: Transport, p: Packet, messages: seq<bytes>, log: seq<Delivery>, kept: set<uint64>)
    requires Inv(t) && ValidBody(p) && !p.AckOnly() && p.channel in t.channels && !Ordered(p.channel) && Retains(t, p)
    requires Carries(messages, p.sequence, p.index, p.count, p.payload)
    requires ReceivingOn(p.channel, messages, t.channels[p.channel], log, kept) && ApartIn(t.channels[p.channel], log)
    ensures var (u, ms) := StoreAndDeliver(t, p);
      p.channel in u.channels && ApartIn(u.channels[p.channel], log + ms)
    ensures var (u, ms) := StoreAndDeliver(t, p);
      forall q: uint64 :: HeldIn(u.channels[p.channel], log + ms, q) <==> HeldIn(t.channels[p.channel], log, q) || q == p.sequence
  {
    hide Inv, Carries, Tracks, Offer, GoodParts, OnceEach, Retaining, Covered, Assembled, ValidBody, Grown, Complete;
    var c, start := p.channel, p.sequence - p.index;
    var stored := Store(t, p);
    var state, next := t.channels[c], stored.channels[c];
    StoreInv(t, p);
    StoreReceives(c, messages, state, log, kept, p);
    StoredApart(messages, state, log, kept, p);
    StoredAssembly(t, p);
    assert log + [] == log;
    forall q: uint64
      ensures HeldIn(next, log, q) <==> HeldIn(state, log, q) || q == p.sequence
    {
      StoredRetains(state, p, q);
    }
    if Complete(next.reassemblies[start]) {
      forall q: uint64
        ensures var done := next.(reassemblies := next.reassemblies - {start});
          var all := log + [Delivery(c, start, Assembled(next.reassemblies[start], next.reassemblies[start].count))];
          (HeldIn(done, all, q) <==> HeldIn(next, log, q)) && !(Retaining(done, q) && Covered(all, q))
      {
        DeliveredHolds(messages, next, log, kept + {p.sequence}, start, c, q);
      }
      assert Deliver(stored, p).0.channels[c] == next.(reassemblies := next.reassemblies - {start});
    }
  }

  lemma StoredAssembly(t: Transport, p: Packet)
    requires ValidBody(p) && !p.AckOnly() && p.channel in t.channels && Inv(Store(t, p))
    ensures var next := Store(t, p).channels[p.channel];
      next == StoreIn(t.channels[p.channel], p)
      && p.sequence - p.index in next.reassemblies && GoodAssembly(next.reassemblies[p.sequence - p.index])
  {
    hide Offer, CongestionInv, ChannelInv, SenderInv, ValidBody;
    assert GoodAssemblies(Store(t, p).channels[p.channel].reassemblies);
  }

  // ----- one step of a run -----

  ghost predicate HeldAt(y: Side, q: uint64) {
    HeldIn(ChannelOf(y.t, FILE_DATA), DeliveredOn(y, FILE_DATA), q)
  }

  ghost predicate Apart(y: Side) {
    ApartIn(ChannelOf(y.t, FILE_DATA), DeliveredOn(y, FILE_DATA))
  }

  /** What holding depends on. */
  lemma SameHolding(y: Side, z: Side)
    requires ChannelOf(z.t, FILE_DATA).reassemblies == ChannelOf(y.t, FILE_DATA).reassemblies
    requires DeliveredOn(z, FILE_DATA) == DeliveredOn(y, FILE_DATA)
    ensures forall q: uint64 :: HeldAt(z, q) <==> HeldAt(y, q)
    ensures Apart(y) ==> Apart(z)
  {
    hide Covered;
    forall q: uint64
      ensures Retaining(ChannelOf(z.t, FILE_DATA), q) <==> Retaining(ChannelOf(y.t, FILE_DATA), q)
    {
      RetainingIgnoresCursor(ChannelOf(y.t, FILE_DATA), ChannelOf(z.t, FILE_DATA), q);
      RetainingIgnoresCursor(ChannelOf(z.t, FILE_DATA), ChannelOf(y.t, FILE_DATA), q);
    }
  }

  /** Taking file data. */
  lemma DataHolds(x: Side, y: Side, p: Packet, now: int)
    requires Linked(x, y) && p in x.sent && p.channel == FILE_DATA && !p.AckOnly() && Apart(y)
    ensures ValidBody(p) && y.t.cwnd > 0
    ensures var z := DoTake(y, p, now);
      Apart(z) && forall q: uint64 :: HeldAt(z, q) <==> HeldAt(y, q) || (Keeps(y.t, p, now) && q == p.sequence)
  {
    hide Inv, Numbered, Retains, Deliver, Store, MarkDirty, ConsumeAck, HeldIn, ApartIn, ReceivingOn, ValidBody, Carries;
    assert GoodPacket(x, p) && GoodChannel(x, FILE_DATA) && ReceivesOn(x, y, FILE_DATA);
    LookedChannel(y.t, p, now);
    var t, state := Looked(y.t, p, now), ChannelOf(y.t, FILE_DATA);
    var messages, log, kept := QueuedOn(x, FILE_DATA), DeliveredOn(y, FILE_DATA), KeptOn(y, FILE_DATA);
    var marked := y.(t := t);
    SameReceiving(FILE_DATA, messages, state, t.channels[FILE_DATA], log, kept);
    SameHolding(y, marked);
    assert log + [] == log;
    if Retains(t, p) {
      FragmentHolds(t, p, messages, log, kept);
    }
  }

  /** Any packet but one with file data leaves the file data received as it is. */
  lemma OtherPacketHolds(x: Side, y: Side, p: Packet, now: int)
    requires Linked(x, y) && p in x.sent && (p.channel != FILE_DATA || p.AckOnly())
    ensures ValidBody(p) && y.t.cwnd > 0
    ensures var z := DoTake(y, p, now);
      && ChannelOf(z.t, FILE_DATA).reassemblies == ChannelOf(y.t, FILE_DATA).reassemblies
      && DeliveredOn(z, FILE_DATA) == DeliveredOn(y, FILE_DATA) && KeptOn(z, FILE_DATA) == KeptOn(y, FILE_DATA)
  {
    hide Inv, Numbered, ReceiveData, ConsumeAck, ReceivingOn, ValidBody, Carries, Retains, MarkDirty, AckContains;
    assert GoodPacket(x, p) && GoodChannel(x, p.channel) && ReceivesOn(x, y, p.channel);
    TracksOf(x, y, FILE_DATA);
    var t1 := ConsumeAck(y.t, p.channel, p.ackBase, p.ackBitmap, now);
    ConsumeAckInv(y.t, p.channel, p.ackBase, p.ackBitmap, now);
    assert DeliveredOn(y, p.channel) + [] == DeliveredOn(y, p.channel);
    if !p.AckOnly() {
      ReceiveDataReceives(t1, p, QueuedOn(x, p.channel), DeliveredOn(y, p.channel), KeptOn(y, p.channel));
    }
  }

  /** What an end holds changes only when it takes file data, which adds the number kept, and when it discards. */
  lemma StepHolds(x: Side, y: Side, a: Action)
    requires Linked(x, y) && Enabled(x, a) && Apart(y)
    ensures Apart(Act(y, a))
    ensures a != DropInbound ==>
      forall q: uint64 :: HeldAt(Act(y, a), q) <==> HeldAt(y, q) || (q in KeptOn(Act(y, a), FILE_DATA) && q !in KeptOn(y, FILE_DATA))
    ensures a == DropInbound ==> KeptOn(Act(y, a), FILE_DATA) == KeptOn(y, FILE_DATA)
    ensures a == DropInbound ==> forall q: uint64 :: HeldAt(Act(y, a), q) <==> Covered(DeliveredOn(y, FILE_DATA), q)
  {
    hide Inv, HeldAt, Apart, Receives, NothingLost, Queue, CanQueue, NextSend, DoTake, Keeps, DiscardOutbound, Covered, GoodSide;
    LinkedParts(x, y);
    match a
    case Take(p, now) => TakeHolds(x, y, p, now);
    case DropInbound => DropHolds(y);
    case Enqueue(c, payload) => SendingHolds(y, a);
    case Transmit(now, accepted) => SendingHolds(y, a);
    case DropOutbound => SendingHolds(y, a);
  }

  lemma TakeHolds(x: Side, y: Side, p: Packet, now: int)
    requires Linked(x, y) && p in x.sent && Apart(y)
    ensures ValidBody(p) && y.t.cwnd > 0
    ensures var z := DoTake(y, p, now);
      && Apart(z)
      && forall q: uint64 :: HeldAt(z, q) <==> HeldAt(y, q) || (q in KeptOn(z, FILE_DATA) && q !in KeptOn(y, FILE_DATA))
  {
    assert GoodPacket(x, p);
    LinkedParts(x, y);
    hide Inv, HeldAt, Apart, Receives, NothingLost, Keeps, GoodSide, Receive, Linked, ReceivingOn, AckContains;
    if p.channel == FILE_DATA && !p.AckOnly() {
      DataHolds(x, y, p, now);
      if Keeps(y.t, p, now) {
        KeepsTakes(y, p, now);
        TracksOf(x, y, FILE_DATA);
        AcceptTracks(ChannelOf(y.t, FILE_DATA).received, KeptOn(y, FILE_DATA), p.sequence);
      }
    } else {
      OtherPacketHolds(x, y, p, now);
      SameHolding(y, DoTake(y, p, now));
    }
  }

  lemma SendingHolds(y: Side, a: Action)
    requires Inv(y.t) && Apart(y) && (a.Enqueue? || a.Transmit? || a.DropOutbound?)
    ensures Apart(Act(y, a)) && KeptOn(Act(y, a), FILE_DATA) == KeptOn(y, FILE_DATA)
    ensures forall q: uint64 :: HeldAt(Act(y, a), q) <==> HeldAt(y, q)
  {
    hide Inv, NextSend, HeldAt, Apart, Queue, CanQueue, Commit, Reject, Without;
    match a {
      case Enqueue(c, payload) => QueueKeeps(y.t, c, payload);
      case Transmit(now, accepted) => TransmitKeeps(y, now, accepted);
      case DropOutbound =>
    }
    SameHolding(y, Act(y, a));
  }

  lemma QueueKeeps(t: Transport, c: uint16, payload: bytes)
    ensures ChannelOf(Queue(t, c, payload), FILE_DATA).reassemblies == ChannelOf(t, FILE_DATA).reassemblies
  {
    hide FragmentsOf, CanQueue;
  }

  lemma TransmitKeeps(y: Side, now: int, accepted: bool)
    requires Inv(y.t)
    ensures var z := DoTransmit(y, now, accepted);
      && ChannelOf(z.t, FILE_DATA).reassemblies == ChannelOf(y.t, FILE_DATA).reassemblies
      && z.delivered == y.delivered && z.kept == y.kept
  {
    hide NextSend, Inv, Marked, ChannelInv;
    if NextSend(y.t, now).Some? {
      var r := NextSend(y.t, now).value.1;
      NextSendLive(y.t, now);
      ChannelsOf(y.t);
      CommitFields(y.t, r);
    }
  }

  lemma ChannelsOf(t: Transport)
    requires Inv(t)
    ensures ChannelInv(t)
  {
    hide ChannelInv;
  }

  lemma DropHolds(y: Side)
    requires Inv(y.t) && Apart(y)
    ensures var z := Act(y, DropInbound);
      && Apart(z) && KeptOn(z, FILE_DATA) == KeptOn(y, FILE_DATA) && DeliveredOn(z, FILE_DATA) == DeliveredOn(y, FILE_DATA)
      && forall q: uint64 :: HeldAt(z, q) <==> Covered(DeliveredOn(y, FILE_DATA), q)
  {
    hide Inv, Covered;
    var z := Act(y, DropInbound);
    assert ChannelOf(z.t, FILE_DATA).reassemblies == map[];
    assert forall q: uint64 :: !Retaining(ChannelOf(z.t, FILE_DATA), q);
  }

  // ----- runs -----

  lemma {:induction false} EveryStateApart(steps: seq<Step>, states: seq<Pair>, n: nat, first: bool)
    requires SessionRun(steps, states) && n < |states|
    ensures Apart(End(states[n], first))
  {
    hide Linked, Inv, Act, Enabled, Apart, HeldAt;
    if n == 0 {
      NothingYet();
    } else {
      EveryStateApart(steps, states, n - 1, first);
      var w, step := states[n - 1], steps[n - 1];
      assert Steps(w, step, states[n]);
      if step.first == first {
        EveryStateLinked(steps, states, n - 1);
        LinkedBothWays(w.a, w.b);
        StepHolds(End(w, !first), End(w, first), step.action);
      }
    }
  }

  lemma NothingYet()
    ensures Apart(NEW_SIDE)
  {
  }

  /** At this step the receiver discarded while it retained this number. */
  ghost predicate DiscardedAt(steps: seq<Step>, states: seq<Pair>, k: nat, first: bool, q: uint64)
    requires |states| == |steps| + 1
  {
    && k < |steps| && steps[k] == Step(first, DropInbound)
    && Retaining(ChannelOf(End(states[k], first).t, FILE_DATA), q)
  }

  ghost predicate Discarded(steps: seq<Step>, states: seq<Pair>, n: nat, first: bool, q: uint64)
    requires |states| == |steps| + 1
  {
    exists k: nat :: k < n && DiscardedAt(steps, states, k, first, q)
  }

  lemma DiscardedMore(steps: seq<Step>, states: seq<Pair>, n: nat, first: bool, q: uint64)
    requires |states| == |steps| + 1 && 0 < n < |states|
    ensures Discarded(steps, states, n, first, q) <==>
      Discarded(steps, states, n - 1, first, q) || DiscardedAt(steps, states, n - 1, first, q)
  {
    hide DiscardedAt;
  }

  lemma {:induction false} KeptStays(steps: seq<Step>, states: seq<Pair>, k: nat, n: nat, first: bool, c: uint16)
    requires SessionRun(steps, states) && k <= n < |states|
    ensures KeptOn(End(states[k], first), c) <= KeptOn(End(states[n], first), c)
    decreases n
  {
    hide Inv, Act, Enabled;
    if k < n {
      KeptStays(steps, states, k, n - 1, first, c);
      var w, step := states[n - 1], steps[n - 1];
      assert Steps(w, step, states[n]);
      if step.first == first {
        KeptGrows(End(w, first), step.action, c);
      }
    }
  }

  lemma RetainedIsKept(x: Side, y: Side, q: uint64)
    requires Linked(x, y) && Retaining(ChannelOf(y.t, FILE_DATA), q)
    ensures q in KeptOn(y, FILE_DATA)
  {
    hide Inv, Tracks, OnceEach, Carries, GoodSide, NothingLost;
    assert ReceivesOn(x, y, FILE_DATA);
    var state := ChannelOf(y.t, FILE_DATA);
    var s :| s in state.reassemblies && s <= q && q - s in state.reassemblies[s].fragments;
    assert GoodPart(QueuedOn(x, FILE_DATA), KeptOn(y, FILE_DATA), s, state.reassemblies[s], q - s);
  }

  /** What was not kept by then cannot have been discarded by then. */
  lemma NotKeptNotDiscarded(steps: seq<Step>, states: seq<Pair>, n: nat, first: bool, q: uint64)
    requires SessionRun(steps, states) && n < |states| && q !in KeptOn(End(states[n], first), FILE_DATA)
    ensures !Discarded(steps, states, n + 1, first, q)
  {
    hide Linked, Steps, Retaining;
    if k: nat :| k < n + 1 && DiscardedAt(steps, states, k, first, q) {
      EveryStateLinked(steps, states, k);
      LinkedBothWays(states[k].a, states[k].b);
      RetainedIsKept(End(states[k], !first), End(states[k], first), q);
      KeptStays(steps, states, k, n, first, FILE_DATA);
      assert false;
    }
  }

  /** File data once kept is retained or lies in a delivered message, unless it was discarded while it was retained: then,
      and only then, it is neither. */
  lemma {:induction false} LostIffDiscarded(steps: seq<Step>, states: seq<Pair>, n: nat, first: bool, q: uint64)
    requires SessionRun(steps, states) && n < |states| && q in KeptOn(End(states[n], first), FILE_DATA)
    ensures !HeldAt(End(states[n], first), q) <==> Discarded(steps, states, n, first, q)
  {
    hide Linked, Inv, Act, Enabled, HeldAt, Apart, Covered, Retaining, Discarded;
    if n > 0 {
      var w, step := states[n - 1], steps[n - 1];
      assert Steps(w, step, states[n]);
      var y := End(w, first);
      DiscardedMore(steps, states, n, first, q);
      if step.first == first {
        EveryStateLinked(steps, states, n - 1);
        LinkedBothWays(w.a, w.b);
        EveryStateApart(steps, states, n - 1, first);
        StepHolds(End(w, !first), y, step.action);
        HeldParts(y, q);
      }
      if q in KeptOn(y, FILE_DATA) {
        LostIffDiscarded(steps, states, n - 1, first, q);
      } else {
        NotKeptNotDiscarded(steps, states, n - 1, first, q);
      }
    }
  }

  lemma HeldParts(y: Side, q: uint64)
    requires Apart(y)
    ensures HeldAt(y, q) <==> Retaining(ChannelOf(y.t, FILE_DATA), q) || Covered(DeliveredOn(y, FILE_DATA), q)
    ensures !(Retaining(ChannelOf(y.t, FILE_DATA), q) && Covered(DeliveredOn(y, FILE_DATA), q))
  {
    hide Retaining, Covered;
  }

  /** Once it is neither, its message is never delivered, however the run goes on. */
  lemma LostForEver(steps: seq<Step>, states: seq<Pair>, k: nat, n: nat, first: bool, q: uint64, m: nat)
    requires SessionRun(steps, states) && k <= n < |states|
    requires q in KeptOn(End(states[k], first), FILE_DATA) && !HeldAt(End(states[k], first), q)
    ensures q in KeptOn(End(states[n], first), FILE_DATA) && !HeldAt(End(states[n], first), q)
    ensures var messages := QueuedOn(End(states[n], !first), FILE_DATA);
      m < |messages| && Before(messages, m) < q <= Before(messages, m + 1) ==>
        forall d :: d in DeliveredOn(End(states[n], first), FILE_DATA) ==> d.start != Before(messages, m) + 1
  {
    hide Linked, Inv, HeldAt, Steps, DiscardedAt;
    LostIffDiscarded(steps, states, k, first, q);
    KeptStays(steps, states, k, n, first, FILE_DATA);
    LostIffDiscarded(steps, states, n, first, q);
    EveryStateLinked(steps, states, n);
    LinkedBothWays(states[n].a, states[n].b);
    if m < |QueuedOn(End(states[n], !first), FILE_DATA)| {
      NotDelivered(End(states[n], !first), End(states[n], first), q, m);
    }
  }

  lemma NotDelivered(x: Side, y: Side, q: uint64, m: nat)
    requires Linked(x, y) && !HeldAt(y, q) && m < |QueuedOn(x, FILE_DATA)|
    ensures var messages := QueuedOn(x, FILE_DATA);
      Before(messages, m) < q <= Before(messages, m + 1) ==>
        forall d :: d in DeliveredOn(y, FILE_DATA) ==> d.start != Before(messages, m) + 1
  {
    hide Inv, Tracks, GoodParts, NothingLost, Stream, FragmentCount, Retaining, Before;
    assert ReceivesOn(x, y, FILE_DATA) && GoodChannel(x, FILE_DATA);
    var messages, log, kept := QueuedOn(x, FILE_DATA), DeliveredOn(y, FILE_DATA), KeptOn(y, FILE_DATA);
    if Before(messages, m) < q <= Before(messages, m + 1) {
      BeforeNext(messages, m);
      forall j | 0 <= j < |log|
        ensures log[j].start != Before(messages, m) + 1
      {
        if log[j].start == Before(messages, m) + 1 {
          StartCovers(messages, log, kept, j, m, q);
          assert false;
        }
      }
    }
  }

  lemma StartCovers(messages: seq<bytes>, log: seq<Delivery>, kept: set<uint64>, j: nat, m: nat, q: uint64)
    requires Numbered(messages) && OnceEach(messages, log, kept) && j < |log| && m < |messages|
    requires log[j].start == Before(messages, m) + 1 && Before(messages, m) < q <= Before(messages, m) + FragmentCount(|messages[m]|)
    ensures Covered(log, q)
  {
    hide Stream, FragmentCount, Before, Numbered;
    assert SomeMessage(messages, kept, log[j]);
    var k :| IsMessage(messages, kept, log[j], k);
    NotEmpty(messages, k);
    NotEmpty(messages, m);
    RangesApart(messages, k, m);
    RangesApart(messages, m, k);
    assert InDelivery(log[j], q);
  }

  lemma NotEmpty(messages: seq<bytes>, k: nat)
    requires Numbered(messages) && k < |messages|
    ensures FragmentCount(|messages[k]|) > 0
  {
    hide Stream;
  }
}
