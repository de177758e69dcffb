/** That screen chunks get through: a chunk whose fragments all arrive in time is delivered, once, whatever the order in
    which they come and however often each is repeated. */
module ScreenDelivery {
  import opened Sets
  import opened Options
  import opened Bytes
  import opened ScreenFragments
  import opened ScreenVideos

  function SlotOf(e: Event): Slot
    requires e.Arrives?
  {
    Slot(e.key, e.chunk)
  }

  /** The event is a fragment of this chunk. */
  predicate Brings(e: Event, slot: Slot) {
    e.Arrives? && SlotOf(e) == slot
  }

  /** The event leaves the chunk alone: no expiry or eviction hits it, its stream does not end, and no chunk two or more
      ahead of it arrives. */
  ghost predicate Spares(e: Event, slot: Slot) {
    match e
    case Expires(slots) => slot !in slots
    case Ends(key) => key != slot.stream
    case Arrives(key, chunk, _, _, evicted) => slot !in evicted && (key == slot.stream ==> chunk < slot.chunk + 2)
  }

  // ----- what is known of the chunk -----

  ghost predicate Collects(source: Source, slot: Slot, a: Assembly, start: int, got: set<nat>) {
    && a.startedAt == start && a.fragments.Keys == got
    && a.metadata == source(slot).0 && a.totalSize == |source(slot).1| && a.count == Count(|source(slot).1|)
  }

  /** The chunk is still wanted, and these of its fragments are held since the first came. */
  ghost predicate Gathering(source: Source, t: Table, slot: Slot, start: int, got: set<nat>) {
    && StreamOf(t, slot.stream).delivered < slot.chunk && StreamOf(t, slot.stream).newest <= slot.chunk + 1
    && (slot in t.assemblies <==> got != {})
    && (slot in t.assemblies ==> Collects(source, slot, t.assemblies[slot], start, got))
  }

  predicate NoneSince(log: seq<Completed>, base: nat, chunk: nat) {
    base <= |log| && forall i :: base <= i < |log| ==> log[i].chunk != chunk
  }

  /** Exactly one entry since `base` is of the chunk, and it is this one. */
  predicate OnceSince(log: seq<Completed>, base: nat, done: Completed) {
    base <= |log| && exists j :: base <= j < |log| && OnlyAt(log, base, j, done)
  }

  /** Since `base`, entry `j` is this one, and no other is of its chunk. */
  predicate OnlyAt(log: seq<Completed>, base: nat, j: nat, done: Completed)
    requires j < |log|
  {
    log[j] == done && forall i :: base <= i < |log| && i != j ==> log[i].chunk != done.chunk
  }

  function Whole(source: Source, slot: Slot): Completed {
    Completed(slot.chunk, source(slot).0, source(slot).1)
  }

  ghost predicate Finished(source: Source, s: State, slot: Slot, base: nat) {
    StreamOf(s.t, slot.stream).delivered >= slot.chunk && OnceSince(LogOf(s, slot.stream), base, Whole(source, slot))
  }

  // ----- a fragment of the chunk -----

  /** The fragment as it arrives. */
  function FragmentOf(source: Source, slot: Slot, index: nat): Fragment
    requires index < Count(|source(slot).1|)
  {
    Fragment(source(slot).0, index, Count(|source(slot).1|), |source(slot).1|, Part(source(slot).1, index))
  }

  /** What an arrival does. */
  lemma ArrivalIs(source: Source, s: State, e: Event)
    requires GoodSource(source) && e.Arrives? && Possible(source, s, e)
    ensures e.index < Count(|source(SlotOf(e)).1|)
    ensures var f := FragmentOf(source, SlotOf(e), e.index);
      && ValidFragment(f) && Made(source, SlotOf(e), f)
      && (Lands(s.t, e.key, e.chunk, f, e.now) ==> MakesRoom(MovedOn(s.t, e.key, e.chunk), SlotOf(e), |f.data|, e.evicted))
      && var (t, done) := Accept(s.t, e.key, e.chunk, f, e.now, e.evicted);
         Next(source, s, e) == s.(t := t, log := s.log[e.key := LogOf(s, e.key) + (if done.Some? then [done.value] else [])])
  {
    hide Accept, Decode, Lands, MakesRoom, MovedOn;
    MadeByEncoding(source, SlotOf(e), e.index);
    FragmentRoundTrip(source(SlotOf(e)).0, source(SlotOf(e)).1, e.index);
  }

  /** Moving on to a chunk no more than one ahead keeps the assembly. */
  lemma MovingKeeps(t: Table, slot: Slot, chunk: nat)
    requires chunk <= slot.chunk + 1
    ensures var m := MovedOn(t, slot.stream, chunk);
      && (slot in m.assemblies <==> slot in t.assemblies)
      && (slot in t.assemblies ==> m.assemblies[slot] == t.assemblies[slot])
      && StreamOf(m, slot.stream).delivered == StreamOf(t, slot.stream).delivered
      && (StreamOf(t, slot.stream).newest <= slot.chunk + 1 ==> StreamOf(m, slot.stream).newest <= slot.chunk + 1)
  {
    hide Total;
  }

  /** The assembly that a fragment goes into, fewer than 750 ms old. */
  lemma FragmentLands(source: Source, t: Table, slot: Slot, start: int, got: set<nat>, f: Fragment, now: int)
    requires Gathering(source, t, slot, start, got) && Made(source, slot, f) && f.index !in got
    requires now < start + 750_000_000 && (got == {} ==> now == start)
    ensures Lands(t, slot.stream, slot.chunk, f, now)
    ensures Collects(source, slot, AssemblyOf(MovedOn(t, slot.stream, slot.chunk), slot, f, now), start, got)
  {
    hide MovedOn, Part, Count;
    MovingKeeps(t, slot, slot.chunk);
  }

  lemma WithFragmentCollects(source: Source, slot: Slot, a: Assembly, start: int, got: set<nat>, f: Fragment)
    requires Collects(source, slot, a, start, got) && f.index !in got
    ensures var b := WithFragment(a, f);
      Collects(source, slot, b, start, got + {f.index}) && |b.fragments| == |got| + 1
  {
    var b := WithFragment(a, f);
    assert b.fragments.Keys == got + {f.index};
    assert |b.fragments| == |b.fragments.Keys|;
  }

  lemma InsertionIs(t: Table, slot: Slot, b: Assembly, cost: nat, evicted: set<Slot>)
    ensures var u := Inserted(DropAll(t, evicted), slot, b, cost);
      slot in u.assemblies && u.assemblies[slot] == b && u.streams == t.streams
  {
    hide Total;
  }

  lemma DeliveryIs(t: Table, key: StreamKey, chunk: nat)
    ensures StreamOf(Delivered(t, key, chunk), key).delivered == chunk
  {
    hide Total, Done;
  }

  /** A fragment that is not held yet is, if it comes less than 750 ms after the first. */
  lemma FragmentIsKept(source: Source, t: Table, slot: Slot, start: int, got: set<nat>, f: Fragment, now: int, evicted: set<Slot>)
    requires Gathering(source, t, slot, start, got) && Made(source, slot, f) && f.index !in got
    requires now < start + 750_000_000 && (got == {} ==> now == start)
    ensures var (u, done) := Accept(t, slot.stream, slot.chunk, f, now, evicted);
      if |got| + 1 != f.count then done.None? && Gathering(source, u, slot, start, got + {f.index})
      else done.Some? && StreamOf(u, slot.stream).delivered == slot.chunk
  {
    hide Join, MovedOn, Part, Count, WithFragment, Inserted, DropAll, Delivered, AssemblyOf, TooOld;
    FragmentLands(source, t, slot, start, got, f, now);
    MovingKeeps(t, slot, slot.chunk);
    var m := MovedOn(t, slot.stream, slot.chunk);
    var a := AssemblyOf(m, slot, f, now);
    WithFragmentCollects(source, slot, a, start, got, f);
    InsertionIs(m, slot, WithFragment(a, f), |f.data|, evicted);
    DeliveryIs(Inserted(DropAll(m, evicted), slot, WithFragment(a, f), |f.data|), slot.stream, slot.chunk);
  }

  /** A fragment that is held changes nothing when it comes again. */
  lemma FragmentIsRepeated(source: Source, t: Table, slot: Slot, start: int, got: set<nat>, f: Fragment, now: int, evicted: set<Slot>)
    requires Gathering(source, t, slot, start, got) && Made(source, slot, f) && f.index in got && now < start + 750_000_000
    ensures var (u, done) := Accept(t, slot.stream, slot.chunk, f, now, evicted);
      done.None? && Gathering(source, u, slot, start, got)
  {
    hide Join, MovedOn, Part, Count, Inserted, DropAll, Delivered;
    MovingKeeps(t, slot, slot.chunk);
  }

  /** 750 ms after the first one or later, it takes the whole assembly with it. */
  lemma LateFragmentDrops(source: Source, t: Table, slot: Slot, start: int, got: set<nat>, f: Fragment, now: int, evicted: set<Slot>)
    requires Gathering(source, t, slot, start, got) && got != {} && now >= start + 750_000_000
    ensures var (u, done) := Accept(t, slot.stream, slot.chunk, f, now, evicted);
      done.None? && slot !in u.assemblies
  {
    hide Join, MovedOn, Part, Count, Inserted, DropAll, Delivered;
    MovingKeeps(t, slot, slot.chunk);
  }

  // ----- anything else -----

  /** Nothing that concerns the chunk differs. */
  predicate Untouched(t: Table, u: Table, slot: Slot) {
    && (slot in u.assemblies <==> slot in t.assemblies)
    && (slot in u.assemblies ==> u.assemblies[slot] == t.assemblies[slot])
    && (StreamOf(t, slot.stream).delivered < slot.chunk ==> StreamOf(u, slot.stream).delivered < slot.chunk)
    && (StreamOf(t, slot.stream).newest <= slot.chunk + 1 ==> StreamOf(u, slot.stream).newest <= slot.chunk + 1)
  }

  lemma UntouchedGathers(source: Source, t: Table, u: Table, slot: Slot, start: int, got: set<nat>)
    requires Gathering(source, t, slot, start, got) && Untouched(t, u, slot)
    ensures Gathering(source, u, slot, start, got)
  {
    hide Collects;
  }

  lemma MovingSpares(t: Table, key: StreamKey, chunk: nat, slot: Slot)
    requires key == slot.stream ==> chunk <= slot.chunk + 1
    ensures Untouched(t, MovedOn(t, key, chunk), slot)
  {
    hide Total;
  }

  lemma InsertingSpares(t: Table, s: Slot, b: Assembly, cost: nat, evicted: set<Slot>, slot: Slot)
    requires s != slot && slot !in evicted
    ensures Untouched(t, Inserted(DropAll(t, evicted), s, b, cost), slot)
  {
    hide Total;
  }

  lemma DeliveringSpares(t: Table, key: StreamKey, chunk: nat, slot: Slot)
    requires key == slot.stream ==> chunk < slot.chunk
    ensures Untouched(t, Delivered(t, key, chunk), slot)
  {
    hide Total;
  }

  lemma DroppingSpares(t: Table, s: Slot, slot: Slot)
    requires s != slot
    ensures Untouched(t, Drop(t, s), slot)
  {
  }

  lemma LookingSpares(t: Table, key: StreamKey, slot: Slot)
    ensures Untouched(t, t.(streams := t.streams[key := StreamOf(t, key)]), slot)
  {
  }

  lemma UntouchedThrough(t: Table, u: Table, v: Table, slot: Slot)
    requires Untouched(t, u, slot) && Untouched(u, v, slot)
    ensures Untouched(t, v, slot)
  {
  }

  /** A fragment of another chunk, which is not two ahead and does not deliver a newer chunk. */
  lemma OthersSpare(t: Table, key: StreamKey, chunk: nat, f: Fragment, now: int, evicted: set<Slot>, slot: Slot)
    requires Slot(key, chunk) != slot && slot !in evicted
    requires key == slot.stream ==> chunk <= slot.chunk + 1
    requires key == slot.stream && chunk > slot.chunk ==> Accept(t, key, chunk, f, now, evicted).1.None?
    ensures Untouched(t, Accept(t, key, chunk, f, now, evicted).0, slot)
  {
    hide Join, MovedOn, WithFragment, Inserted, DropAll, Delivered, Agrees, AssemblyOf, Untouched, TooOld, Drop;
    var m, s := MovedOn(t, key, chunk), Slot(key, chunk);
    var b := WithFragment(AssemblyOf(m, s, f, now), f);
    var kept := Inserted(DropAll(m, evicted), s, b, |f.data|);
    LookingSpares(t, key, slot);
    MovingSpares(t, key, chunk, slot);
    DroppingSpares(m, s, slot);
    UntouchedThrough(t, m, Drop(m, s), slot);
    InsertingSpares(m, s, b, |f.data|, evicted, slot);
    UntouchedThrough(t, m, kept, slot);
    if key == slot.stream ==> chunk < slot.chunk {
      DeliveringSpares(kept, key, chunk, slot);
      UntouchedThrough(t, kept, Delivered(kept, key, chunk), slot);
    }
  }

  // ----- one event of a run -----

  /** The event delivers a chunk of the stream newer than this one. */
  ghost predicate Overtakes(s: State, n: State, slot: Slot) {
    exists i :: |LogOf(s, slot.stream)| <= i < |LogOf(n, slot.stream)| && LogOf(n, slot.stream)[i].chunk > slot.chunk
  }

  /** Any event that spares the chunk, brings none of its fragments and delivers no newer one leaves it gathering. */
  lemma OtherEvent(source: Source, s: State, e: Event, slot: Slot, start: int, got: set<nat>, base: nat)
    requires GoodSource(source) && Inv(source, s) && Possible(source, s, e) && Spares(e, slot) && !Brings(e, slot)
    requires !Overtakes(s, Next(source, s, e), slot)
    requires Gathering(source, s.t, slot, start, got) && NoneSince(LogOf(s, slot.stream), base, slot.chunk)
    ensures var n := Next(source, s, e);
      Gathering(source, n.t, slot, start, got) && NoneSince(LogOf(n, slot.stream), base, slot.chunk)
  {
    hide Inv, Accept, Possible, Collects, DropAll;
    var n := Next(source, s, e);
    if e.Arrives? {
      ArrivalIs(source, s, e);
      DeliveredChunk(source, s, e);
      var f := FragmentOf(source, SlotOf(e), e.index);
      var done := Accept(s.t, e.key, e.chunk, f, e.now, e.evicted).1;
      if e.key == slot.stream && done.Some? {
        LastOvertakes(s, n, slot, done);
      }
      OthersSpare(s.t, e.key, e.chunk, f, e.now, e.evicted, slot);
      UntouchedGathers(source, s.t, n.t, slot, start, got);
    } else {
      QuietSpares(source, s, e, slot);
      UntouchedGathers(source, s.t, n.t, slot, start, got);
    }
  }

  lemma LastOvertakes(s: State, n: State, slot: Slot, done: Option<Completed>)
    requires done.Some? && LogOf(n, slot.stream) == LogOf(s, slot.stream) + [done.value]
    requires !Overtakes(s, n, slot)
    ensures done.value.chunk <= slot.chunk
  {
    assert LogOf(n, slot.stream)[|LogOf(s, slot.stream)|] == done.value;
  }

  lemma QuietSpares(source: Source, s: State, e: Event, slot: Slot)
    requires GoodSource(source) && Possible(source, s, e) && Spares(e, slot) && !e.Arrives?
    ensures Untouched(s.t, Next(source, s, e).t, slot) && LogOf(Next(source, s, e), slot.stream) == LogOf(s, slot.stream)
  {
    hide Total, Encode;
  }

  /** What an arrival delivers is its own chunk, as the sender made it. */
  lemma DeliveredChunk(source: Source, s: State, e: Event)
    requires GoodSource(source) && Inv(source, s) && e.Arrives? && Possible(source, s, e)
    ensures e.index < Count(|source(SlotOf(e)).1|)
    ensures var done := Accept(s.t, e.key, e.chunk, FragmentOf(source, SlotOf(e), e.index), e.now, e.evicted).1;
      done.Some? ==> done.value == Whole(source, SlotOf(e)) && StreamOf(s.t, e.key).delivered < e.chunk
  {
    hide Accept, Possible, Valid, AllGenuine, GoodLog, ValidFragment, Made, Lands, MakesRoom, MovedOn;
    ArrivalIs(source, s, e);
    AcceptGenuine(source, s.t, e.key, e.chunk, FragmentOf(source, SlotOf(e), e.index), e.now, e.evicted);
  }

  /** A fragment of the chunk: one more is held, or the chunk is delivered. */
  lemma OwnEvent(source: Source, s: State, e: Event, slot: Slot, start: int, got: set<nat>, base: nat)
    requires GoodSource(source) && Inv(source, s) && Possible(source, s, e) && Brings(e, slot)
    requires e.now < start + 750_000_000 && (got == {} ==> e.now == start)
    requires Gathering(source, s.t, slot, start, got) && NoneSince(LogOf(s, slot.stream), base, slot.chunk)
    ensures var n, all := Next(source, s, e), got + {e.index};
      if e.index in got || |all| != Count(|source(slot).1|) then
        Gathering(source, n.t, slot, start, all) && NoneSince(LogOf(n, slot.stream), base, slot.chunk)
      else Finished(source, n, slot, base)
  {
    hide Inv, Accept, Possible, Collects, Lands, MakesRoom, MovedOn, ValidFragment, Gathering, Count, Part;
    ArrivalIs(source, s, e);
    DeliveredChunk(source, s, e);
    var f := FragmentOf(source, slot, e.index);
    var n := Next(source, s, e);
    if e.index in got {
      FragmentIsRepeated(source, s.t, slot, start, got, f, e.now, e.evicted);
      assert got + {e.index} == got;
    } else {
      FragmentIsKept(source, s.t, slot, start, got, f, e.now, e.evicted);
      assert |got + {e.index}| == |got| + 1;
      if |got| + 1 == f.count {
        assert OnlyAt(LogOf(n, slot.stream), base, |LogOf(s, slot.stream)|, Whole(source, slot));
      }
    }
  }

  /** A chunk that was delivered is not delivered again while its stream goes on. */
  lemma FinishedStays(source: Source, s: State, e: Event, slot: Slot, base: nat)
    requires GoodSource(source) && Inv(source, s) && Possible(source, s, e) && Spares(e, slot)
    requires Finished(source, s, slot, base)
    ensures Finished(source, Next(source, s, e), slot, base)
  {
    hide Inv, Accept, Possible, Lands, MakesRoom, MovedOn, ValidFragment, Count, Part, DropAll, Made;
    var n, log := Next(source, s, e), LogOf(s, slot.stream);
    var j :| base <= j < |log| && OnlyAt(log, base, j, Whole(source, slot));
    if e.Arrives? {
      ArrivalIs(source, s, e);
      DeliveredChunk(source, s, e);
      DeliveredRises(source, s, e, slot.stream);
    } else {
      QuietDelivered(source, s, e, slot.stream);
    }
    assert OnlyAt(LogOf(n, slot.stream), base, j, Whole(source, slot));
  }

  lemma DeliveredRises(source: Source, s: State, e: Event, key: StreamKey)
    requires GoodSource(source) && Inv(source, s) && e.Arrives? && Possible(source, s, e)
    ensures StreamOf(Next(source, s, e).t, key).delivered >= StreamOf(s.t, key).delivered
  {
    hide Accept, Possible, Valid, AllGenuine, GoodLog, ValidFragment, Made, Lands, MakesRoom, MovedOn;
    ArrivalIs(source, s, e);
    var f := FragmentOf(source, SlotOf(e), e.index);
    AcceptGenuine(source, s.t, e.key, e.chunk, f, e.now, e.evicted);
    var (u, done) := Accept(s.t, e.key, e.chunk, f, e.now, e.evicted);
    assert Next(source, s, e).t == u;
    if key == e.key {
      assert StreamOf(u, key) == u.streams[key];
    } else {
      AcceptOther(s.t, e.key, e.chunk, f, e.now, e.evicted, key);
    }
  }

  lemma QuietDelivered(source: Source, s: State, e: Event, key: StreamKey)
    requires GoodSource(source) && Possible(source, s, e) && !e.Arrives? && e != Ends(key)
    ensures StreamOf(Next(source, s, e).t, key) == StreamOf(s.t, key) && LogOf(Next(source, s, e), key) == LogOf(s, key)
  {
    hide Total, Encode;
  }

  // ----- whole runs -----

  /** The fragments of the chunk that arrive from event m on, before event n. */
  function Arrived(events: seq<Event>, m: nat, n: nat, slot: Slot): set<nat>
    requires m <= n <= |events|
  {
    if m == n then {} else Arrived(events, m, n - 1, slot) + (if Brings(events[n - 1], slot) then {events[n - 1].index} else {})
  }

  /** Meanwhile every event spares the chunk, and no newer one is delivered. */
  ghost predicate Undisturbed(events: seq<Event>, states: seq<State>, m: nat, n: nat, slot: Slot)
    requires m <= n <= |events| < |states|
  {
    forall i :: m <= i < n ==> Spares(events[i], slot) && !Overtakes(states[i], states[i + 1], slot)
  }

  /** Event m brings the first fragment, and every other comes less than 750 ms after it. */
  predicate Timely(events: seq<Event>, m: nat, n: nat, slot: Slot)
    requires m < n <= |events|
  {
    Brings(events[m], slot) && forall i :: m <= i < n && Brings(events[i], slot) ==> events[i].now < events[m].now + 750_000_000
  }

  /** The chunk is wanted, and nothing of it is held. */
  ghost predicate Awaited(s: State, slot: Slot) {
    && StreamOf(s.t, slot.stream).delivered < slot.chunk && StreamOf(s.t, slot.stream).newest <= slot.chunk + 1
    && slot !in s.t.assemblies
  }

  lemma IndexFits(source: Source, s: State, e: Event, slot: Slot)
    requires GoodSource(source) && Possible(source, s, e) && Brings(e, slot)
    ensures e.index < Count(|source(slot).1|)
  {
  }

  lemma {:induction false} ArrivedFits(source: Source, events: seq<Event>, states: seq<State>, m: nat, n: nat, slot: Slot)
    requires Run(source, events, states) && m <= n <= |events|
    ensures forall i :: i in Arrived(events, m, n, slot) ==> i < Count(|source(slot).1|)
    decreases n
  {
    hide Next, Possible, Count;
    if m < n {
      ArrivedFits(source, events, states, m, n - 1, slot);
      if Brings(events[n - 1], slot) {
        IndexFits(source, states[n - 1], events[n - 1], slot);
      }
    }
  }

  /** The fragments that have arrived are held, or they were all and the chunk is delivered. */
  ghost predicate HeldOrDone(source: Source, s: State, slot: Slot, start: int, got: set<nat>, base: nat) {
    if |got| < Count(|source(slot).1|) then
      Gathering(source, s.t, slot, start, got) && NoneSince(LogOf(s, slot.stream), base, slot.chunk)
    else Finished(source, s, slot, base)
  }

  lemma OneMoreEvent(source: Source, s: State, e: Event, slot: Slot, start: int, got: set<nat>, base: nat)
    requires GoodSource(source) && Inv(source, s) && Possible(source, s, e) && Spares(e, slot)
    requires !Overtakes(s, Next(source, s, e), slot)
    requires Brings(e, slot) ==> e.now < start + 750_000_000 && (got == {} ==> e.now == start)
    requires forall i :: i in got ==> i < Count(|source(slot).1|)
    requires HeldOrDone(source, s, slot, start, got, base)
    ensures var all := got + (if Brings(e, slot) then {e.index} else {});
      HeldOrDone(source, Next(source, s, e), slot, start, all, base)
  {
    hide Next, Possible, Count, Inv, Spares, Gathering, NoneSince, Finished, Overtakes, GoodSource;
    var all := got + (if Brings(e, slot) then {e.index} else {});
    if Brings(e, slot) {
      IndexFits(source, s, e, slot);
    }
    SetFits(all, Count(|source(slot).1|));
    if |got| >= Count(|source(slot).1|) {
      SizeWithin(got, all);
      FinishedStays(source, s, e, slot, base);
    } else if Brings(e, slot) {
      OwnEvent(source, s, e, slot, start, got, base);
      if e.index in got {
        assert all == got;
      }
    } else {
      assert all == got;
      OtherEvent(source, s, e, slot, start, got, base);
    }
  }

  /** After each event of such a run, the fragments that have arrived are held, or they were all and the chunk is
      delivered. */
  lemma {:induction false} HeldOrDelivered(source: Source, events: seq<Event>, states: seq<State>, m: nat, n: nat, slot: Slot)
    requires Run(source, events, states) && m < n <= |events| && Awaited(states[m], slot)
    requires Timely(events, m, n, slot) && Undisturbed(events, states, m, n, slot)
    ensures HeldOrDone(source, states[n], slot, events[m].now, Arrived(events, m, n, slot), |LogOf(states[m], slot.stream)|)
    decreases n
  {
    hide Next, Possible, Count, Inv, Spares, Overtakes, Run, GoodSource, Awaited, HeldOrDone;
    EventOf(source, events, states, n - 1);
    EveryRunDelivers(source, events, states, n - 1);
    ArrivedFits(source, events, states, m, n - 1, slot);
    if n - 1 == m {
      AwaitedGathers(source, states[m], slot, events[m].now);
    } else {
      HeldOrDelivered(source, events, states, m, n - 1, slot);
      SomeArrived(events, m, n - 1, slot);
    }
    assert Spares(events[n - 1], slot) && !Overtakes(states[n - 1], states[n - 1 + 1], slot);
    OneMoreEvent(source, states[n - 1], events[n - 1], slot, events[m].now, Arrived(events, m, n - 1, slot), |LogOf(states[m], slot.stream)|);
  }

  lemma EventOf(source: Source, events: seq<Event>, states: seq<State>, i: nat)
    requires Run(source, events, states) && i < |events|
    ensures |states| == |events| + 1 && GoodSource(source)
    ensures Possible(source, states[i], events[i]) && states[i + 1] == Next(source, states[i], events[i])
  {
    hide Next, Possible, GoodSource;
  }

  lemma SetFits(got: set<nat>, n: nat)
    requires forall i :: i in got ==> i < n
    ensures |got| <= n
    ensures (forall i :: 0 <= i < n ==> i in got) ==> |got| == n
  {
    BelowSize(n);
    SizeWithin(got, Below(n));
    if forall i :: 0 <= i < n ==> i in got {
      assert got == Below(n);
    }
  }

  function Below(n: nat): set<nat> {
    if n == 0 then {} else Below(n - 1) + {n - 1}
  }

  lemma {:induction false} BelowSize(n: nat)
    ensures |Below(n)| == n && forall i: nat :: i in Below(n) <==> i < n
  {
    if n > 0 {
      BelowSize(n - 1);
    }
  }

  lemma AwaitedGathers(source: Source, s: State, slot: Slot, start: int)
    requires GoodSource(source) && Awaited(s, slot)
    ensures HeldOrDone(source, s, slot, start, {}, |LogOf(s, slot.stream)|)
  {
    assert Encode(source(slot).0, source(slot).1).Some?;
    CountFits(|source(slot).1|);
  }

  lemma {:induction false} SomeArrived(events: seq<Event>, m: nat, n: nat, slot: Slot)
    requires m <= n <= |events| && (m < n ==> Brings(events[m], slot))
    ensures m < n ==> Arrived(events, m, n, slot) != {}
    decreases n
  {
    if m + 1 < n {
      SomeArrived(events, m, n - 1, slot);
    }
  }

  /** Over any run: let nothing be held of a chunk that is still wanted, and let all of its fragments arrive, in any order
      and with any repeats, each less than 750 ms after the first. If meanwhile no expiry or eviction hits the chunk, its
      stream does not end, no chunk two or more ahead arrives and no newer one is delivered, then exactly that chunk has
      joined what the stream delivered, and exactly once. */
  lemma ChunkArrives(source: Source, events: seq<Event>, states: seq<State>, m: nat, n: nat, slot: Slot)
    requires Run(source, events, states) && m < n <= |events| && Awaited(states[m], slot)
    requires Brings(events[m], slot)
    requires forall i :: m <= i < n && Brings(events[i], slot) ==> events[i].now < events[m].now + 750_000_000
    requires forall k :: 0 <= k < Count(|source(slot).1|) ==> k in Arrived(events, m, n, slot)
    requires Undisturbed(events, states, m, n, slot)
    ensures var before, log := LogOf(states[m], slot.stream), LogOf(states[n], slot.stream);
      before <= log && OnceSince(log, |before|, Completed(slot.chunk, source(slot).0, source(slot).1))
  {
    hide Next, Possible, Count, Inv, Gathering, Overtakes;
    HeldOrDelivered(source, events, states, m, n, slot);
    ArrivedFits(source, events, states, m, n, slot);
    SetFits(Arrived(events, m, n, slot), Count(|source(slot).1|));
    LogKeeps(source, events, states, m, n, slot.stream);
  }

  /** Nothing is evicted while everything held and the new fragment fit four mebibytes. */
  lemma EvictsOnlyForRoom(t: Table, current: Slot, cost: nat, evicted: set<Slot>)
    requires Valid(t) && MakesRoom(t, current, cost, evicted) && t.retained + cost <= 4_194_304
    ensures evicted == {}
  {
    if evicted != {} {
      var last :| last in evicted && Total(t.assemblies - (evicted - {last})) + cost > RETAINED_LIMIT;
      TotalSmaller(t.assemblies, evicted - {last});
    }
  }
}
