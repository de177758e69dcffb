/** Reassembling screen video chunks from fragments that are lost, repeated and reordered, within a shared budget. */
module ScreenVideos {
  import opened Sets
  import opened Options
  import opened Bytes
  import opened ScreenFragments

  const RETAINED_LIMIT: nat := 4194304
  const CHUNK_TTL: int := 750_000_000

  /** A stream is one sender's video; a slot is one chunk of it. */
  type StreamKey = nat
  datatype Slot = Slot(stream: StreamKey, chunk: nat)

  datatype Assembly = Assembly(
    metadata: Metadata,
    count: nat,
    totalSize: nat,
    fragments: map<nat, bytes>,
    videoBytes: nat,
    retainedBytes: nat,
    startedAt: int)

  datatype Stream = Stream(newest: nat, delivered: nat)

  datatype Table = Table(streams: map<StreamKey, Stream>, assemblies: map<Slot, Assembly>, retained: int)

  datatype Completed = Completed(chunk: nat, metadata: Metadata, data: bytes)

  // ----- sums -----

  ghost function Total(m: map<Slot, Assembly>): nat {
    if m == map[] then 0
    else
      var k :| k in m;
      m[k].retainedBytes + Total(m - {k})
  }

  lemma {:induction false} TotalWithout(m: map<Slot, Assembly>, k: Slot)
    requires k in m
    ensures Total(m) == m[k].retainedBytes + Total(m - {k})
    decreases |m|
  {
    var j :| j in m && Total(m) == m[j].retainedBytes + Total(m - {j});
    if j != k {
      TotalWithout(m - {j}, k);
      TotalWithout(m - {k}, j);
      assert m - {j} - {k} == m - {k} - {j};
    }
  }

  lemma TotalUpdate(m: map<Slot, Assembly>, k: Slot, a: Assembly)
    ensures Total(m[k := a]) == a.retainedBytes + Total(m - {k})
    ensures k in m ==> Total(m[k := a]) == Total(m) - m[k].retainedBytes + a.retainedBytes
    ensures k !in m ==> Total(m[k := a]) == Total(m) + a.retainedBytes
  {
    TotalWithout(m[k := a], k);
    assert m[k := a] - {k} == m - {k};
    if k in m {
      TotalWithout(m, k);
    } else {
      assert m - {k} == m;
    }
  }

  /** The bytes of the first fragments there are. */
  function Collected(fragments: map<nat, bytes>, n: nat): nat {
    if n == 0 then 0 else Collected(fragments, n - 1) + (if n - 1 in fragments then |fragments[n - 1]| else 0)
  }

  lemma {:induction false} CollectedMore(fragments: map<nat, bytes>, n: nat, k: nat, data: bytes)
    requires k !in fragments
    ensures Collected(fragments[k := data], n) == Collected(fragments, n) + (if k < n then |data| else 0)
  {
    if n > 0 {
      CollectedMore(fragments, n - 1, k, data);
    }
  }

  predicate Canonical(fragments: map<nat, bytes>, size: nat) {
    forall i :: i in fragments ==> i < Count(size) && |fragments[i]| == SizeAt(size, i)
  }

  /** Fragments of canonical size never hold more than the chunk, and hold all of it only together. */
  lemma {:induction false} CollectedBound(fragments: map<nat, bytes>, size: nat, n: nat)
    requires 0 < size <= MAX_CHUNK && Canonical(fragments, size) && n <= Count(size)
    ensures Collected(fragments, n) <= n * FRAGMENT && Collected(fragments, n) <= size
  {
    CountFits(size);
    if n > 0 {
      CollectedBound(fragments, size, n - 1);
    }
  }

  // ----- the invariant -----

  predicate GoodAssembly(a: Assembly) {
    && 0 < a.totalSize <= MAX_CHUNK && a.count == Count(a.totalSize)
    && Canonical(a.fragments, a.totalSize)
    && a.videoBytes == a.retainedBytes == Collected(a.fragments, a.count)
    && |a.fragments| < a.count
  }

  /** A stream assembles only its newest chunk and the one before, and nothing up to what it delivered. */
  predicate GoodSlot(t: Table, s: Slot) {
    s.stream in t.streams && t.streams[s.stream].delivered < s.chunk <= t.streams[s.stream].newest <= s.chunk + 1
  }

  ghost predicate Valid(t: Table) {
    && t.retained == Total(t.assemblies) && t.retained <= RETAINED_LIMIT
    && forall s :: s in t.assemblies ==> GoodSlot(t, s) && GoodAssembly(t.assemblies[s])
  }

  /** At most two chunks of a stream are under assembly. */
  lemma AtMostTwo(t: Table, stream: StreamKey)
    requires Valid(t)
    ensures |set s | s in t.assemblies && s.stream == stream| <= 2
  {
    var slots := set s | s in t.assemblies && s.stream == stream;
    if stream in t.streams {
      var n := t.streams[stream].newest;
      var both := {Slot(stream, n), Slot(stream, if n == 0 then 0 else n - 1)};
      assert slots <= both;
      SizeWithin(slots, both);
    } else {
      assert slots == {};
    }
  }

  // ----- accepting a fragment -----

  function Drop(t: Table, s: Slot): Table {
    if s !in t.assemblies then t
    else t.(assemblies := t.assemblies - {s}, retained := t.retained - t.assemblies[s].retainedBytes)
  }

  function StreamOf(t: Table, key: StreamKey): Stream {
    if key in t.streams then t.streams[key] else Stream(0, 0)
  }

  predicate TooOld(stream: Stream, chunk: nat) {
    chunk <= stream.delivered || (chunk < stream.newest && stream.newest - chunk > 1)
  }

  /** The slots of a stream that fall behind when a chunk is the newest. */
  function Behind(t: Table, key: StreamKey, chunk: nat): set<Slot> {
    set s | s in t.assemblies && s.stream == key && s.chunk + 1 < chunk
  }

  /** The slots of a stream up to a delivered chunk. */
  function Done(t: Table, key: StreamKey, chunk: nat): set<Slot> {
    set s | s in t.assemblies && s.stream == key && s.chunk <= chunk
  }

  ghost function DropAll(t: Table, slots: set<Slot>): Table {
    t.(assemblies := t.assemblies - slots, retained := t.retained - (Total(t.assemblies) - Total(t.assemblies - slots)))
  }

  /** A newer chunk than any before moves the stream on. */
  ghost function MovedOn(t: Table, key: StreamKey, chunk: nat): Table {
    var stream := StreamOf(t, key);
    if chunk <= stream.newest then t.(streams := t.streams[key := stream])
    else DropAll(t, Behind(t, key, chunk)).(streams := t.streams[key := stream.(newest := chunk)])
  }

  function Blank(f: Fragment, now: int): Assembly {
    Assembly(f.metadata, f.count, f.totalSize, map[], 0, 0, now)
  }

  function AssemblyOf(t: Table, s: Slot, f: Fragment, now: int): Assembly {
    if s in t.assemblies then t.assemblies[s] else Blank(f, now)
  }

  predicate Agrees(a: Assembly, f: Fragment) {
    a.count == f.count && a.totalSize == f.totalSize && a.metadata == f.metadata
  }

  function WithFragment(a: Assembly, f: Fragment): Assembly {
    a.(fragments := a.fragments[f.index := f.data], videoBytes := a.videoBytes + |f.data|, retainedBytes := a.retainedBytes + |f.data|)
  }

  function Join(fragments: map<nat, bytes>, n: nat): bytes {
    if n == 0 then [] else Join(fragments, n - 1) + (if n - 1 in fragments then fragments[n - 1] else [])
  }

  function Inserted(t: Table, s: Slot, b: Assembly, cost: nat): Table {
    t.(assemblies := t.assemblies[s := b], retained := t.retained + cost)
  }

  /** A delivered chunk ends the assembly of every chunk up to it. */
  ghost function Delivered(t: Table, key: StreamKey, chunk: nat): Table {
    DropAll(t, Done(t, key, chunk)).(streams := t.streams[key := StreamOf(t, key).(delivered := chunk)])
  }

  /** What a fragment does, given which other assemblies were evicted to make room for it. */
  ghost function Accept(t: Table, key: StreamKey, chunk: nat, f: Fragment, now: int, evicted: set<Slot>): (Table, Option<Completed>) {
    var s := Slot(key, chunk);
    if TooOld(StreamOf(t, key), chunk) then (t.(streams := t.streams[key := StreamOf(t, key)]), None)
    else
      var moved := MovedOn(t, key, chunk);
      var a := AssemblyOf(moved, s, f, now);
      if now >= a.startedAt + CHUNK_TTL || !Agrees(a, f) then (Drop(moved, s), None)
      else if f.index in a.fragments then (moved, None)
      else
        var b := WithFragment(a, f);
        var kept := Inserted(DropAll(moved, evicted), s, b, |f.data|);
        if |b.fragments| != b.count then (kept, None)
        else (Delivered(kept, key, chunk), Some(Completed(chunk, b.metadata, Join(b.fragments, b.count))))
  }

  // ----- making room -----

  /** The evicted assemblies: others than the current one, oldest first, enough, and none too many. */
  ghost predicate MakesRoom(t: Table, current: Slot, cost: nat, evicted: set<Slot>) {
    && evicted <= t.assemblies.Keys - {current}
    && Total(t.assemblies - evicted) + cost <= RETAINED_LIMIT
    && (forall e, k :: e in evicted && k in t.assemblies && k !in evicted && k != current ==>
          t.assemblies[e].startedAt <= t.assemblies[k].startedAt)
    && (evicted != {} ==> exists last :: last in evicted && Total(t.assemblies - (evicted - {last})) + cost > RETAINED_LIMIT)
  }

  lemma {:induction false} TotalSmaller(m: map<Slot, Assembly>, slots: set<Slot>)
    ensures Total(m - slots) <= Total(m)
    decreases |slots|
  {
    if slots == {} {
      assert m - slots == m;
    } else {
      var k :| k in slots;
      TotalSmaller(m, slots - {k});
      assert m - slots == m - (slots - {k}) - {k};
      if k in m {
        TotalWithout(m - (slots - {k}), k);
      } else {
        assert m - slots == m - (slots - {k});
      }
    }
  }

  lemma DropAllValid(t: Table, slots: set<Slot>)
    requires Valid(t)
    ensures Valid(DropAll(t, slots))
  {
    TotalSmaller(t.assemblies, slots);
  }

  lemma DropValid(t: Table, s: Slot)
    requires Valid(t)
    ensures Valid(Drop(t, s))
    ensures Drop(t, s).assemblies == t.assemblies - {s}
  {
    if s in t.assemblies {
      TotalWithout(t.assemblies, s);
    }
  }

  lemma MovedOnValid(t: Table, key: StreamKey, chunk: nat)
    requires Valid(t) && !TooOld(StreamOf(t, key), chunk)
    ensures var m := MovedOn(t, key, chunk);
      && Valid(m) && key in m.streams && m.streams[key].delivered == StreamOf(t, key).delivered < chunk
      && chunk <= m.streams[key].newest <= chunk + 1
  {
    hide GoodAssembly, Total;
    var stream := StreamOf(t, key);
    if chunk > stream.newest {
      var u := DropAll(t, Behind(t, key, chunk));
      DropAllValid(t, Behind(t, key, chunk));
      assert forall s :: s in u.assemblies ==> GoodSlot(u, s);
    }
  }

  lemma {:induction false} CollectedNone(n: nat)
    ensures Collected(map[], n) == 0
  {
    if n > 0 {
      CollectedNone(n - 1);
    }
  }

  lemma BlankGood(f: Fragment, now: int)
    requires ValidFragment(f)
    ensures GoodAssembly(Blank(f, now))
  {
    CollectedNone(f.count);
    CountFits(f.totalSize);
    var none: map<nat, bytes> := map[];
    assert |none| == 0;
  }

  /** A new fragment always fits its chunk. */
  lemma FragmentFits(a: Assembly, f: Fragment)
    requires GoodAssembly(a) && ValidFragment(f) && Agrees(a, f) && f.index !in a.fragments
    ensures a.videoBytes + |f.data| <= a.totalSize
    ensures var b := WithFragment(a, f);
      && Canonical(b.fragments, b.totalSize) && b.videoBytes == b.retainedBytes == Collected(b.fragments, b.count)
      && |b.fragments| <= b.count
  {
    var b := WithFragment(a, f);
    CollectedMore(a.fragments, a.count, f.index, f.data);
    CollectedBound(b.fragments, b.totalSize, b.count);
    assert b.fragments.Keys == a.fragments.Keys + {f.index};
  }

  /** The fragment is wanted, so room is made for it. */
  ghost predicate Lands(t: Table, key: StreamKey, chunk: nat, f: Fragment, now: int) {
    && !TooOld(StreamOf(t, key), chunk)
    && var a := AssemblyOf(MovedOn(t, key, chunk), Slot(key, chunk), f, now);
      now < a.startedAt + CHUNK_TTL && Agrees(a, f) && f.index !in a.fragments
  }

  /** Whatever is evicted to make room, the books balance, the budget holds and every assembly stays good. */
  lemma AcceptValid(t: Table, key: StreamKey, chunk: nat, f: Fragment, now: int, evicted: set<Slot>)
    requires Valid(t) && ValidFragment(f)
    requires Lands(t, key, chunk, f, now) ==> MakesRoom(MovedOn(t, key, chunk), Slot(key, chunk), |f.data|, evicted)
    ensures Valid(Accept(t, key, chunk, f, now, evicted).0)
  {
    hide Total, GoodAssembly, TooOld, MovedOn, MakesRoom, ValidFragment, Collected;
    var s := Slot(key, chunk);
    if TooOld(StreamOf(t, key), chunk) {
      var u := t.(streams := t.streams[key := StreamOf(t, key)]);
      assert forall k :: k in t.assemblies ==> GoodSlot(u, k);
    } else {
      var m := MovedOn(t, key, chunk);
      MovedOnValid(t, key, chunk);
      var a := AssemblyOf(m, s, f, now);
      BlankGood(f, now);
      if now >= a.startedAt + CHUNK_TTL || !Agrees(a, f) {
        DropValid(m, s);
      } else if f.index !in a.fragments {
        InsertValid(m, key, chunk, a, f, evicted);
      }
    }
  }

  lemma MakesRoomFits(t: Table, current: Slot, cost: nat, evicted: set<Slot>)
    requires MakesRoom(t, current, cost, evicted)
    ensures current !in evicted && Total(t.assemblies - evicted) + cost <= RETAINED_LIMIT
  {
  }

  lemma GoodOrWhole(a: Assembly, f: Fragment)
    requires GoodAssembly(a) && ValidFragment(f) && Agrees(a, f) && f.index !in a.fragments
    ensures |WithFragment(a, f).fragments| != a.count ==> GoodAssembly(WithFragment(a, f))
  {
    FragmentFits(a, f);
  }

  lemma InsertValid(t: Table, key: StreamKey, chunk: nat, a: Assembly, f: Fragment, evicted: set<Slot>)
    requires Valid(t) && ValidFragment(f) && MakesRoom(t, Slot(key, chunk), |f.data|, evicted)
    requires key in t.streams && t.streams[key].delivered < chunk <= t.streams[key].newest <= chunk + 1
    requires Agrees(a, f) && f.index !in a.fragments && GoodAssembly(a)
    requires if Slot(key, chunk) in t.assemblies then a == t.assemblies[Slot(key, chunk)] else a.retainedBytes == 0
    ensures var b := WithFragment(a, f);
      var kept := Inserted(DropAll(t, evicted), Slot(key, chunk), b, |f.data|);
      if |b.fragments| != b.count then Valid(kept) else Valid(Delivered(kept, key, chunk))
  {
    hide Total, GoodAssembly, MakesRoom, ValidFragment, Collected, WithFragment, DropAll, Inserted, Delivered;
    var s := Slot(key, chunk);
    var room := DropAll(t, evicted);
    MakesRoomFits(t, s, |f.data|, evicted);
    DropAllValid(t, evicted);
    RoomIs(t, s, |f.data|, evicted);
    var b := WithFragment(a, f);
    WithFragmentSize(a, f);
    GoodOrWhole(a, f);
    InsertedValid(room, s, b, |f.data|);
    if |b.fragments| == b.count {
      DeliveredValid(room, s, b, |f.data|);
    }
  }

  lemma RoomIs(t: Table, s: Slot, cost: nat, evicted: set<Slot>)
    requires Valid(t) && Total(t.assemblies - evicted) + cost <= RETAINED_LIMIT && s !in evicted
    ensures var room := DropAll(t, evicted);
      && room.streams == t.streams && room.retained + cost <= RETAINED_LIMIT
      && (s in room.assemblies <==> s in t.assemblies) && (s in t.assemblies ==> room.assemblies[s] == t.assemblies[s])
  {
    hide Total;
  }

  lemma InsertedValid(t: Table, s: Slot, b: Assembly, cost: nat)
    requires Valid(t) && t.retained + cost <= RETAINED_LIMIT && (GoodAssembly(b) ==> GoodSlot(t, s))
    requires b.retainedBytes == (if s in t.assemblies then t.assemblies[s].retainedBytes else 0) + cost
    ensures Inserted(t, s, b, cost).retained == Total(Inserted(t, s, b, cost).assemblies)
    ensures GoodAssembly(b) ==> Valid(Inserted(t, s, b, cost))
  {
    hide Total, GoodAssembly;
    TotalUpdate(t.assemblies, s, b);
    var u := Inserted(t, s, b, cost);
    if GoodAssembly(b) {
      forall k | k in u.assemblies
        ensures GoodSlot(u, k) && GoodAssembly(u.assemblies[k])
      {
        assert k != s ==> k in t.assemblies;
      }
    }
  }

  lemma DeliveredValid(t: Table, s: Slot, b: Assembly, cost: nat)
    requires Valid(t) && t.retained + cost <= RETAINED_LIMIT && s.stream in t.streams && s.chunk <= t.streams[s.stream].newest
    requires b.retainedBytes == (if s in t.assemblies then t.assemblies[s].retainedBytes else 0) + cost
    ensures Valid(Delivered(Inserted(t, s, b, cost), s.stream, s.chunk))
  {
    hide Total, GoodAssembly;
    TotalUpdate(t.assemblies, s, b);
    var kept := Inserted(t, s, b, cost);
    TotalSmaller(kept.assemblies, Done(kept, s.stream, s.chunk));
    var u := Delivered(kept, s.stream, s.chunk);
    forall k | k in u.assemblies
      ensures GoodSlot(u, k) && GoodAssembly(u.assemblies[k])
    {
      assert k in t.assemblies && k != s;
    }
  }

  lemma WithFragmentSize(a: Assembly, f: Fragment)
    ensures WithFragment(a, f).retainedBytes == a.retainedBytes + |f.data| && WithFragment(a, f).count == a.count
  {
  }

  // ----- what is delivered -----

  lemma {:induction false} FillsCount(m: map<nat, bytes>, n: nat)
    requires forall i :: i in m ==> i < n
    ensures |m| <= n
    ensures |m| == n ==> forall i :: 0 <= i < n ==> i in m
  {
    if n == 0 {
      assert m.Keys == {};
    } else if n - 1 in m {
      FillsCount(m - {n - 1}, n - 1);
    } else {
      FillsCount(m, n - 1);
    }
  }

  lemma {:induction false} JoinSize(fragments: map<nat, bytes>, n: nat)
    ensures |Join(fragments, n)| == Collected(fragments, n)
  {
    if n > 0 {
      JoinSize(fragments, n - 1);
    }
  }

  /** All fragments of canonical size together are the whole chunk: the last length check never fails. */
  lemma WholeSize(fragments: map<nat, bytes>, size: nat)
    requires 0 < size <= MAX_CHUNK && Canonical(fragments, size) && |fragments| == Count(size)
    ensures |Join(fragments, Count(size))| == size
  {
    CountFits(size);
    FillsCount(fragments, Count(size));
    FullBelow(fragments, size, Count(size) - 1);
    JoinSize(fragments, Count(size));
  }

  lemma {:induction false} FullBelow(fragments: map<nat, bytes>, size: nat, n: nat)
    requires Canonical(fragments, size) && n < Count(size) && forall i :: 0 <= i < Count(size) ==> i in fragments
    ensures Collected(fragments, n) == n * FRAGMENT
  {
    if n > 0 {
      FullBelow(fragments, size, n - 1);
    }
  }

  /** The sender's chunks: what each slot stands for. */
  type Source = Slot -> (Metadata, bytes)

  ghost predicate GoodSource(source: Source) {
    forall s :: Encode(source(s).0, source(s).1).Some?
  }

  /** A fragment that the sender made for this slot. */
  predicate Made(source: Source, s: Slot, f: Fragment) {
    && f.metadata == source(s).0 && f.totalSize == |source(s).1| && f.count == Count(f.totalSize)
    && f.index < f.count && f.data == Part(source(s).1, f.index)
  }

  predicate Genuine(source: Source, s: Slot, a: Assembly) {
    && a.metadata == source(s).0 && a.totalSize == |source(s).1|
    && forall i :: i in a.fragments ==> i < Count(a.totalSize) && a.fragments[i] == Part(source(s).1, i)
  }

  ghost predicate AllGenuine(source: Source, t: Table) {
    forall s :: s in t.assemblies ==> Genuine(source, s, t.assemblies[s])
  }

  /** What a fragment of the sender is, as decoding it gives it. */
  lemma MadeByEncoding(source: Source, s: Slot, i: nat)
    requires GoodSource(source) && i < |Encode(source(s).0, source(s).1).value|
    ensures var f := Decode(Encode(source(s).0, source(s).1).value[i]);
      f.Some? && Made(source, s, f.value) && ValidFragment(f.value)
  {
    assert Encode(source(s).0, source(s).1).Some?;
    FragmentRoundTrip(source(s).0, source(s).1, i);
    CountFits(|source(s).1|);
  }

  lemma PartExtends(data: bytes, i: nat)
    requires i < Count(|data|)
    ensures i * FRAGMENT <= |data| && (i + 1 < Count(|data|) ==> (i + 1) * FRAGMENT <= |data|)
    ensures data[..i * FRAGMENT] + Part(data, i) == if i + 1 < Count(|data|) then data[..(i + 1) * FRAGMENT] else data
  {
    assert i * FRAGMENT + |Part(data, i)| == if i + 1 < Count(|data|) then (i + 1) * FRAGMENT else |data|;
    assert Part(data, i) == data[i * FRAGMENT..i * FRAGMENT + |Part(data, i)|];
  }

  lemma {:induction false} JoinIsPrefix(data: bytes, fragments: map<nat, bytes>, n: nat)
    requires n <= Count(|data|) && forall i :: 0 <= i < n ==> i in fragments && fragments[i] == Part(data, i)
    ensures Join(fragments, n) == if n < Count(|data|) then data[..n * FRAGMENT] else data
  {
    hide Part, Count;
    if n > 0 {
      JoinIsPrefix(data, fragments, n - 1);
      PartExtends(data, n - 1);
    } else {
      NoParts(data);
    }
  }

  lemma NoParts(data: bytes)
    ensures Count(|data|) == 0 ==> data == []
  {
  }

  lemma FewerGenuine(source: Source, t: Table, u: Table)
    requires AllGenuine(source, t) && forall s :: s in u.assemblies ==> s in t.assemblies && u.assemblies[s] == t.assemblies[s]
    ensures AllGenuine(source, u)
  {
  }

  lemma MovedOnGenuine(source: Source, t: Table, key: StreamKey, chunk: nat)
    requires AllGenuine(source, t)
    ensures AllGenuine(source, MovedOn(t, key, chunk))
  {
    hide Total, Genuine;
    FewerGenuine(source, t, MovedOn(t, key, chunk));
  }

  lemma WithFragmentGenuine(source: Source, s: Slot, a: Assembly, f: Fragment)
    requires Genuine(source, s, a) && Made(source, s, f)
    ensures Genuine(source, s, WithFragment(a, f))
  {
  }

  /** Whatever order the sender's fragments arrive in, and however often, a delivered chunk is the sender's chunk,
      byte for byte with its metadata, and newer than any the stream delivered before. */
  lemma AcceptGenuine(source: Source, t: Table, key: StreamKey, chunk: nat, f: Fragment, now: int, evicted: set<Slot>)
    requires GoodSource(source) && Valid(t) && AllGenuine(source, t) && ValidFragment(f) && Made(source, Slot(key, chunk), f)
    ensures var (u, done) := Accept(t, key, chunk, f, now, evicted);
      && AllGenuine(source, u)
      && key in u.streams
      && (done.None? ==> u.streams[key].delivered == StreamOf(t, key).delivered)
      && (done.Some? ==>
            && done.value == Completed(chunk, source(Slot(key, chunk)).0, source(Slot(key, chunk)).1)
            && StreamOf(t, key).delivered < chunk == u.streams[key].delivered)
  {
    hide Total, Genuine, Made, MakesRoom, ValidFragment, Collected, WithFragment, Join, Encode, GoodAssembly;
    var s := Slot(key, chunk);
    if !TooOld(StreamOf(t, key), chunk) {
      var m := MovedOn(t, key, chunk);
      MovedOnGenuine(source, t, key, chunk);
      MovedOnValid(t, key, chunk);
      var a := AssemblyOf(m, s, f, now);
      BlankGenuine(source, s, f, now);
      BlankGood(f, now);
      if !(now >= a.startedAt + CHUNK_TTL || !Agrees(a, f)) && f.index !in a.fragments {
        var b := WithFragment(a, f);
        WithFragmentGenuine(source, s, a, f);
        if |b.fragments| == b.count {
          WholeIsSource(source, s, a, f);
        }
      }
    }
  }

  lemma BlankGenuine(source: Source, s: Slot, f: Fragment, now: int)
    requires Made(source, s, f)
    ensures Genuine(source, s, Blank(f, now))
  {
  }

  lemma WholeIsSource(source: Source, s: Slot, a: Assembly, f: Fragment)
    requires Genuine(source, s, a) && Made(source, s, f) && GoodAssembly(a) && ValidFragment(f) && Agrees(a, f) && f.index !in a.fragments
    requires var b := WithFragment(a, f); |b.fragments| == b.count
    ensures var b := WithFragment(a, f); b.metadata == source(s).0 && Join(b.fragments, b.count) == source(s).1
  {
    var b := WithFragment(a, f);
    WithFragmentGenuine(source, s, a, f);
    FillsCount(b.fragments, b.count);
    JoinIsPrefix(source(s).1, b.fragments, b.count);
  }

  // ----- runs -----

  /** Fragments arrive, assemblies expire, streams end. */
  datatype Event =
    | Arrives(key: StreamKey, chunk: nat, index: nat, now: int, evicted: set<Slot>)
    | Expires(slots: set<Slot>)
    | Ends(key: StreamKey)

  /** Everything ever delivered on each stream, and how much of it was delivered before the stream's state was last
      dropped. */
  datatype State = State(t: Table, log: map<StreamKey, seq<Completed>>, dropped: map<StreamKey, nat>)

  const START: State := State(Table(map[], map[], 0), map[], map[])

  function DroppedOf(s: State, key: StreamKey): nat {
    if key in s.dropped then s.dropped[key] else 0
  }

  function LogOf(s: State, key: StreamKey): seq<Completed> {
    if key in s.log then s.log[key] else []
  }

  /** An arriving fragment is one the sender made, and makes the room it needs. */
  ghost predicate Possible(source: Source, s: State, e: Event) {
    e.Arrives? ==>
      var chunk := source(Slot(e.key, e.chunk));
      Encode(chunk.0, chunk.1).Some? && e.index < |Encode(chunk.0, chunk.1).value|
      && var f := Fragment(chunk.0, e.index, Count(|chunk.1|), |chunk.1|, Part(chunk.1, e.index));
        Lands(s.t, e.key, e.chunk, f, e.now) ==> MakesRoom(MovedOn(s.t, e.key, e.chunk), Slot(e.key, e.chunk), |f.data|, e.evicted)
  }

  ghost function Next(source: Source, s: State, e: Event): State
    requires GoodSource(source) && Possible(source, s, e)
  {
    match e
    case Arrives(key, chunk, index, now, evicted) =>
      MadeByEncoding(source, Slot(key, chunk), index);
      var f := Decode(Encode(source(Slot(key, chunk)).0, source(Slot(key, chunk)).1).value[index]).value;
      var (t, done) := Accept(s.t, key, chunk, f, now, evicted);
      s.(t := t, log := s.log[key := LogOf(s, key) + (if done.Some? then [done.value] else [])])
    case Expires(slots) => s.(t := DropAll(s.t, slots))
    case Ends(key) =>
      var gone := set slot | slot in s.t.assemblies && slot.stream == key;
      var t := DropAll(s.t, gone);
      s.(t := t.(streams := t.streams - {key}), dropped := s.dropped[key := |LogOf(s, key)|])
  }

  /** Delivered chunks are the sender's; those delivered since the state was last dropped are each newer than the one
      before. */
  ghost predicate GoodLog(source: Source, key: StreamKey, log: seq<Completed>, from: nat, delivered: nat) {
    && from <= |log|
    && (forall i :: 0 <= i < |log| ==> log[i] == Completed(log[i].chunk, source(Slot(key, log[i].chunk)).0, source(Slot(key, log[i].chunk)).1))
    && (forall i, j :: from <= i < j < |log| ==> log[i].chunk < log[j].chunk)
    && (forall i :: from <= i < |log| ==> log[i].chunk <= delivered)
  }

  ghost predicate Inv(source: Source, s: State) {
    && Valid(s.t) && AllGenuine(source, s.t)
    && forall key :: GoodLog(source, key, LogOf(s, key), DroppedOf(s, key), StreamOf(s.t, key).delivered)
  }

  lemma ArrivesInv(source: Source, s: State, e: Event)
    requires GoodSource(source) && Inv(source, s) && e.Arrives? && Possible(source, s, e)
    ensures Inv(source, Next(source, s, e))
  {
    hide Valid, Accept, TooOld, MovedOn, MakesRoom, Made, ValidFragment, Decode, Genuine, Lands, GoodLog, AllGenuine, Encode;
    var n := Next(source, s, e);
    var slot := Slot(e.key, e.chunk);
    MadeByEncoding(source, slot, e.index);
    var f := Decode(Encode(source(slot).0, source(slot).1).value[e.index]).value;
    FragmentRoundTrip(source(slot).0, source(slot).1, e.index);
    AcceptValid(s.t, e.key, e.chunk, f, e.now, e.evicted);
    AcceptGenuine(source, s.t, e.key, e.chunk, f, e.now, e.evicted);
    var done := Accept(s.t, e.key, e.chunk, f, e.now, e.evicted).1;
    forall k
      ensures GoodLog(source, k, LogOf(n, k), DroppedOf(n, k), StreamOf(n.t, k).delivered)
    {
      assert GoodLog(source, k, LogOf(s, k), DroppedOf(s, k), StreamOf(s.t, k).delivered);
      if k != e.key {
        AcceptOther(s.t, e.key, e.chunk, f, e.now, e.evicted, k);
      } else if done.Some? {
        GoodLogMore(source, k, LogOf(s, k), DroppedOf(s, k), StreamOf(s.t, k).delivered, e.chunk);
      } else {
        assert LogOf(s, k) + [] == LogOf(s, k);
      }
    }
  }

  lemma GoodLogMore(source: Source, key: StreamKey, log: seq<Completed>, from: nat, delivered: nat, chunk: nat)
    requires GoodLog(source, key, log, from, delivered) && delivered < chunk
    ensures GoodLog(source, key, log + [Completed(chunk, source(Slot(key, chunk)).0, source(Slot(key, chunk)).1)], from, chunk)
  {
  }

  lemma NextInv(source: Source, s: State, e: Event)
    requires GoodSource(source) && Inv(source, s) && Possible(source, s, e)
    ensures Inv(source, Next(source, s, e))
  {
    if e.Arrives? {
      ArrivesInv(source, s, e);
    } else {
      QuietInv(source, s, e);
    }
  }

  lemma QuietInv(source: Source, s: State, e: Event)
    requires GoodSource(source) && Inv(source, s) && Possible(source, s, e) && !e.Arrives?
    ensures Inv(source, Next(source, s, e))
  {
    hide Valid, Total, Genuine, Accept, Decode, Encode;
    var n := Next(source, s, e);
    if e.Expires? {
      DropAllValid(s.t, e.slots);
    } else {
      EndsValid(s.t, e.key);
    }
    FewerGenuine(source, s.t, n.t);
    forall k
      ensures GoodLog(source, k, LogOf(n, k), DroppedOf(n, k), StreamOf(n.t, k).delivered)
    {
      assert GoodLog(source, k, LogOf(s, k), DroppedOf(s, k), StreamOf(s.t, k).delivered);
    }
  }

  lemma AcceptOther(t: Table, key: StreamKey, chunk: nat, f: Fragment, now: int, evicted: set<Slot>, k: StreamKey)
    requires k != key
    ensures StreamOf(Accept(t, key, chunk, f, now, evicted).0, k) == StreamOf(t, k)
  {
    hide Total, Join, Collected, TooOld, Agrees, WithFragment, AssemblyOf, Behind, Done;
  }

  lemma EndsValid(t: Table, key: StreamKey)
    requires Valid(t)
    ensures var u := DropAll(t, set slot | slot in t.assemblies && slot.stream == key); Valid(u.(streams := u.streams - {key}))
  {
    DropAllValid(t, set slot | slot in t.assemblies && slot.stream == key);
    hide Total, GoodAssembly;
  }

  ghost predicate Run(source: Source, events: seq<Event>, states: seq<State>) {
    && GoodSource(source) && |states| == |events| + 1
    && states[0] == START
    && forall i :: 0 <= i < |events| ==> Possible(source, states[i], events[i]) && states[i + 1] == Next(source, states[i], events[i])
  }

  /** In every state of every run: the retained bytes are the sum over the assemblies and within 4 MiB, a stream has at
      most two chunks under assembly, and each stream delivered only the sender's chunks, ever newer ones since its
      state was last dropped. */
  lemma {:induction false} EveryRunDelivers(source: Source, events: seq<Event>, states: seq<State>, n: nat)
    requires Run(source, events, states) && n < |states|
    ensures Inv(source, states[n])
  {
    hide Inv, Next, Possible;
    if n == 0 {
      EmptyInv(source);
    } else {
      EveryRunDelivers(source, events, states, n - 1);
      NextInv(source, states[n - 1], events[n - 1]);
    }
  }

  lemma EmptyInv(source: Source)
    ensures Inv(source, START)
  {
  }

  // ----- when identifiers rise -----

  lemma LogGrows(source: Source, s: State, e: Event, key: StreamKey)
    requires GoodSource(source) && Possible(source, s, e)
    ensures LogOf(s, key) <= LogOf(Next(source, s, e), key)
    ensures e != Ends(key) ==> DroppedOf(Next(source, s, e), key) == DroppedOf(s, key)
  {
    hide Accept, DropAll, Encode, Decode, Lands, MakesRoom;
  }

  lemma {:induction false} LogKeeps(source: Source, events: seq<Event>, states: seq<State>, m: nat, n: nat, key: StreamKey)
    requires Run(source, events, states) && m <= n < |states|
    requires forall i :: m <= i < n ==> events[i] != Ends(key)
    ensures LogOf(states[m], key) <= LogOf(states[n], key) && DroppedOf(states[n], key) == DroppedOf(states[m], key)
    decreases n
  {
    hide Next, Possible;
    if m < n {
      LogKeeps(source, events, states, m, n - 1, key);
      LogGrows(source, states[n - 1], events[n - 1], key);
    }
  }

  /** While a stream's state is not dropped, its deliveries have rising identifiers, whatever is lost, late or repeated. */
  lemma IdentifiersRise(source: Source, events: seq<Event>, states: seq<State>, m: nat, n: nat, key: StreamKey)
    requires Run(source, events, states) && m <= n < |states|
    requires forall i :: m <= i < n ==> events[i] != Ends(key)
    ensures LogOf(states[m], key) <= LogOf(states[n], key)
    ensures var log := LogOf(states[n], key);
      forall i, j :: |LogOf(states[m], key)| <= i < j < |log| ==> log[i].chunk < log[j].chunk
  {
    hide Next, Possible, Valid, AllGenuine;
    LogKeeps(source, events, states, m, n, key);
    EveryRunDelivers(source, events, states, m);
    EveryRunDelivers(source, events, states, n);
    assert GoodLog(source, key, LogOf(states[m], key), DroppedOf(states[m], key), StreamOf(states[m].t, key).delivered);
    assert GoodLog(source, key, LogOf(states[n], key), DroppedOf(states[n], key), StreamOf(states[n].t, key).delivered);
  }

  /** Once it is dropped nothing is remembered: whatever chunk of one fragment arrives next is delivered, even one that
      was delivered before. */
  lemma DeliversAgain(source: Source, s: State, key: StreamKey, chunk: nat, now: int, evicted: set<Slot>)
    requires GoodSource(source) && Valid(s.t) && key !in s.t.streams && chunk > 0
    requires Possible(source, s, Arrives(key, chunk, 0, now, evicted)) && Count(|source(Slot(key, chunk)).1|) == 1
    ensures var made := source(Slot(key, chunk));
      LogOf(Next(source, s, Arrives(key, chunk, 0, now, evicted)), key) == LogOf(s, key) + [Completed(chunk, made.0, made.1)]
  {
    hide Accept, Encode, Decode, Lands, MakesRoom, Valid, Made, ValidFragment;
    var slot := Slot(key, chunk);
    MadeByEncoding(source, slot, 0);
    var f := Decode(Encode(source(slot).0, source(slot).1).value[0]).value;
    FragmentRoundTrip(source(slot).0, source(slot).1, 0);
    OnlyPart(source(slot).1);
    WholeInOne(s.t, key, chunk, f, now, evicted);
  }

  lemma OnlyPart(data: bytes)
    requires Count(|data|) == 1
    ensures Part(data, 0) == data
  {
  }

  lemma WholeInOne(t: Table, key: StreamKey, chunk: nat, f: Fragment, now: int, evicted: set<Slot>)
    requires Valid(t) && key !in t.streams && chunk > 0 && f.index == 0 && f.count == 1
    ensures Accept(t, key, chunk, f, now, evicted).1 == Some(Completed(chunk, f.metadata, f.data))
  {
    hide Total, MakesRoom, GoodAssembly, Valid, Delivered, Inserted, DropAll, MovedOn, Join;
    var slot := Slot(key, chunk);
    NotThere(t, key, chunk);
    OneFragment(f, now);
    assert AssemblyOf(MovedOn(t, key, chunk), slot, f, now) == Blank(f, now);
  }

  lemma NotThere(t: Table, key: StreamKey, chunk: nat)
    requires Valid(t) && key !in t.streams
    ensures Slot(key, chunk) !in MovedOn(t, key, chunk).assemblies
  {
    hide Total;
    assert Slot(key, chunk) in t.assemblies ==> GoodSlot(t, Slot(key, chunk));
  }

  lemma OneFragment(f: Fragment, now: int)
    requires f.index == 0
    ensures var b := WithFragment(Blank(f, now), f);
      b.fragments == map[0 := f.data] && |b.fragments| == 1 && Join(b.fragments, 1) == f.data
  {
    var b := WithFragment(Blank(f, now), f);
    assert Join(b.fragments, 1) == Join(b.fragments, 0) + f.data;
  }

  const FLAT: Metadata := Metadata(2, 2, 0, 1, true)

  function TinySource(): Source {
    s => (FLAT, [0])
  }

  lemma TinyIsGood()
    ensures GoodSource(TinySource())
    ensures Encode(FLAT, [0]).Some? && |Encode(FLAT, [0]).value| == 1 && Count(1) == 1
  {
  }

  /** The whole of chunk 1 arrives. */
  function Tiny(): Event {
    Arrives(0, 1, 0, 0, {})
  }

  lemma TinyIsPossible(s: State)
    requires s.t.assemblies == map[]
    ensures Possible(TinySource(), s, Tiny())
  {
    TinyIsGood();
    NothingHeld();
    hide Encode;
    assert MovedOn(s.t, 0, 1).assemblies == map[];
    assert MovedOn(s.t, 0, 1).assemblies - {} == map[];
  }

  lemma NothingHeld()
    ensures Total(map[]) == 0
  {
  }

  lemma TinyDelivers(s: State)
    requires s.t.assemblies == map[] && s.t.retained == 0 && 0 !in s.t.streams
    ensures GoodSource(TinySource()) && Possible(TinySource(), s, Tiny())
    ensures var n := Next(TinySource(), s, Tiny()); LogOf(n, 0) == LogOf(s, 0) + [Completed(1, FLAT, [0])]
  {
    TinyIsGood();
    TinyIsPossible(s);
    NothingHeld();
    hide Next, Possible, Encode;
    DeliversAgain(TinySource(), s, 0, 1, 0, {});
  }

  lemma EndsEmpty(s: State)
    requires Inv(TinySource(), s) && GoodSource(TinySource()) && s.t.streams.Keys <= {0}
    ensures Possible(TinySource(), s, Ends(0))
    ensures var n := Next(TinySource(), s, Ends(0)); n.t.assemblies == map[] && n.t.retained == 0 && 0 !in n.t.streams && n.log == s.log
  {
    hide Total;
    NothingHeld();
    var n := Next(TinySource(), s, Ends(0));
    assert forall slot :: slot in s.t.assemblies ==> GoodSlot(s.t, slot);
    assert n.t.assemblies == map[];
    QuietInv(TinySource(), s, Ends(0));
  }

  /** A run in which a chunk that was delivered is delivered again, because the stream's state was dropped in between. */
  lemma RepeatedAfterEnd() returns (states: seq<State>)
    ensures Run(TinySource(), [Tiny(), Ends(0), Tiny()], states)
    ensures LogOf(states[3], 0) == [Completed(1, FLAT, [0]), Completed(1, FLAT, [0])]
  {
    TinyIsGood();
    hide Next, Possible, Inv, Encode, DropAll;
    var source := TinySource();
    TinyDelivers(START);
    var first := Next(source, START, Tiny());
    EmptyInv(source);
    NextInv(source, START, Tiny());
    OneStream(START);
    EndsEmpty(first);
    var second := Next(source, first, Ends(0));
    TinyDelivers(second);
    states := [START, first, second, Next(source, second, Tiny())];
    Chain(source, states);
  }

  lemma OneStream(s: State)
    requires GoodSource(TinySource()) && Possible(TinySource(), s, Tiny()) && s.t.streams == map[]
    ensures Next(TinySource(), s, Tiny()).t.streams.Keys <= {0}
  {
    hide Encode, Decode, Join, Total;
  }

  lemma Chain(source: Source, states: seq<State>)
    requires GoodSource(source) && |states| == 4 && states[0] == START
    requires Possible(source, states[0], Tiny()) && states[1] == Next(source, states[0], Tiny())
    requires Possible(source, states[1], Ends(0)) && states[2] == Next(source, states[1], Ends(0))
    requires Possible(source, states[2], Tiny()) && states[3] == Next(source, states[2], Tiny())
    ensures Run(source, [Tiny(), Ends(0), Tiny()], states)
  {
    hide Next, Possible, GoodSource;
  }
}
