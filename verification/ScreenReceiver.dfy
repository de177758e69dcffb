/** The receiver of screen video as the object its handlers update in place. */
module ScreenReceivers {
  import opened Options
  import opened Bytes
  import opened ScreenFragments
  import opened ScreenVideos

  /** An assembly that is not in the table adds nothing to it. */
  lemma BlankCounts(t: Table, s: Slot, blank: Assembly, evicted: set<Slot>)
    requires s !in t.assemblies && blank.retainedBytes == 0 && s !in evicted
    ensures Total(t.assemblies[s := blank] - evicted) == Total(t.assemblies - evicted)
  {
    TotalUpdate(t.assemblies - evicted, s, blank);
    assert t.assemblies[s := blank] - evicted == (t.assemblies - evicted)[s := blank];
  }

  lemma BlankRoom(t: Table, s: Slot, blank: Assembly, cost: nat, evicted: set<Slot>)
    requires s !in t.assemblies && blank.retainedBytes == 0
    requires MakesRoom(t.(assemblies := t.assemblies[s := blank]), s, cost, evicted)
    ensures MakesRoom(t, s, cost, evicted)
  {
    BlankCounts(t, s, blank, evicted);
    if evicted != {} {
      var last :| last in evicted && Total(t.assemblies[s := blank] - (evicted - {last})) + cost > RETAINED_LIMIT;
      BlankCounts(t, s, blank, evicted - {last});
    }
  }

  lemma {:induction false} AloneTotal(m: map<Slot, Assembly>, s: Slot)
    requires m.Keys <= {s}
    ensures Total(m) == if s in m then m[s].retainedBytes else 0
  {
    if s in m {
      TotalWithout(m, s);
      assert m - {s} == map[];
    } else {
      assert m == map[];
    }
  }

  /** What has been evicted is older than what is left, and was needed. */
  ghost predicate SoFar(t: Table, current: Slot, cost: nat, evicted: set<Slot>) {
    && evicted <= t.assemblies.Keys - {current}
    && (forall e, k :: e in evicted && k in t.assemblies && k !in evicted && k != current ==>
          t.assemblies[e].startedAt <= t.assemblies[k].startedAt)
    && (evicted != {} ==> exists last :: last in evicted && Total(t.assemblies - (evicted - {last})) + cost > RETAINED_LIMIT)
  }

  lemma NoneYet(t: Table, current: Slot, cost: nat)
    ensures SoFar(t, current, cost, {})
  {
  }

  lemma OneMore(t: Table, current: Slot, cost: nat, evicted: set<Slot>, oldest: Slot)
    requires SoFar(t, current, cost, evicted) && Total(t.assemblies - evicted) + cost > RETAINED_LIMIT
    requires oldest in t.assemblies && oldest !in evicted && oldest != current
    requires forall k :: k in t.assemblies && k !in evicted && k != current ==> t.assemblies[oldest].startedAt <= t.assemblies[k].startedAt
    ensures SoFar(t, current, cost, evicted + {oldest})
    ensures t.assemblies - (evicted + {oldest}) == t.assemblies - evicted - {oldest}
  {
    hide Total;
    assert evicted + {oldest} - {oldest} == evicted;
    assert oldest in evicted + {oldest};
  }

  lemma SoFarMakesRoom(t: Table, current: Slot, cost: nat, evicted: set<Slot>)
    requires SoFar(t, current, cost, evicted) && Total(t.assemblies - evicted) + cost <= RETAINED_LIMIT
    ensures MakesRoom(t, current, cost, evicted) && current !in evicted
  {
  }

  class ScreenReceiver {
    var streams: map<StreamKey, Stream>
    var assemblies: map<Slot, Assembly>
    var retained: int

    constructor ()
      ensures Value() == Table(map[], map[], 0)
    {
      streams, assemblies, retained := map[], map[], 0;
    }

    function Value(): Table
      reads this
    {
      Table(streams, assemblies, retained)
    }

    method RemoveChunk(s: Slot)
      modifies this
      ensures Value() == Drop(old(Value()), s)
    {
      if s !in assemblies {
        return;
      }
      retained := retained - assemblies[s].retainedBytes;
      assemblies := assemblies - {s};
    }

    /** Remove several assemblies one by one. */
    method RemoveChunks(slots: set<Slot>)
      modifies this
      ensures streams == old(streams) && assemblies == old(assemblies) - slots
      ensures old(retained) == Total(old(assemblies)) ==> retained == Total(assemblies)
    {
      var left := slots;
      while left != {}
        invariant left <= slots
        invariant streams == old(streams) && assemblies == old(assemblies) - (slots - left)
        invariant old(retained) == Total(old(assemblies)) ==> retained == Total(assemblies)
        decreases |left|
      {
        var s :| s in left;
        left := left - {s};
        if s in assemblies {
          TotalWithout(assemblies, s);
        }
        assert old(assemblies) - (slots - left) == assemblies - {s};
        RemoveChunk(s);
      }
    }

    /** The oldest assembly but the current one. */
    method OldestOther(current: Slot) returns (oldest: Option<Slot>)
      ensures oldest == None ==> assemblies.Keys <= {current}
      ensures oldest.Some? ==> oldest.value in assemblies && oldest.value != current
      ensures oldest.Some? ==> forall s :: s in assemblies && s != current ==> assemblies[oldest.value].startedAt <= assemblies[s].startedAt
    {
      oldest := None;
      var left := assemblies.Keys;
      while left != {}
        invariant left <= assemblies.Keys
        invariant oldest.Some? ==> oldest.value in assemblies && oldest.value != current
        invariant forall s :: s in assemblies && s !in left && s != current ==>
          oldest.Some? && assemblies[oldest.value].startedAt <= assemblies[s].startedAt
        decreases |left|
      {
        var s :| s in left;
        left := left - {s};
        if s != current && (oldest == None || assemblies[s].startedAt < assemblies[oldest.value].startedAt) {
          oldest := Some(s);
        }
      }
    }

    /** Evict until a fragment of the current chunk fits. It always ends up fitting, and the current chunk is never
        evicted for it. */
    method MakeRoom(current: Slot, cost: nat) returns (ok: bool, ghost evicted: set<Slot>)
      requires Valid(Value()) && current in assemblies && 0 < cost && assemblies[current].retainedBytes + cost <= MAX_CHUNK
      modifies this
      ensures ok && current in assemblies && current !in evicted && MakesRoom(old(Value()), current, cost, evicted)
      ensures Value() == DropAll(old(Value()), evicted)
    {
      hide Total, GoodSlot, GoodAssembly, SoFar, MakesRoom;
      ghost var start := Value();
      evicted := {};
      if cost == 0 || cost > RETAINED_LIMIT {
        assert false;
        return false, evicted;
      }
      assert assemblies - evicted == assemblies;
      NoneYet(start, current, cost);
      while cost > RETAINED_LIMIT - retained
        invariant streams == start.streams && assemblies == start.assemblies - evicted
        invariant retained == Total(assemblies)
        invariant SoFar(start, current, cost, evicted)
        decreases |assemblies|
      {
        var oldest := OldestOther(current);
        if oldest == None {
          AloneTotal(assemblies, current);
          assert false;
          return false, evicted;
        }
        TotalWithout(assemblies, oldest.value);
        ghost var more := evicted + {oldest.value};
        assert start.assemblies - evicted == assemblies;
        forall k | k in start.assemblies && k !in evicted && k != current
          ensures start.assemblies[oldest.value].startedAt <= start.assemblies[k].startedAt
        {
          assert k in assemblies;
        }
        OneMore(start, current, cost, evicted, oldest.value);
        RemoveChunk(oldest.value);
        evicted := more;
      }
      ok := true;
      SoFarMakesRoom(start, current, cost, evicted);
    }

    /** A newer chunk moves its stream on: older chunks but the one before it are given up. */
    method MoveOn(key: StreamKey, chunk: nat)
      requires Valid(Value()) && !TooOld(StreamOf(Value(), key), chunk)
      modifies this
      ensures Valid(Value()) && Value() == MovedOn(old(Value()), key, chunk)
    {
      hide Total, GoodAssembly;
      ghost var start := Value();
      MovedOnValid(start, key, chunk);
      var stream := StreamOf(Value(), key);
      streams := streams[key := stream];
      if chunk > stream.newest {
        streams := streams[key := stream.(newest := chunk)];
        RemoveChunks(Behind(Value(), key, chunk));
      }
    }

    /** The assembly of a chunk, a new one if there is none. */
    method Ensure(s: Slot, f: Fragment, now: int) returns (a: Assembly)
      requires Valid(Value()) && GoodSlot(Value(), s) && ValidFragment(f)
      modifies this`assemblies
      ensures Valid(Value()) && s in assemblies && a == assemblies[s] == AssemblyOf(old(Value()), s, f, now)
      ensures assemblies == old(assemblies)[s := a]
      ensures s in old(assemblies) ==> assemblies == old(assemblies)
    {
      hide Total;
      if s !in assemblies {
        BlankGood(f, now);
        TotalUpdate(assemblies, s, Blank(f, now));
        assemblies := assemblies[s := Blank(f, now)];
      }
      a := assemblies[s];
    }

    /** Put a fragment into its chunk, and deliver the chunk if it is whole. */
    method Insert(s: Slot, a: Assembly, f: Fragment) returns (done: Option<Completed>)
      requires retained == Total(assemblies) && s.stream in streams
      requires GoodAssembly(a) && ValidFragment(f) && Agrees(a, f) && f.index !in a.fragments
      requires s in assemblies && assemblies[s] == a
      modifies this
      ensures var b := WithFragment(a, f);
        var kept := Inserted(old(Value()), s, b, |f.data|);
        if |b.fragments| != b.count then Value() == kept && done == None
        else Value() == Delivered(kept, s.stream, s.chunk) && done == Some(Completed(s.chunk, b.metadata, Join(b.fragments, b.count)))
    {
      hide Total, GoodAssembly, ValidFragment, Canonical, Collected;
      var b := WithFragment(a, f);
      TotalUpdate(assemblies, s, b);
      assemblies := assemblies[s := b];
      retained := retained + |f.data|;
      done := None;
      if |b.fragments| != b.count {
        return;
      }
      WholeChunk(a, f);
      ghost var kept := Value();
      var data: bytes := [];
      for index := 0 to b.count
        invariant data == Join(b.fragments, index)
      {
        data := data + (if index in b.fragments then b.fragments[index] else []);
      }
      streams := streams[s.stream := streams[s.stream].(delivered := s.chunk)];
      RemoveChunks(Done(Value(), s.stream, s.chunk));
      done := Some(Completed(s.chunk, b.metadata, data));
    }

    /** One fragment. The check for more bytes than the chunk has cannot fail for fragments that decoded. */
    method AcceptFragment(key: StreamKey, chunk: nat, f: Fragment, now: int) returns (done: Option<Completed>, ghost evicted: set<Slot>)
      requires Valid(Value()) && ValidFragment(f)
      modifies this
      ensures Valid(Value())
      ensures Lands(old(Value()), key, chunk, f, now) ==>
        MakesRoom(MovedOn(old(Value()), key, chunk), Slot(key, chunk), |f.data|, evicted)
      ensures (Value(), done) == Accept(old(Value()), key, chunk, f, now, evicted)
    {
      hide Total, GoodAssembly, MovedOn, MakesRoom, ValidFragment, WithFragment, TooOld, DropAll, Delivered;
      ghost var start := Value();
      var s := Slot(key, chunk);
      done, evicted := None, {};
      var stream := StreamOf(Value(), key);
      if TooOld(stream, chunk) {
        streams := streams[key := stream];
        AcceptValid(start, key, chunk, f, now, {});
        return;
      }
      MovedOnValid(start, key, chunk);
      MoveOn(key, chunk);
      ghost var moved := Value();
      var a := Ensure(s, f, now);
      SlotIsGood(Value(), s);
      if now >= a.startedAt + CHUNK_TTL || !Agrees(a, f) {
        RemoveChunk(s);
        AcceptValid(start, key, chunk, f, now, {});
        return;
      }
      if f.index in a.fragments {
        return;
      }
      RoomIsEnough(a, f);
      ghost var before := Value();
      var ok;
      ok, evicted := MakeRoom(s, |f.data|);
      EnsuredRoom(moved, s, a, f, evicted);
      RoomKeeps(before, s, evicted);
      done := Insert(s, a, f);
      SameInserted(moved, s, a, WithFragment(a, f), |f.data|, evicted);
      AcceptValid(start, key, chunk, f, now, evicted);
    }
  }

  lemma WholeChunk(a: Assembly, f: Fragment)
    requires GoodAssembly(a) && ValidFragment(f) && Agrees(a, f) && f.index !in a.fragments
    requires var b := WithFragment(a, f); |b.fragments| == b.count
    ensures |Join(WithFragment(a, f).fragments, a.count)| == a.totalSize
  {
    FragmentFits(a, f);
    WholeSize(WithFragment(a, f).fragments, a.totalSize);
  }

  lemma SlotIsGood(t: Table, s: Slot)
    requires Valid(t) && s in t.assemblies
    ensures GoodSlot(t, s) && GoodAssembly(t.assemblies[s])
  {
  }

  lemma RoomIsEnough(a: Assembly, f: Fragment)
    requires GoodAssembly(a) && ValidFragment(f) && Agrees(a, f) && f.index !in a.fragments
    ensures |f.data| <= a.totalSize - a.videoBytes && 0 < |f.data|
    ensures a.retainedBytes + |f.data| <= MAX_CHUNK
  {
    FragmentFits(a, f);
    CountFits(f.totalSize);
  }

  lemma EnsuredRoom(moved: Table, s: Slot, a: Assembly, f: Fragment, evicted: set<Slot>)
    requires if s in moved.assemblies then a == moved.assemblies[s] else a.retainedBytes == 0
    requires MakesRoom(moved.(assemblies := moved.assemblies[s := a]), s, |f.data|, evicted)
    ensures MakesRoom(moved, s, |f.data|, evicted)
  {
    if s in moved.assemblies {
      assert moved.assemblies[s := a] == moved.assemblies;
    } else {
      BlankRoom(moved, s, a, |f.data|, evicted);
    }
  }

  /** Entering a new assembly before or after making room comes to the same. */
  lemma SameInserted(t: Table, s: Slot, a: Assembly, b: Assembly, cost: nat, evicted: set<Slot>)
    requires if s in t.assemblies then a == t.assemblies[s] else a.retainedBytes == 0
    requires s !in evicted
    ensures Inserted(DropAll(t.(assemblies := t.assemblies[s := a]), evicted), s, b, cost) == Inserted(DropAll(t, evicted), s, b, cost)
  {
    hide Total;
    var u := t.(assemblies := t.assemblies[s := a]);
    if s in t.assemblies {
      assert u.assemblies == t.assemblies;
    } else {
      BlankCounts(t, s, a, evicted);
      BlankCounts(t, s, a, {});
      assert u.assemblies - {} == u.assemblies && t.assemblies - {} == t.assemblies;
      assert (u.assemblies - evicted)[s := b] == (t.assemblies - evicted)[s := b];
    }
  }

  lemma RoomKeeps(t: Table, s: Slot, evicted: set<Slot>)
    requires Valid(t)
    ensures DropAll(t, evicted).streams == t.streams && DropAll(t, evicted).retained == Total(DropAll(t, evicted).assemblies)
    ensures s in t.assemblies && s !in evicted ==> s in DropAll(t, evicted).assemblies && DropAll(t, evicted).assemblies[s] == t.assemblies[s]
  {
    hide Total;
  }
}
