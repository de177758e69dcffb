/** The lock-free audio frame queue: one producer, one consumer, two wrapping 64-bit counters over a ring of slots. */
module FrameQueues {
  import opened Remainders
  import opened Words

  /** Wrapping a counter first does not change its slot, if the ring's size divides the wrap. */
  lemma WrapKeepsSlot(w: nat, n: nat)
    requires 0 < n && WORD_SIZE % n == 0
    ensures (w % WORD_SIZE) % n == w % n
  {
    var a, b := w / WORD_SIZE, w % WORD_SIZE;
    var k := WORD_SIZE / n;
    assert WORD_SIZE == n * k;
    assert w == n * (k * a) + b;
    assert b == n * (b / n) + b % n;
    assert w == n * (k * a + b / n) + b % n;
    DivisionIsUnique(w, n, k * a + b / n, b % n);
  }

  /** Only then: with any other size the slot jumps when the counter wraps. */
  lemma WrapNeedsDivisor(n: nat)
    requires 0 < n
    ensures (forall w: nat :: (w % WORD_SIZE) % n == w % n) <==> WORD_SIZE % n == 0
  {
    if WORD_SIZE % n == 0 {
      forall w: nat
        ensures (w % WORD_SIZE) % n == w % n
      {
        WrapKeepsSlot(w, n);
      }
    } else {
      DivisionIsUnique(0, n, 0, 0);
      assert (WORD_SIZE % WORD_SIZE) % n == 0;
    }
  }

  /** Counters less than a full ring apart have different slots. */
  lemma SlotsDiffer(i: nat, j: nat, n: nat)
    requires 0 < n && i < j < i + n
    ensures i % n != j % n
  {
    var q, m, d := i / n, i % n, j - i;
    assert i == n * q + m;
    if m + d < n {
      DivisionIsUnique(j, n, q, m + d);
    } else {
      assert n * (q + 1) == n * q + n;
      DivisionIsUnique(j, n, q + 1, m + d - n);
    }
  }

  // ----- the threads -----

  /** The producer between its steps. `at` is how many frames had been read when it loaded the counter; no code
      reads it. */
  datatype Producer = Idle | Loaded(read: uint64, at: nat) | Fills(slot: nat)

  datatype Consumer = Rests | Looked(read: uint64) | Reads(slot: nat)

  /** `written` and `taken` are the frames committed and released so far. */
  datatype State<F> = State(
    slots: seq<F>,
    read: uint64,
    write: uint64,
    producer: Producer,
    consumer: Consumer,
    written: seq<F>,
    taken: seq<F>)

  datatype Action<F> = LoadRead | CheckRoom | Fill(frame: F) | Commit | LookRead | CheckWritten | Release

  function Difference(a: uint64, b: uint64): uint64 {
    (a - b) % WORD_SIZE
  }

  predicate Enabled<F>(s: State<F>, a: Action<F>) {
    match a
    case LoadRead => s.producer.Idle?
    case CheckRoom => s.producer.Loaded?
    case Fill(_) => s.producer.Fills? && s.producer.slot < |s.slots|
    case Commit => s.producer.Fills? && s.producer.slot < |s.slots|
    case LookRead => s.consumer.Rests?
    case CheckWritten => s.consumer.Looked?
    case Release => s.consumer.Reads? && s.consumer.slot < |s.slots|
  }

  function Next<F>(s: State<F>, a: Action<F>): State<F>
    requires |s.slots| > 0 && Enabled(s, a)
  {
    match a
    case LoadRead => s.(producer := Loaded(s.read, |s.taken|))
    case CheckRoom =>
      if Difference(s.write, s.producer.read) >= |s.slots| then s.(producer := Idle)
      else s.(producer := Fills(s.write % |s.slots|))
    case Fill(frame) => s.(slots := s.slots[s.producer.slot := frame])
    case Commit =>
      s.(write := (s.write + 1) % WORD_SIZE, producer := Idle, written := s.written + [s.slots[s.producer.slot]])
    case LookRead => s.(consumer := Looked(s.read))
    case CheckWritten => s.(consumer := if s.consumer.read == s.write then Rests else Reads(s.consumer.read % |s.slots|))
    case Release =>
      s.(read := (s.read + 1) % WORD_SIZE, consumer := Rests, taken := s.taken + [s.slots[s.consumer.slot]])
  }

  ghost predicate Inv<F>(s: State<F>) {
    var n, r, w := |s.slots|, |s.taken|, |s.written|;
    && 0 < n < WORD_SIZE && WORD_SIZE % n == 0
    && s.read == r % WORD_SIZE && s.write == w % WORD_SIZE
    && r <= w <= r + n
    && s.taken == s.written[..r]
    && (forall k :: r <= k < w ==> s.slots[k % n] == s.written[k])
    && (s.producer.Loaded? ==> s.producer.at <= r && w <= s.producer.at + n && s.producer.read == s.producer.at % WORD_SIZE)
    && (s.producer.Fills? ==> s.producer.slot == w % n && w < r + n)
    && (s.consumer.Looked? ==> s.consumer.read == r % WORD_SIZE)
    && (s.consumer.Reads? ==> s.consumer.slot == r % n && r < w)
  }

  lemma WrappedDifference(w: nat, r: nat)
    requires r <= w < r + WORD_SIZE
    ensures Difference(w % WORD_SIZE, r % WORD_SIZE) == w - r
  {
  }

  lemma WrappedNext(w: nat)
    ensures (w % WORD_SIZE + 1) % WORD_SIZE == (w + 1) % WORD_SIZE
  {
  }

  lemma ProducerInv<F>(s: State<F>, a: Action<F>)
    requires Inv(s) && Enabled(s, a) && (a.LoadRead? || a.CheckRoom? || a.Fill? || a.Commit?)
    ensures Inv(Next(s, a))
  {
    var n, r, w := |s.slots|, |s.taken|, |s.written|;
    match a
    case LoadRead =>
    case CheckRoom =>
      WrappedDifference(w, s.producer.at);
      WrapKeepsSlot(w, n);
    case Fill(frame) =>
      forall k | r <= k < w
        ensures k % n != s.producer.slot
      {
        SlotsDiffer(k, w, n);
      }
    case Commit =>
      WrappedNext(w);
      var t := Next(s, a);
      forall k | r <= k < w + 1
        ensures t.slots[k % n] == t.written[k]
      {
      }
  }

  lemma ConsumerInv<F>(s: State<F>, a: Action<F>)
    requires Inv(s) && Enabled(s, a) && (a.LookRead? || a.CheckWritten? || a.Release?)
    ensures Inv(Next(s, a))
  {
    var n, r, w := |s.slots|, |s.taken|, |s.written|;
    WrapKeepsSlot(r, n);
    WrappedNext(r);
    match a
    case LookRead =>
    case CheckWritten =>
      WrappedDifference(w, r);
    case Release =>
      assert s.slots[r % n] == s.written[r];
      assert s.written[..r + 1] == s.written[..r] + [s.written[r]];
  }

  lemma NextInv<F>(s: State<F>, a: Action<F>)
    requires Inv(s) && Enabled(s, a)
    ensures Inv(Next(s, a))
  {
    hide Inv;
    if a.LookRead? || a.CheckWritten? || a.Release? {
      ConsumerInv(s, a);
    } else {
      ProducerInv(s, a);
    }
  }

  // ----- runs -----

  /** The threads start on an empty queue of a size that divides 2^64. */
  /** A producer that looks gets a slot exactly when the ring is not full, a consumer exactly when a frame is there. */
  lemma LookingFinds<F>(s: State<F>)
    requires Inv(s)
    ensures s.producer.Idle? ==>
      (Next(Next(s, LoadRead), CheckRoom).producer.Fills? <==> |s.written| - |s.taken| < |s.slots|)
    ensures s.consumer.Rests? ==>
      (Next(Next(s, LookRead), CheckWritten).consumer.Reads? <==> |s.taken| < |s.written|)
  {
    WrappedDifference(|s.written|, |s.taken|);
  }

  ghost predicate Run<F>(actions: seq<Action<F>>, states: seq<State<F>>) {
    && |states| == |actions| + 1
    && 0 < |states[0].slots| < WORD_SIZE && WORD_SIZE % |states[0].slots| == 0
    && states[0] == State(states[0].slots, 0, 0, Idle, Rests, [], [])
    && forall i :: 0 <= i < |actions| ==>
      |states[i].slots| > 0 && Enabled(states[i], actions[i]) && states[i + 1] == Next(states[i], actions[i])
  }

  lemma {:induction false} EveryStateInv<F>(actions: seq<Action<F>>, states: seq<State<F>>, n: nat)
    requires Run(actions, states) && n < |states|
    ensures Inv(states[n])
  {
    if n > 0 {
      EveryStateInv(actions, states, n - 1);
      NextInv(states[n - 1], actions[n - 1]);
    }
  }

  /** Reads are first in, first out: the frames released are those committed first, in order. */
  lemma ReadsInOrder<F>(actions: seq<Action<F>>, states: seq<State<F>>, n: nat)
    requires Run(actions, states) && n < |states|
    ensures states[n].taken <= states[n].written
    ensures |states[n].written| <= |states[n].taken| + |states[n].slots|
  {
    EveryStateInv(actions, states, n);
  }

  /** No slot is the producer's and the consumer's at once, and the consumer's frame is the next one committed. */
  lemma SlotsAreOwned<F>(actions: seq<Action<F>>, states: seq<State<F>>, n: nat)
    requires Run(actions, states) && n < |states|
    requires states[n].consumer.Reads?
    ensures states[n].consumer.slot < |states[n].slots| && |states[n].taken| < |states[n].written|
    ensures states[n].slots[states[n].consumer.slot] == states[n].written[|states[n].taken|]
    ensures states[n].producer.Fills? ==> states[n].producer.slot != states[n].consumer.slot
  {
    EveryStateInv(actions, states, n);
    var s := states[n];
    if s.producer.Fills? {
      SlotsDiffer(|s.taken|, |s.written|, |s.slots|);
    }
  }

  // ----- the code -----

  /** The queue in memory; `written` and `taken` as above. */
  class FrameQueue<F(0)> {
    const frames: array<F>
    var read: uint64
    var write: uint64
    ghost var written: seq<F>
    ghost var taken: seq<F>

    constructor (capacity: nat)
      requires 0 < capacity < WORD_SIZE && WORD_SIZE % capacity == 0
      ensures Valid() && fresh(frames) && frames.Length == capacity && written == taken == []
    {
      frames := new F[capacity];
      read, write, written, taken := 0, 0, [], [];
    }

    ghost predicate Valid()
      reads this, frames
    {
      var n, r, w := frames.Length, |taken|, |written|;
      && 0 < n < WORD_SIZE && WORD_SIZE % n == 0
      && read == r % WORD_SIZE && write == w % WORD_SIZE
      && r <= w <= r + n && taken == written[..r]
      && forall k :: r <= k < w ==> frames[k % n] == written[k]
    }

    /** The slot to fill next, unless the queue is full. */
    method AcquireWrite() returns (slot: nat, ok: bool)
      requires Valid()
      ensures ok == (|written| < |taken| + frames.Length)
      ensures slot < frames.Length && (ok ==> slot == |written| % frames.Length)
    {
      WrappedDifference(|written|, |taken|);
      WrapKeepsSlot(|written|, frames.Length);
      if Difference(write, read) >= frames.Length {
        return 0, false;
      }
      return write % frames.Length, true;
    }

    /** Fill the acquired slot and publish it. */
    method CommitWrite(slot: nat, frame: F)
      requires Valid() && |written| < |taken| + frames.Length && slot == |written| % frames.Length
      modifies this`write, this`written, frames
      ensures Valid() && written == old(written) + [frame] && taken == old(taken)
    {
      forall k | |taken| <= k < |written|
        ensures k % frames.Length != slot
      {
        SlotsDiffer(k, |written|, frames.Length);
      }
      WrappedNext(|written|);
      frames[slot] := frame;
      write := (write + 1) % WORD_SIZE;
      written := written + [frame];
    }

    /** The slot to read next, unless the queue is empty. */
    method AcquireRead() returns (slot: nat, ok: bool)
      requires Valid()
      ensures ok == (|taken| < |written|)
      ensures slot < frames.Length && (ok ==> slot == |taken| % frames.Length && frames[slot] == written[|taken|])
    {
      WrappedDifference(|written|, |taken|);
      WrapKeepsSlot(|taken|, frames.Length);
      if read == write {
        return 0, false;
      }
      return read % frames.Length, true;
    }

    method ReleaseRead()
      requires Valid() && |taken| < |written|
      modifies this`read, this`taken
      ensures Valid() && written == old(written) && taken == old(taken) + [written[|old(taken)|]]
    {
      WrappedNext(|taken|);
      assert written[..|taken| + 1] == written[..|taken|] + [written[|taken|]];
      read := (read + 1) % WORD_SIZE;
      taken := taken + [written[|taken|]];
    }
  }
}
