/** Filling device callbacks from queued frames: block k of the playback stream is frame k or silence. */
module Playbacks {
  import opened Options
  import opened AudioCallbacks

  datatype PlayFrame = PlayFrame(index: nat, localOnly: bool, samples: seq<Sample>)

  /** The frames that reach the queue between the start of the block before and the start of block k. */
  type Arrivals = nat -> seq<PlayFrame>

  ghost predicate GoodArrivals(arrivals: Arrivals) {
    forall k, i :: 0 <= i < |arrivals(k)| ==> |arrivals(k)[i].samples| == FRAME
  }

  /** The queue without the frames whose turn is over. */
  function DropStale(queue: seq<PlayFrame>, k: nat): seq<PlayFrame> {
    if queue != [] && queue[0].index < k then DropStale(queue[1..], k) else queue
  }

  function Chosen(queue: seq<PlayFrame>, k: nat): Option<PlayFrame> {
    var q := DropStale(queue, k);
    if q != [] && q[0].index == k then Some(q[0]) else None
  }

  /** The queue once block k has been played. */
  function Played(queue: seq<PlayFrame>, k: nat): seq<PlayFrame> {
    var q := DropStale(queue, k);
    if q != [] && q[0].index == k then q[1..] else q
  }

  /** The queue at the start of block k. */
  function QueueAt(arrivals: Arrivals, k: nat): seq<PlayFrame> {
    (if k == 0 then [] else Played(QueueAt(arrivals, k - 1), k - 1)) + arrivals(k)
  }

  /** What block k plays. */
  function Block(arrivals: Arrivals, k: nat): Option<PlayFrame> {
    Chosen(QueueAt(arrivals, k), k)
  }

  /** The sample at a position of the stream. */
  function SampleAt(arrivals: Arrivals, position: nat, muted: bool): Sample {
    var f := Block(arrivals, position / FRAME);
    if f.Some? && (!muted || f.value.localOnly) && position % FRAME < |f.value.samples| then f.value.samples[position % FRAME] else 0.0
  }

  // ----- what is played -----

  lemma {:induction false} DropStaleKeeps(queue: seq<PlayFrame>, k: nat)
    ensures forall f :: f in DropStale(queue, k) ==> f in queue
    decreases |queue|
  {
    if queue != [] && queue[0].index < k {
      DropStaleKeeps(queue[1..], k);
    }
  }

  lemma {:induction false} QueuedArrived(arrivals: Arrivals, k: nat, f: PlayFrame)
    requires f in QueueAt(arrivals, k)
    ensures exists j :: 0 <= j <= k && f in arrivals(j)
  {
    if f !in arrivals(k) {
      DropStaleKeeps(QueueAt(arrivals, k - 1), k - 1);
      QueuedArrived(arrivals, k - 1, f);
    }
  }

  /** Block k plays a frame with index k that arrived in time, or nothing. */
  lemma BlockIsItsFrame(arrivals: Arrivals, k: nat)
    requires Block(arrivals, k).Some?
    ensures Block(arrivals, k).value.index == k && exists j :: 0 <= j <= k && Block(arrivals, k).value in arrivals(j)
  {
    DropStaleKeeps(QueueAt(arrivals, k), k);
    QueuedArrived(arrivals, k, Block(arrivals, k).value);
  }

  /** All frames that arrived by the start of block k. */
  function Arrived(arrivals: Arrivals, k: nat): seq<PlayFrame> {
    (if k == 0 then [] else Arrived(arrivals, k - 1)) + arrivals(k)
  }

  predicate Rising(frames: seq<PlayFrame>) {
    forall i, j :: 0 <= i < j < |frames| ==> frames[i].index < frames[j].index
  }

  /** The rest of a list of which everything before was too old by block k. */
  ghost predicate RestOf(all: seq<PlayFrame>, rest: seq<PlayFrame>, k: nat) {
    && |rest| <= |all| && rest == all[|all| - |rest|..]
    && forall i :: 0 <= i < |all| - |rest| ==> all[i].index < k
  }

  lemma {:induction false} DropStaleRest(all: seq<PlayFrame>, rest: seq<PlayFrame>, k: nat)
    requires RestOf(all, rest, k)
    ensures RestOf(all, DropStale(rest, k), k)
    ensures DropStale(rest, k) != [] ==> DropStale(rest, k)[0].index >= k
    decreases |rest|
  {
    if rest != [] && rest[0].index < k {
      assert rest[1..] == all[|all| - |rest| + 1..];
      DropStaleRest(all, rest[1..], k);
    }
  }

  lemma {:induction false} QueueIsRest(arrivals: Arrivals, k: nat)
    ensures RestOf(Arrived(arrivals, k), QueueAt(arrivals, k), k)
  {
    hide RestOf, Played;
    if k > 0 {
      QueueIsRest(arrivals, k - 1);
      PlayedRest(Arrived(arrivals, k - 1), QueueAt(arrivals, k - 1), k - 1);
      RestMore(Arrived(arrivals, k - 1), Played(QueueAt(arrivals, k - 1), k - 1), arrivals(k), k);
    } else {
      AllRest(arrivals(0), 0);
    }
  }

  lemma RestMore(all: seq<PlayFrame>, rest: seq<PlayFrame>, more: seq<PlayFrame>, k: nat)
    requires RestOf(all, rest, k)
    ensures RestOf(all + more, rest + more, k)
  {
    assert (all + more)[|all| - |rest|..] == rest + more;
  }

  lemma AllRest(frames: seq<PlayFrame>, k: nat)
    ensures RestOf([] + frames, [] + frames, k)
  {
  }

  lemma PlayedRest(all: seq<PlayFrame>, queue: seq<PlayFrame>, k: nat)
    requires RestOf(all, queue, k)
    ensures RestOf(all, Played(queue, k), k + 1)
  {
    DropStaleRest(all, queue, k);
    var q := DropStale(queue, k);
    if q != [] && q[0].index == k {
      assert q[1..] == all[|all| - |q| + 1..];
    }
  }

  /** If frames arrive in order of their index, every frame that arrives by the start of its block is played. */
  lemma OnTimeIsPlayed(arrivals: Arrivals, k: nat, f: PlayFrame)
    requires Rising(Arrived(arrivals, k)) && f in Arrived(arrivals, k) && f.index == k
    ensures Block(arrivals, k) == Some(f)
  {
    var all, queue := Arrived(arrivals, k), QueueAt(arrivals, k);
    QueueIsRest(arrivals, k);
    DropStaleRest(all, queue, k);
    var q := DropStale(queue, k);
    var i :| 0 <= i < |all| && all[i] == f;
    assert i >= |all| - |q|;
    assert q[0] == all[|all| - |q|];
  }

  // ----- the reader -----

  class PlaybackReader {
    const arrivals: Arrivals
    var queue: seq<PlayFrame>
    var current: Option<PlayFrame>
    var currentOffset: nat
    var currentIndex: nat

    constructor (arrivals: Arrivals)
      requires GoodArrivals(arrivals)
      ensures Valid() && Position() == 0 && this.arrivals == arrivals
    {
      this.arrivals := arrivals;
      queue, current, currentOffset, currentIndex := [], None, FRAME, 0;
    }

    /** The samples played so far. */
    ghost function Position(): nat
      reads this
    {
      if currentOffset == FRAME then currentIndex * FRAME else currentIndex * FRAME + currentOffset
    }

    ghost predicate Valid()
      reads this
    {
      && GoodArrivals(arrivals) && currentOffset <= FRAME
      && (currentOffset == FRAME ==> queue == if currentIndex == 0 then [] else Played(QueueAt(arrivals, currentIndex - 1), currentIndex - 1))
      && (currentOffset < FRAME ==> InBlock())
    }

    /** Inside block `currentIndex`: its frame, if there is one, still stands at the head of the queue. */
    ghost predicate InBlock()
      reads this
    {
      && current == Block(arrivals, currentIndex)
      && queue == DropStale(QueueAt(arrivals, currentIndex), currentIndex)
    }

    method BeginBlock()
      requires Valid() && currentOffset == FRAME
      modifies this
      ensures currentIndex == old(currentIndex) && currentOffset == 0 && InBlock() && GoodArrivals(arrivals)
    {
      current := None;
      queue := queue + arrivals(currentIndex);
      ghost var start := queue;
      assert start == QueueAt(arrivals, currentIndex);
      while queue != [] && queue[0].index < currentIndex
        modifies `queue
        invariant DropStale(queue, currentIndex) == DropStale(start, currentIndex)
        decreases |queue|
      {
        queue := queue[1..];
      }
      if queue != [] && queue[0].index == currentIndex {
        current := Some(queue[0]);
      }
      currentOffset := 0;
    }

    /** The next part of a callback, at most to the end of the block. */
    method ReadPart(count: nat, muted: bool) returns (samples: seq<Sample>)
      requires GoodArrivals(arrivals) && InBlock() && 0 < count <= FRAME - currentOffset
      modifies this
      ensures Valid() && Position() == old(currentIndex * FRAME + currentOffset) + count && |samples| == count
      ensures forall i :: 0 <= i < count ==> samples[i] == SampleAt(arrivals, old(currentIndex * FRAME + currentOffset) + i, muted)
    {
      hide QueueAt, DropStale, Chosen, Played, Block, GoodArrivals;
      ghost var start := currentIndex * FRAME + currentOffset;
      FrameSize(arrivals, currentIndex);
      PlayedIs(QueueAt(arrivals, currentIndex), currentIndex);
      BlockIs(arrivals, currentIndex);
      samples := Silence(count);
      if current.Some? && (!muted || current.value.localOnly) {
        samples := current.value.samples[currentOffset..currentOffset + count];
      }
      forall i | 0 <= i < count
        ensures samples[i] == SampleAt(arrivals, start + i, muted)
      {
        InFrame(currentIndex, currentOffset + i);
      }
      currentOffset := currentOffset + count;
      if currentOffset == FRAME {
        if current.Some? {
          queue := queue[1..];
          current := None;
        }
        currentIndex := currentIndex + 1;
      }
    }

    /** One device callback: the next samples of the stream, silence where no frame is due. */
    method Read(count: nat, muted: bool) returns (samples: seq<Sample>)
      requires Valid()
      modifies this
      ensures Valid() && |samples| == count && Position() == old(Position()) + count
      ensures forall i :: 0 <= i < count ==> samples[i] == SampleAt(arrivals, old(Position()) + i, muted)
    {
      hide InBlock, SampleAt, GoodArrivals;
      samples := [];
      while |samples| < count
        invariant Valid() && |samples| <= count
        invariant Position() == old(Position()) + |samples|
        invariant forall i :: 0 <= i < |samples| ==> samples[i] == SampleAt(arrivals, old(Position()) + i, muted)
        decreases count - |samples|
      {
        if currentOffset == FRAME {
          BeginBlock();
        }
        var left := count - |samples|;
        var part := ReadPart(if left < FRAME - currentOffset then left else FRAME - currentOffset, muted);
        samples := samples + part;
      }
    }
  }

  lemma PlayedIs(queue: seq<PlayFrame>, k: nat)
    ensures Chosen(queue, k).Some? ==> DropStale(queue, k) != []
    ensures Played(queue, k) == if Chosen(queue, k).Some? then DropStale(queue, k)[1..] else DropStale(queue, k)
  {
  }

  lemma BlockIs(arrivals: Arrivals, k: nat)
    ensures Block(arrivals, k) == Chosen(QueueAt(arrivals, k), k)
  {
  }

  lemma InFrame(k: nat, offset: nat)
    requires offset < FRAME
    ensures (k * FRAME + offset) / FRAME == k && (k * FRAME + offset) % FRAME == offset
  {
  }

  lemma FrameSize(arrivals: Arrivals, k: nat)
    requires GoodArrivals(arrivals)
    ensures Block(arrivals, k).Some? ==> |Block(arrivals, k).value.samples| == FRAME
  {
    if Block(arrivals, k).Some? {
      BlockIsItsFrame(arrivals, k);
      var j :| 0 <= j <= k && Block(arrivals, k).value in arrivals(j);
    }
  }
}
