/** The endpoint's writer: four lanes served in turn, each for as many writes as its weight. */
module WriteSchedules {
  import opened Options

  const LANES: nat := 4
  const VOICE: nat := 0
  const CONTROL: nat := 1
  const SCREEN: nat := 2
  const LOW_PRIORITY: nat := 3

  /** All weights together: the writes of one full turn. */
  const TURN: nat := 13

  type Lane = l: nat | l < LANES

  function Weight(l: Lane): (w: nat)
    ensures 0 < w <= 8
  {
    if l == VOICE then 8 else if l == LOW_PRIORITY then 1 else 2
  }

  /** The lane being served and how many writes it has left in this turn. */
  datatype Cursor = Cursor(lane: Lane, remaining: nat)

  predicate Good(c: Cursor) {
    0 < c.remaining <= Weight(c.lane)
  }

  function NextLane(l: Lane): Lane {
    (l + 1) % LANES
  }

  function Advance(c: Cursor): Cursor {
    Cursor(NextLane(c.lane), Weight(NextLane(c.lane)))
  }

  /** The cursor after a write on its lane. */
  function Served(c: Cursor): Cursor
    requires Good(c)
  {
    if c.remaining == 1 then Advance(c) else c.(remaining := c.remaining - 1)
  }

  /** The cursor after a write that had to be waited for: the lane that became ready first takes over. */
  function Woken(l: Lane): Cursor {
    Served(Cursor(l, Weight(l)))
  }

  // ----- what the writer sees: polls and wakings -----

  /** Polling the lane of the cursor finds something to write or not; after four empty polls the writer waits for any
      lane. Lanes may fill and empty between polls. */
  datatype Event = Poll(ready: bool) | Wake(lane: Lane)

  function After(c: Cursor, e: Event): Cursor
    requires Good(c)
  {
    match e
    case Poll(ready) => if ready then Served(c) else Advance(c)
    case Wake(l) => Woken(l)
  }

  function ServedLane(c: Cursor, e: Event): int {
    match e
    case Poll(ready) => if ready then c.lane else -1
    case Wake(l) => l
  }

  /** The four polls before an event found nothing. */
  ghost predicate AllEmpty(events: seq<Event>, i: nat)
    requires i <= |events|
  {
    LANES <= i && forall k :: i - LANES <= k < i ==> events[k] == Poll(false)
  }

  /** The writer waits only after polling every lane in vain. */
  ghost predicate Run(events: seq<Event>, cursors: seq<Cursor>) {
    && |cursors| == |events| + 1
    && Good(cursors[0])
    && (forall i :: 0 <= i < |events| ==> Good(cursors[i]) && cursors[i + 1] == After(cursors[i], events[i]))
    && (forall i :: 0 <= i < |events| && events[i].Wake? ==> AllEmpty(events, i))
  }

  lemma AfterGood(c: Cursor, e: Event)
    requires Good(c)
    ensures Good(After(c, e))
  {
  }

  // ----- bounded waiting -----

  /** The writes the other lanes can still make before the turn comes to lane `l`. */
  function Distance(c: Cursor, l: Lane): nat {
    if c.lane == l then 0
    else c.remaining + Between(NextLane(c.lane), l)
  }

  /** The weights of the lanes from `from` up to, not including, `l`, in turn. */
  function Between(from: Lane, l: Lane): nat {
    var second, third := NextLane(from), NextLane(NextLane(from));
    (if from == l then 0
     else Weight(from) + (if second == l then 0 else Weight(second) + (if third == l then 0 else Weight(third))))
  }

  /** The writes of the other lanes between events i and j. */
  function Others(events: seq<Event>, cursors: seq<Cursor>, l: Lane, i: nat, j: nat): nat
    requires |cursors| == |events| + 1 && i <= j <= |events|
    decreases j
  {
    if i == j then 0
    else
      var served := ServedLane(cursors[j - 1], events[j - 1]);
      (if served == -1 || served == l then 0 else 1) + Others(events, cursors, l, i, j - 1)
  }

  lemma DistanceStep(c: Cursor, e: Event, l: Lane)
    requires Good(c) && e.Poll? && (c.lane == l ==> e.ready) && ServedLane(c, e) != l
    ensures Distance(After(c, e), l) + (if ServedLane(c, e) == -1 then 0 else 1) <= Distance(c, l)
  {
  }

  lemma DistanceBound(c: Cursor, l: Lane)
    requires Good(c)
    ensures Distance(c, l) <= TURN - Weight(l)
  {
  }

  lemma WokenDistance(w: Lane, l: Lane)
    requires w != l
    ensures 1 + Distance(Woken(w), l) <= TURN - Weight(l)
  {
  }

  /** While lane `l` is never found empty and the writer does not wait, the others write at most what the
      cursor is away from it. */
  lemma {:induction false} OthersWithinDistance(events: seq<Event>, cursors: seq<Cursor>, l: Lane, i: nat, j: nat)
    requires Run(events, cursors) && i <= j <= |events|
    requires forall k :: i <= k < j ==>
      events[k].Poll? && (cursors[k].lane == l ==> events[k].ready) && ServedLane(cursors[k], events[k]) != l
    ensures Others(events, cursors, l, i, j) + Distance(cursors[j], l) <= Distance(cursors[i], l)
    decreases j
  {
    if i < j {
      OthersWithinDistance(events, cursors, l, i, j - 1);
      DistanceStep(cursors[j - 1], events[j - 1], l);
    }
  }

  lemma RunGood(events: seq<Event>, cursors: seq<Cursor>, i: nat)
    requires Run(events, cursors) && i <= |events|
    ensures Good(cursors[i])
  {
    if i > 0 {
      AfterGood(cursors[i - 1], events[i - 1]);
    }
  }

  lemma {:induction false} OthersSplit(events: seq<Event>, cursors: seq<Cursor>, l: Lane, i: nat, m: nat, j: nat)
    requires |cursors| == |events| + 1 && i <= m <= j <= |events|
    ensures Others(events, cursors, l, i, j) == Others(events, cursors, l, i, m) + Others(events, cursors, l, m, j)
    decreases j
  {
    if m < j {
      OthersSplit(events, cursors, l, i, m, j - 1);
    }
  }

  lemma {:induction false} EmptyPollsWriteNothing(events: seq<Event>, cursors: seq<Cursor>, l: Lane, i: nat, j: nat)
    requires |cursors| == |events| + 1 && i <= j <= |events|
    requires forall k :: i <= k < j ==> events[k] == Poll(false)
    ensures Others(events, cursors, l, i, j) == 0
    decreases j
  {
    if i < j {
      EmptyPollsWriteNothing(events, cursors, l, i, j - 1);
    }
  }

  /** Four polls in a row that find nothing reach every lane. */
  lemma FourPollsReach(events: seq<Event>, cursors: seq<Cursor>, l: Lane, i: nat)
    requires Run(events, cursors) && i + LANES <= |events|
    requires forall k :: i <= k < i + LANES ==> events[k] == Poll(false)
    ensures exists k :: i <= k < i + LANES && cursors[k].lane == l
  {
    assert cursors[i + 1] == Advance(cursors[i]);
    assert cursors[i + 2] == Advance(cursors[i + 1]);
    assert cursors[i + 3] == Advance(cursors[i + 2]);
    var d := (l + LANES - cursors[i].lane) % LANES;
    assert cursors[i + d].lane == l;
  }

  /** While lane `l` is never found empty the writer does not begin to wait. */
  lemma NoWaitPast(events: seq<Event>, cursors: seq<Cursor>, l: Lane, i: nat, w: nat)
    requires Run(events, cursors) && i + LANES <= w < |events|
    requires forall k :: i <= k < w && events[k].Poll? && cursors[k].lane == l ==> events[k].ready
    ensures !events[w].Wake?
  {
    if events[w].Wake? {
      assert AllEmpty(events, w);
      FourPollsReach(events, cursors, l, w - LANES);
      assert false;
    }
  }

  /** A lane that always has something to write waits for at most the sum of the other weights, wherever in the run that
      begins. The writer may just be about to wake for another lane when the lane's first item arrives. */
  lemma BoundedWait(events: seq<Event>, cursors: seq<Cursor>, l: Lane, i: nat, j: nat)
    requires Run(events, cursors) && i <= j <= |events|
    requires forall k :: i <= k < j ==> ServedLane(cursors[k], events[k]) != l
    requires forall k :: i <= k < j && events[k].Poll? && cursors[k].lane == l ==> events[k].ready
    ensures Others(events, cursors, l, i, j) <= TURN - Weight(l)
  {
    hide Distance, Weight;
    if w :| i <= w < j && events[w].Wake? {
      forall k | i <= k < j && k != w
        ensures events[k].Poll?
      {
        OneWait(events, cursors, l, i, j, w, k);
      }
      WaitIsSoon(events, cursors, l, i, j, w);
      assert AllEmpty(events, w);
      EmptyPollsWriteNothing(events, cursors, l, i, w);
      OthersSplit(events, cursors, l, i, w, j);
      OthersSplit(events, cursors, l, w, w + 1, j);
      OthersWithinDistance(events, cursors, l, w + 1, j);
      assert Others(events, cursors, l, w, w + 1) == 1 + Others(events, cursors, l, w, w);
      WokenDistance(events[w].lane, l);
    } else {
      OthersWithinDistance(events, cursors, l, i, j);
      RunGood(events, cursors, i);
      DistanceBound(cursors[i], l);
    }
  }

  lemma WaitIsSoon(events: seq<Event>, cursors: seq<Cursor>, l: Lane, i: nat, j: nat, w: nat)
    requires Run(events, cursors) && i <= w < j <= |events| && events[w].Wake?
    requires forall k :: i <= k < j && events[k].Poll? && cursors[k].lane == l ==> events[k].ready
    ensures w < i + LANES
  {
    if i + LANES <= w {
      NoWaitPast(events, cursors, l, i, w);
    }
  }

  lemma OneWait(events: seq<Event>, cursors: seq<Cursor>, l: Lane, i: nat, j: nat, w: nat, v: nat)
    requires Run(events, cursors) && i <= w < j <= |events| && events[w].Wake? && i <= v < j && v != w
    requires forall k :: i <= k < j && events[k].Poll? && cursors[k].lane == l ==> events[k].ready
    ensures events[v].Poll?
  {
    if events[v].Wake? {
      assert AllEmpty(events, v) && AllEmpty(events, w);
      WaitIsSoon(events, cursors, l, i, j, v);
      WaitIsSoon(events, cursors, l, i, j, w);
      assert false;
    }
  }

  // ----- shares -----

  /** The writes of a lane among the next `n` when every lane always has something to write. */
  function Share(c: Cursor, n: nat, l: Lane): nat
    requires Good(c)
    decreases n
  {
    if n == 0 then 0 else (if c.lane == l then 1 else 0) + Share(Served(c), n - 1, l)
  }

  function Times(c: Cursor, n: nat): (r: Cursor)
    requires Good(c)
    ensures Good(r)
    decreases n
  {
    if n == 0 then c else Times(Served(c), n - 1)
  }

  lemma {:induction false} ShareSplit(c: Cursor, m: nat, n: nat, l: Lane)
    requires Good(c)
    ensures Share(c, m + n, l) == Share(c, m, l) + Share(Times(c, m), n, l)
    ensures Times(c, m + n) == Times(Times(c, m), n)
    decreases m
  {
    if m > 0 {
      ShareSplit(Served(c), m - 1, n, l);
    }
  }

  /** The rest of the turn of one lane. */
  lemma {:induction false} LaneShare(c: Cursor, l: Lane)
    requires Good(c)
    ensures Share(c, c.remaining, l) == if c.lane == l then c.remaining else 0
    ensures Times(c, c.remaining) == Advance(c)
    decreases c.remaining
  {
    if c.remaining > 1 {
      LaneShare(Served(c), l);
    } else {
      assert Times(c, 1) == Times(Served(c), 0);
      assert Share(c, 1, l) == (if c.lane == l then 1 else 0) + Share(Served(c), 0, l);
    }
  }

  /** The first writes of a lane's turn. */
  lemma {:induction false} PartShare(c: Cursor, n: nat, l: Lane)
    requires Good(c) && n < c.remaining
    ensures Share(c, n, l) == if c.lane == l then n else 0
    ensures Times(c, n) == c.(remaining := c.remaining - n)
    decreases n
  {
    if n > 0 {
      PartShare(Served(c), n - 1, l);
    }
  }

  function Whole(l: Lane): Cursor {
    Cursor(l, Weight(l))
  }

  /** Four advances go once round, over every lane's weight. */
  lemma OneTurn(c: Cursor, l: Lane)
    requires Good(c)
    ensures var a, used := Advance(c), Weight(c.lane) - c.remaining;
      var b, d := Advance(a), Advance(Advance(a));
      && Good(a) && Good(b) && Good(d) && Good(Whole(c.lane)) && Advance(d) == Whole(c.lane) && used < Weight(c.lane)
      && TURN == c.remaining + (a.remaining + (b.remaining + (d.remaining + used)))
      && Weight(l) == (if c.lane == l then c.remaining else 0) + ((if a.lane == l then a.remaining else 0)
           + ((if b.lane == l then b.remaining else 0) + ((if d.lane == l then d.remaining else 0) + (if c.lane == l then used else 0))))
  {
  }

  /** With every lane backlogged, any 13 consecutive writes are 8 voice, 2 control, 2 screen and 1 low-priority,
      and the cursor is back where it was. */
  lemma FairShares(c: Cursor, l: Lane)
    requires Good(c)
    ensures Share(c, TURN, l) == Weight(l) && Times(c, TURN) == c
  {
    hide Share, Times, Weight, Advance, NextLane;
    var a, used := Advance(c), Weight(c.lane) - c.remaining;
    var b, d := Advance(a), Advance(Advance(a));
    OneTurn(c, l);
    LaneShare(c, l);
    LaneShare(a, l);
    LaneShare(b, l);
    LaneShare(d, l);
    PartShare(Whole(c.lane), used, l);
    ShareSplit(d, d.remaining, used, l);
    ShareSplit(b, b.remaining, d.remaining + used, l);
    ShareSplit(a, a.remaining, b.remaining + (d.remaining + used), l);
    ShareSplit(c, c.remaining, a.remaining + (b.remaining + (d.remaining + used)), l);
  }

  /** Over any number of whole turns each lane gets exactly its weight of every turn. */
  lemma {:induction false} LongRunShares(c: Cursor, turns: nat, l: Lane)
    requires Good(c)
    ensures Share(c, turns * TURN, l) == turns * Weight(l)
  {
    hide Share, Times, Served, Weight;
    if turns > 0 {
      FairShares(c, l);
      LongRunShares(c, turns - 1, l);
      ShareSplit(c, TURN, (turns - 1) * TURN, l);
      assert turns * TURN == TURN + (turns - 1) * TURN;
      assert turns * Weight(l) == Weight(l) + (turns - 1) * Weight(l);
    } else {
      NoShare(c, l);
    }
  }

  lemma NoShare(c: Cursor, l: Lane)
    requires Good(c)
    ensures Share(c, 0, l) == 0
  {
  }

  // ----- one write -----

  /** The first lane with something to write, within so many polls, and the cursor after its write. */
  function Pick(c: Cursor, ready: set<Lane>, polls: nat): Option<(Lane, Cursor)>
    requires Good(c)
    decreases polls
  {
    if polls == 0 then None
    else if c.lane in ready then Some((c.lane, Served(c)))
    else Pick(Advance(c), ready, polls - 1)
  }

  /** Four polls find a lane unless all are empty. */
  lemma FourPollsSuffice(c: Cursor, ready: set<Lane>)
    requires Good(c)
    ensures Pick(c, ready, LANES) == None <==> ready == {}
    ensures Pick(c, ready, LANES).Some? ==> Pick(c, ready, LANES).value.0 in ready && Good(Pick(c, ready, LANES).value.1)
  {
    var a := Advance(c);
    var b, d := Advance(a), Advance(Advance(a));
    assert Pick(c, ready, LANES) == if c.lane in ready then Some((c.lane, Served(c))) else Pick(a, ready, 3);
    assert Pick(a, ready, 3) == if a.lane in ready then Some((a.lane, Served(a))) else Pick(b, ready, 2);
    assert Pick(b, ready, 2) == if b.lane in ready then Some((b.lane, Served(b))) else Pick(d, ready, 1);
    assert Pick(d, ready, 1) == if d.lane in ready then Some((d.lane, Served(d))) else Pick(Advance(d), ready, 0);
    if ready != {} {
      var l :| l in ready;
      assert l in {c.lane, a.lane, b.lane, d.lane};
    }
  }

  function Flat<T>(batches: seq<seq<T>>): seq<T> {
    if batches == [] then [] else batches[0] + Flat(batches[1..])
  }

  predicate Realtime(l: Lane) {
    l == VOICE || l == SCREEN
  }

  /** The writer: per lane the queued writes, a realtime write being a batch of datagrams, and the rest of
      the batch that was begun. */
  class Writer<T(==)> {
    var queues: seq<seq<seq<T>>>
    var pending: seq<seq<T>>
    var lane: Lane
    var remaining: nat

    constructor ()
      ensures Valid() && queues == [[], [], [], []] && pending == [[], [], [], []] && Position() == Whole(VOICE)
    {
      queues, pending := [[], [], [], []], [[], [], [], []];
      lane, remaining := VOICE, 8;
    }

    function Position(): Cursor
      reads this
    {
      Cursor(lane, remaining)
    }

    predicate Valid()
      reads this
    {
      && |queues| == LANES && |pending| == LANES
      && Good(Position())
      && (forall l: Lane :: !Realtime(l) ==> pending[l] == [])
      && (forall l: Lane, i :: 0 <= i < |queues[l]| ==> queues[l][i] != [] && (Realtime(l) || |queues[l][i]| == 1))
    }

    /** Every datagram the lane still has to write, in order. */
    function Backlog(l: Lane): seq<T>
      requires Valid()
      reads this
    {
      pending[l] + Flat(queues[l])
    }

    predicate Ready(l: Lane)
      requires Valid()
      reads this
    {
      pending[l] != [] || queues[l] != []
    }

    function ReadyLanes(): set<Lane>
      requires Valid()
      reads this
    {
      set l: Lane | 0 <= l < LANES && Ready(l)
    }

    /** Take what the lane has to write next: the batch begun, else the first one queued. */
    method TakeFrom(l: Lane) returns (batch: seq<T>)
      requires Valid() && Ready(l)
      modifies this`queues, this`pending
      ensures Valid() && batch != [] && pending[l] == [] && (Realtime(l) || |batch| == 1)
      ensures batch + Backlog(l) == old(Backlog(l))
      ensures forall k: Lane :: k != l ==> pending[k] == old(pending[k]) && queues[k] == old(queues[k])
    {
      if pending[l] != [] {
        batch := pending[l];
        pending := pending[l := []];
      } else {
        batch := queues[l][0];
        queues := queues[l := queues[l][1..]];
      }
    }

    /** One round of the write loop: nothing if no lane has anything to write. A realtime batch that is stale or out
        of time is dropped whole; otherwise the first datagram of the lane's backlog is written, and the rest
        of a batch is what the lane writes next. */
    method WriteNext(expired: bool) returns (served: Option<Lane>, written: Option<T>, dropped: seq<T>)
      requires Valid()
      modifies this
      ensures Valid()
      ensures served == None <==> old(ReadyLanes()) == {}
      ensures served == None ==> written == None && queues == old(queues) && pending == old(pending)
      ensures served.Some? ==> Pick(old(Position()), old(ReadyLanes()), LANES) == Some((served.value, Position()))
      ensures served.Some? ==> forall k: Lane :: k != served.value ==> Backlog(k) == old(Backlog(k))
      ensures served.Some? ==> (written == None <==> expired && Realtime(served.value))
      ensures served.Some? && written.Some? ==> dropped == [] && [written.value] + Backlog(served.value) == old(Backlog(served.value))
      ensures served.Some? && written == None ==> dropped != [] && dropped + Backlog(served.value) == old(Backlog(served.value))
    {
      hide Flat;
      written, dropped := None, [];
      served := Select();
      if served == None {
        return;
      }
      var l := served.value;
      var batch := TakeFrom(l);
      if !(Realtime(l) && expired) {
        written := Some(batch[0]);
        Begin(l, batch);
      } else {
        dropped := batch;
      }
    }

    /** The rest of a batch of which one datagram was written comes first on its lane. */
    method Begin(l: Lane, batch: seq<T>)
      requires Valid() && batch != [] && pending[l] == [] && (Realtime(l) || |batch| == 1)
      modifies this`pending
      ensures Valid() && [batch[0]] + Backlog(l) == batch + old(Backlog(l))
      ensures forall k: Lane :: k != l ==> Backlog(k) == old(Backlog(k))
    {
      hide Flat, Good, Weight;
      if |batch| > 1 {
        pending := pending[l := batch[1..]];
      }
      assert batch == [batch[0]] + batch[1..];
    }

    /** Poll the lanes from the cursor on, at most once each. */
    method Select() returns (served: Option<Lane>)
      requires Valid()
      modifies this`lane, this`remaining
      ensures Valid()
      ensures served == None <==> ReadyLanes() == {}
      ensures served.Some? ==> served.value in ReadyLanes()
      ensures served.Some? ==> Pick(old(Position()), ReadyLanes(), LANES) == Some((served.value, Position()))
    {
      ghost var start, ready := Position(), ReadyLanes();
      FourPollsSuffice(start, ready);
      served := None;
      var checked := 0;
      while checked < LANES && served == None
        invariant 0 <= checked <= LANES
        invariant Valid() && ReadyLanes() == ready
        invariant if served == None then Pick(start, ready, LANES) == Pick(Position(), ready, LANES - checked)
                  else Pick(start, ready, LANES) == Some((served.value, Position()))
      {
        if pending[lane] != [] || queues[lane] != [] {
          served := Some(lane);
          remaining := remaining - 1;
          if remaining == 0 {
            Turn();
          }
        } else {
          Turn();
        }
        checked := checked + 1;
      }
    }

    /** The turn goes to the next lane. */
    method Turn()
      modifies this`lane, this`remaining
      ensures Position() == Advance(old(Cursor(lane, 1)))
    {
      lane := NextLane(lane);
      remaining := Weight(lane);
    }
  }
}
