/** The fence between muting and sending: how a send generation follows a voice frame from the audio side through
    the flow and the endpoint's queues to the socket. */
module SendFences {
  import opened Options
  import opened Words

  const VOICE_BATCHES: nat := 64
  const SCREEN_BATCHES: nat := 32

  datatype Lane = Voice | Screen

  /** A voice frame. `born` counts the invalidations before it was submitted; no code reads it. */
  datatype Frame = Frame(generation: uint64, born: nat)

  /** The datagrams of a batch that are still to be written. Generation zero is not fenced. */
  datatype Batch = Batch(generation: uint64, born: nat, left: nat)

  function Capacity(lane: Lane): nat {
    if lane == Voice then VOICE_BATCHES else SCREEN_BATCHES
  }

  function NextGeneration(g: uint64): uint64 {
    if g == MAX_UINT64 then 1 else g + 1
  }

  /** May a batch of this generation be queued, kept or written? */
  predicate Passes(generation: uint64, current: uint64) {
    generation == 0 || generation == current
  }

  /** The batches of a queue that are kept when the generation changes, in order. */
  function Fresh(queue: seq<Batch>, current: uint64): seq<Batch> {
    if queue == [] then []
    else if Passes(queue[0].generation, current) then [queue[0]] + Fresh(queue[1..], current)
    else Fresh(queue[1..], current)
  }

  /** Queueing drops the oldest batch of a full queue. */
  function EnqueueFresh(queue: seq<Batch>, capacity: nat, b: Batch): seq<Batch>
    requires capacity > 0
  {
    if |queue| < capacity then queue + [b] else queue[1..] + [b]
  }

  // ----- the threads -----

  /** Who holds the flow's mutex, and how far it is. The invalidator runs while the mutex is held. */
  datatype FlowHolder =
    | Free
    | Consuming(frame: Frame)
    | Announcing
    | Filtering
    | Announced

  /** The endpoint's filter under its own mutex: draining one queue, then putting back what it keeps. */
  datatype Filter =
    | Idle
    | Draining(lane: Lane, kept: seq<Batch>)
    | Refilling(lane: Lane, kept: seq<Batch>)

  datatype State = State(
    generation: uint64,
    frame: Option<Frame>,
    registered: bool,
    holder: FlowHolder,
    current: uint64,
    voice: seq<Batch>,
    screen: seq<Batch>,
    filter: Filter,
    hand: Option<Batch>,
    handLane: Lane,
    restVoice: Option<Batch>,
    restScreen: Option<Batch>,
    invalidations: nat)

  function Initial(current: uint64): State {
    State(1, None, false, Free, current, [], [], Idle, None, Voice, None, None, 0)
  }

  function QueueOf(s: State, lane: Lane): seq<Batch> {
    if lane == Voice then s.voice else s.screen
  }

  function WithQueue(s: State, lane: Lane, queue: seq<Batch>): State {
    if lane == Voice then s.(voice := queue) else s.(screen := queue)
  }

  function RestOf(s: State, lane: Lane): Option<Batch> {
    if lane == Voice then s.restVoice else s.restScreen
  }

  function WithRest(s: State, lane: Lane, rest: Option<Batch>): State {
    if lane == Voice then s.(restVoice := rest) else s.(restScreen := rest)
  }

  datatype Action =
    | Submit(generation: uint64)
    | Invalidate
    | Register
    | Unregister
    | EnterFilter
    | FilterStep
    | Return
    | Consume
    | SendFrame(left: nat, dropped: bool)
    | EndConsume
    | SendUnfenced(lane: Lane, left: nat, dropped: bool)
    | Take(lane: Lane)
    | Write(expired: bool)

  /** Is this step possible: does its thread exist at that point, and is the mutex it needs free? */
  predicate Enabled(s: State, a: Action) {
    match a
    case Submit(_) => s.holder == Free
    case Invalidate => s.holder == Free
    case Register => s.holder == Free
    case Unregister => s.holder == Free
    case EnterFilter => s.holder == Announcing && s.filter == Idle && s.registered
    case FilterStep =>
      && s.filter != Idle
      && (s.filter.Refilling? && s.filter.kept != [] ==> |QueueOf(s, s.filter.lane)| < Capacity(s.filter.lane))
    case Return => s.holder == Announced || (s.holder == Announcing && !s.registered)
    case Consume => s.holder == Free && s.frame.Some?
    case SendFrame(left, _) => s.holder.Consuming? && s.filter == Idle && left > 0
    case EndConsume => s.holder.Consuming?
    case SendUnfenced(_, left, _) => !s.holder.Consuming? && s.filter == Idle && left > 0
    case Take(lane) => s.hand == None && (RestOf(s, lane).Some? || QueueOf(s, lane) != [])
    case Write(_) => s.hand.Some? && s.filter == Idle
  }

  /** Room is made for a batch; a writer that empties the queue meanwhile may make the drop needless. */
  function Enqueue(s: State, lane: Lane, b: Batch, dropped: bool): State {
    var queue := QueueOf(s, lane);
    WithQueue(s, lane, if queue != [] && (dropped || |queue| >= Capacity(lane)) then queue[1..] + [b] else queue + [b])
  }

  function Next(s: State, a: Action): State
    requires Enabled(s, a)
  {
    match a
    case Submit(g) => if g == s.generation then s.(frame := Some(Frame(g, s.invalidations))) else s
    case Invalidate =>
      s.(generation := NextGeneration(s.generation), frame := None, holder := Announcing, invalidations := s.invalidations + 1)
    case Register => s.(registered := true, holder := Announcing)
    case Unregister => s.(registered := false)
    case EnterFilter => s.(current := s.generation, holder := Filtering, filter := Draining(Voice, []))
    case FilterStep => StepFilter(s)
    case Return => s.(holder := Free)
    case Consume => s.(frame := None, holder := Consuming(s.frame.value))
    case SendFrame(left, dropped) =>
      var f := s.holder.frame;
      if f.generation != 0 && f.generation != s.current then s
      else Enqueue(s, Voice, Batch(f.generation, f.born, left), dropped)
    case EndConsume => s.(holder := Free)
    case SendUnfenced(lane, left, dropped) => Enqueue(s, lane, Batch(0, 0, left), dropped)
    case Take(lane) =>
      if RestOf(s, lane).Some? then WithRest(s, lane, None).(hand := RestOf(s, lane), handLane := lane)
      else WithQueue(s, lane, QueueOf(s, lane)[1..]).(hand := Some(QueueOf(s, lane)[0]), handLane := lane)
    case Write(expired) =>
      var b := s.hand.value;
      if !Writes(s, expired) || b.left <= 1 then s.(hand := None)
      else WithRest(s.(hand := None), s.handLane, Some(b.(left := b.left - 1)))
  }

  /** Does the write step put a datagram of the batch in hand on the wire? */
  predicate Writes(s: State, expired: bool)
    requires s.hand.Some?
  {
    s.hand.value.left > 0 && Passes(s.hand.value.generation, s.current) && !expired
  }

  function StepFilter(s: State): State
    requires s.filter != Idle
  {
    match s.filter
    case Draining(lane, kept) =>
      var queue := QueueOf(s, lane);
      if queue == [] then s.(filter := Refilling(lane, kept))
      else
        var rest := WithQueue(s, lane, queue[1..]);
        if Passes(queue[0].generation, s.current) then rest.(filter := Draining(lane, kept + [queue[0]])) else rest
    case Refilling(lane, kept) =>
      if kept != [] then WithQueue(s, lane, QueueOf(s, lane) + [kept[0]]).(filter := Refilling(lane, kept[1..]))
      else if lane == Voice then s.(filter := Draining(Screen, []))
      else s.(filter := Idle, holder := Announced)
  }

  // ----- generations over time -----

  const CYCLE: nat := WORD_SIZE - 1

  /** The generation after so many invalidations. */
  function GenerationAt(n: nat): uint64 {
    if n == 0 then 1 else NextGeneration(GenerationAt(n - 1))
  }

  /** The generation is never zero, so a voice frame is never mistaken for an unfenced datagram. */
  lemma {:induction false} GenerationIs(n: nat)
    ensures GenerationAt(n) == 1 + n % CYCLE
    ensures GenerationAt(n) != 0
  {
    if n > 0 {
      GenerationIs(n - 1);
      Wrap(n);
    }
  }

  lemma Wrap(n: nat)
    requires n > 0
    ensures n % CYCLE == if (n - 1) % CYCLE == CYCLE - 1 then 0 else (n - 1) % CYCLE + 1
  {
  }

  /** Two invalidation counts share a generation exactly when a whole number of cycles lies between them. */
  lemma SameGeneration(m: nat, n: nat)
    requires m <= n
    ensures GenerationAt(m) == GenerationAt(n) <==> (n - m) % CYCLE == 0
  {
    GenerationIs(m);
    GenerationIs(n);
  }

  // ----- the invariant -----

  /** A fenced batch carries the generation of its time. */
  predicate GoodBatch(now: nat, b: Batch) {
    b.generation != 0 ==> b.born <= now && b.generation == GenerationAt(b.born)
  }

  predicate GoodQueue(now: nat, queue: seq<Batch>) {
    forall i :: 0 <= i < |queue| ==> GoodBatch(now, queue[i])
  }

  function KeptOf(s: State): seq<Batch> {
    if s.filter == Idle then [] else s.filter.kept
  }

  predicate GoodOption(now: nat, b: Option<Batch>) {
    b.Some? ==> GoodBatch(now, b.value)
  }

  ghost predicate GoodFrame(s: State, f: Frame) {
    f.generation == s.generation && f.born == s.invalidations
  }

  ghost predicate Batches(s: State) {
    && GoodQueue(s.invalidations, s.voice) && GoodQueue(s.invalidations, s.screen) && GoodQueue(s.invalidations, KeptOf(s))
    && GoodOption(s.invalidations, s.hand) && GoodOption(s.invalidations, s.restVoice) && GoodOption(s.invalidations, s.restScreen)
  }

  predicate Bounded(s: State) {
    && |s.voice| + (if s.filter != Idle && s.filter.lane == Voice then |s.filter.kept| else 0) <= VOICE_BATCHES
    && |s.screen| + (if s.filter != Idle && s.filter.lane == Screen then |s.filter.kept| else 0) <= SCREEN_BATCHES
  }

  ghost predicate Inv(s: State) {
    && s.generation == GenerationAt(s.invalidations)
    && (s.frame.Some? ==> GoodFrame(s, s.frame.value))
    && (s.holder.Consuming? ==> GoodFrame(s, s.holder.frame))
    && (s.filter != Idle <==> s.holder == Filtering)
    && (s.holder == Filtering || s.holder == Announced ==> s.registered)
    && (s.registered && s.holder != Announcing ==> s.current == s.generation)
    && (s.hand.Some? ==> RestOf(s, s.handLane) == None)
    && Bounded(s)
    && Batches(s)
  }

  lemma InitialInv(current: uint64)
    ensures Inv(Initial(current))
  {
  }

  lemma OlderBatches(s: State, t: State)
    requires Batches(s) && s.invalidations <= t.invalidations
    requires t.voice == s.voice && t.screen == s.screen && KeptOf(t) == KeptOf(s)
    requires t.hand == s.hand && t.restVoice == s.restVoice && t.restScreen == s.restScreen
    ensures Batches(t)
  {
    hide GenerationAt;
  }

  /** Steps that touch neither the endpoint's queues nor the writer. */
  lemma FlowSteps(s: State, a: Action)
    requires Inv(s) && Enabled(s, a)
    requires !a.FilterStep? && !a.SendFrame? && !a.SendUnfenced? && !a.Take? && !a.Write?
    ensures Inv(Next(s, a))
  {
    OlderBatches(s, Next(s, a));
    hide Batches, NextGeneration;
    assert GenerationAt(s.invalidations + 1) == NextGeneration(GenerationAt(s.invalidations));
  }

  /** Queueing on one lane. */
  lemma EnqueueInv(s: State, lane: Lane, b: Batch, dropped: bool)
    requires Inv(s) && s.filter == Idle && GoodBatch(s.invalidations, b)
    ensures Inv(Enqueue(s, lane, b, dropped))
  {
    hide GenerationAt;
    var t := Enqueue(s, lane, b, dropped);
    assert GoodQueue(s.invalidations, QueueOf(s, lane));
    assert GoodQueue(t.invalidations, QueueOf(t, lane));
  }

  lemma TakeInv(s: State, lane: Lane)
    requires Inv(s) && Enabled(s, Take(lane))
    ensures Inv(Next(s, Take(lane)))
  {
    hide GenerationAt;
    assert GoodQueue(s.invalidations, QueueOf(s, lane));
  }

  lemma WriteInv(s: State, expired: bool)
    requires Inv(s) && Enabled(s, Write(expired))
    ensures Inv(Next(s, Write(expired)))
  {
    hide GenerationAt;
  }

  lemma FilterBatches(s: State)
    requires Batches(s) && Enabled(s, FilterStep)
    ensures Batches(Next(s, FilterStep))
  {
    hide GenerationAt, GoodBatch, GoodQueue, Passes, GoodOption, Capacity;
    var queue, kept := QueueOf(s, s.filter.lane), s.filter.kept;
    NothingIsGood(s.invalidations);
    if s.filter.Draining? {
      GoodTail(s.invalidations, queue);
      if queue != [] {
        GoodMore(s.invalidations, kept, queue[0]);
      }
    } else {
      GoodTail(s.invalidations, kept);
      if kept != [] {
        GoodMore(s.invalidations, queue, kept[0]);
      }
    }
  }

  lemma GoodTail(now: nat, queue: seq<Batch>)
    requires GoodQueue(now, queue)
    ensures queue != [] ==> GoodQueue(now, queue[1..]) && GoodBatch(now, queue[0])
  {
    hide GoodBatch;
  }

  lemma GoodMore(now: nat, queue: seq<Batch>, b: Batch)
    requires GoodQueue(now, queue) && GoodBatch(now, b)
    ensures GoodQueue(now, queue + [b])
  {
    hide GoodBatch;
  }

  lemma NothingIsGood(now: nat)
    ensures GoodQueue(now, [])
  {
  }

  lemma FilterBounded(s: State)
    requires Bounded(s) && Enabled(s, FilterStep)
    ensures Bounded(Next(s, FilterStep))
  {
  }

  lemma FilterInv(s: State)
    requires Inv(s) && Enabled(s, FilterStep)
    ensures Inv(Next(s, FilterStep))
  {
    hide GenerationAt, Batches, Bounded, Capacity;
    FilterBatches(s);
    FilterBounded(s);
  }

  lemma NextInv(s: State, a: Action)
    requires Inv(s) && Enabled(s, a)
    ensures Inv(Next(s, a))
  {
    hide GoodBatch, GenerationAt, Batches, Bounded, StepFilter, Enqueue;
    match a
    case FilterStep => FilterInv(s);
    case SendFrame(left, dropped) =>
      FrameIsGood(s, left);
      if s.holder.frame.generation == 0 || s.holder.frame.generation == s.current {
        EnqueueInv(s, Voice, Batch(s.holder.frame.generation, s.holder.frame.born, left), dropped);
      }
    case SendUnfenced(lane, left, dropped) =>
      FrameIsGood(s, left);
      EnqueueInv(s, lane, Batch(0, 0, left), dropped);
    case Take(lane) => TakeInv(s, lane);
    case Write(expired) => WriteInv(s, expired);
    case _ => FlowSteps(s, a);
  }

  lemma FrameIsGood(s: State, left: nat)
    requires Inv(s)
    ensures GoodBatch(s.invalidations, Batch(0, 0, left))
    ensures s.holder.Consuming? ==> GoodBatch(s.invalidations, Batch(s.holder.frame.generation, s.holder.frame.born, left))
  {
    hide GenerationAt;
  }

  // ----- runs -----

  ghost predicate Run(actions: seq<Action>, states: seq<State>) {
    && |states| == |actions| + 1
    && (exists current :: states[0] == Initial(current))
    && forall i :: 0 <= i < |actions| ==> Enabled(states[i], actions[i]) && states[i + 1] == Next(states[i], actions[i])
  }

  lemma {:induction false} EveryStateInv(actions: seq<Action>, states: seq<State>, n: nat)
    requires Run(actions, states) && n < |states|
    ensures Inv(states[n])
  {
    hide Inv, Next, Enabled;
    if n == 0 {
      var current :| states[0] == Initial(current);
      InitialInv(current);
    } else {
      EveryStateInv(actions, states, n - 1);
      NextInv(states[n - 1], actions[n - 1]);
    }
  }

  /** The step puts a fenced datagram on the wire. */
  predicate WritesFenced(s: State, a: Action) {
    a.Write? && s.hand.Some? && s.hand.value.generation != 0 && Writes(s, a.expired)
  }

  /** The flow and the endpoint agree on a generation while the invalidator is registered. */
  predicate Agreed(s: State, g: uint64) {
    s.registered && s.generation == g && s.current == g
  }

  lemma {:induction false} StaysAgreed(actions: seq<Action>, states: seq<State>, m: nat, n: nat, g: uint64)
    requires Run(actions, states) && m <= n < |states| && Agreed(states[m], g)
    requires forall i :: m <= i < n ==> !actions[i].Invalidate? && !actions[i].Unregister?
    ensures Agreed(states[n], g)
    decreases n
  {
    hide Next, Enabled, Agreed;
    if m < n {
      StaysAgreed(actions, states, m, n - 1, g);
      StepAgreed(states[n - 1], actions[n - 1], g);
    }
  }

  lemma StepAgreed(s: State, a: Action, g: uint64)
    requires Enabled(s, a) && Agreed(s, g) && !a.Invalidate? && !a.Unregister?
    ensures Agreed(Next(s, a), g)
  {
  }

  /** The mute fence. Once an invalidation has returned generation g with the invalidator registered, no datagram
      of a non-zero generation other than g reaches the socket until the next invalidation begins, whatever the
      flow's consumers, the relays and the writer do in between. */
  lemma MuteFence(actions: seq<Action>, states: seq<State>, m: nat, n: nat)
    requires Run(actions, states) && m < n < |actions|
    requires actions[m] == Return && states[m].registered
    requires forall i :: m < i < n ==> !actions[i].Invalidate? && !actions[i].Unregister?
    requires WritesFenced(states[n], actions[n])
    ensures states[n].hand.value.generation == states[m].generation
  {
    EveryStateInv(actions, states, m);
    hide Batches, GenerationAt, Bounded;
    var s := states[m];
    assert Enabled(s, actions[m]) && states[m + 1] == Next(s, actions[m]);
    StaysAgreed(actions, states, m + 1, n, s.generation);
  }

  /** The endpoint holds the generation of some invalidation count between these two. */
  ghost predicate Since(s: State, first: nat) {
    s.registered && exists c: nat :: first <= c <= s.invalidations && s.current == GenerationAt(c)
  }

  lemma {:induction false} StaysSince(actions: seq<Action>, states: seq<State>, m: nat, n: nat, first: nat)
    requires Run(actions, states) && m <= n < |states| && Since(states[m], first)
    requires forall i :: m <= i < n ==> !actions[i].Unregister?
    ensures Since(states[n], first)
    decreases n
  {
    hide Next, Enabled, Since, Inv;
    if m < n {
      StaysSince(actions, states, m, n - 1, first);
      EveryStateInv(actions, states, n - 1);
      StepSince(states[n - 1], actions[n - 1], first);
    }
  }

  lemma StepSince(s: State, a: Action, first: nat)
    requires Inv(s) && Enabled(s, a) && Since(s, first) && !a.Unregister?
    ensures Since(Next(s, a), first)
  {
    hide Batches, GenerationAt, Bounded;
    var c: nat :| first <= c <= s.invalidations && s.current == GenerationAt(c);
    if a.EnterFilter? {
      assert Next(s, a).current == GenerationAt(s.invalidations);
    } else {
      assert Next(s, a).current == GenerationAt(c);
    }
  }

  /** Nothing said before a mute is heard after it. A voice datagram written after an invalidation returned belongs to
      a frame submitted after that invalidation began, unless the 64-bit generation has meanwhile gone all
      the way round: then at least 2^64 - 1 invalidations lie between the frame and the write. */
  lemma NothingStaleIsWritten(actions: seq<Action>, states: seq<State>, m: nat, n: nat)
    requires Run(actions, states) && m < n < |actions|
    requires actions[m] == Return && states[m].registered
    requires forall i :: m < i < n ==> !actions[i].Unregister?
    requires WritesFenced(states[n], actions[n])
    ensures var born := states[n].hand.value.born;
      || states[m].invalidations <= born
      || states[n].invalidations - born >= CYCLE
  {
    EveryStateInv(actions, states, m);
    EveryStateInv(actions, states, n);
    var s, b := states[m], states[n].hand.value;
    assert Enabled(s, actions[m]) && states[m + 1] == Next(s, actions[m]);
    assert states[m + 1].current == GenerationAt(s.invalidations);
    StaysSince(actions, states, m + 1, n, s.invalidations);
    var c: nat :| s.invalidations <= c <= states[n].invalidations && states[n].current == GenerationAt(c);
    if b.born < s.invalidations {
      SameGeneration(b.born, c);
      WholeCycles(c - b.born);
    }
  }

  lemma WholeCycles(d: nat)
    requires d > 0 && d % CYCLE == 0
    ensures d >= CYCLE
  {
  }

  // ----- waiting -----

  /** How far the filter is from its end. */
  function Remaining(s: State): nat {
    match s.filter
    case Idle => 0
    case Draining(lane, kept) => Ahead(lane) + 2 * |QueueOf(s, lane)| + |kept| + 3
    case Refilling(lane, kept) => Ahead(lane) + |kept| + 2
  }

  function Ahead(lane: Lane): nat {
    if lane == Voice then 2 * SCREEN_BATCHES + 3 else 0
  }

  /** Putting back what the filter keeps never blocks, every filter step brings its end closer, and no other thread
      pushes it away. */
  lemma FilterProgresses(s: State, a: Action)
    requires Inv(s) && s.filter != Idle && Enabled(s, a)
    ensures Enabled(s, FilterStep)
    ensures Remaining(Next(s, a)) <= Remaining(s)
    ensures a == FilterStep ==> Remaining(Next(s, a)) < Remaining(s)
  {
    hide Batches, GenerationAt;
  }

  /** An invalidation needs at most this many filter steps. */
  lemma FilterIsShort(s: State)
    requires Inv(s) && Enabled(s, EnterFilter)
    ensures Remaining(Next(s, EnterFilter)) <= 2 * VOICE_BATCHES + 2 * SCREEN_BATCHES + 6
  {
    hide Batches, GenerationAt;
  }

  /** Whoever holds the flow's mutex can take a step towards giving it back: there is no deadlock. */
  lemma HolderCanStep(s: State)
    requires Inv(s) && s.holder != Free
    ensures Enabled(s, EndConsume) || Enabled(s, EnterFilter) || Enabled(s, FilterStep) || Enabled(s, Return)
  {
    hide Batches, GenerationAt;
  }

  /** The filter steps among these actions. */
  function FilterSteps(actions: seq<Action>, m: nat, n: nat): nat
    requires m <= n <= |actions|
    decreases n
  {
    if m == n then 0 else (if actions[n - 1] == FilterStep then 1 else 0) + FilterSteps(actions, m, n - 1)
  }

  lemma {:induction false} FilterStepsBound(actions: seq<Action>, states: seq<State>, m: nat, n: nat)
    requires Run(actions, states) && m <= n < |states|
    requires forall i :: m <= i < n ==> states[i].filter != Idle
    ensures FilterSteps(actions, m, n) + Remaining(states[n]) <= Remaining(states[m])
    decreases n
  {
    hide Inv, Enabled, Next, Remaining;
    if m < n {
      FilterStepsBound(actions, states, m, n - 1);
      EveryStateInv(actions, states, n - 1);
      FilterProgresses(states[n - 1], actions[n - 1]);
    }
  }

  /** An invalidation always returns. Whoever holds the flow's mutex can take a step, and as long as the filter runs, that
      step is the filter's, of which there are at most so many whatever the other threads do. */
  lemma InvalidationEnds(actions: seq<Action>, states: seq<State>, m: nat, n: nat)
    requires Run(actions, states) && m < n < |states| && actions[m] == EnterFilter
    requires forall i :: m < i <= n ==> states[i].filter != Idle
    ensures Enabled(states[n], FilterStep)
    ensures FilterSteps(actions, m + 1, n) < 2 * VOICE_BATCHES + 2 * SCREEN_BATCHES + 6
  {
    hide Inv, Enabled, Next, Remaining;
    EveryStateInv(actions, states, m);
    FilterIsShort(states[m]);
    FilterStepsBound(actions, states, m + 1, n);
    EveryStateInv(actions, states, n);
    StillToDo(states[n]);
  }

  lemma StillToDo(s: State)
    requires Inv(s) && s.filter != Idle
    ensures Remaining(s) > 0 && Enabled(s, FilterStep)
  {
    hide Batches, GenerationAt;
  }

  /** No run ends in a deadlock of the flow's mutex: it is free, or its holder can take a step. */
  lemma NoDeadlock(actions: seq<Action>, states: seq<State>, n: nat)
    requires Run(actions, states) && n < |states|
    ensures var s := states[n];
      s.holder == Free || Enabled(s, EndConsume) || Enabled(s, EnterFilter) || Enabled(s, FilterStep) || Enabled(s, Return)
  {
    hide Inv, Enabled, Next;
    EveryStateInv(actions, states, n);
    if states[n].holder != Free {
      HolderCanStep(states[n]);
    }
  }

  /** While a frame is being fanned out its generation is the endpoint's, so no recipient's copy is refused. */
  lemma FanOutIsNeverRefused(s: State)
    requires Inv(s) && s.registered && s.holder.Consuming?
    ensures s.holder.frame.generation == s.current
  {
    hide Batches;
  }

  /** How often a batch stands in a queue. */
  function Count(queue: seq<Batch>, b: Batch): nat {
    if queue == [] then 0 else (if queue[0] == b then 1 else 0) + Count(queue[1..], b)
  }

  lemma {:induction false} CountMore(queue: seq<Batch>, x: Batch, b: Batch)
    ensures Count(queue + [x], b) == Count(queue, b) + (if x == b then 1 else 0)
  {
    if queue == [] {
      assert queue + [x] == [x];
    } else {
      CountMore(queue[1..], x, b);
      assert (queue + [x])[1..] == queue[1..] + [x];
    }
  }

  /** How often a batch stands in a queue or among what the filter keeps of it. */
  function Held(s: State, lane: Lane, b: Batch): nat {
    Count(QueueOf(s, lane), b) + (if s.filter != Idle && s.filter.lane == lane then Count(s.filter.kept, b) else 0)
  }

  /** The filter loses no batch that passes, in either queue, whatever the writer takes meanwhile. */
  lemma FilterKeepsWhatPasses(s: State, lane: Lane, b: Batch)
    requires Inv(s) && Enabled(s, FilterStep) && Passes(b.generation, s.current)
    ensures Held(Next(s, FilterStep), lane, b) == Held(s, lane, b)
  {
    hide Inv, Capacity;
    var queue, kept := QueueOf(s, s.filter.lane), s.filter.kept;
    if s.filter.Draining? && queue != [] {
      CountMore(kept, queue[0], b);
    } else if s.filter.Refilling? && kept != [] {
      CountMore(queue, kept[0], b);
    }
  }

  // ----- order -----

  /** The batches of a lane that pass, in the order in which they were queued. */
  function Order(s: State, lane: Lane): seq<Batch> {
    var queue := Fresh(QueueOf(s, lane), s.current);
    if s.filter.Draining? && s.filter.lane == lane then Fresh(s.filter.kept, s.current) + queue
    else if s.filter.Refilling? && s.filter.lane == lane then queue + Fresh(s.filter.kept, s.current)
    else queue
  }

  /** What the filter holds of a lane while it drains it. */
  function Overtaken(s: State, lane: Lane): seq<Batch> {
    if s.filter.Draining? && s.filter.lane == lane then Fresh(s.filter.kept, s.current) else []
  }

  /** A take from the queue of a lane. */
  predicate TakesQueued(s: State, a: Action, lane: Lane) {
    a == Take(lane) && RestOf(s, lane) == None && QueueOf(s, lane) != []
  }

  /** The passing batch that the writer takes leaves exactly those behind that the filter holds while it drains the lane:
      order is kept if and only if there are none. */
  lemma TakeOvertakes(s: State, lane: Lane)
    requires Enabled(s, Take(lane)) && TakesQueued(s, Take(lane), lane)
    ensures var taken := Fresh([QueueOf(s, lane)[0]], s.current);
      exists after :: Order(s, lane) == Overtaken(s, lane) + taken + after && Order(Next(s, Take(lane)), lane) == Overtaken(s, lane) + after
  {
    hide Fresh, Enabled, Capacity;
    var queue, t := QueueOf(s, lane), Next(s, Take(lane));
    FreshFirst(queue, s.current);
    assert QueueOf(t, lane) == queue[1..] && t.filter == s.filter && t.current == s.current;
    var taken, rest := Fresh([queue[0]], s.current), Fresh(queue[1..], s.current);
    var after := rest + (if s.filter.Refilling? && s.filter.lane == lane then Fresh(s.filter.kept, s.current) else []);
    assert Order(s, lane) == Overtaken(s, lane) + taken + after;
    assert Order(t, lane) == Overtaken(s, lane) + after;
  }

  lemma FreshFirst(queue: seq<Batch>, current: uint64)
    requires queue != []
    ensures Fresh(queue, current) == Fresh([queue[0]], current) + Fresh(queue[1..], current)
  {
    assert [queue[0]][1..] == [];
    FreshNone(current);
  }

  /** Neither the generation changes nor anything is queued on the lane. */
  predicate Undisturbed(a: Action, lane: Lane) {
    !a.EnterFilter? && !(a.SendFrame? && lane == Voice) && !(a.SendUnfenced? && a.lane == lane)
  }

  lemma OrderStays(s: State, a: Action, lane: Lane)
    requires Inv(s) && Enabled(s, a) && Undisturbed(a, lane) && !TakesQueued(s, a, lane)
    ensures Order(Next(s, a), lane) == Order(s, lane)
  {
    hide Inv, Fresh, StepFilter, Capacity;
    NoEnterWhileFiltering(s, a);
    if a == FilterStep {
      FilterKeepsOrder(s, lane);
    }
  }

  lemma NoEnterWhileFiltering(s: State, a: Action)
    requires Inv(s) && Enabled(s, a)
    ensures s.filter != Idle ==> !a.SendFrame? && !a.SendUnfenced? && !a.EnterFilter?
  {
    hide Batches, Bounded, GenerationAt, Fresh;
  }

  lemma FilterKeepsOrder(s: State, lane: Lane)
    requires Enabled(s, FilterStep)
    ensures Order(Next(s, FilterStep), lane) == Order(s, lane)
  {
    hide Capacity, Fresh;
    FreshNone(s.current);
    if s.filter.lane == lane {
      if s.filter.Draining? && QueueOf(s, lane) != [] {
        DrainKeepsOrder(QueueOf(s, lane), s.filter.kept, s.current);
      } else if s.filter.Refilling? && s.filter.kept != [] {
        RefillKeepsOrder(QueueOf(s, lane), s.filter.kept, s.current);
      }
    }
  }

  lemma DrainKeepsOrder(queue: seq<Batch>, kept: seq<Batch>, current: uint64)
    requires queue != []
    ensures Fresh(kept, current) + Fresh(queue, current)
      == Fresh(if Passes(queue[0].generation, current) then kept + [queue[0]] else kept, current) + Fresh(queue[1..], current)
  {
    FreshMore(kept, queue[0], current);
  }

  lemma RefillKeepsOrder(queue: seq<Batch>, kept: seq<Batch>, current: uint64)
    requires kept != []
    ensures Fresh(queue, current) + Fresh(kept, current) == Fresh(queue + [kept[0]], current) + Fresh(kept[1..], current)
  {
    FreshMore(queue, kept[0], current);
  }

  /** The passing batches taken from the queue of a lane between two states, in order. */
  function Taken(actions: seq<Action>, states: seq<State>, lane: Lane, m: nat, n: nat): seq<Batch>
    requires |states| == |actions| + 1 && m <= n <= |actions|
    decreases n
  {
    if m == n then []
    else
      Taken(actions, states, lane, m, n - 1)
      + if TakesQueued(states[n - 1], actions[n - 1], lane) then Fresh([QueueOf(states[n - 1], lane)[0]], states[n - 1].current) else []
  }

  /** Over any stretch of a run in which the writer takes nothing from a lane while the draining filter holds a passing
      batch of it, passing batches leave the lane in the order in which they were queued. */
  lemma {:induction false} OrderIsKept(actions: seq<Action>, states: seq<State>, lane: Lane, m: nat, n: nat)
    requires Run(actions, states) && m <= n <= |actions|
    requires forall i :: m <= i < n ==> Undisturbed(actions[i], lane)
    requires forall i :: m <= i < n && TakesQueued(states[i], actions[i], lane) ==> Overtaken(states[i], lane) == []
    ensures Order(states[m], lane) == Taken(actions, states, lane, m, n) + Order(states[n], lane)
    decreases n
  {
    hide Inv, Enabled, Next, Order, Fresh, TakesQueued;
    if m < n {
      OrderIsKept(actions, states, lane, m, n - 1);
      EveryStateInv(actions, states, n - 1);
      var s, a := states[n - 1], actions[n - 1];
      if TakesQueued(s, a, lane) {
        TakesAre(s, a, lane);
        TakeOvertakes(s, lane);
      } else {
        OrderStays(s, a, lane);
      }
    }
  }

  lemma TakesAre(s: State, a: Action, lane: Lane)
    requires TakesQueued(s, a, lane)
    ensures a == Take(lane)
  {
  }

  // ----- order lost -----

  /** Two unfenced batches are queued, and an invalidator is registered: its filter holds the first batch when the writer
      takes the second. */
  function Shuffle(): seq<Action> {
    [SendUnfenced(Voice, 1, false), SendUnfenced(Voice, 2, false), Register, EnterFilter, FilterStep, Take(Voice), FilterStep, FilterStep]
  }

  function Shuffled(n: nat): State
    requires n <= 8
  {
    var one, two := Batch(0, 0, 1), Batch(0, 0, 2);
    var s := Initial(1);
    if n == 0 then s
    else if n == 1 then s.(voice := [one])
    else if n == 2 then s.(voice := [one, two])
    else if n == 3 then s.(voice := [one, two], registered := true, holder := Announcing)
    else
      var t := s.(registered := true, holder := Filtering, voice := [one, two], filter := Draining(Voice, []));
      if n == 4 then t
      else if n == 5 then t.(voice := [two], filter := Draining(Voice, [one]))
      else
        var u := t.(hand := Some(two), voice := []);
        if n == 6 then u.(filter := Draining(Voice, [one]))
        else if n == 7 then u.(filter := Refilling(Voice, [one]))
        else u.(voice := [one], filter := Refilling(Voice, []))
  }

  lemma Shuffles()
    ensures var one, two := Batch(0, 0, 1), Batch(0, 0, 2);
      [] + [one] == [one] && [one] + [two] == [one, two] && [one, two][1..] == [two] && [one][1..] == [] && [two][1..] == []
  {
  }

  lemma ShuffleStep(n: nat)
    requires n < 8
    ensures Enabled(Shuffled(n), Shuffle()[n]) && Shuffled(n + 1) == Next(Shuffled(n), Shuffle()[n])
  {
    hide Enabled, Next, Shuffled, Shuffle;
    match n
    case 0 => QueueingSteps(0);
    case 1 => QueueingSteps(1);
    case 2 => QueueingSteps(2);
    case 3 => QueueingSteps(3);
    case 4 => FilteringSteps(4);
    case 5 => FilteringSteps(5);
    case 6 => FilteringSteps(6);
    case 7 => FilteringSteps(7);
  }

  lemma QueueingSteps(n: nat)
    requires n < 4
    ensures Enabled(Shuffled(n), Shuffle()[n]) && Shuffled(n + 1) == Next(Shuffled(n), Shuffle()[n])
  {
    hide StepFilter;
    Shuffles();
  }

  lemma FilteringSteps(n: nat)
    requires 4 <= n < 8
    ensures Enabled(Shuffled(n), Shuffle()[n]) && Shuffled(n + 1) == Next(Shuffled(n), Shuffle()[n])
  {
    hide Enqueue;
    Shuffles();
  }

  /** A run at whose end the batch queued second is in the writer's hand and the one queued first still waits. */
  lemma OrderIsLost() returns (states: seq<State>)
    ensures Run(Shuffle(), states)
    ensures states[2].voice == [Batch(0, 0, 1), Batch(0, 0, 2)]
    ensures states[8].hand == Some(Batch(0, 0, 2)) && states[8].voice == [Batch(0, 0, 1)]
  {
    hide Enabled, Next;
    states := seq(9, i requires 0 <= i < 9 => Shuffled(i));
    forall i | 0 <= i < 8
      ensures Enabled(states[i], Shuffle()[i]) && states[i + 1] == Next(states[i], Shuffle()[i])
    {
      ShuffleStep(i);
    }
    assert states[0] == Initial(1);
  }

  // ----- the filter alone -----

  /** The filter running to its end with no other thread in between. */
  ghost function Alone(s: State): State
    requires Inv(s)
    decreases Remaining(s)
  {
    if s.filter == Idle || !Enabled(s, FilterStep) then s
    else
      FilterProgresses(s, FilterStep);
      NextInv(s, FilterStep);
      Alone(Next(s, FilterStep))
  }

  /** What the queues become when the filter runs on from here. */
  ghost function Filtered(s: State, lane: Lane): seq<Batch>
    requires s.filter != Idle
  {
    match s.filter
    case Draining(at, kept) =>
      if at == lane then kept + Fresh(QueueOf(s, lane), s.current)
      else if at == Voice then Fresh(QueueOf(s, lane), s.current)
      else QueueOf(s, lane)
    case Refilling(at, kept) =>
      if at == lane then QueueOf(s, lane) + kept
      else if at == Voice then Fresh(QueueOf(s, lane), s.current)
      else QueueOf(s, lane)
  }

  lemma KeptFirst(kept: seq<Batch>, queue: seq<Batch>, current: uint64)
    requires queue != []
    ensures kept + Fresh(queue, current)
      == (if Passes(queue[0].generation, current) then kept + [queue[0]] else kept) + Fresh(queue[1..], current)
  {
  }

  lemma PutBackFirst(queue: seq<Batch>, kept: seq<Batch>)
    requires kept != []
    ensures (queue + [kept[0]]) + kept[1..] == queue + kept
  {
  }

  lemma FilteredStep(s: State, lane: Lane)
    requires s.filter != Idle && Enabled(s, FilterStep)
    ensures var t := Next(s, FilterStep);
      if t.filter == Idle then QueueOf(t, lane) == Filtered(s, lane) else Filtered(t, lane) == Filtered(s, lane)
  {
    hide Capacity, Fresh;
    var t := Next(s, FilterStep);
    var queue, kept := QueueOf(s, s.filter.lane), s.filter.kept;
    assert Fresh([], s.current) == [] by {
      FreshNone(s.current);
    }
    if s.filter.Draining? {
      if queue != [] {
        KeptFirst(kept, queue, s.current);
      }
    } else if kept != [] {
      PutBackFirst(queue, kept);
    }
  }

  lemma FreshNone(current: uint64)
    ensures Fresh([], current) == []
  {
  }

  /** Step by step the threads' filter leaves each queue as the sequential code does. */
  lemma {:induction false} AloneIsFresh(s: State, lane: Lane)
    requires Inv(s) && s.filter != Idle
    ensures Alone(s).holder == Announced && QueueOf(Alone(s), lane) == Filtered(s, lane)
    decreases Remaining(s)
  {
    hide GenerationAt, Batches, Fresh;
    FilterProgresses(s, FilterStep);
    NextInv(s, FilterStep);
    FilteredStep(s, lane);
    if Next(s, FilterStep).filter != Idle {
      AloneIsFresh(Next(s, FilterStep), lane);
    }
  }

  // ----- the code -----

  /** Keeping the fresh batches keeps each of them as often, and nothing else. */
  lemma {:induction false} FreshCount(queue: seq<Batch>, current: uint64, b: Batch)
    ensures Count(Fresh(queue, current), b) == if Passes(b.generation, current) then Count(queue, b) else 0
    ensures |Fresh(queue, current)| <= |queue|
  {
    if queue != [] {
      FreshCount(queue[1..], current, b);
      var kept := [queue[0]] + Fresh(queue[1..], current);
      assert kept[1..] == Fresh(queue[1..], current);
    }
  }

  lemma {:induction false} FreshMore(queue: seq<Batch>, x: Batch, current: uint64)
    ensures Fresh(queue + [x], current) == Fresh(queue, current) + (if Passes(x.generation, current) then [x] else [])
  {
    if queue == [] {
      assert queue + [x] == [x];
      assert [x][1..] == [];
    } else {
      FreshMore(queue[1..], x, current);
      assert (queue + [x])[1..] == queue[1..] + [x];
    }
  }

  /** Drain the queue, then put back what passes. */
  method RetainRealtimeSendGeneration(batches: seq<Batch>, sendGeneration: uint64) returns (queue: seq<Batch>)
    ensures queue == Fresh(batches, sendGeneration)
  {
    queue := batches;
    var retained: seq<Batch> := [];
    ghost var taken: seq<Batch> := [];
    while queue != []
      invariant taken + queue == batches
      invariant retained == Fresh(taken, sendGeneration)
      decreases |queue|
    {
      var batch := queue[0];
      FreshMore(taken, batch, sendGeneration);
      taken := taken + [batch];
      queue := queue[1..];
      if batch.generation == 0 || batch.generation == sendGeneration {
        retained := retained + [batch];
      }
    }
    assert taken == batches;
    for i := 0 to |retained|
      invariant queue == retained[..i]
    {
      queue := queue + [retained[i]];
    }
  }

  class Endpoint {
    var currentSendGeneration: uint64
    var voiceBatches: seq<Batch>
    var screenBatches: seq<Batch>

    constructor ()
      ensures currentSendGeneration == 0 && voiceBatches == [] && screenBatches == []
    {
      currentSendGeneration, voiceBatches, screenBatches := 0, [], [];
    }

    predicate Valid()
      reads this
    {
      |voiceBatches| <= VOICE_BATCHES && |screenBatches| <= SCREEN_BATCHES
    }

    /** Refuse a stale or expired batch, else queue it on its lane, dropping the oldest of a full queue. */
    method SendRealtimeBatch(lane: Lane, batch: Batch, expired: bool) returns (ok: bool)
      requires Valid()
      modifies this
      ensures Valid()
      ensures ok == (batch.left > 0 && !expired && Passes(batch.generation, old(currentSendGeneration)))
      ensures voiceBatches == if ok && lane == Voice then EnqueueFresh(old(voiceBatches), VOICE_BATCHES, batch) else old(voiceBatches)
      ensures screenBatches == if ok && lane == Screen then EnqueueFresh(old(screenBatches), SCREEN_BATCHES, batch) else old(screenBatches)
      ensures currentSendGeneration == old(currentSendGeneration)
    {
      if batch.left == 0 || expired {
        return false;
      }
      if batch.generation != 0 && batch.generation != currentSendGeneration {
        return false;
      }
      if lane == Voice {
        if |voiceBatches| == VOICE_BATCHES {
          voiceBatches := voiceBatches[1..];
        }
        voiceBatches := voiceBatches + [batch];
      } else {
        if |screenBatches| == SCREEN_BATCHES {
          screenBatches := screenBatches[1..];
        }
        screenBatches := screenBatches + [batch];
      }
      return true;
    }

    method SetRealtimeSendGeneration(sendGeneration: uint64)
      requires Valid()
      modifies this
      ensures Valid()
      ensures currentSendGeneration == sendGeneration
      ensures voiceBatches == Fresh(old(voiceBatches), sendGeneration)
      ensures screenBatches == Fresh(old(screenBatches), sendGeneration)
    {
      FreshCount(voiceBatches, sendGeneration, Batch(0, 0, 0));
      FreshCount(screenBatches, sendGeneration, Batch(0, 0, 0));
      currentSendGeneration := sendGeneration;
      voiceBatches := RetainRealtimeSendGeneration(voiceBatches, sendGeneration);
      screenBatches := RetainRealtimeSendGeneration(screenBatches, sendGeneration);
    }

    /** One datagram of a batch: what is left of the batch, and whether the datagram went out. */
    method WriteRealtimeDatagram(batch: Batch, expired: bool) returns (rest: Batch, wrote: bool)
      ensures wrote == (batch.left > 0 && Passes(batch.generation, currentSendGeneration) && !expired)
      ensures rest == if wrote then batch.(left := batch.left - 1) else Batch(0, 0, 0)
    {
      if batch.left == 0 {
        return Batch(0, 0, 0), false;
      }
      if (batch.generation != 0 && batch.generation != currentSendGeneration) || expired {
        return Batch(0, 0, 0), false;
      }
      return batch.(left := batch.left - 1), true;
    }
  }

  /** The sending half of a room's media flow. */
  class Flow {
    var send: Option<Frame>
    var sendGeneration: uint64
    var invalidator: Endpoint?

    constructor ()
      ensures send == None && sendGeneration == 1 && invalidator == null
    {
      send, sendGeneration, invalidator := None, 1, null;
    }

    /** The endpoint to be told is sound, and knows the flow's generation. */
    predicate Valid()
      reads this, invalidator
    {
      && sendGeneration != 0
      && (send.Some? ==> send.value.generation == sendGeneration)
      && (invalidator != null ==> invalidator.Valid() && invalidator.currentSendGeneration == sendGeneration)
    }

    method SubmitSend(frame: Frame, payloadSize: nat) returns (ok: bool)
      requires Valid()
      modifies this
      ensures Valid() && sendGeneration == old(sendGeneration) && invalidator == old(invalidator)
      ensures ok == (payloadSize > 0 && frame.generation == sendGeneration)
      ensures send == if ok then Some(frame) else old(send)
    {
      if payloadSize == 0 {
        return false;
      }
      if frame.generation != sendGeneration {
        return false;
      }
      send := Some(frame);
      return true;
    }

    method AdvanceSendGeneration()
      modifies this
      ensures sendGeneration == NextGeneration(old(sendGeneration)) && sendGeneration != 0
      ensures send == old(send) && invalidator == old(invalidator)
    {
      var sum := (sendGeneration + 1) % WORD_SIZE;
      sendGeneration := sum;
      if sendGeneration == 0 {
        sendGeneration := 1;
      }
    }

    /** After an invalidation nothing fenced waits anywhere: not in the flow, not in the endpoint's queues. */
    method InvalidateSend() returns (generation: uint64)
      requires Valid()
      modifies this, invalidator
      ensures Valid() && invalidator == old(invalidator)
      ensures generation == sendGeneration == NextGeneration(old(sendGeneration)) && send == None
      ensures invalidator != null ==>
        && invalidator.voiceBatches == Fresh(old(if invalidator == null then [] else invalidator.voiceBatches), generation)
        && invalidator.screenBatches == Fresh(old(if invalidator == null then [] else invalidator.screenBatches), generation)
    {
      AdvanceSendGeneration();
      send := None;
      generation := sendGeneration;
      if invalidator != null {
        invalidator.SetRealtimeSendGeneration(generation);
      }
    }

    /** Registering announces the current generation at once. */
    method SetSendInvalidator(endpoint: Endpoint?)
      requires sendGeneration != 0 && (send.Some? ==> send.value.generation == sendGeneration)
      requires endpoint != null ==> endpoint.Valid()
      modifies this, endpoint
      ensures Valid() && invalidator == endpoint
      ensures sendGeneration == old(sendGeneration) && send == old(send)
    {
      invalidator := endpoint;
      if endpoint != null {
        endpoint.SetRealtimeSendGeneration(sendGeneration);
      }
    }

    /** Consume the waiting frame: its batches, one per destination group, are queued while the flow is held. A batch
        of the frame's generation is never refused as stale. */
    method ConsumeSend(lefts: seq<nat>) returns (consumed: bool, sent: nat)
      requires Valid() && forall i :: 0 <= i < |lefts| ==> lefts[i] > 0
      modifies this, invalidator
      ensures Valid() && invalidator == old(invalidator) && sendGeneration == old(sendGeneration)
      ensures consumed == old(send).Some? && send == None
      ensures consumed && invalidator != null ==> sent == |lefts|
    {
      consumed, sent := false, 0;
      if send == None {
        return;
      }
      var frame := send.value;
      send := None;
      consumed := true;
      if invalidator == null {
        return;
      }
      var endpoint: Endpoint := invalidator;
      for i := 0 to |lefts|
        invariant Valid() && invalidator == endpoint && sendGeneration == frame.generation == old(sendGeneration) && send == None
        invariant sent == i
      {
        var ok := endpoint.SendRealtimeBatch(Voice, Batch(frame.generation, frame.born, lefts[i]), false);
        if ok {
          sent := sent + 1;
        }
      }
    }
  }
}
