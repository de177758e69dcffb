/** That the fence lets through what it should: voice of the current generation reaches the wire, datagram by datagram, and
    does so again after every invalidation. */
module SendFenceRuns {
  import opened Options
  import opened Words
  import opened SendFences

  /** A datagram on the wire, by the generation it was submitted under. */
  datatype Sent = Sent(generation: uint64, born: nat)

  datatype Played = Played(state: State, wire: seq<Sent>)

  /** Where a series of steps leads, if each of them is possible in its turn, and what it puts on the wire. */
  function Play(s: State, actions: seq<Action>): Option<Played>
    decreases |actions|
  {
    if actions == [] then Some(Played(s, []))
    else if !Enabled(s, actions[0]) then None
    else
      var rest := Play(Next(s, actions[0]), actions[1..]);
      if rest.None? then None
      else Some(rest.value.(wire := OnWire(s, actions[0]) + rest.value.wire))
  }

  function OnWire(s: State, a: Action): seq<Sent>
    requires Enabled(s, a)
  {
    if a.Write? && Writes(s, a.expired) then [Sent(s.hand.value.generation, s.hand.value.born)] else []
  }

  /** Nothing is under way, and the endpoint has the flow's generation. */
  predicate Open(s: State) {
    && s.holder == Free && s.filter == Idle && s.hand == None && s.frame == None
    && s.voice == [] && s.restVoice == None && s.current == s.generation
  }

  // ----- writing -----

  /** The writer takes the batch and writes one datagram of it, so many times. */
  function Rounds(n: nat): seq<Action> {
    if n == 0 then [] else [Take(Voice), Write(false)] + Rounds(n - 1)
  }

  function Copies(n: nat, d: Sent): (r: seq<Sent>)
    ensures |r| == n && forall i :: 0 <= i < n ==> r[i] == d
  {
    seq(n, _ => d)
  }

  /** A batch that the fence passes and that is begun goes out whole. */
  lemma {:induction false} BegunGoesOut(s: State, b: Batch)
    requires s.filter == Idle && s.hand == None && s.restVoice == Some(b) && b.left > 0 && Passes(b.generation, s.current)
    ensures Play(s, Rounds(b.left))
         == Some(Played(s.(restVoice := None, handLane := Voice), Copies(b.left, Sent(b.generation, b.born))))
    decreases b.left
  {
    var taken := Next(s, Take(Voice));
    var next := Next(taken, Write(false));
    if b.left > 1 {
      BegunGoesOut(next, b.(left := b.left - 1));
      assert next.(restVoice := None, handLane := Voice) == s.(restVoice := None, handLane := Voice);
    } else {
      assert next == s.(restVoice := None, handLane := Voice);
      assert Play(next, Rounds(0)) == Some(Played(next, []));
    }
    TwoSteps(s, Take(Voice), Write(false), Rounds(b.left - 1));
    assert Rounds(b.left) == [Take(Voice), Write(false)] + Rounds(b.left - 1);
    assert OnWire(s, Take(Voice)) == [] && OnWire(taken, Write(false)) == [Sent(b.generation, b.born)];
    assert [] + ([Sent(b.generation, b.born)] + Copies(b.left - 1, Sent(b.generation, b.born))) == Copies(b.left, Sent(b.generation, b.born));
  }

  lemma TwoSteps(s: State, a: Action, b: Action, rest: seq<Action>)
    requires Enabled(s, a) && Enabled(Next(s, a), b) && Play(Next(Next(s, a), b), rest).Some?
    ensures var p := Play(Next(Next(s, a), b), rest).value;
      Play(s, [a, b] + rest) == Some(Played(p.state, OnWire(s, a) + (OnWire(Next(s, a), b) + p.wire)))
  {
    assert ([a, b] + rest)[1..] == [b] + rest;
    assert ([b] + rest)[1..] == rest;
  }

  /** Two steps that write nothing. */
  lemma SilentSteps(s: State, a: Action, b: Action, rest: seq<Action>)
    requires Enabled(s, a) && Enabled(Next(s, a), b) && !a.Write? && !b.Write?
    ensures Play(s, [a, b] + rest) == Play(Next(Next(s, a), b), rest)
  {
    assert ([a, b] + rest)[1..] == [b] + rest;
    assert ([b] + rest)[1..] == rest;
    var p := Play(Next(Next(s, a), b), rest);
    if p.Some? {
      assert [] + ([] + p.value.wire) == p.value.wire;
    }
  }

  /** Submit a frame under the generation, consume it, send it as so many datagrams, and write them. */
  function Frames(generation: uint64, left: nat): seq<Action> {
    [Submit(generation), Consume] + ([SendFrame(left, false), EndConsume] + Rounds(left))
  }

  /** With nothing under way, a frame submitted under the current generation goes out whole, every datagram of it. */
  lemma FrameGoesOut(s: State, left: nat)
    requires Open(s) && left > 0
    ensures Play(s, Frames(s.generation, left))
         == Some(Played(s.(handLane := Voice), Copies(left, Sent(s.generation, s.invalidations))))
  {
    hide Play, Rounds;
    var g, f := s.generation, Frame(s.generation, s.invalidations);
    var consuming := s.(holder := Consuming(f));
    assert Next(Next(s, Submit(g)), Consume) == consuming;
    var b := Batch(g, s.invalidations, left);
    var queued := s.(voice := [b]);
    assert Next(consuming, SendFrame(left, false)) == consuming.(voice := [b]);
    assert Next(Next(consuming, SendFrame(left, false)), EndConsume) == queued;
    QueuedGoesOut(queued, b);
    SilentSteps(consuming, SendFrame(left, false), EndConsume, Rounds(left));
    SilentSteps(s, Submit(g), Consume, [SendFrame(left, false), EndConsume] + Rounds(left));
  }

  /** So does a batch that waits alone in the queue. */
  lemma QueuedGoesOut(s: State, b: Batch)
    requires s.filter == Idle && s.hand == None && s.restVoice == None && s.voice == [b] && b.left > 0 && Passes(b.generation, s.current)
    ensures Play(s, Rounds(b.left))
         == Some(Played(s.(voice := [], handLane := Voice), Copies(b.left, Sent(b.generation, b.born))))
  {
    var begun := s.(voice := [], restVoice := Some(b));
    assert Next(s, Take(Voice)) == Next(begun, Take(Voice));
    BegunGoesOut(begun, b);
    FirstTake(s, begun, b.left);
  }

  lemma FirstTake(s: State, t: State, n: nat)
    requires n > 0 && Enabled(s, Take(Voice)) && Enabled(t, Take(Voice)) && Next(s, Take(Voice)) == Next(t, Take(Voice))
    ensures Play(s, Rounds(n)) == Play(t, Rounds(n))
  {
  }

  // ----- opening -----

  /** What the invalidator does when both queues are empty. */
  function Opening(first: Action): seq<Action> {
    [first, EnterFilter] + ([FilterStep, FilterStep] + ([FilterStep, FilterStep] + [Return]))
  }

  /** Registering an endpoint opens the fence, and after each invalidation it opens again for the next generation. */
  lemma FenceOpens(s: State, first: Action)
    requires s.holder == Free && s.filter == Idle && s.hand == None && s.frame == None && s.restVoice == None
    requires s.voice == [] && s.screen == []
    requires first == Register || (first == Invalidate && s.registered)
    ensures var p := Play(s, Opening(first));
      && p.Some? && Open(p.value.state) && p.value.wire == []
      && p.value.state.registered && p.value.state.screen == []
      && p.value.state.generation == if first == Register then s.generation else NextGeneration(s.generation)
  {
    hide Play;
    var t := Next(Next(s, first), EnterFilter);
    var refilling := t.(filter := Draining(Screen, []));
    assert Next(Next(t, FilterStep), FilterStep) == refilling;
    var done := t.(filter := Idle, holder := Announced);
    assert Next(Next(refilling, FilterStep), FilterStep) == done;
    SilentSteps(s, first, EnterFilter, [FilterStep, FilterStep] + ([FilterStep, FilterStep] + [Return]));
    SilentSteps(t, FilterStep, FilterStep, [FilterStep, FilterStep] + [Return]);
    SilentSteps(refilling, FilterStep, FilterStep, [Return]);
    LastReturn(done);
  }

  lemma LastReturn(s: State)
    requires Enabled(s, Return)
    ensures Play(s, [Return]) == Some(Played(s.(holder := Free), []))
  {
    assert [Return][1..] == [];
    assert OnWire(s, Return) + [] == [];
    assert Play(Next(s, Return), []) == Some(Played(Next(s, Return), []));
  }

  // ----- a full queue -----

  /** Queueing a batch never refuses it: it comes last, what was queued stays in order before it, and only the oldest may
      go, which it must once 64 batches of voice or 32 of screen video wait. */
  lemma QueueingDropsOldest(s: State, lane: Lane, b: Batch, dropped: bool)
    requires |QueueOf(s, lane)| <= if lane == Voice then 64 else 32
    ensures var old', new' := QueueOf(s, lane), QueueOf(Enqueue(s, lane, b, dropped), lane);
      && (new' == old' + [b] || (old' != [] && [old'[0]] + new' == old' + [b]))
      && (new' != old' + [b] ==> dropped || |old'| == if lane == Voice then 64 else 32)
      && |new'| <= if lane == Voice then 64 else 32
  {
    var queue := QueueOf(s, lane);
    if queue != [] {
      assert [queue[0]] + (queue[1..] + [b]) == queue + [b];
    }
  }
}
