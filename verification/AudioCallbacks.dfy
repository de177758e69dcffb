/** Cutting device callbacks into audio frames, and filling device callbacks from frames. */
module AudioCallbacks {
  import opened Options
  import opened Words

  const FRAME: nat := 480
  const CLOCK: nat := 0x1_0000_0000

  type Sample = real

  /** A captured frame. */
  datatype Captured = Captured(
    samples: seq<Sample>,
    reference: seq<Sample>,
    muted: bool,
    referenceValid: bool,
    timestamp: nat,
    generation: uint64)

  // ----- capture, sample by sample -----

  /** What reaches the assembler with one sample: its value, the playback reference, and the flags of its callback. */
  datatype Input = Input(sample: Sample, reference: Sample, muted: bool, referenceValid: bool)

  function Silence(n: nat): seq<Sample> {
    seq(n, _ => 0.0)
  }

  /** The inputs of a callback. A reference of another length is not valid, and reads as silence past its end. */
  function Inputs(samples: seq<Sample>, reference: seq<Sample>, muted: bool): (r: seq<Input>)
    ensures |r| == |samples|
  {
    seq(|samples|, i requires 0 <= i < |samples| =>
      Input(samples[i], if i < |reference| then reference[i] else 0.0, muted, |reference| == |samples|))
  }

  function Values(block: seq<Input>): (r: seq<Sample>)
    ensures |r| == |block|
  {
    seq(|block|, i requires 0 <= i < |block| => block[i].sample)
  }

  function References(block: seq<Input>): (r: seq<Sample>)
    ensures |r| == |block|
  {
    seq(|block|, i requires 0 <= i < |block| => block[i].reference)
  }

  predicate AnyMuted(block: seq<Input>) {
    exists i :: 0 <= i < |block| && block[i].muted
  }

  predicate AllValid(block: seq<Input>) {
    forall i :: 0 <= i < |block| ==> block[i].referenceValid
  }

  /** The frame a block of inputs makes: all zero if any of it was muted. */
  function FrameOf(block: seq<Input>, timestamp: nat, generation: uint64): Captured {
    Captured(if AnyMuted(block) then Silence(|block|) else Values(block), References(block), AnyMuted(block), AllValid(block),
             timestamp, generation)
  }

  /** What the assembler sees of the outside when it begins frame k: whether a slot is free, the
      generation, and what the slot still holds. */
  datatype Outside = Outside(free: nat -> bool, generation: nat -> uint64, stale: nat -> Captured)

  /** Slots are of frame size; what an earlier frame left in them does not matter. */
  ghost predicate GoodOutside(o: Outside) {
    forall k :: |o.stale(k).samples| == FRAME && |o.stale(k).reference| == FRAME
  }

  /** The frames of a stream of inputs: every whole block whose slot was free. */
  function FramesOf(inputs: seq<Input>, outside: Outside, count: nat): seq<Captured>
    requires count * FRAME <= |inputs|
  {
    if count == 0 then []
    else
      var k := count - 1;
      assert k * FRAME <= count * FRAME;
      FramesOf(inputs, outside, k)
      + (if outside.free(k) then [FrameOf(inputs[k * FRAME..count * FRAME], (count * FRAME) % CLOCK, outside.generation(k))] else [])
  }

  /** The blocks of a longer stream begin with those of a shorter one. */
  lemma {:induction false} FramesOfMore(inputs: seq<Input>, more: seq<Input>, outside: Outside, count: nat)
    requires count * FRAME <= |inputs|
    ensures FramesOf(inputs + more, outside, count) == FramesOf(inputs, outside, count)
  {
    if count > 0 {
      FramesOfMore(inputs, more, outside, count - 1);
      assert (inputs + more)[(count - 1) * FRAME..count * FRAME] == inputs[(count - 1) * FRAME..count * FRAME];
    }
  }

  lemma Joined(a: seq<Input>, b: seq<Input>)
    ensures AnyMuted(a + b) == (AnyMuted(a) || AnyMuted(b))
    ensures AllValid(a + b) == (AllValid(a) && AllValid(b))
    ensures Values(a + b) == Values(a) + Values(b) && References(a + b) == References(a) + References(b)
  {
    if AnyMuted(a) {
      var i :| 0 <= i < |a| && a[i].muted;
      assert (a + b)[i].muted;
    }
    if AnyMuted(b) {
      var i :| 0 <= i < |b| && b[i].muted;
      assert (a + b)[|a| + i].muted;
    }
    if AllValid(a + b) {
      forall i | 0 <= i < |b|
        ensures b[i].referenceValid
      {
        assert (a + b)[|a| + i].referenceValid;
      }
      forall i | 0 <= i < |a|
        ensures a[i].referenceValid
      {
        assert (a + b)[i].referenceValid;
      }
    }
  }

  /** Inputs of one callback share their flags. */
  predicate Uniform(b: seq<Input>, muted: bool, valid: bool) {
    b != [] && forall i :: 0 <= i < |b| ==> b[i].muted == muted && b[i].referenceValid == valid
  }

  lemma UniformFlags(b: seq<Input>, muted: bool, valid: bool)
    requires Uniform(b, muted, valid)
    ensures AnyMuted(b) == muted && AllValid(b) == valid
  {
    assert b[0].muted == muted && b[0].referenceValid == valid;
  }

  /** A buffer with some of it overwritten. */
  function Overwrite(buffer: seq<Sample>, offset: nat, data: seq<Sample>): (r: seq<Sample>)
    requires offset + |data| <= |buffer|
    ensures |r| == |buffer| && r[..offset + |data|] == buffer[..offset] + data
  {
    buffer[..offset] + data + buffer[offset + |data|..]
  }

  // ----- the assembler -----

  class CaptureAssembler {
    const outside: Outside
    var begun: nat
    var slot: Option<Captured>
    var frameOffset: nat
    var dropFrame: bool
    var silentFrame: bool
    var referenceValid: bool
    var sampleClock: nat
    var frames: seq<Captured>
    ghost var inputs: seq<Input>

    constructor (outside: Outside)
      requires GoodOutside(outside)
      ensures Valid() && inputs == [] && frames == [] && this.outside == outside
    {
      this.outside := outside;
      begun, slot, frameOffset, dropFrame, silentFrame, referenceValid, sampleClock := 0, None, 0, false, false, false, 0;
      frames, inputs := [], [];
    }

    /** The part of the current frame received so far. */
    ghost function Partial(): seq<Input>
      reads this
      requires frameOffset <= |inputs|
    {
      inputs[|inputs| - frameOffset..]
    }

    /** The slot holds the samples of an unmuted part and always the reference. */
    ghost predicate Filled(part: seq<Input>)
      reads `frameOffset, `dropFrame, `silentFrame, `referenceValid, `slot
    {
      && |part| == frameOffset <= FRAME
      && dropFrame == slot.None?
      && silentFrame == AnyMuted(part) && referenceValid == AllValid(part)
      && (slot.Some? ==>
            && |slot.value.samples| == FRAME && |slot.value.reference| == FRAME
            && slot.value.reference[..frameOffset] == References(part)
            && (!silentFrame ==> slot.value.samples[..frameOffset] == Values(part)))
    }

    /** A frame has just begun. */
    predicate NewFrame(muted: bool)
      reads `dropFrame, `silentFrame, `referenceValid, `slot
    {
      && dropFrame == slot.None? && silentFrame == muted && referenceValid
      && (slot.Some? ==> |slot.value.samples| == FRAME && |slot.value.reference| == FRAME)
    }

    /** The frame begun has this number. */
    ghost predicate Begun(k: nat)
      reads `begun, `slot
    {
      begun == k + 1 && slot.Some? == outside.free(k) && (slot.Some? ==> slot.value.generation == outside.generation(k))
    }

    ghost predicate Valid()
      reads this
    {
      && GoodOutside(outside)
      && frameOffset < FRAME
      && |inputs| == Whole() * FRAME + frameOffset
      && sampleClock == |inputs| % CLOCK
      && frames == FramesOf(inputs, outside, Whole())
      && (frameOffset == 0 ==> begun == Whole())
      && (frameOffset > 0 ==> Begun(Whole()) && Filled(Partial()))
    }

    ghost function Whole(): nat
      reads this
    {
      |inputs| / FRAME
    }

    /** Begin a frame: take a slot if one is free. */
    method BeginFrame(muted: bool)
      requires Valid() && frameOffset == 0
      modifies this`slot, this`dropFrame, this`silentFrame, this`referenceValid, this`begun
      ensures begun == old(begun) + 1 && Begun(old(begun))
      ensures NewFrame(muted)
    {
      slot := None;
      if outside.free(begun) {
        slot := Some(outside.stale(begun).(generation := outside.generation(begun)));
      }
      dropFrame := slot.None?;
      silentFrame := muted;
      referenceValid := true;
      begun := begun + 1;
    }

    /** Publish a full frame, silent if any of it was muted. */
    method CommitFrame(ghost part: seq<Input>, ghost k: nat)
      requires frameOffset == FRAME && Filled(part) && Begun(k)
      modifies this`frames, this`slot, this`frameOffset
      ensures frameOffset == 0
      ensures frames == old(frames) + (if outside.free(k) then [FrameOf(part, sampleClock, outside.generation(k))] else [])
    {
      if !dropFrame {
        var samples := if silentFrame then Silence(FRAME) else slot.value.samples;
        assert slot.value.samples[..FRAME] == slot.value.samples && slot.value.reference[..FRAME] == slot.value.reference;
        frames := frames + [slot.value.(samples := samples, muted := silentFrame, referenceValid := referenceValid, timestamp := sampleClock)];
      }
      slot := None;
      frameOffset := 0;
    }

    /** Copy the next samples of a callback into the slot; a part of the frame once muted need not be copied. */
    method CopyPart(samples: seq<Sample>, reference: seq<Sample>, muted: bool, valid: bool, ghost part: seq<Input>, ghost more: seq<Input>)
      requires |part| == frameOffset && |samples| == |more| && frameOffset + |more| <= FRAME && |reference| <= |samples|
      requires frameOffset > 0 ==> Filled(part)
      requires frameOffset == 0 ==> NewFrame(muted)
      requires Uniform(more, muted, valid) && Values(more) == samples && References(more) == reference + Silence(|samples| - |reference|)
      requires |reference| < |samples| ==> !valid
      modifies this`slot, this`frameOffset, this`silentFrame, this`referenceValid
      ensures Filled(part + more) && frameOffset == old(frameOffset) + |more|
      ensures forall k :: old(Begun(k)) ==> Begun(k)
    {
      Joined(part, more);
      UniformFlags(more, muted, valid);
      if muted {
        silentFrame := true;
      }
      if !valid {
        referenceValid := false;
      }
      if |reference| < |samples| {
        referenceValid := false;
      }
      if !dropFrame {
        if !silentFrame {
          slot := Some(slot.value.(samples := Overwrite(slot.value.samples, frameOffset, samples)));
        }
        var padded := reference + Silence(|samples| - |reference|);
        slot := Some(slot.value.(reference := Overwrite(slot.value.reference, frameOffset, padded)));
      }
      frameOffset := frameOffset + |samples|;
    }

    /** The next part of a callback, no longer than what the current frame lacks. */
    method TakePart(samples: seq<Sample>, reference: seq<Sample>, muted: bool, valid: bool, ghost more: seq<Input>)
      requires Valid() && |samples| == |more| && frameOffset + |more| <= FRAME && |reference| <= |samples|
      requires Uniform(more, muted, valid) && Values(more) == samples && References(more) == reference + Silence(|samples| - |reference|)
      requires |reference| < |samples| ==> !valid
      modifies this
      ensures Valid() && inputs == old(inputs) + more
    {
      hide Filled, Begun, NewFrame, FramesOf, FrameOf, GoodOutside, Values, References, Silence;
      ghost var k := Whole();
      ghost var part := Partial();
      assert part == inputs[k * FRAME..];
      if frameOffset == 0 {
        BeginFrame(muted);
      }
      assert Begun(k);
      CopyPart(samples, reference, muted, valid, part, more);
      Settle(|samples|, part, more, k);
    }

    /** The part is in the slot: advance the clock, and publish the frame if it is full. */
    method Settle(count: nat, ghost part: seq<Input>, ghost more: seq<Input>, ghost k: nat)
      requires GoodOutside(outside) && count == |more| && |part| < |part + more| == frameOffset <= FRAME
      requires Filled(part + more) && Begun(k)
      requires |inputs| == k * FRAME + |part| && part == inputs[k * FRAME..]
      requires frames == FramesOf(inputs, outside, k) && sampleClock == |inputs| % CLOCK
      modifies this`sampleClock, this`inputs, this`frames, this`slot, this`frameOffset
      ensures Valid() && inputs == old(inputs) + more
    {
      hide Filled, FramesOf, FrameOf, GoodOutside;
      ghost var whole := part + more;
      ClockAdds(|inputs|, count);
      FramesOfMore(inputs, more, outside, k);
      WholeFrames(k, frameOffset);
      inputs := inputs + more;
      sampleClock := (sampleClock + count) % CLOCK;
      assert inputs[k * FRAME..] == whole;
      if frameOffset == FRAME {
        FramesOfNext(inputs, outside, k, whole);
        CommitFrame(whole, k);
      }
    }

    lemma ValidOffset()
      requires Valid()
      ensures frameOffset < FRAME
    {
    }

    /** One device callback. */
    method Write(samples: seq<Sample>, reference: seq<Sample>, muted: bool)
      requires Valid()
      modifies this
      ensures Valid() && inputs == old(inputs) + Inputs(samples, reference, muted)
    {
      hide Valid, Inputs, Values, References, Uniform, Silence;
      ValidOffset();
      var valid := |reference| == |samples|;
      ghost var total := Inputs(samples, reference, muted);
      var done := 0;
      while done < |samples|
        invariant done <= |samples|
        invariant Valid() && frameOffset < FRAME && inputs == old(inputs) + total[..done]
      {
        var count := if |samples| - done < FRAME - frameOffset then |samples| - done else FRAME - frameOffset;
        var from := if done < |reference| then done else |reference|;
        var to := if done + count < |reference| then done + count else |reference|;
        ghost var more := total[done..done + count];
        CallbackPart(samples, reference, muted, done, count);
        TakePart(samples[done..done + count], reference[from..to], muted, valid, more);
        assert total[..done] + more == total[..done + count];
        done := done + count;
        ValidOffset();
      }
      assert total[..done] == total;
    }
  }

  lemma InputAt(samples: seq<Sample>, reference: seq<Sample>, muted: bool, i: nat)
    requires i < |samples|
    ensures Inputs(samples, reference, muted)[i]
         == Input(samples[i], if i < |reference| then reference[i] else 0.0, muted, |reference| == |samples|)
  {
  }

  lemma PartAt(block: seq<Input>, done: nat, count: nat, j: nat)
    requires done + count <= |block| && j < count
    ensures block[done..done + count][j] == block[done + j]
    ensures Values(block[done..done + count])[j] == block[done + j].sample
    ensures References(block[done..done + count])[j] == block[done + j].reference
  {
  }

  lemma PaddedAt(reference: seq<Sample>, done: nat, count: nat, j: nat)
    requires j < count
    ensures var from := if done < |reference| then done else |reference|;
      var to := if done + count < |reference| then done + count else |reference|;
      (reference[from..to] + Silence(count - (to - from)))[j] == if done + j < |reference| then reference[done + j] else 0.0
  {
  }

  /** A stretch of a callback: its inputs, its samples, and its reference padded with silence. */
  lemma CallbackPart(samples: seq<Sample>, reference: seq<Sample>, muted: bool, done: nat, count: nat)
    requires 0 < count && done + count <= |samples|
    ensures var more := Inputs(samples, reference, muted)[done..done + count];
      var from := if done < |reference| then done else |reference|;
      var to := if done + count < |reference| then done + count else |reference|;
      && Uniform(more, muted, |reference| == |samples|) && Values(more) == samples[done..done + count]
      && References(more) == reference[from..to] + Silence(count - (to - from))
      && (to - from < count ==> |reference| != |samples|)
  {
    hide Inputs, Values, References;
    var all := Inputs(samples, reference, muted);
    var more := all[done..done + count];
    var from := if done < |reference| then done else |reference|;
    var to := if done + count < |reference| then done + count else |reference|;
    var padded := reference[from..to] + Silence(count - (to - from));
    forall j: nat | j < count
      ensures more[j] == all[done + j] && Values(more)[j] == samples[done + j]
    {
      PartAt(all, done, count, j);
      InputAt(samples, reference, muted, done + j);
    }
    forall j: nat | j < count
      ensures References(more)[j] == padded[j]
    {
      PartAt(all, done, count, j);
      InputAt(samples, reference, muted, done + j);
      PaddedAt(reference, done, count, j);
    }
    forall j: nat | j < count
      ensures more[j].muted == muted && more[j].referenceValid == (|reference| == |samples|)
    {
      PartAt(all, done, count, j);
      InputAt(samples, reference, muted, done + j);
    }
    assert References(more) == padded;
    assert Values(more) == samples[done..done + count];
  }

  lemma WholeFrames(k: nat, offset: nat)
    requires offset <= FRAME
    ensures (k * FRAME + offset) / FRAME == if offset == FRAME then k + 1 else k
  {
  }

  lemma FramesOfNext(inputs: seq<Input>, outside: Outside, k: nat, block: seq<Input>)
    requires |inputs| == (k + 1) * FRAME && |block| == FRAME && block == inputs[|inputs| - FRAME..]
    ensures FramesOf(inputs, outside, k + 1) == FramesOf(inputs, outside, k)
      + (if outside.free(k) then [FrameOf(block, |inputs| % CLOCK, outside.generation(k))] else [])
  {
    assert inputs[k * FRAME..(k + 1) * FRAME] == block;
  }

  lemma ClockAdds(a: nat, b: nat)
    ensures (a % CLOCK + b) % CLOCK == (a + b) % CLOCK
  {
  }

  // ----- whole captures -----

  datatype Callback = Callback(samples: seq<Sample>, reference: seq<Sample>, muted: bool)

  /** The inputs of callbacks in a row. */
  function StreamOf(callbacks: seq<Callback>): seq<Input> {
    if callbacks == [] then []
    else
      var last := callbacks[|callbacks| - 1];
      StreamOf(callbacks[..|callbacks| - 1]) + Inputs(last.samples, last.reference, last.muted)
  }

  lemma {:induction false} StreamJoins(a: seq<Callback>, b: seq<Callback>)
    ensures StreamOf(a + b) == StreamOf(a) + StreamOf(b)
  {
    hide Inputs;
    if b == [] {
      assert a + b == a;
    } else {
      var n := |b| - 1;
      assert (a + b)[..|a| + n] == a + b[..n];
      StreamJoins(a, b[..n]);
    }
  }

  /** A callback whose reference is as long as its samples may be cut in two anywhere: the stream, hence every frame, is
      the same. */
  lemma CutsDoNotMatter(before: seq<Callback>, c: Callback, at: nat, after: seq<Callback>)
    requires |c.reference| == |c.samples| && at <= |c.samples|
    ensures var front, back := Callback(c.samples[..at], c.reference[..at], c.muted), Callback(c.samples[at..], c.reference[at..], c.muted);
      StreamOf(before + [c] + after) == StreamOf(before + [front, back] + after)
  {
    hide StreamOf, Inputs;
    var front, back := Callback(c.samples[..at], c.reference[..at], c.muted), Callback(c.samples[at..], c.reference[at..], c.muted);
    StreamJoins(before + [c], after);
    StreamJoins(before, [c]);
    StreamJoins(before + [front, back], after);
    StreamJoins(before, [front, back]);
    OneStream(c);
    OneStream(front);
    OneStream(back);
    StreamJoins([front], [back]);
    assert [front] + [back] == [front, back];
    InputsCut(c.samples, c.reference, c.muted, at);
  }

  lemma InputsCut(samples: seq<Sample>, reference: seq<Sample>, muted: bool, at: nat)
    requires |reference| == |samples| && at <= |samples|
    ensures Inputs(samples, reference, muted) == Inputs(samples[..at], reference[..at], muted) + Inputs(samples[at..], reference[at..], muted)
  {
  }

  lemma OneStream(c: Callback)
    ensures StreamOf([c]) == Inputs(c.samples, c.reference, c.muted)
  {
    assert [c][..0] == [];
    assert StreamOf([]) == [];
  }

  /** Any number of callbacks publishes the frames of their stream and no others. */
  method Capture(callbacks: seq<Callback>, outside: Outside) returns (frames: seq<Captured>)
    requires GoodOutside(outside)
    ensures (|StreamOf(callbacks)| / FRAME) * FRAME <= |StreamOf(callbacks)|
    ensures frames == FramesOf(StreamOf(callbacks), outside, |StreamOf(callbacks)| / FRAME)
  {
    var assembler := new CaptureAssembler(outside);
    for i := 0 to |callbacks|
      invariant fresh(assembler) && assembler.Valid() && assembler.outside == outside && assembler.inputs == StreamOf(callbacks[..i])
    {
      assembler.Write(callbacks[i].samples, callbacks[i].reference, callbacks[i].muted);
      assert callbacks[..i + 1][..i] == callbacks[..i];
    }
    assert callbacks[..|callbacks|] == callbacks;
    frames := assembler.frames;
  }

  /** Every published frame is a whole block; it is all zero, and says so, exactly when any input of it was muted,
      and otherwise holds the samples as they came. */
  lemma {:induction false} FramesAreBlocks(inputs: seq<Input>, outside: Outside, count: nat, i: nat)
    requires count * FRAME <= |inputs| && i < |FramesOf(inputs, outside, count)|
    ensures exists k :: 0 <= k < count && outside.free(k) && IsBlock(FramesOf(inputs, outside, count)[i], inputs, k, outside)
    decreases count
  {
    var k := count - 1;
    assert k * FRAME <= count * FRAME;
    if i < |FramesOf(inputs, outside, k)| {
      FramesAreBlocks(inputs, outside, k, i);
    } else {
      assert IsBlock(FramesOf(inputs, outside, count)[i], inputs, k, outside);
    }
  }

  ghost predicate IsBlock(f: Captured, inputs: seq<Input>, k: nat, outside: Outside) {
    && (k + 1) * FRAME <= |inputs|
    && var block := inputs[k * FRAME..(k + 1) * FRAME];
      && |f.samples| == FRAME && f.muted == AnyMuted(block) && f.referenceValid == AllValid(block)
      && f.reference == References(block) && f.generation == outside.generation(k)
      && forall j :: 0 <= j < FRAME ==> f.samples[j] == if f.muted then 0.0 else block[j].sample
  }
}
