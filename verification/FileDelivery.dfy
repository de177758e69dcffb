/** A run that delivers: every file that can be offered can be sent, chunk by chunk, until both ends have completed. */
module FileDelivery {
  import opened Options
  import opened Bytes
  import opened FileMessages
  import opened FileTransfers
  import opened FileAgreement
  import opened FileRuns
  import opened FileProgress

  /** A run of two ends, as far as it has come. */
  datatype Story = Story(steps: seq<Step>, worlds: seq<World>)

  ghost predicate Told(s: Story, source: TransferId -> bytes, env: Setting) {
    s.worlds != [] && HelpfulRun(s.steps, s.worlds, source, env)
  }

  ghost function Now(s: Story): World
    requires s.worlds != []
  {
    s.worlds[|s.worlds| - 1]
  }

  lemma Extended(s: Story, step: Step, source: TransferId -> bytes, env: Setting) returns (r: Story)
    requires Told(s, source, env) && Helpful(step.action, source, env)
    ensures Told(r, source, env) && |r.worlds| == |s.worlds| + 1
    ensures Now(r) == Next(Now(s), step, source, env)
  {
    hide Next, Helpful;
    r := Story(s.steps + [step], s.worlds + [Next(Now(s), step, source, env)]);
  }

  /** The file goes from a to b: the sender is there, the receiver here, and both have heard all that was said. */
  ghost predicate Between(w: World, id: TransferId, s: Status, r: Status, sent: nat, received: nat) {
    && id in w.a.p.transfers && w.a.p.transfers[id].outgoing && w.a.p.transfers[id].status == s && w.a.p.transfers[id].transferred == sent
    && id in w.b.p.transfers && w.b.p.transfers[id].status == r && w.b.p.transfers[id].transferred == received
  }

  ghost predicate AllHeard(w: World) {
    w.b.heard == |w.a.p.controls| && w.a.heard == |w.b.p.controls|
  }

  /** The sender is about to read the chunk at an offset, and the receiver is idle. */
  ghost predicate Reading(w: World, id: TransferId, offset: nat) {
    && Between(w, id, Transferring, Transferring, offset, offset)
    && AllHeard(w)
  }

  lemma ViewNow(w: World, id: TransferId, source: TransferId -> bytes, env: Setting) returns (v: View)
    requires AllFlow(w.a, w.b, source, env) && id in w.a.p.transfers && w.a.p.transfers[id].outgoing && id in w.b.p.transfers
    ensures w.b.heard <= |w.a.p.controls| && w.a.heard <= |w.b.p.controls|
    ensures v == ViewOf(w.a, w.b, id) && Agree(id, v, source(id), env) && Flowing(v, source(id), env)
    ensures v.s == w.a.p.transfers[id] && v.r == Some(w.b.p.transfers[id])
    ensures v.sj == JobOf(w.a.p, id) && v.rj == JobOf(w.b.p, id)
  {
    hide Agree, Of, Loose, Unused, Flowing, AllSettled;
    WayOf(w.a, w.b, id, source, env);
    v := ViewOf(w.a, w.b, id);
  }

  /** The sender reads a chunk and queues it. */
  lemma ReadStep(w: World, id: TransferId, offset: nat, now: int, source: TransferId -> bytes, env: Setting)
    requires AllFlow(w.a, w.b, source, env) && Reading(w, id, offset)
    ensures offset < |source(id)|
    ensures var z := Next(w, Step(true, Works(id, true, [], now)), source, env);
      && Between(z, id, Waiting, Transferring, offset, offset) && AllHeard(z)
      && |z.a.p.data| == |w.a.p.data| + 1 && z.a.p.data[|w.a.p.data|].id == id && |w.a.p.data| !in z.b.got
  {
    var v := ViewNow(w, id, source, env);
    hide Of, Loose, Unused, Flowing, AllSettled, FlowsFrom, GoodReceiver, GoodUp, GoodChunks, GoodDown;
    var d := DeskOf(w.a.p, id);
    var data := ChunkAt(source(id), offset);
    assert Perform(v.sj.value, true, source(id), FileOf(w.a, id), [], env).0 == HasRead(data);
    ReadDesk(d, id, data, now, env);
  }

  lemma ReadDesk(d: Desk, id: TransferId, data: bytes, now: int, env: Setting)
    requires d.t.status == Transferring && d.refusals == {} && d.told == [] && d.sent == []
    ensures var e := OnReport(d, id, HasRead(data), now, env);
      && e.t == d.t.(status := Waiting, updatedAt := now, working := false)
      && e.told == [] && e.sent == [data]
  {
  }

  /** The receiver takes the chunk under way. */
  lemma ChunkStep(w: World, id: TransferId, offset: nat, i: nat, source: TransferId -> bytes, env: Setting)
    requires AllFlow(w.a, w.b, source, env) && Between(w, id, Waiting, Transferring, offset, offset) && AllHeard(w)
    requires i < |w.a.p.data| && w.a.p.data[i].id == id && i !in w.b.got
    ensures var z := Next(w, Step(false, HearsChunk(i)), source, env);
      Between(z, id, Waiting, Transferring, offset, offset) && AllHeard(z) && JobOf(z.b.p, id).Some? && z.a == w.a
  {
    var v := ViewNow(w, id, source, env);
    hide Of, Loose, Unused, Flowing, AllSettled, FlowsFrom, Agree;
    LooseTaken(w.a.p.data, w.b.got, i, id);
    ReceiverTakesChunk(id, v, source(id), env, DeskOf(w.b.p, id), i);
    ChunkIsLive(v, source(id), env);
  }

  lemma ChunkIsLive(v: View, source: bytes, env: Setting)
    requires Flowing(v, source, env) && v.r.Some?
    ensures !Dead(v.r.value.status)
  {
  }

  function After(offset: nat, size: nat): nat {
    offset + Advance(size, offset)
  }

  /** The receiver's worker writes the chunk: the acknowledgment goes out, or after the last chunk the file is closed. */
  lemma WriteStep(w: World, id: TransferId, offset: nat, now: int, source: TransferId -> bytes, env: Setting)
    requires AllFlow(w.a, w.b, source, env) && Between(w, id, Waiting, Transferring, offset, offset) && AllHeard(w)
    requires JobOf(w.b.p, id).Some? && source(id) != []
    ensures offset < |source(id)|
    ensures var z := Next(w, Step(false, Works(id, true, [], now)), source, env);
      && z.a == w.a
      && Between(z, id, Waiting, Transferring, offset, After(offset, |source(id)|))
      && (if After(offset, |source(id)|) == |source(id)| then AllHeard(z) && JobOf(z.b.p, id) == Some(Sync) else Acknowledged(z, id))
  {
    var v := ViewNow(w, id, source, env);
    hide Of, Loose, Unused, Flowing, AllSettled, FlowsFrom, Agree, WriteAt, OnReport, Advance, Next, Perform;
    WorkAtB(w, id, now, source, env);
    var e := WriteReport(v, id, offset, DeskOf(w.b.p, id), now, source(id), env);
  }

  lemma WriteReport(v: View, id: TransferId, offset: nat, d: Desk, now: int, source: bytes, env: Setting) returns (e: Desk)
    requires Agree(id, v, source, env) && v.r.Some? && v.r.value.status == Transferring && v.rj.Some?
    requires v.s.status == Waiting && v.s.transferred == offset && v.r.value.transferred == offset && source != []
    requires FreshDesk(d, v.r.value, v.rj) && d.refusals == {}
    ensures offset < |source|
    ensures e == OnReport(d, id, Perform(v.rj.value, true, source, v.disk, [], env).0, now, env)
    ensures e.t.status == Transferring && e.t.outgoing == d.t.outgoing && e.t.transferred == After(offset, |source|)
    ensures if e.t.transferred == |source| then e.told == [] && e.job == Some(Sync) else e.told == [DataAck(id)]
  {
    hide Agree, OnReport, WriteAt;
    WriteJob(v, id, offset, source, env);
    e := OnReport(d, id, Written(ChunkAt(source, offset)), now, env);
    WriteDesk(d, id, ChunkAt(source, offset), source, now, env);
  }

  /** What the report of a worker at b does. */
  lemma WorkAtB(w: World, id: TransferId, now: int, source: TransferId -> bytes, env: Setting)
    requires id in w.b.p.transfers && JobOf(w.b.p, id).Some?
    ensures var z := Next(w, Step(false, Works(id, true, [], now)), source, env);
      var e := OnReport(DeskOf(w.b.p, id), id, Perform(JobOf(w.b.p, id).value, true, source(id), FileOf(w.b, id), [], env).0, now, env);
      && z.a == w.a && z.b.heard == w.b.heard && id in z.b.p.transfers && z.b.p.transfers[id] == e.t
      && JobOf(z.b.p, id) == e.job && z.b.p.controls == w.b.p.controls + e.told
  {
    hide OnReport, Perform;
  }

  /** One acknowledgment is all that the sender has not heard. */
  ghost predicate Acknowledged(w: World, id: TransferId) {
    && w.b.heard == |w.a.p.controls|
    && w.a.heard + 1 == |w.b.p.controls| && w.b.p.controls[w.a.heard] == DataAck(id)
  }

  lemma WriteJob(v: View, id: TransferId, offset: nat, source: bytes, env: Setting)
    requires Agree(id, v, source, env) && v.r.Some? && v.r.value.status == Transferring && v.rj.Some?
    requires v.s.status == Waiting && v.s.transferred == offset && v.r.value.transferred == offset && source != []
    ensures offset < |source| && v.rj == Some(Job.Write(offset, ChunkAt(source, offset)))
    ensures v.r.value.hashed == source[..offset] && v.r.value.size == |source| && v.r.value.digest == env.hash(source)
  {
    hide GoodDown, GoodChunks, ChunkAt;
  }

  lemma WriteDesk(d: Desk, id: TransferId, data: bytes, source: bytes, now: int, env: Setting)
    requires d.t.status == Transferring && d.refusals == {} && d.told == [] && d.t.transferred + |data| <= |source|
    requires d.t.hashed == source[..d.t.transferred] && d.t.size == |source| && d.t.digest == env.hash(source)
    requires data == source[d.t.transferred..d.t.transferred + |data|]
    ensures var e := OnReport(d, id, Written(data), now, env);
      && e.t.status == Transferring && e.t.outgoing == d.t.outgoing && e.t.transferred == d.t.transferred + |data|
      && (if e.t.transferred == |source| then e.told == [] && e.job == Some(Sync) else e.told == [DataAck(id)])
  {
    assert d.t.hashed + data == source[..d.t.transferred + |data|];
    assert source[..|source|] == source;
  }

  /** The receiver's worker closes the file: the receiver has completed. */
  lemma SyncStep(w: World, id: TransferId, sent: nat, received: nat, s: Status, now: int, source: TransferId -> bytes, env: Setting)
    requires AllFlow(w.a, w.b, source, env) && Between(w, id, s, Transferring, sent, received)
    requires JobOf(w.b.p, id) == Some(Sync)
    ensures var z := Next(w, Step(false, Works(id, true, [], now)), source, env);
      && Between(z, id, s, Completed, sent, received)
      && z.b.p.controls == w.b.p.controls + [DataAck(id)] && z.a == w.a && z.b.heard == w.b.heard
  {
    hide Of, Loose, Unused, Flowing, AllSettled, FlowsFrom, Agree, Next;
    WorkAtB(w, id, now, source, env);
  }

  /** The sender hears an acknowledgment: it has completed, or is about to read the next chunk. */
  lemma AckStep(w: World, id: TransferId, offset: nat, r: Status, now: int, source: TransferId -> bytes, env: Setting)
    requires AllFlow(w.a, w.b, source, env) && Between(w, id, Waiting, r, offset, After(offset, |source(id)|))
    requires Acknowledged(w, id)
    ensures var z := Next(w, Step(true, HearsControl(now)), source, env);
      && AllHeard(z) && z.a.p.data == w.a.p.data
      && Between(z, id, if After(offset, |source(id)|) == |source(id)| then Completed else Transferring, r,
                 After(offset, |source(id)|), After(offset, |source(id)|))
  {
    var v := ViewNow(w, id, source, env);
    hide Of, Loose, Unused, Flowing, AllSettled, FlowsFrom, Agree;
    WaitingDescribes(id, v, source(id), env);
    var e := OnControl(DeskOf(w.a.p, id), DataAck(id), now);
    AckDesk(DeskOf(w.a.p, id), id, |source(id)|, now);
    hide OnControl, Advance;
  }

  lemma WaitingDescribes(id: TransferId, v: View, source: bytes, env: Setting)
    requires Agree(id, v, source, env) && v.s.status == Waiting
    ensures v.s.outgoing && v.s.size == |source| && !v.s.working && v.s.transferred <= |source|
  {
    hide GoodUp, GoodDown, GoodChunks, GoodReceiver, Advance;
  }

  lemma AckDesk(d: Desk, id: TransferId, size: nat, now: int)
    requires d.t.outgoing && d.t.status == Waiting && d.t.size == size && !d.t.working && d.t.transferred <= size && d.told == [] && d.sent == []
    ensures var e := OnControl(d, DataAck(id), now);
      && e.t.outgoing && e.told == [] && e.sent == []
      && e.t.transferred == After(d.t.transferred, size)
      && e.t.status == if e.t.transferred == size then Completed else Transferring
  {
  }

  /** The chunk at an offset goes over and is acknowledged. */
  lemma OneChunkOver(s: Story, id: TransferId, offset: nat, now: int, source: TransferId -> bytes, env: Setting) returns (r: Story)
    requires Told(s, source, env) && Reading(Now(s), id, offset)
    ensures Told(r, source, env) && AllHeard(Now(r)) && |Now(r).a.p.data| == |Now(s).a.p.data| + 1
    ensures offset < |source(id)|
    ensures var after, size := After(offset, |source(id)|), |source(id)|;
      Between(Now(r), id, if after == size then Completed else Transferring, if after == size then Completed else Transferring, after, after)
  {
    hide Next, HelpfulRun, AllFlow, Between, Advance;
    var i := |Now(s).a.p.data|;
    FlowsNow(s, source, env);
    ReadStep(Now(s), id, offset, now, source, env);
    r := Extended(s, Step(true, Works(id, true, [], now)), source, env);
    FlowsNow(r, source, env);
    ChunkStep(Now(r), id, offset, i, source, env);
    r := Extended(r, Step(false, HearsChunk(i)), source, env);
    FlowsNow(r, source, env);
    WriteStep(Now(r), id, offset, now, source, env);
    r := Extended(r, Step(false, Works(id, true, [], now)), source, env);
    FlowsNow(r, source, env);
    var done := After(offset, |source(id)|) == |source(id)|;
    if done {
      SyncStep(Now(r), id, offset, |source(id)|, Waiting, now, source, env);
      r := Extended(r, Step(false, Works(id, true, [], now)), source, env);
      FlowsNow(r, source, env);
    }
    AckStep(Now(r), id, offset, if done then Completed else Transferring, now, source, env);
    r := Extended(r, Step(true, HearsControl(now)), source, env);
  }

  lemma FlowsNow(s: Story, source: TransferId -> bytes, env: Setting)
    requires Told(s, source, env)
    ensures AllFlow(Now(s).a, Now(s).b, source, env)
  {
    EveryStateFlows(s.steps, s.worlds, source, env, |s.worlds| - 1);
  }

  /** The rest of a file goes over, chunk by chunk. */
  lemma {:induction false} RestGoesOver(s: Story, id: TransferId, offset: nat, now: int, source: TransferId -> bytes, env: Setting)
    returns (r: Story)
    requires Told(s, source, env) && Reading(Now(s), id, offset) && offset == CHUNK * |Now(s).a.p.data|
    ensures Told(r, source, env) && Between(Now(r), id, Completed, Completed, |source(id)|, |source(id)|)
    ensures CHUNK * (|Now(r).a.p.data| - 1) < |source(id)| <= CHUNK * |Now(r).a.p.data|
    decreases |source(id)| - offset
  {
    hide HelpfulRun;
    r := OneChunkOver(s, id, offset, now, source, env);
    if After(offset, |source(id)|) < |source(id)| {
      r := RestGoesOver(r, id, offset + CHUNK, now, source, env);
    }
  }

  // ----- the beginning -----

  /** The records of one end that holds a single transfer. */
  function Only(id: TransferId, t: Transfer, job: Option<Job>, controls: seq<Control>, attempts: nat): Party {
    Party(map[id := t], map[], if job.Some? then map[id := job.value] else map[], controls, [], attempts, {}, 0, 0)
  }

  lemma NothingActive()
    ensures ActiveIds(map[]) == {} && !Offering(map[]) && !Receiving(map[])
  {
  }

  /** A file is offered and measured, and the receiver has the offer. */
  lemma OfferIsMade(id: TransferId, name: bytes, now: int, source: TransferId -> bytes, env: Setting) returns (s: Story)
    requires Offerable(name, source(id), env)
    ensures Told(s, source, env)
    ensures var offer := Offer(id, name, |source(id)|, env.hash(source(id)));
      && Now(s).a == Site(Only(id, NewTransfer(true, name, Offered, |source(id)|, env.hash(source(id)), false, now), None, [offer], 1),
                          0, {}, map[id := []])
      && Now(s).b == Site(Only(id, NewTransfer(false, name, Offered, |source(id)|, env.hash(source(id)), false, now), None, [], 0), 1, {}, map[])
  {
    NothingActive();
    var w := World(NewSite({}), NewSite({}));
    s := Story([], [w]);
    assert Told(s, source, env);
    hide HelpfulRun, ActiveIds;
    var offered := World(Site(Only(id, NewTransfer(true, name, Preparing, 0, NO_DIGEST, true, now), Some(Measure), [], 0), 0, {}, map[]), w.b);
    assert Next(w, Step(true, Offers(id, name, now)), source, env) == offered;
    s := Extended(s, Step(true, Offers(id, name, now)), source, env);
    var t := NewTransfer(true, name, Offered, |source(id)|, env.hash(source(id)), false, now);
    var offer := Offer(id, name, |source(id)|, env.hash(source(id)));
    var measured := World(Site(Only(id, t, None, [offer], 1), 0, {}, map[id := []]), w.b);
    assert Next(offered, Step(true, Works(id, true, [], now)), source, env) == measured;
    s := Extended(s, Step(true, Works(id, true, [], now)), source, env);
    s := Extended(s, Step(false, HearsControl(now)), source, env);
  }

  /** The user accepts an offer while nothing else is being received. */
  lemma OfferIsAccepted(s: Story, id: TransferId, now: int, source: TransferId -> bytes, env: Setting) returns (r: Story)
    requires Told(s, source, env) && Between(Now(s), id, Offered, Offered, 0, 0) && AllHeard(Now(s))
    requires Now(s).b.p.transfers.Keys == {id}
    ensures Told(r, source, env) && Between(Now(r), id, Offered, Accepting, 0, 0) && AllHeard(Now(r))
    ensures Now(r).a == Now(s).a
  {
    FlowsNow(s, source, env);
    var v := ViewNow(Now(s), id, source, env);
    hide HelpfulRun, Agree, Flowing, AllFlow;
    ReceiverIsIncoming(id, v, source(id), env);
    r := Extended(s, Step(false, UserAccepts(id, now)), source, env);
  }

  lemma ReceiverIsIncoming(id: TransferId, v: View, source: bytes, env: Setting)
    requires Agree(id, v, source, env) && v.r.Some?
    ensures !v.r.value.outgoing
    ensures v.r.value.status == Accepting ==> v.rj == Some(Create) && v.r.value.size == |source| && v.r.value.digest == env.hash(source)
  {
    hide GoodSender, GoodDown, GoodUp, GoodChunks, ChunkAt, Writing;
  }

  /** The receiver's worker creates the file, the receiver says so, and the sender hears it. */
  lemma FileIsCreated(s: Story, id: TransferId, now: int, source: TransferId -> bytes, env: Setting) returns (r: Story)
    requires Told(s, source, env) && Between(Now(s), id, Offered, Accepting, 0, 0) && AllHeard(Now(s))
    ensures Told(r, source, env) && AllHeard(Now(r)) && Now(r).a.p.data == Now(s).a.p.data
    ensures Between(Now(r), id, if source(id) == [] then Waiting else Transferring, Transferring, 0, 0)
    ensures source(id) == [] ==> JobOf(Now(r).b.p, id) == Some(Sync)
  {
    hide HelpfulRun, AllFlow, Next;
    FlowsNow(s, source, env);
    CreateStep(Now(s), id, now, source, env);
    r := Extended(s, Step(false, Works(id, true, [], now)), source, env);
    FlowsNow(r, source, env);
    AcceptStep(Now(r), id, now, source, env);
    r := Extended(r, Step(true, HearsControl(now)), source, env);
  }

  lemma CreateStep(w: World, id: TransferId, now: int, source: TransferId -> bytes, env: Setting)
    requires AllFlow(w.a, w.b, source, env) && Between(w, id, Offered, Accepting, 0, 0) && AllHeard(w)
    ensures var z := Next(w, Step(false, Works(id, true, [], now)), source, env);
      && z.a == w.a && Between(z, id, Offered, Transferring, 0, 0)
      && z.b.heard == |z.a.p.controls| && z.a.heard + 1 == |z.b.p.controls| && z.b.p.controls[z.a.heard] == Accept(id)
      && (source(id) == [] ==> JobOf(z.b.p, id) == Some(Sync))
  {
    var v := ViewNow(w, id, source, env);
    hide Of, Loose, Unused, Flowing, AllSettled, FlowsFrom, Agree, Next, OnReport;
    WorkAtB(w, id, now, source, env);
    ReceiverIsIncoming(id, v, source(id), env);
    CreateDesk(DeskOf(w.b.p, id), id, source(id), now, env);
  }

  lemma CreateDesk(d: Desk, id: TransferId, source: bytes, now: int, env: Setting)
    requires d.t.status == Accepting && d.refusals == {} && d.told == [] && d.t.size == |source| && d.t.digest == env.hash(source)
    ensures var e := OnReport(d, id, Created, now, env);
      && e.t.status == Transferring && e.t.outgoing == d.t.outgoing && e.t.transferred == d.t.transferred
      && e.told == [Accept(id)] && (source == [] ==> e.job == Some(Sync))
  {
    if |source| == 0 {
      assert source == [];
    }
  }

  lemma AcceptStep(w: World, id: TransferId, now: int, source: TransferId -> bytes, env: Setting)
    requires AllFlow(w.a, w.b, source, env) && Between(w, id, Offered, Transferring, 0, 0)
    requires w.b.heard == |w.a.p.controls| && w.a.heard + 1 == |w.b.p.controls| && w.b.p.controls[w.a.heard] == Accept(id)
    ensures var z := Next(w, Step(true, HearsControl(now)), source, env);
      && AllHeard(z) && z.b == w.b && z.a.p.data == w.a.p.data
      && Between(z, id, if source(id) == [] then Waiting else Transferring, Transferring, 0, 0)
  {
    var v := ViewNow(w, id, source, env);
    hide Of, Loose, Unused, Flowing, AllSettled, FlowsFrom, GoodUp, GoodChunks, GoodDown, GoodReceiver;
  }

  /** Every file with a good name and size, of any number of chunks, can be sent: there is a run, with one chunk for every
      32 KiB begun, at whose end both records have completed and the receiver has the file. */
  lemma EveryFileCanBeSent(id: TransferId, name: bytes, now: int, source: TransferId -> bytes, env: Setting) returns (s: Story)
    requires Offerable(name, source(id), env)
    ensures HelpfulRun(s.steps, s.worlds, source, env) && s.worlds != []
    ensures Between(Now(s), id, Completed, Completed, |source(id)|, |source(id)|)
    ensures FileOf(Now(s).b, id) == source(id)
    ensures 32768 * (|Now(s).a.p.data| - 1) < |source(id)| <= 32768 * |Now(s).a.p.data|
  {
    hide HelpfulRun, AllFlow, Next, Offerable, Advance;
    s := OfferIsMade(id, name, now, source, env);
    s := OfferIsAccepted(s, id, now, source, env);
    s := FileIsCreated(s, id, now, source, env);
    if source(id) == [] {
      s := EmptyFileGoesOver(s, id, now, source, env);
    } else {
      s := RestGoesOver(s, id, 0, now, source, env);
    }
    DeliveredNow(s, id, source, env);
  }

  lemma EmptyFileGoesOver(s: Story, id: TransferId, now: int, source: TransferId -> bytes, env: Setting) returns (r: Story)
    requires Told(s, source, env) && Between(Now(s), id, Waiting, Transferring, 0, 0) && AllHeard(Now(s))
    requires source(id) == [] && JobOf(Now(s).b.p, id) == Some(Sync)
    ensures Told(r, source, env) && Between(Now(r), id, Completed, Completed, 0, 0) && Now(r).a.p.data == Now(s).a.p.data
  {
    hide HelpfulRun, AllFlow, Next;
    FlowsNow(s, source, env);
    SyncStep(Now(s), id, 0, 0, Waiting, now, source, env);
    r := Extended(s, Step(false, Works(id, true, [], now)), source, env);
    FlowsNow(r, source, env);
    AckStep(Now(r), id, 0, Completed, now, source, env);
    r := Extended(r, Step(true, HearsControl(now)), source, env);
  }

  lemma DeliveredNow(s: Story, id: TransferId, source: TransferId -> bytes, env: Setting)
    requires Told(s, source, env) && Between(Now(s), id, Completed, Completed, |source(id)|, |source(id)|)
    ensures FileOf(Now(s).b, id) == source(id)
  {
    hide Next, Helpful;
    CompletedMeansDelivered(s.steps, s.worlds, source, env, |s.worlds| - 1, true, id);
  }
}