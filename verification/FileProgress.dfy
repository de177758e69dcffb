/** That file transfers get somewhere: with nobody giving up and nothing failing, no transfer ends but by completing, and
    one that has nothing under way has completed, or waits for its offer to be answered. */
module FileProgress {
  import opened Options
  import opened Bytes
  import opened FileMessages
  import opened FileTransfers
  import opened FileAgreement
  import opened FileRuns

  /** A good name, and at most one gibibyte. */
  predicate Offerable(name: bytes, source: bytes, env: Setting) {
    |name| > 0 && env.names(name) && |source| <= 1_073_741_824
  }

  /** A chunk that the receiver is idle for has been sent. */
  predicate ChunkSent(v: View) {
    v.r.Some? && v.r.value.status == Transferring && v.s.status == Waiting && Level(v) && v.up == [] && v.rj == None ==>
      v.chunks != map[]
  }

  /** A transfer that neither end has given up. */
  predicate Flowing(v: View, source: bytes, env: Setting) {
    && !Dead(v.s.status)
    && (v.r.Some? ==> !Dead(v.r.value.status))
    && (v.s.status == Preparing ==> Offerable(v.s.name, source, env))
    && ChunkSent(v)
  }

  // ----- events of one transfer -----

  predicate Granting(d: Desk) {
    d.refusals == {}
  }

  lemma MeasuredFlows(id: TransferId, v: View, source: bytes, env: Setting, d: Desk, next: nat, now: int)
    requires Agree(id, v, source, env) && Flowing(v, source, env) && FreshDesk(d, v.s, v.sj) && Granting(d)
    requires v.s.status == Preparing
    ensures Flowing(SenderDid(v, OnReport(d, id, Measured(|source|, env.hash(source)), now, env), next), source, env)
  {
    hide GoodReceiver, GoodUp, GoodChunks, ChunkAt, Advance;
  }

  lemma ReadFlows(id: TransferId, v: View, source: bytes, env: Setting, d: Desk, next: nat, now: int)
    requires Agree(id, v, source, env) && Flowing(v, source, env) && FreshDesk(d, v.s, v.sj) && Granting(d)
    requires v.s.status == Transferring
    ensures Flowing(SenderDid(v, OnReport(d, id, HasRead(ChunkAt(source, v.s.transferred)), now, env), next), source, env)
  {
    hide GoodReceiver, GoodUp, GoodChunks, ChunkAt, Advance;
    var data := ChunkAt(source, v.s.transferred);
    OneChunk(v.chunks, next, data);
    assert OnReport(d, id, HasRead(data), now, env).sent == [data];
    assert next in v.chunks[next := data];
  }

  /** The report of a worker that does not fail. */
  lemma SenderWorkFlows(id: TransferId, v: View, source: bytes, env: Setting, d: Desk, next: nat, disk: bytes, scrap: bytes, now: int)
    requires Agree(id, v, source, env) && Flowing(v, source, env) && FreshDesk(d, v.s, v.sj) && Granting(d) && v.sj.Some?
    ensures Flowing(SenderDid(v, OnReport(d, id, Perform(v.sj.value, true, source, disk, scrap, env).0, now, env), next), source, env)
  {
    hide GoodReceiver, GoodUp, GoodChunks, GoodDown;
    if Terminal(v.s.status) {
      EndedReport(d, id, Perform(v.sj.value, true, source, disk, scrap, env).0, now, env);
    } else if v.s.status == Preparing {
      MeasuredFlows(id, v, source, env, d, next, now);
    } else {
      ReadFlows(id, v, source, env, d, next, now);
    }
  }

  lemma SenderHearsFlows(id: TransferId, v: View, source: bytes, env: Setting, d: Desk, next: nat, now: int)
    requires Agree(id, v, source, env) && Flowing(v, source, env) && FreshDesk(d, v.s, v.sj) && |v.up| > 0
    ensures Flowing(SenderDid(v.(up := v.up[1..]), OnControl(d, v.up[0], now), next), source, env)
  {
    hide ChunkAt, Writing, GoodChunks, Offerable;
    UpKinds(id, v, source, env);
    NoNotice(id, v, source, env);
    if v.up[0].Accept? && !Terminal(v.s.status) {
      HearsAcceptFlows(id, v, source, env, d, next, now);
    }
  }

  /** Nothing under way says that the receiver gave up. */
  lemma NoNotice(id: TransferId, v: View, source: bytes, env: Setting)
    requires Agree(id, v, source, env) && Flowing(v, source, env) && |v.up| > 0
    ensures v.up[0] in {Accept(id), DataAck(id)}
  {
    hide ChunkAt, Writing, GoodChunks, Offerable, Describes, Advance;
  }

  /** An accepted sender reads its first chunk, or waits for the acknowledgment of an empty file. */
  lemma HearsAcceptFlows(id: TransferId, v: View, source: bytes, env: Setting, d: Desk, next: nat, now: int)
    requires Agree(id, v, source, env) && Flowing(v, source, env) && FreshDesk(d, v.s, v.sj)
    requires |v.up| > 0 && v.up[0] == Accept(id) && !Terminal(v.s.status)
    ensures Flowing(SenderDid(v.(up := v.up[1..]), OnControl(d, v.up[0], now), next), source, env)
    ensures var u := SenderDid(v.(up := v.up[1..]), OnControl(d, v.up[0], now), next);
      u.s.status == (if |source| == 0 then Waiting else Transferring)
      && u.sj == (if |source| == 0 then None else Some(Job.Read(0, Min(CHUNK, |source|))))
  {
    hide ChunkAt, Offerable;
  }

  function Min(a: nat, b: nat): nat {
    if a <= b then a else b
  }

  lemma ReceiverAcceptFlows(id: TransferId, v: View, source: bytes, env: Setting, d: Desk, now: int)
    requires Agree(id, v, source, env) && Flowing(v, source, env) && v.r.Some? && FreshDesk(d, v.r.value, v.rj)
    ensures Flowing(ReceiverDid(v, OnUserAccept(d, now)), source, env)
  {
    hide Agree, ChunkAt;
  }

  lemma ChunkFlows(id: TransferId, v: View, source: bytes, env: Setting, d: Desk, i: nat)
    requires Agree(id, v, source, env) && Flowing(v, source, env) && v.r.Some? && FreshDesk(d, v.r.value, v.rj) && i in v.chunks
    ensures Flowing(ReceiverDid(v.(chunks := v.chunks - {i}), OnChunk(d, v.chunks[i])), source, env)
  {
    ReceiverTakesChunk(id, v, source, env, d, i);
    hide Agree, ChunkAt;
  }

  lemma ReceiverWorkFlows(id: TransferId, v: View, source: bytes, env: Setting, d: Desk, scrap: bytes, now: int)
    requires Agree(id, v, source, env) && Flowing(v, source, env) && v.r.Some? && FreshDesk(d, v.r.value, v.rj)
    requires v.rj.Some? && Granting(d)
    ensures var (report, disk) := Perform(v.rj.value, true, source, v.disk, scrap, env);
      Flowing(ReceiverDid(v, OnReport(d, id, report, now, env)).(disk := disk), source, env)
  {
    hide GoodDown, GoodChunks, ChunkAt, Offerable, WriteAt, ReceiverReport, GoodUp;
    var (report, disk) := Perform(v.rj.value, true, source, v.disk, scrap, env);
    if Terminal(v.r.value.status) {
      EndedReport(d, id, report, now, env);
    } else {
      PerformedByReceiver(id, v, source, env, true, scrap);
      if v.r.value.status == Accepting {
        CreatedFlows(id, v, source, env, d, now);
      } else if v.rj == Some(Sync) {
        SyncedFlows(id, v, source, env, d, now);
      } else {
        WrittenFlows(id, v, source, env, d, v.rj.value.data, disk, now);
      }
    }
  }

  lemma CreatedFlows(id: TransferId, v: View, source: bytes, env: Setting, d: Desk, now: int)
    requires Agree(id, v, source, env) && Flowing(v, source, env) && v.r.Some? && FreshDesk(d, v.r.value, v.rj) && Granting(d)
    requires v.rj == Some(Create) && v.r.value.status == Accepting
    ensures Flowing(ReceiverDid(v, OnReport(d, id, Created, now, env)).(disk := []), source, env)
  {
    hide GoodDown, GoodChunks, ChunkAt, Offerable;
    if |source| == 0 {
      assert source == [];
    }
  }

  lemma WrittenFlows(id: TransferId, v: View, source: bytes, env: Setting, d: Desk, data: bytes, after: bytes, now: int)
    requires Agree(id, v, source, env) && Flowing(v, source, env) && v.r.Some? && FreshDesk(d, v.r.value, v.rj) && Granting(d)
    requires v.r.value.status == Transferring && v.rj.Some? && ReceiverReport(v.rj.value, Written(data), v.disk, after)
    ensures Flowing(ReceiverDid(v, OnReport(d, id, Written(data), now, env)).(disk := after), source, env)
  {
    ReceiverWrote(id, v, source, env, d, data, after, now);
    var e, w := OnReport(d, id, Written(data), now, env), ReceiverDid(v, OnReport(d, id, Written(data), now, env)).(disk := after);
    assert source[..v.r.value.transferred + |data|] == v.r.value.hashed + data;
    assert w.up == v.up + e.told;
    hide GoodDown, GoodChunks, Offerable;
  }

  lemma SyncedFlows(id: TransferId, v: View, source: bytes, env: Setting, d: Desk, now: int)
    requires Agree(id, v, source, env) && Flowing(v, source, env) && v.r.Some? && FreshDesk(d, v.r.value, v.rj) && Granting(d)
    requires v.r.value.status == Transferring && v.rj == Some(Sync)
    ensures Flowing(ReceiverDid(v, OnReport(d, id, Synced, now, env)), source, env)
  {
    hide GoodDown, GoodChunks, Offerable, ChunkAt, GoodUp;
  }

  // ----- events at one of the ends -----

  /** Every transfer from x to y flows. */
  ghost predicate FlowsFrom(x: Site, y: Site, source: TransferId -> bytes, env: Setting)
    requires Sound(x, y)
  {
    forall id :: Record(x.p, id).Some? && Record(x.p, id).value.outgoing ==> Flowing(ViewOf(x, y, id), source(id), env)
  }

  ghost predicate AllFlow(x: Site, y: Site, source: TransferId -> bytes, env: Setting) {
    && Sound(x, y) && Sound(y, x) && AllSettled(x, y, source, env)
    && x.p.refusals == {} && y.p.refusals == {}
    && FlowsFrom(x, y, source, env) && FlowsFrom(y, x, source, env)
  }

  /** What filing a desk does to the views of every transfer, both ways. */
  lemma FiledViews(x: Site, y: Site, id: TransferId, d: Desk, k: TransferId)
    requires Sound(x, y) && id in x.p.transfers && Own(d.told, id) && |d.sent| <= 1
    ensures var z := x.(p := File(x.p, id, d));
      && z.heard <= |y.p.controls| && y.heard <= |z.p.controls|
      && Record(z.p, k) == (if k == id then Some(d.t) else Record(x.p, k))
      && (Record(x.p, k).Some? ==>
            ViewOf(z, y, k) == if k == id then SenderDid(ViewOf(x, y, id), d, |x.p.data|) else ViewOf(x, y, k))
      && (Record(y.p, k).Some? ==>
            ViewOf(y, z, k) == if k == id then ReceiverDid(ViewOf(y, x, id), d) else ViewOf(y, x, k))
  {
    hide Of, Loose, WithChunks, Record, JobOf;
    FileEffect(x.p, y.heard, y.got, id, d, k);
    assert Record(x.p, id) == Some(x.p.transfers[id]) by {
      RecordListed(x.p, id);
    }
  }

  lemma RecordListed(p: Party, id: TransferId)
    requires id in p.transfers
    ensures Record(p, id) == Some(p.transfers[id])
  {
  }

  /** Every transfer but one flows, both ways. */
  ghost predicate OthersFlow(x: Site, y: Site, id: TransferId, source: TransferId -> bytes, env: Setting)
    requires x.heard <= |y.p.controls| && y.heard <= |x.p.controls|
  {
    && (forall k :: k != id && Record(x.p, k).Some? && Record(x.p, k).value.outgoing ==> Flowing(ViewOf(x, y, k), source(k), env))
    && (forall k :: k != id && Record(y.p, k).Some? && Record(y.p, k).value.outgoing ==> Flowing(ViewOf(y, x, k), source(k), env))
  }

  /** And this one does, whichever way it goes. */
  ghost predicate OneFlows(x: Site, y: Site, id: TransferId, source: TransferId -> bytes, env: Setting)
    requires x.heard <= |y.p.controls| && y.heard <= |x.p.controls|
  {
    && (Record(x.p, id).Some? && Record(x.p, id).value.outgoing ==> Flowing(ViewOf(x, y, id), source(id), env))
    && (Record(y.p, id).Some? && Record(y.p, id).value.outgoing ==> Flowing(ViewOf(y, x, id), source(id), env))
  }

  lemma OneAndOthers(x: Site, y: Site, id: TransferId, source: TransferId -> bytes, env: Setting)
    requires Sound(x, y) && Sound(y, x)
    ensures FlowsFrom(x, y, source, env) && FlowsFrom(y, x, source, env) <==> OneFlows(x, y, id, source, env) && OthersFlow(x, y, id, source, env)
  {
    hide Of, Loose, Flowing, Record;
  }

  /** Transfers that look the same from both ends flow alike. */
  lemma AlikeFlows(x: Site, z: Site, y: Site, id: TransferId, source: TransferId -> bytes, env: Setting)
    requires x.heard <= |y.p.controls| && y.heard <= |x.p.controls|
    requires z.heard <= |y.p.controls| && y.heard <= |z.p.controls|
    requires OthersFlow(x, y, id, source, env)
    requires forall k :: k != id ==> Alike(x, z, y, k)
    ensures OthersFlow(z, y, id, source, env)
  {
    hide Of, Loose, Flowing, Record, JobOf, FileOf;
    forall k | k != id && Record(z.p, k).Some? && Record(z.p, k).value.outgoing
      ensures Flowing(ViewOf(z, y, k), source(k), env)
    {
      assert Alike(x, z, y, k);
      assert ViewOf(z, y, k) == ViewOf(x, y, k);
    }
    forall k | k != id && Record(y.p, k).Some? && Record(y.p, k).value.outgoing
      ensures Flowing(ViewOf(y, z, k), source(k), env)
    {
      assert Alike(x, z, y, k);
      assert ViewOf(y, z, k) == ViewOf(y, x, k);
    }
  }

  /** Filing the desk of an event that keeps its own transfer flowing keeps all of them flowing. */
  lemma FiledFlows(x: Site, y: Site, id: TransferId, d: Desk, source: TransferId -> bytes, env: Setting)
    requires Sound(x, y) && id in x.p.transfers && Own(d.told, id) && |d.sent| <= 1
    requires OthersFlow(x, y, id, source, env)
    requires d.t.outgoing ==> Flowing(SenderDid(ViewOf(x, y, id), d, |x.p.data|), source(id), env)
    requires Record(y.p, id).Some? && Record(y.p, id).value.outgoing ==> Flowing(ReceiverDid(ViewOf(y, x, id), d), source(id), env)
    ensures var z := x.(p := File(x.p, id, d));
      Sound(z, y) && Sound(y, z) ==> FlowsFrom(z, y, source, env) && FlowsFrom(y, z, source, env)
  {
    hide Of, Loose, WithChunks, Flowing, Sound, File;
    var z := x.(p := File(x.p, id, d));
    if Sound(z, y) && Sound(y, z) {
      SoundBounds(z, y);
      forall k | Record(z.p, k).Some? && Record(z.p, k).value.outgoing
        ensures Flowing(ViewOf(z, y, k), source(k), env)
      {
        FiledViews(x, y, id, d, k);
      }
      forall k | Record(y.p, k).Some? && Record(y.p, k).value.outgoing
        ensures Flowing(ViewOf(y, z, k), source(k), env)
      {
        FiledViews(x, y, id, d, k);
      }
    }
  }

  /** What neither end of an ended transfer does matters. */
  lemma EndedFlows(v: View, w: View, source: bytes, env: Setting)
    requires Flowing(v, source, env) && w.s == v.s && w.r == v.r
    requires Terminal(v.s.status) || v.r.None? || Terminal(v.r.value.status)
    ensures Flowing(w, source, env)
  {
  }

  lemma WorkFlows(x: Site, y: Site, id: TransferId, scrap: bytes, now: int, source: TransferId -> bytes, env: Setting)
    requires AllFlow(x, y, source, env) && JobOf(x.p, id).Some? && id in x.p.transfers
    ensures var z := Act(x, y, Works(id, true, scrap, now), source, env);
      Sound(z, y) && Sound(y, z) ==> FlowsFrom(z, y, source, env) && FlowsFrom(y, z, source, env)
  {
    hide Of, Agree, OnReport, Loose, Unused, Tidy, Perform, File, AllSettled, Flowing, Alike;
    var (report, disk) := Perform(JobOf(x.p, id).value, true, source(id), FileOf(x, id), scrap, env);
    var d := DeskOf(x.p, id);
    var u := Worked(x, id, disk);
    ReportOwn(d, id, report, now, env);
    WayOf(x, y, id, source, env);
    WorkedViews(x, y, id, disk, source, env);
    OneAndOthers(x, y, id, source, env);
    WorkedAlike(x, y, id, disk);
    AlikeFlows(x, u, y, id, source, env);
    WorkDesk(x, y, id, scrap, now, source, env);
    FiledFlows(u, y, id, OnReport(d, id, report, now, env), source, env);
  }

  lemma WorkedAlike(x: Site, y: Site, id: TransferId, disk: bytes)
    requires Sound(x, y)
    ensures forall k :: k != id ==> Alike(x, Worked(x, id, disk), y, k)
  {
    hide Of, Loose;
  }

  lemma ReportKeepsWay(d: Desk, id: TransferId, report: Report, now: int, env: Setting)
    ensures OnReport(d, id, report, now, env).t.outgoing == d.t.outgoing
  {
  }

  lemma WorkDesk(x: Site, y: Site, id: TransferId, scrap: bytes, now: int, source: TransferId -> bytes, env: Setting)
    requires AllFlow(x, y, source, env) && JobOf(x.p, id).Some? && id in x.p.transfers
    ensures var (report, disk) := Perform(JobOf(x.p, id).value, true, source(id), FileOf(x, id), scrap, env);
      var d := OnReport(DeskOf(x.p, id), id, report, now, env);
      && (d.t.outgoing ==> Flowing(SenderDid(ViewOf(x, y, id), d, |x.p.data|), source(id), env))
      && (Record(y.p, id).Some? && Record(y.p, id).value.outgoing ==>
            Flowing(ReceiverDid(ViewOf(y, x, id), d).(disk := disk), source(id), env))
  {
    hide Of, OnReport, Loose, Unused, Tidy, Perform, File, AllSettled, Flowing, GoodUp, GoodChunks, GoodDown, GoodSender, GoodReceiver;
    var (report, disk) := Perform(JobOf(x.p, id).value, true, source(id), FileOf(x, id), scrap, env);
    WayOf(x, y, id, source, env);
    ReportKeepsWay(DeskOf(x.p, id), id, report, now, env);
    if x.p.transfers[id].outgoing {
      NotBothSend(x, y, id, source(id), env);
      SenderWorkFlows(id, ViewOf(x, y, id), source(id), env, DeskOf(x.p, id), |x.p.data|, FileOf(x, id), scrap, now);
    } else {
      NotBothSend(y, x, id, source(id), env);
      ReceiverWorkFlows(id, ViewOf(y, x, id), source(id), env, DeskOf(x.p, id), scrap, now);
    }
  }

  lemma NotBothSend(x: Site, y: Site, id: TransferId, source: bytes, env: Setting)
    requires Sound(x, y) && Runs(x, y, id, source, env)
    ensures Record(x.p, id).value.outgoing
    ensures Record(y.p, id).Some? ==> !Record(y.p, id).value.outgoing
  {
    hide Of, Loose;
  }

  /** The report for a record that was pruned is dropped. */
  lemma PrunedWorkFlows(x: Site, y: Site, id: TransferId, scrap: bytes, now: int, source: TransferId -> bytes, env: Setting)
    requires AllFlow(x, y, source, env) && JobOf(x.p, id).Some? && id !in x.p.transfers
    ensures var z := Act(x, y, Works(id, true, scrap, now), source, env);
      Sound(z, y) && Sound(y, z) ==> FlowsFrom(z, y, source, env) && FlowsFrom(y, z, source, env)
  {
    hide Of, Agree, Loose, Unused, Tidy, Perform, AllSettled, Flowing, Alike;
    var z := Act(x, y, Works(id, true, scrap, now), source, env);
    OneAndOthers(x, y, id, source, env);
    if Sound(z, y) && Sound(y, z) {
      PrunedAlike(x, y, id, scrap, now, source, env);
      AlikeFlows(x, z, y, id, source, env);
      if Record(x.p, id).Some? {
        PastEnded(x, y, id);
        if Record(x.p, id).value.outgoing {
          EndedFlows(ViewOf(x, y, id), ViewOf(z, y, id), source(id), env);
        }
      }
      if Record(y.p, id).Some? && Record(y.p, id).value.outgoing {
        EndedFlows(ViewOf(y, x, id), ViewOf(y, z, id), source(id), env);
      }
      OneAndOthers(z, y, id, source, env);
    }
  }

  lemma PrunedAlike(x: Site, y: Site, id: TransferId, scrap: bytes, now: int, source: TransferId -> bytes, env: Setting)
    requires Sound(x, y) && JobOf(x.p, id).Some? && id !in x.p.transfers
    ensures var z := Act(x, y, Works(id, true, scrap, now), source, env);
      z.heard == x.heard && z.p.controls == x.p.controls && Record(z.p, id) == Record(x.p, id)
      && forall k :: k != id ==> Alike(x, z, y, k)
  {
    hide Of, Loose, Perform;
  }

  lemma HeardAlike(x: Site, y: Site)
    requires Sound(x, y) && x.heard < |y.p.controls|
    ensures forall k :: k != y.p.controls[x.heard].id ==> Alike(x, Heard(x), y, k)
  {
    hide Of, Loose;
    forall k | k != y.p.controls[x.heard].id
      ensures Alike(x, Heard(x), y, k)
    {
      OfNext(y.p.controls, x.heard, k);
    }
  }

  /** A control message for a live record. */
  lemma KnownControlFlows(x: Site, y: Site, now: int, source: TransferId -> bytes, env: Setting)
    requires AllFlow(x, y, source, env) && x.heard < |y.p.controls| && y.p.controls[x.heard].id in x.p.transfers
    ensures var z := Act(x, y, HearsControl(now), source, env);
      Sound(z, y) && Sound(y, z) ==> FlowsFrom(z, y, source, env) && FlowsFrom(y, z, source, env)
  {
    hide Of, Agree, OnControl, Loose, Unused, Tidy, File, AllSettled, Flowing, Alike;
    var c := y.p.controls[x.heard];
    var d := DeskOf(x.p, c.id);
    var u := Heard(x);
    ControlOwn(d, c, now);
    OneAndOthers(x, y, c.id, source, env);
    HeardAlike(x, y);
    AlikeFlows(x, u, y, c.id, source, env);
    ControlDesk(x, y, now, source, env);
    HeardOthers(x, y, source, env);
    NoSecondOffer(x, y, source, env);
    assert Act(x, y, HearsControl(now), source, env) == u.(p := File(u.p, c.id, OnControl(d, c, now)));
    FiledFlows(u, y, c.id, OnControl(d, c, now), source, env);
  }

  lemma ControlDesk(x: Site, y: Site, now: int, source: TransferId -> bytes, env: Setting)
    requires AllFlow(x, y, source, env) && x.heard < |y.p.controls| && y.p.controls[x.heard].id in x.p.transfers
    ensures var c, u := y.p.controls[x.heard], Heard(x);
      var d := OnControl(DeskOf(x.p, c.id), c, now);
      && (d.t.outgoing ==> Flowing(SenderDid(ViewOf(u, y, c.id), d, |x.p.data|), source(c.id), env))
      && (Record(y.p, c.id).Some? && Record(y.p, c.id).value.outgoing ==>
            Flowing(ReceiverDid(ViewOf(y, u, c.id), d), source(c.id), env))
  {
    hide Of, OnControl, Loose, Unused, Tidy, AllSettled, Flowing, GoodUp, GoodChunks, GoodDown, GoodSender, GoodReceiver;
    var c, u := y.p.controls[x.heard], Heard(x);
    var id := c.id;
    var d := DeskOf(x.p, id);
    WayOf(x, y, id, source, env);
    OfNext(y.p.controls, x.heard, id);
    ControlKeepsWay(d, c, now);
    if d.t.outgoing {
      NotBothSend(x, y, id, source(id), env);
      var v := ViewOf(x, y, id);
      assert ViewOf(u, y, id) == v.(up := v.up[1..]);
      SenderHearsFlows(id, v, source(id), env, d, |x.p.data|, now);
    } else {
      NotBothSend(y, x, id, source(id), env);
      var v := ViewOf(y, x, id);
      NoCancelDown(id, v, source(id), env);
      assert false;
    }
  }

  lemma ControlKeepsWay(d: Desk, c: Control, now: int)
    ensures OnControl(d, c, now).t.outgoing == d.t.outgoing
  {
  }

  /** Nothing is on its way to a receiver that has a record: its sender has not given up. */
  lemma NoCancelDown(id: TransferId, v: View, source: bytes, env: Setting)
    requires Agree(id, v, source, env) && Flowing(v, source, env)
    ensures v.down != [] ==> v.r == None && OfferOf(id, v.down[0], source, env) && |v.down| == 1
  {
    DownAlive(id, v, source, env);
  }

  /** A control message for a record that was pruned. */
  lemma PrunedControlFlows(x: Site, y: Site, now: int, source: TransferId -> bytes, env: Setting)
    requires AllFlow(x, y, source, env) && x.heard < |y.p.controls| && y.p.controls[x.heard].id !in x.p.transfers
    requires Record(x.p, y.p.controls[x.heard].id).Some?
    ensures var z := Act(x, y, HearsControl(now), source, env);
      Sound(z, y) && Sound(y, z) ==> FlowsFrom(z, y, source, env) && FlowsFrom(y, z, source, env)
  {
    hide Of, Agree, Loose, Unused, Tidy, AllSettled, Flowing, Alike, Settled;
    var z, id := Act(x, y, HearsControl(now), source, env), y.p.controls[x.heard].id;
    OneAndOthers(x, y, id, source, env);
    NoSecondOffer(x, y, source, env);
    assert z == Heard(x);
    HeardAlike(x, y);
    PastEnded(x, y, id);
    if Sound(z, y) && Sound(y, z) {
      AlikeFlows(x, z, y, id, source, env);
      if Record(x.p, id).value.outgoing {
        EndedFlows(ViewOf(x, y, id), ViewOf(z, y, id), source(id), env);
      }
      if Record(y.p, id).Some? && Record(y.p, id).value.outgoing {
        EndedFlows(ViewOf(y, x, id), ViewOf(y, z, id), source(id), env);
      }
      OneAndOthers(z, y, id, source, env);
    }
  }

  /** A control message for a transfer that has no record yet is its offer. */
  lemma OfferFlows(x: Site, y: Site, now: int, source: TransferId -> bytes, env: Setting)
    requires AllFlow(x, y, source, env) && x.heard < |y.p.controls|
    requires Record(x.p, y.p.controls[x.heard].id).None?
    ensures var z := Act(x, y, HearsControl(now), source, env);
      Sound(z, y) && Sound(y, z) ==> FlowsFrom(z, y, source, env) && FlowsFrom(y, z, source, env)
  {
    hide Of, Agree, Loose, Unused, Tidy, AllSettled, Flowing, Alike, Settled;
    var z, id := Act(x, y, HearsControl(now), source, env), y.p.controls[x.heard].id;
    OneAndOthers(x, y, id, source, env);
    OfferComes(x, y, source, env);
    if Sound(z, y) && Sound(y, z) {
      OfferAlike(x, y, now, source, env);
      AlikeFlows(x, z, y, id, source, env);
      NewRecordFlows(ViewOf(y, x, id), ViewOf(y, z, id), source(id), env);
      OneAndOthers(z, y, id, source, env);
    }
  }

  lemma OfferComes(x: Site, y: Site, source: TransferId -> bytes, env: Setting)
    requires AllFlow(x, y, source, env) && x.heard < |y.p.controls|
    requires Record(x.p, y.p.controls[x.heard].id).None?
    ensures y.p.controls[x.heard].Offer?
    ensures var r := Record(y.p, y.p.controls[x.heard].id); r.Some? && r.value.outgoing
  {
    hide Of, Loose, Tidy, Flowing, GoodReceiver, GoodUp, GoodChunks;
    var id := y.p.controls[x.heard].id;
    assert Settled(x, y, id, source(id), env);
    OfNext(y.p.controls, x.heard, id);
    assert Of(y.p.controls[x.heard..], id)[0] == y.p.controls[x.heard];
    NoCancelDown(id, ViewOf(y, x, id), source(id), env);
  }

  lemma OfferAlike(x: Site, y: Site, now: int, source: TransferId -> bytes, env: Setting)
    requires Sound(x, y) && x.heard < |y.p.controls| && y.p.controls[x.heard].Offer?
    requires Record(x.p, y.p.controls[x.heard].id).None?
    ensures var z, id := Act(x, y, HearsControl(now), source, env), y.p.controls[x.heard].id;
      && z.heard <= |y.p.controls| && z.p.controls == x.p.controls
      && (forall k :: k != id ==> Alike(x, z, y, k))
      && (Record(z.p, id).Some? ==> Record(z.p, id).value.status == Offered && !Record(z.p, id).value.outgoing)
  {
    hide Of, Loose, ActiveIds;
    HeardAlike(x, y);
    var z, id := Act(x, y, HearsControl(now), source, env), y.p.controls[x.heard].id;
    forall k | k != id
      ensures Alike(x, z, y, k)
    {
      assert Alike(x, Heard(x), y, k);
    }
  }

  lemma NewRecordFlows(v: View, w: View, source: bytes, env: Setting)
    requires Flowing(v, source, env) && w.s == v.s && (w.r.Some? ==> w.r.value.status == Offered)
    ensures Flowing(w, source, env)
  {
  }

  lemma ChunkAlike(x: Site, y: Site, i: nat)
    requires Sound(x, y) && i < |y.p.data| && i !in x.got
    ensures forall k :: k != y.p.data[i].id ==> Alike(x, Taken(x, i), y, k)
  {
    hide Of, Loose;
    forall k | k != y.p.data[i].id
      ensures Alike(x, Taken(x, i), y, k)
    {
      LooseTaken(y.p.data, x.got, i, k);
    }
  }

  lemma ChunkComesFlows(x: Site, y: Site, i: nat, source: TransferId -> bytes, env: Setting)
    requires AllFlow(x, y, source, env) && i < |y.p.data| && i !in x.got
    ensures var z := Act(x, y, HearsChunk(i), source, env);
      Sound(z, y) && Sound(y, z) ==> FlowsFrom(z, y, source, env) && FlowsFrom(y, z, source, env)
  {
    hide Of, Agree, Loose, Unused, Tidy, File, OnChunk, AllSettled, Flowing, Alike, Settled;
    var c := y.p.data[i];
    var id, u := c.id, Taken(x, i);
    var z := Act(x, y, HearsChunk(i), source, env);
    OneAndOthers(x, y, id, source, env);
    ChunkAlike(x, y, i);
    AlikeFlows(x, u, y, id, source, env);
    ChunkFrom(x, y, i, source, env);
    if id in x.p.transfers {
      var d := DeskOf(x.p, id);
      ChunkOwn(d, c.data);
      ChunkDesk(x, y, i, source, env);
      TakenOthers(x, y, i, source, env);
      FiledFlows(u, y, id, OnChunk(d, c.data), source, env);
    } else {
      PastEnded(x, y, id);
      if Sound(z, y) && Sound(y, z) {
        EndedFlows(ViewOf(y, x, id), ViewOf(y, u, id), source(id), env);
        OneAndOthers(u, y, id, source, env);
      }
    }
  }

  lemma ChunkFrom(x: Site, y: Site, i: nat, source: TransferId -> bytes, env: Setting)
    requires AllFlow(x, y, source, env) && i < |y.p.data| && i !in x.got
    ensures var id := y.p.data[i].id;
      && Runs(y, x, id, source(id), env) && Record(y.p, id).value.outgoing
      && Record(x.p, id).Some? && !Record(x.p, id).value.outgoing
  {
    hide Of, Agree, Loose, Unused, Tidy, Flowing;
    var id := y.p.data[i].id;
    assert Settled(x, y, id, source(id), env);
    ChunkWay(x, y, i, source(id), env);
    NotBothSend(y, x, id, source(id), env);
  }

  lemma ChunkDesk(x: Site, y: Site, i: nat, source: TransferId -> bytes, env: Setting)
    requires AllFlow(x, y, source, env) && i < |y.p.data| && i !in x.got && y.p.data[i].id in x.p.transfers
    ensures Record(y.p, y.p.data[i].id).Some?
    ensures var id := y.p.data[i].id;
      var d := OnChunk(DeskOf(x.p, id), y.p.data[i].data);
      !d.t.outgoing && Flowing(ReceiverDid(ViewOf(y, Taken(x, i), id), d), source(id), env)
  {
    hide Of, Agree, Loose, Unused, Tidy, Flowing, AllSettled;
    var id := y.p.data[i].id;
    ChunkFrom(x, y, i, source, env);
    LooseTaken(y.p.data, x.got, i, id);
    var v := ViewOf(y, x, id);
    assert ViewOf(y, Taken(x, i), id) == v.(chunks := v.chunks - {i});
    ChunkFlows(id, v, source(id), env, DeskOf(x.p, id), i);
  }

  lemma AcceptingFlows(x: Site, y: Site, id: TransferId, now: int, source: TransferId -> bytes, env: Setting)
    requires AllFlow(x, y, source, env)
    ensures var z := x.(p := AcceptFile(x.p, id, now));
      Sound(z, y) && Sound(y, z) ==> FlowsFrom(z, y, source, env) && FlowsFrom(y, z, source, env)
  {
    hide Of, Agree, Loose, Unused, Tidy, File, AllSettled, Flowing, Alike, OnUserAccept;
    if id in x.p.transfers && !Receiving(x.p.transfers) {
      var d := DeskOf(x.p, id);
      OneAndOthers(x, y, id, source, env);
      AcceptDesk(x, y, id, now, source, env);
      FiledFlows(x, y, id, OnUserAccept(d, now), source, env);
    } else {
      assert x.(p := AcceptFile(x.p, id, now)) == x;
    }
  }

  lemma AcceptDesk(x: Site, y: Site, id: TransferId, now: int, source: TransferId -> bytes, env: Setting)
    requires AllFlow(x, y, source, env) && id in x.p.transfers
    ensures var d := OnUserAccept(DeskOf(x.p, id), now);
      && d.told == [] && d.sent == []
      && (d.t.outgoing ==> Flowing(SenderDid(ViewOf(x, y, id), d, |x.p.data|), source(id), env))
      && (Record(y.p, id).Some? && Record(y.p, id).value.outgoing ==> Flowing(ReceiverDid(ViewOf(y, x, id), d), source(id), env))
  {
    hide Of, Agree, Loose, Unused, Tidy, AllSettled, Flowing;
    WayOf(x, y, id, source, env);
    if x.p.transfers[id].outgoing {
      NotBothSend(x, y, id, source(id), env);
      NothingSent(Loose(x.p.data, y.got, id), |x.p.data|);
      assert SenderDid(ViewOf(x, y, id), DeskOf(x.p, id), |x.p.data|) == ViewOf(x, y, id);
    } else {
      NotBothSend(y, x, id, source(id), env);
      ReceiverAcceptFlows(id, ViewOf(y, x, id), source(id), env, DeskOf(x.p, id), now);
    }
  }

  lemma OfferingFlows(x: Site, y: Site, id: TransferId, name: bytes, now: int, source: TransferId -> bytes, env: Setting)
    requires AllFlow(x, y, source, env) && Offerable(name, source(id), env)
    ensures var z := Act(x, y, Offers(id, name, now), source, env);
      Sound(z, y) && Sound(y, z) ==> FlowsFrom(z, y, source, env) && FlowsFrom(y, z, source, env)
  {
    hide Of, Agree, Loose, Unused, Tidy, AllSettled, Alike, Offerable, Flowing;
    var z := Act(x, y, Offers(id, name, now), source, env);
    OneAndOthers(x, y, id, source, env);
    if z != x && Sound(z, y) && Sound(y, z) {
      forall k | k != id
        ensures Alike(x, z, y, k)
      {
        OfferLeavesOthers(x, y, id, name, now, source, env, k);
      }
      AlikeFlows(x, z, y, id, source, env);
      PreparedFlows(ViewOf(z, y, id), source(id), env);
      OneAndOthers(z, y, id, source, env);
    }
  }

  lemma PreparedFlows(v: View, source: bytes, env: Setting)
    requires v.s.status == Preparing && Offerable(v.s.name, source, env) && v.r == None
    ensures Flowing(v, source, env)
  {
  }

  lemma ForgettingFlows(x: Site, y: Site, id: TransferId, source: TransferId -> bytes, env: Setting)
    requires AllFlow(x, y, source, env) && id in x.p.transfers && Terminal(x.p.transfers[id].status)
    ensures var z := x.(p := Forget(x.p, id));
      Sound(z, y) && Sound(y, z) ==> FlowsFrom(z, y, source, env) && FlowsFrom(y, z, source, env)
  {
    hide Of, Agree, Loose, Unused, AllSettled, Flowing, Tidy;
    ForgetSound(x, y, id);
  }

  // ----- whole runs -----

  /** Nobody gives up, no work fails, and only files that can be offered are. */
  predicate Helpful(a: Action, source: TransferId -> bytes, env: Setting) {
    match a
    case Offers(id, name, _) => Offerable(name, source(id), env)
    case Works(_, ok, _, _) => ok
    case UserRejects(_, _) => false
    case UserCancels(_, _) => false
    case Ticks(_, _, _) => false
    case Stops(_, _) => false
    case _ => true
  }

  lemma ActFlows(x: Site, y: Site, a: Action, source: TransferId -> bytes, env: Setting)
    requires AllFlow(x, y, source, env) && Helpful(a, source, env)
    ensures AllFlow(Act(x, y, a, source, env), y, source, env)
  {
    hide Sound, AllSettled, FlowsFrom, HandleControl, HandleChunk, HandleReport, AcceptFile, OfferFile, Perform, Offerable;
    var z := Act(x, y, a, source, env);
    ActSettles(x, y, a, source, env);
    SoundBothWays(z, y, source, env);
    ActGrants(x, y, a, source, env);
    match a
    case Offers(id, name, now) => OfferingFlows(x, y, id, name, now, source, env);
    case UserAccepts(id, now) => AcceptingFlows(x, y, id, now, source, env);
    case Works(id, ok, scrap, now) =>
      if JobOf(x.p, id).Some? {
        if id in x.p.transfers {
          WorkFlows(x, y, id, scrap, now, source, env);
        } else {
          PrunedWorkFlows(x, y, id, scrap, now, source, env);
        }
      }
    case HearsControl(now) =>
      if x.heard < |y.p.controls| {
        if y.p.controls[x.heard].id in x.p.transfers {
          KnownControlFlows(x, y, now, source, env);
        } else if Record(x.p, y.p.controls[x.heard].id).Some? {
          PrunedControlFlows(x, y, now, source, env);
        } else {
          OfferFlows(x, y, now, source, env);
        }
      }
    case HearsChunk(i) =>
      if i < |y.p.data| && i !in x.got {
        ChunkComesFlows(x, y, i, source, env);
      }
    case Forgets(id) =>
      if id in x.p.transfers && Terminal(x.p.transfers[id].status) {
        ForgettingFlows(x, y, id, source, env);
      }
  }

  /** What the transport refuses is fixed. */
  lemma ActGrants(x: Site, y: Site, a: Action, source: TransferId -> bytes, env: Setting)
    ensures Act(x, y, a, source, env).p.refusals == x.p.refusals
  {
  }

  ghost predicate HelpfulRun(steps: seq<Step>, worlds: seq<World>, source: TransferId -> bytes, env: Setting) {
    && FileRun(steps, worlds, source, env)
    && worlds[0].a.p.refusals == {} && worlds[0].b.p.refusals == {}
    && forall i :: 0 <= i < |steps| ==> Helpful(steps[i].action, source, env)
  }

  lemma FlowBothWays(x: Site, y: Site, source: TransferId -> bytes, env: Setting)
    requires AllFlow(x, y, source, env)
    ensures AllFlow(y, x, source, env)
  {
    hide AllSettled, FlowsFrom, Sound;
    SoundBothWays(x, y, source, env);
  }

  lemma {:induction false} EveryStateFlows(steps: seq<Step>, worlds: seq<World>, source: TransferId -> bytes, env: Setting, n: nat)
    requires HelpfulRun(steps, worlds, source, env) && n < |worlds|
    ensures AllFlow(worlds[n].a, worlds[n].b, source, env)
  {
    hide AllSettled, Act, Flowing, Helpful;
    if n == 0 {
      EveryStateSettled(steps, worlds, source, env, 0);
      SoundBothWays(worlds[0].a, worlds[0].b, source, env);
    } else {
      EveryStateFlows(steps, worlds, source, env, n - 1);
      hide AllFlow;
      var w, step := worlds[n - 1], steps[n - 1];
      FlowBothWays(w.a, w.b, source, env);
      if step.byA {
        ActFlows(w.a, w.b, step.action, source, env);
      } else {
        ActFlows(w.b, w.a, step.action, source, env);
        FlowBothWays(worlds[n].b, worlds[n].a, source, env);
      }
    }
  }

  lemma FlowAt(steps: seq<Step>, worlds: seq<World>, source: TransferId -> bytes, env: Setting, n: nat, a: bool, id: TransferId)
    requires HelpfulRun(steps, worlds, source, env) && n < |worlds| && Record(End(worlds[n], a).p, id).Some?
    ensures var x, y := End(worlds[n], a), End(worlds[n], !a);
      && Sound(x, y)
      && if Record(x.p, id).value.outgoing then Runs(x, y, id, source(id), env) && Flowing(ViewOf(x, y, id), source(id), env)
         else Runs(y, x, id, source(id), env) && Flowing(ViewOf(y, x, id), source(id), env)
  {
    hide Flowing, Agree, HelpfulRun, Of, Loose, Unused, AllSettled;
    EveryStateFlows(steps, worlds, source, env, n);
    assert FileRun(steps, worlds, source, env) by {
      HelpfulIsRun(steps, worlds, source, env);
    }
    EveryRecordRuns(steps, worlds, source, env, n, a, id);
    var x, y := End(worlds[n], a), End(worlds[n], !a);
    if !Record(x.p, id).value.outgoing {
      NotBothSend(y, x, id, source(id), env);
    }
  }

  lemma HelpfulIsRun(steps: seq<Step>, worlds: seq<World>, source: TransferId -> bytes, env: Setting)
    requires HelpfulRun(steps, worlds, source, env)
    ensures FileRun(steps, worlds, source, env)
  {
  }

  /** In every run in which the transport takes every message, nobody refuses or cancels, no clock runs out, nothing stops,
      no work fails, and only files with good names and sizes are offered, no transfer fails, at either end, ever. */
  lemma NoneFails(steps: seq<Step>, worlds: seq<World>, source: TransferId -> bytes, env: Setting, n: nat, a: bool, id: TransferId)
    requires HelpfulRun(steps, worlds, source, env) && n < |worlds| && Record(End(worlds[n], a).p, id).Some?
    ensures !Dead(Record(End(worlds[n], a).p, id).value.status)
  {
    hide Runs, HelpfulRun;
    FlowAt(steps, worlds, source, env, n, a, id);
  }

  /** Nothing is under way: no worker, no message unheard, no chunk still to come. */
  predicate Quiet(x: Site, y: Site, id: TransferId) {
    && JobOf(x.p, id) == None && JobOf(y.p, id) == None
    && x.heard == |y.p.controls| && y.heard == |x.p.controls|
    && forall i :: 0 <= i < |x.p.data| && x.p.data[i].id == id ==> i in y.got
  }

  /** In such a run nothing gets stuck: a transfer with nothing under way has completed at both ends with the file whole, or
      its offer waits for the user, or the other end had no room for it. */
  lemma QuietIsDone(steps: seq<Step>, worlds: seq<World>, source: TransferId -> bytes, env: Setting, n: nat, a: bool, id: TransferId)
    requires HelpfulRun(steps, worlds, source, env) && n < |worlds|
    requires var t := Record(End(worlds[n], a).p, id); t.Some? && t.value.outgoing
    requires Quiet(End(worlds[n], a), End(worlds[n], !a), id)
    ensures var s, r := Record(End(worlds[n], a).p, id).value, Record(End(worlds[n], !a).p, id);
      || (s.status == Offered && (r.None? || r.value.status == Offered))
      || (s.status == Completed && r.Some? && r.value.status == Completed && FileOf(End(worlds[n], !a), id) == source(id))
  {
    hide HelpfulRun, Flowing, Agree;
    FlowAt(steps, worlds, source, env, n, a, id);
    var x, y := End(worlds[n], a), End(worlds[n], !a);
    QuietView(id, ViewOf(x, y, id), source(id), env);
  }

  lemma QuietView(id: TransferId, v: View, source: bytes, env: Setting)
    requires Agree(id, v, source, env) && Flowing(v, source, env)
    requires v.sj == None && v.rj == None && v.down == [] && v.up == [] && v.chunks == map[]
    ensures
      || (v.s.status == Offered && (v.r.None? || v.r.value.status == Offered))
      || (v.s.status == Completed && v.r.Some? && v.r.value.status == Completed && v.disk == source)
  {
    hide ChunkAt, Describes;
  }

  /** The clock ends a live transfer exactly when its session is gone, or no worker is busy with it and it has stood still
      for ten minutes while offered, for two minutes in any other status. */
  lemma ClockEndsIff(d: Desk, id: TransferId, alive: bool, now: int)
    requires !Terminal(d.t.status)
    ensures var e := OnTick(d, id, alive, now);
      && (Terminal(e.t.status) <==>
            !alive || (!d.t.working && now - d.t.updatedAt >= if d.t.status == Offered then 600_000_000_000 else 120_000_000_000))
      && (Terminal(e.t.status) ==> e.t.status == Failed && e.t.reason == if alive then TimedOut else SessionEnded)
      && (!Terminal(e.t.status) ==> e == d)
  {
  }

  /** A file is offered exactly when no other is on its way out and fewer than 32 transfers are live. */
  lemma OfferedIff(p: Party, id: TransferId, name: bytes, now: int)
    requires id !in p.transfers
    ensures var q := OfferFile(p, id, name, now);
      && (id in q.transfers <==>
            |ActiveIds(p.transfers)| < 32
            && forall k :: k in p.transfers && p.transfers[k].outgoing ==> Terminal(p.transfers[k].status))
      && (id in q.transfers ==> q.transfers[id].status == Preparing && JobOf(q, id) == Some(Measure))
      && (id !in q.transfers ==> q == p)
  {
    hide ActiveIds;
  }

  /** An offer is put before the user exactly when fewer than 32 transfers are live. */
  lemma OfferTakenIff(p: Party, c: Control, now: int)
    requires c.Offer? && c.id !in p.transfers
    ensures var q := HandleControl(p, c, now);
      && (c.id in q.transfers <==> |ActiveIds(p.transfers)| < 32)
      && (c.id in q.transfers ==>
            var t := q.transfers[c.id];
            t.status == Offered && !t.outgoing && t.name == c.name && t.size == c.size && t.digest == c.digest)
  {
    hide ActiveIds;
  }
}
