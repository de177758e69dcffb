/** Runs of two ends transferring files: many transfers at once, in both directions.

    What one end queued on the control channel reaches the other in order, each message once; the chunks it
    queued reach the other in any order, each at most once. That is what the transport guarantees for the two
    channels, and a chunk may also never arrive. */
module FileRuns {
  import opened Options
  import opened Bytes
  import opened FileMessages
  import opened FileTransfers
  import opened FileAgreement

  /** One end: its records, how many control messages and which chunks of the peer it was handed, its files. */
  datatype Site = Site(p: Party, heard: nat, got: set<nat>, files: map<TransferId, bytes>)

  datatype World = World(a: Site, b: Site)

  datatype Action =
    | Offers(id: TransferId, name: bytes, now: int)
    | UserAccepts(id: TransferId, now: int)
    | UserRejects(id: TransferId, now: int)
    | UserCancels(id: TransferId, now: int)
    | Ticks(id: TransferId, alive: bool, now: int)
    | Stops(id: TransferId, now: int)
    | Works(id: TransferId, ok: bool, scrap: bytes, now: int)
    | HearsControl(now: int)
    | HearsChunk(i: nat)
    | Forgets(id: TransferId)

  datatype Step = Step(byA: bool, action: Action)

  function Record(p: Party, id: TransferId): Option<Transfer> {
    if id in p.transfers then Some(p.transfers[id]) else if id in p.past then Some(p.past[id]) else None
  }

  function FileOf(x: Site, id: TransferId): bytes {
    if id in x.files then x.files[id] else []
  }

  function WriteAt(disk: bytes, offset: nat, data: bytes): bytes {
    var base := if offset <= |disk| then disk[..offset] else disk + seq(offset - |disk|, _ => 0);
    base + data + (if offset + |data| <= |disk| then disk[offset + |data|..] else [])
  }

  /** What a worker reports and leaves in the destination file; the source file never changes. */
  function Perform(job: Job, ok: bool, source: bytes, disk: bytes, scrap: bytes, env: Setting): (Report, bytes) {
    if !ok then (Broken, scrap)
    else match job
      case Measure => (if |source| <= MAX_FILE_BYTES then Measured(|source|, env.hash(source)) else Broken, disk)
      case Create => (Created, [])
      case Read(offset, count) =>
        (if offset + count <= |source| then HasRead(source[offset..offset + count]) else Broken, disk)
      case Write(offset, data) => (Written(data), WriteAt(disk, offset, data))
      case Sync => (Synced, disk)
  }

  /** One end acts. An offer uses an identifier no transfer ever had. */
  ghost function Act(x: Site, y: Site, a: Action, source: TransferId -> bytes, env: Setting): Site {
    match a
    case Offers(id, name, now) =>
      if Record(x.p, id).Some? || Record(y.p, id).Some? then x else x.(p := OfferFile(x.p, id, name, now))
    case UserAccepts(id, now) => x.(p := AcceptFile(x.p, id, now))
    case UserRejects(id, now) => x.(p := RejectFile(x.p, id, now))
    case UserCancels(id, now) => x.(p := CancelFile(x.p, id, now))
    case Ticks(id, alive, now) => x.(p := Tick(x.p, id, alive, now))
    case Stops(id, now) => x.(p := Stop(x.p, id, now))
    case Works(id, ok, scrap, now) =>
      if JobOf(x.p, id).None? then x
      else
        var (report, disk) := Perform(JobOf(x.p, id).value, ok, source(id), FileOf(x, id), scrap, env);
        x.(p := HandleReport(x.p, id, report, now, env), files := x.files[id := disk])
    case HearsControl(now) =>
      if x.heard >= |y.p.controls| then x
      else x.(p := HandleControl(x.p, y.p.controls[x.heard], now), heard := x.heard + 1)
    case HearsChunk(i) =>
      if i >= |y.p.data| || i in x.got then x
      else x.(p := HandleChunk(x.p, y.p.data[i]), got := x.got + {i})
    case Forgets(id) =>
      if id in x.p.transfers && Terminal(x.p.transfers[id].status) then x.(p := Forget(x.p, id)) else x
  }

  ghost function Next(w: World, step: Step, source: TransferId -> bytes, env: Setting): World {
    if step.byA then w.(a := Act(w.a, w.b, step.action, source, env))
    else w.(b := Act(w.b, w.a, step.action, source, env))
  }

  function NewParty(refusals: set<nat>): Party {
    Party(map[], map[], map[], [], [], 0, refusals, 0, 0)
  }

  function NewSite(refusals: set<nat>): Site {
    Site(NewParty(refusals), 0, {}, map[])
  }

  // ----- what concerns one transfer -----

  function Of(cs: seq<Control>, id: TransferId): seq<Control> {
    if cs == [] then [] else (if cs[0].id == id then [cs[0]] else []) + Of(cs[1..], id)
  }

  /** The chunks of a transfer that may still arrive. */
  function Loose(data: seq<Chunk>, got: set<nat>, id: TransferId): map<nat, bytes> {
    map i: nat | i < |data| && i !in got && data[i].id == id :: data[i].data
  }

  function ViewOf(x: Site, y: Site, id: TransferId): View
    requires Record(x.p, id).Some? && y.heard <= |x.p.controls| && x.heard <= |y.p.controls|
  {
    View(Record(x.p, id).value, JobOf(x.p, id), Record(y.p, id), JobOf(y.p, id),
         Of(x.p.controls[y.heard..], id), Of(y.p.controls[x.heard..], id),
         Loose(x.p.data, y.got, id), FileOf(y, id))
  }

  ghost predicate Unused(x: Site, y: Site, id: TransferId)
    requires y.heard <= |x.p.controls| && x.heard <= |y.p.controls|
  {
    && Record(x.p, id).None? && Record(y.p, id).None?
    && JobOf(x.p, id).None? && JobOf(y.p, id).None?
    && Of(x.p.controls[y.heard..], id) == [] && Of(y.p.controls[x.heard..], id) == []
    && Loose(x.p.data, y.got, id) == map[] && Loose(y.p.data, x.got, id) == map[]
  }

  /** The transfer goes from x to y. */
  ghost predicate Runs(x: Site, y: Site, id: TransferId, source: bytes, env: Setting)
    requires y.heard <= |x.p.controls| && x.heard <= |y.p.controls|
  {
    && Record(x.p, id).Some?
    && Agree(id, ViewOf(x, y, id), source, env)
    && Loose(y.p.data, x.got, id) == map[]
  }

  ghost predicate Settled(x: Site, y: Site, id: TransferId, source: bytes, env: Setting)
    requires y.heard <= |x.p.controls| && x.heard <= |y.p.controls|
  {
    Unused(x, y, id) || Runs(x, y, id, source, env) || Runs(y, x, id, source, env)
  }

  /** Pruned records had ended, and their identifiers are not used again. */
  ghost predicate Tidy(p: Party) {
    && p.transfers.Keys !! p.past.Keys
    && forall id :: id in p.past ==> Terminal(p.past[id].status)
  }

  // ----- an event of one transfer leaves the others alone -----

  lemma {:induction false} OfMore(cs: seq<Control>, more: seq<Control>, id: TransferId)
    ensures Of(cs + more, id) == Of(cs, id) + Of(more, id)
  {
    if cs == [] {
      assert cs + more == more;
    } else {
      OfMore(cs[1..], more, id);
      assert (cs + more)[1..] == cs[1..] + more;
    }
  }

  /** Messages that all concern one transfer. */
  predicate Own(told: seq<Control>, id: TransferId) {
    forall i :: 0 <= i < |told| ==> told[i].id == id
  }

  lemma {:induction false} OfOwn(told: seq<Control>, id: TransferId, k: TransferId)
    requires Own(told, id)
    ensures Of(told, k) == if k == id then told else []
  {
    if told != [] {
      OfOwn(told[1..], id, k);
    }
  }

  lemma OfSuffix(cs: seq<Control>, told: seq<Control>, n: nat, id: TransferId, k: TransferId)
    requires n <= |cs| && Own(told, id)
    ensures Of((cs + told)[n..], k) == Of(cs[n..], k) + (if k == id then told else [])
  {
    assert (cs + told)[n..] == cs[n..] + told;
    OfMore(cs[n..], told, k);
    OfOwn(told, id, k);
  }

  lemma LooseMore(data: seq<Chunk>, got: set<nat>, id: TransferId, sent: seq<bytes>, k: TransferId)
    requires |sent| <= 1 && forall i :: i in got ==> i < |data|
    ensures Loose(data + Chunks(id, sent), got, k)
      == if k == id then WithChunks(Loose(data, got, k), |data|, sent) else Loose(data, got, k)
  {
    var more := data + Chunks(id, sent);
    if sent == [] {
      assert more == data;
    } else {
      OneChunk(Loose(data, got, k), |data|, sent[0]);
      assert sent == [sent[0]] && more == data + [Chunk(id, sent[0])];
      LooseOne(data, got, Chunk(id, sent[0]), k);
    }
  }

  lemma LooseOne(data: seq<Chunk>, got: set<nat>, c: Chunk, k: TransferId)
    requires forall i :: i in got ==> i < |data|
    ensures Loose(data + [c], got, k) == if k == c.id then Loose(data, got, k)[|data| := c.data] else Loose(data, got, k)
  {
  }

  /** What filing a desk does to the record, the worker, the messages and the chunks of any transfer. */
  lemma FileEffect(p: Party, heard: nat, got: set<nat>, id: TransferId, d: Desk, k: TransferId)
    requires id in p.transfers && Own(d.told, id) && |d.sent| <= 1 && heard <= |p.controls|
    requires forall i :: i in got ==> i < |p.data|
    ensures var q := File(p, id, d);
      && Record(q, k) == (if k == id then Some(d.t) else Record(p, k))
      && JobOf(q, k) == (if k == id then d.job else JobOf(p, k))
      && heard <= |q.controls|
      && Of(q.controls[heard..], k) == Of(p.controls[heard..], k) + (if k == id then d.told else [])
      && Loose(q.data, got, k) == (if k == id then WithChunks(Loose(p.data, got, k), |p.data|, d.sent) else Loose(p.data, got, k))
  {
    OfSuffix(p.controls, d.told, heard, id, k);
    LooseMore(p.data, got, id, d.sent, k);
  }

  ghost predicate Sound(x: Site, y: Site) {
    && Tidy(x.p) && Tidy(y.p)
    && x.heard <= |y.p.controls| && y.heard <= |x.p.controls|
    && (forall i :: i in x.got ==> i < |y.p.data|)
    && (forall i :: i in y.got ==> i < |x.p.data|)
  }

  ghost predicate AllSettled(x: Site, y: Site, source: TransferId -> bytes, env: Setting)
    requires Sound(x, y)
  {
    forall id :: Settled(x, y, id, source(id), env)
  }

  ghost predicate OthersSettled(x: Site, y: Site, id: TransferId, source: TransferId -> bytes, env: Setting)
    requires Sound(x, y)
  {
    forall k :: k != id ==> Settled(x, y, k, source(k), env)
  }

  /** One end files a desk for a transfer it sends or receives: every transfer is still settled. */
  lemma Filed(x: Site, y: Site, id: TransferId, d: Desk, source: TransferId -> bytes, env: Setting)
    requires Sound(x, y) && OthersSettled(x, y, id, source, env) && id in x.p.transfers
    requires Own(d.told, id) && |d.sent| <= 1
    requires
      || (Loose(y.p.data, x.got, id) == map[]
          && Agree(id, SenderDid(ViewOf(x, y, id), d, |x.p.data|), source(id), env))
      || (Loose(x.p.data, y.got, id) == map[] && d.sent == [] && Record(y.p, id).Some?
          && Agree(id, ReceiverDid(ViewOf(y, x, id), d), source(id), env))
    ensures Sound(x.(p := File(x.p, id, d)), y)
    ensures AllSettled(x.(p := File(x.p, id, d)), y, source, env)
  {
    hide Agree, Of, Loose, WithChunks;
    var z := x.(p := File(x.p, id, d));
    forall k
      ensures Settled(z, y, k, source(k), env)
    {
      FileEffect(x.p, y.heard, y.got, id, d, k);
      assert k != id ==> Settled(x, y, k, source(k), env);
      if k == id {
        NothingSent(Loose(x.p.data, y.got, id), |x.p.data|);
        if Agree(id, SenderDid(ViewOf(x, y, id), d, |x.p.data|), source(id), env) && Loose(y.p.data, x.got, id) == map[] {
          assert ViewOf(z, y, id) == SenderDid(ViewOf(x, y, id), d, |x.p.data|);
          assert Runs(z, y, id, source(id), env);
        } else {
          assert ViewOf(y, z, id) == ReceiverDid(ViewOf(y, x, id), d);
          assert Runs(y, z, id, source(id), env);
        }
      } else if Runs(x, y, k, source(k), env) {
        assert ViewOf(z, y, k) == ViewOf(x, y, k);
      } else if Runs(y, x, k, source(k), env) {
        assert ViewOf(y, z, k) == ViewOf(y, x, k);
      }
    }
  }

  lemma NothingSent(chunks: map<nat, bytes>, next: nat)
    ensures WithChunks(chunks, next, []) == chunks
  {
  }

  /** A live record belongs to a transfer that runs one way or the other. */
  lemma RunsSomeWay(x: Site, y: Site, id: TransferId, source: bytes, env: Setting)
    requires Sound(x, y) && Settled(x, y, id, source, env) && Record(x.p, id).Some?
    ensures if Record(x.p, id).value.outgoing then Runs(x, y, id, source, env) else Runs(y, x, id, source, env)
  {
  }

  /** The desk of an event that leaves the record alone or ends the transfer without completing it. */
  predicate StaysOrEnds(id: TransferId, d: Desk, e: Desk) {
    || e == d
    || (&& !Terminal(d.t.status) && Dead(e.t.status) && e.t.reason != Mismatch && e.sent == []
        && e.t == d.t.(status := e.t.status, reason := e.t.reason, updatedAt := e.t.updatedAt, working := e.t.working,
                       fileOpen := e.t.fileOpen)
        && (e.told == [] || e.told == [Cancel(id)] || (e.told == [Reject(id)] && !d.t.outgoing && d.t.status == Offered)))
  }

  lemma FiledOrEnded(x: Site, y: Site, id: TransferId, e: Desk, source: TransferId -> bytes, env: Setting)
    requires Sound(x, y) && AllSettled(x, y, source, env) && id in x.p.transfers
    requires StaysOrEnds(id, DeskOf(x.p, id), e)
    ensures Sound(x.(p := File(x.p, id, e)), y)
    ensures AllSettled(x.(p := File(x.p, id, e)), y, source, env)
  {
    hide Of, Loose, WithChunks, Agree, Unused;
    assert Settled(x, y, id, source(id), env);
    RunsSomeWay(x, y, id, source(id), env);
    assert OthersSettled(x, y, id, source, env);
    if x.p.transfers[id].outgoing {
      var v := ViewOf(x, y, id);
      if e == DeskOf(x.p, id) {
        NothingSent(v.chunks, |x.p.data|);
        assert SenderDid(v, e, |x.p.data|) == v;
      } else {
        SenderEnds(id, v, source(id), env, e, |x.p.data|);
      }
    } else {
      var v := ViewOf(y, x, id);
      NoneLoose(x, y, id, source(id), env);
      if e == DeskOf(x.p, id) {
        assert ReceiverDid(v, e) == v;
      } else {
        ReceiverEnds(id, v, source(id), env, e, v.disk);
      }
    }
    Filed(x, y, id, e, source, env);
  }

  lemma NoneLoose(x: Site, y: Site, id: TransferId, source: bytes, env: Setting)
    requires Sound(x, y) && Runs(y, x, id, source, env)
    ensures Loose(x.p.data, y.got, id) == map[]
  {
  }

  /** The user gives up or refuses, the clock runs out, the session ends, the client stops. */
  lemma GivingUpSettles(x: Site, y: Site, a: Action, source: TransferId -> bytes, env: Setting)
    requires Sound(x, y) && AllSettled(x, y, source, env)
    requires a.UserRejects? || a.UserCancels? || a.Ticks? || a.Stops?
    ensures Sound(Act(x, y, a, source, env), y) && AllSettled(Act(x, y, a, source, env), y, source, env)
  {
    hide Settled, Sound;
    if a.id in x.p.transfers {
      var d := DeskOf(x.p, a.id);
      var e :=
        if a.UserRejects? then OnUserReject(d, a.id, a.now)
        else if a.UserCancels? then OnUserCancel(d, a.id, a.now)
        else if a.Ticks? then OnTick(d, a.id, a.alive, a.now)
        else OnStop(d, a.now);
      FiledOrEnded(x, y, a.id, e, source, env);
    } else {
      assert Act(x, y, a, source, env) == x;
    }
  }

  lemma AcceptingSettles(x: Site, y: Site, id: TransferId, now: int, source: TransferId -> bytes, env: Setting)
    requires Sound(x, y) && AllSettled(x, y, source, env)
    ensures Sound(x.(p := AcceptFile(x.p, id, now)), y) && AllSettled(x.(p := AcceptFile(x.p, id, now)), y, source, env)
  {
    hide Of, Loose, WithChunks, Agree, Unused;
    if id in x.p.transfers && !Receiving(x.p.transfers) {
      var d := DeskOf(x.p, id);
      assert Settled(x, y, id, source(id), env);
      RunsSomeWay(x, y, id, source(id), env);
      if d.t.outgoing {
        FiledOrEnded(x, y, id, d, source, env);
      } else {
        NoneLoose(x, y, id, source(id), env);
        ReceiverAccepts(id, ViewOf(y, x, id), source(id), env, d, now);
        assert OthersSettled(x, y, id, source, env);
        Filed(x, y, id, OnUserAccept(d, now), source, env);
      }
    } else {
      assert x.(p := AcceptFile(x.p, id, now)) == x;
    }
  }

  /** Nothing that concerns this transfer differs. */
  ghost predicate Alike(x: Site, z: Site, y: Site, k: TransferId)
    requires x.heard <= |y.p.controls| && y.heard <= |x.p.controls|
    requires z.heard <= |y.p.controls| && y.heard <= |z.p.controls|
  {
    && Record(z.p, k) == Record(x.p, k)
    && JobOf(z.p, k) == JobOf(x.p, k)
    && Of(z.p.controls[y.heard..], k) == Of(x.p.controls[y.heard..], k)
    && Of(y.p.controls[z.heard..], k) == Of(y.p.controls[x.heard..], k)
    && Loose(z.p.data, y.got, k) == Loose(x.p.data, y.got, k)
    && Loose(y.p.data, z.got, k) == Loose(y.p.data, x.got, k)
    && FileOf(z, k) == FileOf(x, k)
  }

  lemma AlikeSettled(x: Site, z: Site, y: Site, k: TransferId, source: bytes, env: Setting)
    requires Sound(x, y) && Sound(z, y) && Alike(x, z, y, k) && Settled(x, y, k, source, env)
    ensures Settled(z, y, k, source, env)
  {
    hide Of, Agree, Loose, Record, JobOf, FileOf;
    if Runs(x, y, k, source, env) {
      assert ViewOf(z, y, k) == ViewOf(x, y, k);
    } else if Runs(y, x, k, source, env) {
      assert ViewOf(y, z, k) == ViewOf(y, x, k);
    }
  }

  // ----- workers -----

  lemma ReportOwn(d: Desk, id: TransferId, report: Report, now: int, env: Setting)
    requires d.told == [] && d.sent == []
    ensures Own(OnReport(d, id, report, now, env).told, id) && |OnReport(d, id, report, now, env).sent| <= 1
  {
  }

  lemma PerformedBySender(id: TransferId, v: View, source: bytes, env: Setting, ok: bool, disk: bytes, scrap: bytes)
    requires Agree(id, v, source, env) && v.sj.Some? && !Terminal(v.s.status)
    ensures SenderReport(v.sj.value, Perform(v.sj.value, ok, source, disk, scrap, env).0, source, env)
  {
    hide GoodUp, GoodDown, GoodChunks, GoodReceiver;
  }

  lemma PerformedByReceiver(id: TransferId, v: View, source: bytes, env: Setting, ok: bool, scrap: bytes)
    requires Agree(id, v, source, env) && v.r.Some? && v.rj.Some? && !Terminal(v.r.value.status)
    ensures var (report, disk) := Perform(v.rj.value, ok, source, v.disk, scrap, env);
      ReceiverReport(v.rj.value, report, v.disk, disk)
  {
    hide GoodUp, GoodDown, GoodChunks, GoodSender;
    var (report, disk) := Perform(v.rj.value, ok, source, v.disk, scrap, env);
    if ok && v.rj.value.Write? && v.rj.value.offset == |v.disk| {
      assert v.disk[..|v.disk|] == v.disk;
      assert disk == v.disk + v.rj.value.data;
    }
  }

  lemma SenderWorks(x: Site, y: Site, id: TransferId, ok: bool, scrap: bytes, now: int, source: TransferId -> bytes, env: Setting)
    requires Sound(x, y) && Runs(x, y, id, source(id), env) && id in x.p.transfers && JobOf(x.p, id).Some?
    ensures var (report, disk) := Perform(JobOf(x.p, id).value, ok, source(id), FileOf(x, id), scrap, env);
      Agree(id, SenderDid(ViewOf(x, y, id), OnReport(DeskOf(x.p, id), id, report, now, env), |x.p.data|), source(id), env)
  {
    hide Of, Agree, OnReport;
    var v := ViewOf(x, y, id);
    var (report, disk) := Perform(JobOf(x.p, id).value, ok, source(id), FileOf(x, id), scrap, env);
    if Terminal(v.s.status) {
      EndedReport(DeskOf(x.p, id), id, report, now, env);
      SenderReports(id, v, source(id), env, DeskOf(x.p, id), |x.p.data|, Broken, now);
      EndedReport(DeskOf(x.p, id), id, Broken, now, env);
    } else {
      PerformedBySender(id, v, source(id), env, ok, FileOf(x, id), scrap);
      SenderReports(id, v, source(id), env, DeskOf(x.p, id), |x.p.data|, report, now);
    }
  }

  lemma EndedReport(d: Desk, id: TransferId, report: Report, now: int, env: Setting)
    requires Terminal(d.t.status)
    ensures OnReport(d, id, report, now, env) == d.(job := None)
  {
  }

  lemma ReceiverWorks(x: Site, y: Site, id: TransferId, ok: bool, scrap: bytes, now: int, source: TransferId -> bytes, env: Setting)
    requires Sound(x, y) && Runs(y, x, id, source(id), env) && id in x.p.transfers && JobOf(x.p, id).Some?
    ensures var (report, disk) := Perform(JobOf(x.p, id).value, ok, source(id), FileOf(x, id), scrap, env);
      && Agree(id, ReceiverDid(ViewOf(y, x, id), OnReport(DeskOf(x.p, id), id, report, now, env)).(disk := disk), source(id), env)
      && (OnReport(DeskOf(x.p, id), id, report, now, env).sent == [])
  {
    hide Of, Agree, OnReport, Loose;
    var v := ViewOf(y, x, id);
    var (report, disk) := Perform(JobOf(x.p, id).value, ok, source(id), FileOf(x, id), scrap, env);
    if !Terminal(v.r.value.status) {
      PerformedByReceiver(id, v, source(id), env, ok, scrap);
    }
    OnlyReadsSend(DeskOf(x.p, id), id, report, now, env);
    if Terminal(v.r.value.status) {
      EndedReport(DeskOf(x.p, id), id, report, now, env);
      EndedReport(DeskOf(x.p, id), id, Broken, now, env);
      ReceiverReports(id, v, source(id), env, DeskOf(x.p, id), Broken, disk, now);
    } else {
      PerformedByReceiver(id, v, source(id), env, ok, scrap);
      ReceiverReports(id, v, source(id), env, DeskOf(x.p, id), report, disk, now);
    }
  }

  /** Only a chunk that was read is sent. */
  lemma OnlyReadsSend(d: Desk, id: TransferId, report: Report, now: int, env: Setting)
    requires Terminal(d.t.status) || !report.HasRead?
    ensures OnReport(d, id, report, now, env).sent == d.sent
  {
  }

  /** The same site with the work done but not yet reported. */
  function Worked(x: Site, id: TransferId, disk: bytes): Site {
    x.(files := x.files[id := disk])
  }

  lemma WorkedViews(x: Site, y: Site, id: TransferId, disk: bytes, source: TransferId -> bytes, env: Setting)
    requires Sound(x, y) && AllSettled(x, y, source, env)
    ensures Sound(Worked(x, id, disk), y) && OthersSettled(Worked(x, id, disk), y, id, source, env)
    ensures Record(x.p, id).Some? ==> ViewOf(Worked(x, id, disk), y, id) == ViewOf(x, y, id)
    ensures Record(y.p, id).Some? ==> ViewOf(y, Worked(x, id, disk), id) == ViewOf(y, x, id).(disk := disk)
  {
    hide Of, Agree, Loose, Settled;
    var z := Worked(x, id, disk);
    forall k | k != id
      ensures Settled(z, y, k, source(k), env)
    {
      assert Settled(x, y, k, source(k), env);
      AlikeSettled(x, z, y, k, source(k), env);
    }
  }

  lemma WorkSettles(x: Site, y: Site, id: TransferId, ok: bool, scrap: bytes, now: int, source: TransferId -> bytes, env: Setting)
    requires Sound(x, y) && AllSettled(x, y, source, env) && JobOf(x.p, id).Some? && id in x.p.transfers
    ensures var z := Act(x, y, Works(id, ok, scrap, now), source, env); Sound(z, y) && AllSettled(z, y, source, env)
  {
    hide Of, Agree, OnReport, Loose, Unused, Sound, Tidy, Perform, File, AllSettled, OthersSettled;
    var (report, disk) := Perform(JobOf(x.p, id).value, ok, source(id), FileOf(x, id), scrap, env);
    var e := OnReport(DeskOf(x.p, id), id, report, now, env);
    ReportOwn(DeskOf(x.p, id), id, report, now, env);
    WayOf(x, y, id, source, env);
    WorkedViews(x, y, id, disk, source, env);
    if x.p.transfers[id].outgoing {
      SenderWorks(x, y, id, ok, scrap, now, source, env);
    } else {
      ReceiverWorks(x, y, id, ok, scrap, now, source, env);
      NoneLoose(x, y, id, source(id), env);
    }
    Filed(Worked(x, id, disk), y, id, e, source, env);
  }

  lemma WayOf(x: Site, y: Site, id: TransferId, source: TransferId -> bytes, env: Setting)
    requires Sound(x, y) && AllSettled(x, y, source, env) && id in x.p.transfers
    ensures if x.p.transfers[id].outgoing then Runs(x, y, id, source(id), env) else Runs(y, x, id, source(id), env)
  {
    assert Settled(x, y, id, source(id), env);
    RunsSomeWay(x, y, id, source(id), env);
  }

  /** The report of a worker whose record was pruned is dropped; its work still touched the file. */
  lemma PrunedWorkSettles(x: Site, y: Site, id: TransferId, ok: bool, scrap: bytes, now: int, source: TransferId -> bytes, env: Setting)
    requires Sound(x, y) && AllSettled(x, y, source, env) && JobOf(x.p, id).Some? && id !in x.p.transfers
    ensures var z := Act(x, y, Works(id, ok, scrap, now), source, env); Sound(z, y) && AllSettled(z, y, source, env)
  {
    hide Of, Agree, Loose, Settled, Perform, Sound;
    var a := Works(id, ok, scrap, now);
    var (report, disk) := Perform(JobOf(x.p, id).value, ok, source(id), FileOf(x, id), scrap, env);
    var z := x.(p := x.p.(jobs := x.p.jobs - {id}), files := x.files[id := disk]);
    assert Act(x, y, a, source, env) == z;
    DroppedJobSound(x, y, id, disk);
    SoundBounds(x, y);
    SoundBounds(z, y);
    forall k
      ensures Settled(z, y, k, source(k), env)
    {
      assert Settled(x, y, k, source(k), env);
      if k == id {
        PrunedWork(x, y, id, disk, source(id), env);
      } else {
        AlikeSettled(x, z, y, k, source(k), env);
      }
    }
  }

  lemma SoundBounds(x: Site, y: Site)
    requires Sound(x, y)
    ensures x.heard <= |y.p.controls| && y.heard <= |x.p.controls|
  {
  }

  lemma DroppedJobSound(x: Site, y: Site, id: TransferId, disk: bytes)
    requires Sound(x, y)
    ensures Sound(x.(p := x.p.(jobs := x.p.jobs - {id}), files := x.files[id := disk]), y)
  {
  }

  lemma PrunedWork(x: Site, y: Site, id: TransferId, disk: bytes, source: bytes, env: Setting)
    requires Sound(x, y) && Settled(x, y, id, source, env) && JobOf(x.p, id).Some? && id !in x.p.transfers
    ensures Settled(x.(p := x.p.(jobs := x.p.jobs - {id}), files := x.files[id := disk]), y, id, source, env)
  {
    hide Of, Loose, Agree;
    var z := x.(p := x.p.(jobs := x.p.jobs - {id}), files := x.files[id := disk]);
    if Runs(x, y, id, source, env) {
      SenderGone(id, ViewOf(x, y, id), source, env);
      assert ViewOf(z, y, id) == ViewOf(x, y, id).(sj := None);
      assert Runs(z, y, id, source, env);
    } else {
      var v := ViewOf(y, x, id);
      NoWorkWithoutRecord(id, v, source, env);
      var e := Desk(v.r.value, None, [], [], 0, {}, 0);
      ReceiverGone(id, v, source, env, e, disk);
      assert ViewOf(y, z, id) == ReceiverDid(v, e).(disk := disk);
      assert Runs(y, z, id, source, env);
    }
  }

  lemma NoWorkWithoutRecord(id: TransferId, v: View, source: bytes, env: Setting)
    requires Agree(id, v, source, env) && v.rj.Some?
    ensures v.r.Some?
  {
  }

  // ----- messages -----

  lemma OfNext(cs: seq<Control>, n: nat, k: TransferId)
    requires n < |cs|
    ensures Of(cs[n..], k) == (if cs[n].id == k then [cs[n]] else []) + Of(cs[n + 1..], k)
  {
    assert cs[n..][1..] == cs[n + 1..];
  }

  /** The same site with the next control message handed over but not yet handled. */
  function Heard(x: Site): Site {
    x.(heard := x.heard + 1)
  }

  lemma HeardOthers(x: Site, y: Site, source: TransferId -> bytes, env: Setting)
    requires Sound(x, y) && AllSettled(x, y, source, env) && x.heard < |y.p.controls|
    ensures Sound(Heard(x), y)
    ensures OthersSettled(Heard(x), y, y.p.controls[x.heard].id, source, env)
  {
    hide Of, Agree, Loose, Settled;
    forall k | k != y.p.controls[x.heard].id
      ensures Settled(Heard(x), y, k, source(k), env)
    {
      assert Settled(x, y, k, source(k), env);
      OfNext(y.p.controls, x.heard, k);
      AlikeSettled(x, Heard(x), y, k, source(k), env);
    }
  }

  lemma ControlOwn(d: Desk, c: Control, now: int)
    requires d.told == [] && d.sent == []
    ensures OnControl(d, c, now).told == [] && OnControl(d, c, now).sent == []
  {
  }

  /** A control message for a live record. */
  lemma KnownControlSettles(x: Site, y: Site, now: int, source: TransferId -> bytes, env: Setting)
    requires Sound(x, y) && AllSettled(x, y, source, env) && x.heard < |y.p.controls|
    requires var c := y.p.controls[x.heard]; c.id in x.p.transfers
    ensures var z := Act(x, y, HearsControl(now), source, env); Sound(z, y) && AllSettled(z, y, source, env)
  {
    hide Of, Agree, OnControl, Loose, Unused, Tidy, File, OthersSettled;
    var c := y.p.controls[x.heard];
    var id := c.id;
    var d := DeskOf(x.p, id);
    ControlOwn(d, c, now);
    WayOf(x, y, id, source, env);
    HeardOthers(x, y, source, env);
    OfNext(y.p.controls, x.heard, id);
    var u := Heard(x);
    assert DeskOf(u.p, id) == d;
    if d.t.outgoing {
      var v := ViewOf(x, y, id);
      assert ViewOf(u, y, id) == v.(up := v.up[1..]);
      SenderHears(id, v, source(id), env, d, |x.p.data|, now);
    } else {
      var v := ViewOf(y, x, id);
      assert ViewOf(y, u, id) == v.(down := v.down[1..]);
      DownKinds(id, v, source(id), env);
      ReceiverHearsCancel(id, v, source(id), env, d, now);
      NoneLoose(x, y, id, source(id), env);
    }
    Filed(u, y, id, OnControl(d, c, now), source, env);
  }

  /** A control message for no live record: an offer creates one, anything else is ignored. */
  lemma UnknownControlSettles(x: Site, y: Site, now: int, source: TransferId -> bytes, env: Setting)
    requires Sound(x, y) && AllSettled(x, y, source, env) && x.heard < |y.p.controls|
    requires var c := y.p.controls[x.heard]; c.id !in x.p.transfers
    ensures var z := Act(x, y, HearsControl(now), source, env); Sound(z, y) && AllSettled(z, y, source, env)
  {
    hide Of, Agree, Loose, Unused, Settled;
    var id := y.p.controls[x.heard].id;
    var z := Act(x, y, HearsControl(now), source, env);
    HeardOthers(x, y, source, env);
    assert Settled(x, y, id, source(id), env);
    UnknownControl(x, y, now, source, env);
    forall k
      ensures Settled(z, y, k, source(k), env)
    {
      if k != id {
        assert Settled(Heard(x), y, k, source(k), env);
        AlikeSettled(Heard(x), z, y, k, source(k), env);
      }
    }
  }

  lemma OldSenderIgnores(x: Site, y: Site, now: int, source: TransferId -> bytes, env: Setting)
    requires Sound(x, y) && x.heard < |y.p.controls|
    requires var id := y.p.controls[x.heard].id; id !in x.p.transfers && Settled(x, y, id, source(id), env)
    requires var r := Record(x.p, y.p.controls[x.heard].id); r.Some? && r.value.outgoing
    ensures var z := Act(x, y, HearsControl(now), source, env);
      Sound(z, y) && Settled(z, y, y.p.controls[x.heard].id, source(y.p.controls[x.heard].id), env)
  {
    hide Of, Agree, Loose;
    var id := y.p.controls[x.heard].id;
    var z := Act(x, y, HearsControl(now), source, env);
    OfNext(y.p.controls, x.heard, id);
    RunsSomeWay(x, y, id, source(id), env);
    var v := ViewOf(x, y, id);
    UpKinds(id, v, source(id), env);
    SenderIgnores(id, v, source(id), env);
    assert ViewOf(z, y, id) == v.(up := v.up[1..]);
    assert Runs(z, y, id, source(id), env);
  }

  lemma UnknownControl(x: Site, y: Site, now: int, source: TransferId -> bytes, env: Setting)
    requires Sound(x, y) && x.heard < |y.p.controls|
    requires var id := y.p.controls[x.heard].id; id !in x.p.transfers && Settled(x, y, id, source(id), env)
    ensures var z := Act(x, y, HearsControl(now), source, env);
      Sound(z, y) && Settled(z, y, y.p.controls[x.heard].id, source(y.p.controls[x.heard].id), env)
  {
    hide Of, Agree, Loose;
    var c := y.p.controls[x.heard];
    var id := c.id;
    var z := Act(x, y, HearsControl(now), source, env);
    OfNext(y.p.controls, x.heard, id);
    if Record(x.p, id).Some? && Record(x.p, id).value.outgoing {
      OldSenderIgnores(x, y, now, source, env);
    } else {
      if Record(x.p, id).Some? {
        RunsSomeWay(x, y, id, source(id), env);
      } else {
        assert Of(y.p.controls[x.heard..], id)[0] == c;
      }
      assert Runs(y, x, id, source(id), env);
      DownKinds(id, ViewOf(y, x, id), source(id), env);
      NoneLoose(x, y, id, source(id), env);
      if c == Cancel(id) {
        CancelForNoRecord(x, y, now, source, env);
      } else {
        OfferForNoRecord(x, y, now, source, env);
      }
    }
  }

  lemma CancelForNoRecord(x: Site, y: Site, now: int, source: TransferId -> bytes, env: Setting)
    requires Sound(x, y) && x.heard < |y.p.controls|
    requires var c := y.p.controls[x.heard]; c == Cancel(c.id) && c.id !in x.p.transfers && Runs(y, x, c.id, source(c.id), env)
    ensures var z := Act(x, y, HearsControl(now), source, env);
      Sound(z, y) && Settled(z, y, y.p.controls[x.heard].id, source(y.p.controls[x.heard].id), env)
  {
    hide Of, Agree, Loose;
    var id := y.p.controls[x.heard].id;
    var z := Act(x, y, HearsControl(now), source, env);
    OfNext(y.p.controls, x.heard, id);
    var v := ViewOf(y, x, id);
    ReceiverHearsCancel(id, v, source(id), env, Desk(v.s, None, [], [], 0, {}, 0), now);
    assert ViewOf(y, z, id) == v.(down := v.down[1..]);
    assert Runs(y, z, id, source(id), env);
  }

  lemma OfferForNoRecord(x: Site, y: Site, now: int, source: TransferId -> bytes, env: Setting)
    requires Sound(x, y) && x.heard < |y.p.controls|
    requires var c := y.p.controls[x.heard];
      c.id !in x.p.transfers && Runs(y, x, c.id, source(c.id), env) && OfferOf(c.id, c, source(c.id), env) && Record(x.p, c.id).None?
    requires Loose(x.p.data, y.got, y.p.controls[x.heard].id) == map[]
    ensures var z := Act(x, y, HearsControl(now), source, env);
      Sound(z, y) && Settled(z, y, y.p.controls[x.heard].id, source(y.p.controls[x.heard].id), env)
  {
    hide Of, Agree, Loose;
    var c := y.p.controls[x.heard];
    var id := c.id;
    var z := Act(x, y, HearsControl(now), source, env);
    OfNext(y.p.controls, x.heard, id);
    var v := ViewOf(y, x, id);
    var rest := v.(down := v.down[1..]);
    var taken := |ActiveIds(x.p.transfers)| < MAX_RECORDS;
    ReceiverHearsOffer(id, v, source(id), env, taken, now);
    assert ViewOf(y, z, id) == if taken then rest.(r := Some(NewTransfer(false, c.name, Offered, c.size, c.digest, false, now))) else rest;
    assert Runs(y, z, id, source(id), env);
  }

  // ----- chunks -----

  lemma LooseTaken(data: seq<Chunk>, got: set<nat>, i: nat, k: TransferId)
    requires i < |data| && i !in got
    ensures Loose(data, got + {i}, k) == if data[i].id == k then Loose(data, got, k) - {i} else Loose(data, got, k)
    ensures data[i].id == k ==> i in Loose(data, got, k) && Loose(data, got, k)[i] == data[i].data
  {
  }

  function Taken(x: Site, i: nat): Site {
    x.(got := x.got + {i})
  }

  lemma TakenOthers(x: Site, y: Site, i: nat, source: TransferId -> bytes, env: Setting)
    requires Sound(x, y) && AllSettled(x, y, source, env) && i < |y.p.data| && i !in x.got
    ensures Sound(Taken(x, i), y) && OthersSettled(Taken(x, i), y, y.p.data[i].id, source, env)
  {
    hide Of, Agree, Loose, Settled;
    forall k | k != y.p.data[i].id
      ensures Settled(Taken(x, i), y, k, source(k), env)
    {
      assert Settled(x, y, k, source(k), env);
      LooseTaken(y.p.data, x.got, i, k);
      AlikeSettled(x, Taken(x, i), y, k, source(k), env);
    }
  }

  /** A chunk on its way belongs to a transfer from the other end, and that end's record is at work or has ended. */
  lemma ChunkSettles(x: Site, y: Site, i: nat, source: TransferId -> bytes, env: Setting)
    requires Sound(x, y) && AllSettled(x, y, source, env) && i < |y.p.data| && i !in x.got
    ensures var z := Act(x, y, HearsChunk(i), source, env); Sound(z, y) && AllSettled(z, y, source, env)
  {
    hide Of, Agree, Loose, Unused, Tidy, File, OnChunk;
    var c := y.p.data[i];
    var id := c.id;
    var u := Taken(x, i);
    var z := Act(x, y, HearsChunk(i), source, env);
    assert Settled(x, y, id, source(id), env);
    LooseTaken(y.p.data, x.got, i, id);
    ChunkWay(x, y, i, source(id), env);
    TakenOthers(x, y, i, source, env);
    NoneLoose(x, y, id, source(id), env);
    var v := ViewOf(y, x, id);
    assert ViewOf(y, u, id) == v.(chunks := v.chunks - {i});
    if id in x.p.transfers {
      var d := DeskOf(x.p, id);
      assert DeskOf(u.p, id) == d;
      ReceiverTakesChunk(id, v, source(id), env, d, i);
      ChunkOwn(d, c.data);
      Filed(u, y, id, OnChunk(d, c.data), source, env);
    } else {
      PastEnded(x, y, id);
      EndedDropsChunk(id, v, source(id), env, i);
      assert z == u;
      assert Runs(y, z, id, source(id), env);
      forall k
        ensures Settled(z, y, k, source(k), env)
      {
        assert k != id ==> Settled(u, y, k, source(k), env);
      }
    }
  }

  lemma PastEnded(x: Site, y: Site, id: TransferId)
    requires Sound(x, y) && id !in x.p.transfers && Record(x.p, id).Some?
    ensures Terminal(Record(x.p, id).value.status)
  {
  }

  lemma ChunkWay(x: Site, y: Site, i: nat, source: bytes, env: Setting)
    requires Sound(x, y) && i < |y.p.data| && i !in x.got && Settled(x, y, y.p.data[i].id, source, env)
    ensures Runs(y, x, y.p.data[i].id, source, env)
    ensures Record(x.p, y.p.data[i].id).Some?
  {
    LooseTaken(y.p.data, x.got, i, y.p.data[i].id);
    hide Loose, Of;
  }

  lemma ChunkOwn(d: Desk, data: bytes)
    ensures OnChunk(d, data).told == d.told && OnChunk(d, data).sent == d.sent
  {
  }

  lemma EndedDropsChunk(id: TransferId, v: View, source: bytes, env: Setting, i: nat)
    requires Agree(id, v, source, env) && v.r.Some? && Terminal(v.r.value.status) && i in v.chunks
    ensures Agree(id, v.(chunks := v.chunks - {i}), source, env)
  {
    hide ChunkAt, Writing;
  }

  // ----- new and forgotten records -----

  lemma OfferSettles(x: Site, y: Site, id: TransferId, name: bytes, now: int, source: TransferId -> bytes, env: Setting)
    requires Sound(x, y) && AllSettled(x, y, source, env)
    ensures var z := Act(x, y, Offers(id, name, now), source, env); Sound(z, y) && AllSettled(z, y, source, env)
  {
    hide Of, Loose, Agree, Settled, Act, Alike, Tidy;
    var z := Act(x, y, Offers(id, name, now), source, env);
    assert Settled(x, y, id, source(id), env);
    OfferSettlesOwn(x, y, id, name, now, source, env);
    forall k
      ensures Settled(z, y, k, source(k), env)
    {
      assert Settled(x, y, k, source(k), env);
      if k != id {
        OfferLeavesOthers(x, y, id, name, now, source, env, k);
        AlikeSettled(x, z, y, k, source(k), env);
      }
    }
  }

  lemma OfferLeavesOthers(x: Site, y: Site, id: TransferId, name: bytes, now: int, source: TransferId -> bytes, env: Setting, k: TransferId)
    requires Sound(x, y) && k != id
    ensures var z := Act(x, y, Offers(id, name, now), source, env); Sound(z, y) && Alike(x, z, y, k)
  {
    hide Of, Loose;
  }

  lemma OfferSettlesOwn(x: Site, y: Site, id: TransferId, name: bytes, now: int, source: TransferId -> bytes, env: Setting)
    requires Sound(x, y) && Settled(x, y, id, source(id), env)
    ensures var z := Act(x, y, Offers(id, name, now), source, env); Sound(z, y) && Settled(z, y, id, source(id), env)
  {
    hide Of, Loose;
    if Act(x, y, Offers(id, name, now), source, env) != x {
      hide Agree;
    }
  }

  lemma ForgetSound(x: Site, y: Site, id: TransferId)
    requires Sound(x, y) && id in x.p.transfers && Terminal(x.p.transfers[id].status)
    ensures Sound(x.(p := Forget(x.p, id)), y)
    ensures forall k :: Record(Forget(x.p, id), k) == Record(x.p, k)
  {
  }

  lemma ForgetSettles(x: Site, y: Site, id: TransferId, source: TransferId -> bytes, env: Setting)
    requires Sound(x, y) && AllSettled(x, y, source, env) && id in x.p.transfers && Terminal(x.p.transfers[id].status)
    ensures var z := x.(p := Forget(x.p, id)); Sound(z, y) && AllSettled(z, y, source, env)
  {
    hide Of, Loose, Agree, Settled, Tidy, Record;
    var z := x.(p := Forget(x.p, id));
    ForgetSound(x, y, id);
    forall k
      ensures Settled(z, y, k, source(k), env)
    {
      assert Settled(x, y, k, source(k), env);
      AlikeSettled(x, z, y, k, source(k), env);
    }
  }

  // ----- runs -----

  /** Every event at either end keeps every transfer settled. */
  lemma ActSettles(x: Site, y: Site, a: Action, source: TransferId -> bytes, env: Setting)
    requires Sound(x, y) && AllSettled(x, y, source, env)
    ensures var z := Act(x, y, a, source, env); Sound(z, y) && AllSettled(z, y, source, env)
  {
    hide Sound, AllSettled, HandleControl, HandleChunk, HandleReport, AcceptFile, RejectFile, CancelFile, Tick, Stop, OfferFile, Perform;
    match a
    case Offers(id, name, now) => OfferSettles(x, y, id, name, now, source, env);
    case UserAccepts(id, now) => AcceptingSettles(x, y, id, now, source, env);
    case Works(id, ok, scrap, now) =>
      if JobOf(x.p, id).Some? {
        if id in x.p.transfers {
          WorkSettles(x, y, id, ok, scrap, now, source, env);
        } else {
          PrunedWorkSettles(x, y, id, ok, scrap, now, source, env);
        }
      }
    case HearsControl(now) =>
      if x.heard < |y.p.controls| {
        if y.p.controls[x.heard].id in x.p.transfers {
          KnownControlSettles(x, y, now, source, env);
        } else {
          UnknownControlSettles(x, y, now, source, env);
        }
      }
    case HearsChunk(i) =>
      if i < |y.p.data| && i !in x.got {
        ChunkSettles(x, y, i, source, env);
      }
    case Forgets(id) =>
      if id in x.p.transfers && Terminal(x.p.transfers[id].status) {
        ForgetSettles(x, y, id, source, env);
      }
    case _ => GivingUpSettles(x, y, a, source, env);
  }

  /** The two ends start with no transfers; which of their messages the transport refuses is arbitrary. */
  ghost predicate FileRun(steps: seq<Step>, worlds: seq<World>, source: TransferId -> bytes, env: Setting) {
    && |worlds| == |steps| + 1
    && (exists ra, rb :: worlds[0] == World(NewSite(ra), NewSite(rb)))
    && forall i :: 0 <= i < |steps| ==> worlds[i + 1] == Next(worlds[i], steps[i], source, env)
  }

  lemma SoundBothWays(x: Site, y: Site, source: TransferId -> bytes, env: Setting)
    requires Sound(x, y) && AllSettled(x, y, source, env)
    ensures Sound(y, x) && AllSettled(y, x, source, env)
  {
    hide Agree, Of, Loose;
    forall id
      ensures Settled(y, x, id, source(id), env)
    {
      assert Settled(x, y, id, source(id), env);
    }
  }

  lemma {:induction false} EveryStateSettled(steps: seq<Step>, worlds: seq<World>, source: TransferId -> bytes, env: Setting, n: nat)
    requires FileRun(steps, worlds, source, env) && n < |worlds|
    ensures Sound(worlds[n].a, worlds[n].b) && AllSettled(worlds[n].a, worlds[n].b, source, env)
  {
    if n == 0 {
      forall id
        ensures Settled(worlds[0].a, worlds[0].b, id, source(id), env)
      {
      }
    } else {
      EveryStateSettled(steps, worlds, source, env, n - 1);
      StepSettles(worlds[n - 1], steps[n - 1], source, env);
    }
  }

  lemma StepSettles(w: World, step: Step, source: TransferId -> bytes, env: Setting)
    requires Sound(w.a, w.b) && AllSettled(w.a, w.b, source, env)
    ensures var v := Next(w, step, source, env); Sound(v.a, v.b) && AllSettled(v.a, v.b, source, env)
  {
    hide Sound, AllSettled, Act;
    if step.byA {
      ActSettles(w.a, w.b, step.action, source, env);
    } else {
      SoundBothWays(w.a, w.b, source, env);
      ActSettles(w.b, w.a, step.action, source, env);
      SoundBothWays(Act(w.b, w.a, step.action, source, env), w.a, source, env);
    }
  }

  /** One end of a state, and the other. */
  function End(w: World, a: bool): Site {
    if a then w.a else w.b
  }

  lemma EveryRecordRuns(steps: seq<Step>, worlds: seq<World>, source: TransferId -> bytes, env: Setting, n: nat, a: bool, id: TransferId)
    requires FileRun(steps, worlds, source, env) && n < |worlds|
    requires Record(End(worlds[n], a).p, id).Some?
    ensures var x, y := End(worlds[n], a), End(worlds[n], !a);
      Sound(x, y) && if Record(x.p, id).value.outgoing then Runs(x, y, id, source(id), env) else Runs(y, x, id, source(id), env)
  {
    hide Runs, Act, Unused;
    var x, y := End(worlds[n], a), End(worlds[n], !a);
    EveryStateSettled(steps, worlds, source, env, n);
    SoundBothWays(worlds[n].a, worlds[n].b, source, env);
    assert Settled(x, y, id, source(id), env);
    RunsSomeWay(x, y, id, source(id), env);
  }

  /** Whenever a sender's record says completed, the receiver's already does, and its file is the source file. */
  lemma CompletedMeansDelivered(steps: seq<Step>, worlds: seq<World>, source: TransferId -> bytes, env: Setting, n: nat, a: bool, id: TransferId)
    requires FileRun(steps, worlds, source, env) && n < |worlds|
    requires var t := Record(End(worlds[n], a).p, id); t.Some? && t.value.outgoing && t.value.status == Completed
    ensures var y := End(worlds[n], !a);
      && Record(y.p, id).Some? && Record(y.p, id).value.status == Completed
      && FileOf(y, id) == source(id)
  {
    EveryRecordRuns(steps, worlds, source, env, n, a, id);
    hide Of, Loose, Act, FileRun;
  }

  /** A completed receiver, too, holds exactly the source file, whatever became of the sender. */
  lemma ReceivedFileIsSource(steps: seq<Step>, worlds: seq<World>, source: TransferId -> bytes, env: Setting, n: nat, a: bool, id: TransferId)
    requires FileRun(steps, worlds, source, env) && n < |worlds|
    requires var t := Record(End(worlds[n], a).p, id); t.Some? && !t.value.outgoing && t.value.status == Completed
    ensures FileOf(End(worlds[n], a), id) == source(id)
  {
    EveryRecordRuns(steps, worlds, source, env, n, a, id);
    hide Of, Loose, Act, FileRun;
  }

  /** Stop and wait: the receiver never is more than one chunk ahead of the sender, and never behind. */
  lemma AtMostOneChunkApart(steps: seq<Step>, worlds: seq<World>, source: TransferId -> bytes, env: Setting, n: nat, a: bool, id: TransferId)
    requires FileRun(steps, worlds, source, env) && n < |worlds|
    requires var x, y := End(worlds[n], a), End(worlds[n], !a);
      Record(x.p, id).Some? && Record(x.p, id).value.outgoing && Record(y.p, id).Some?
    ensures var s, r := Record(End(worlds[n], a).p, id).value, Record(End(worlds[n], !a).p, id).value;
      r.transferred - s.transferred in {0, Advance(|source(id)|, s.transferred)}
  {
    EveryRecordRuns(steps, worlds, source, env, n, a, id);
    hide Of, Loose, Act, FileRun, Agree;
    LevelOrAhead(id, ViewOf(End(worlds[n], a), End(worlds[n], !a), id), source(id), env);
  }

  lemma LevelOrAhead(id: TransferId, v: View, source: bytes, env: Setting)
    requires Agree(id, v, source, env) && v.r.Some?
    ensures v.r.value.transferred - v.s.transferred in {0, Advance(|source|, v.s.transferred)}
  {
    hide Writing, GoodDown, GoodChunks, Describes;
  }

  /** A chunk under way is taken, not dropped, by a receiver whose transfer has not ended. */
  lemma NoChunkIsDropped(steps: seq<Step>, worlds: seq<World>, source: TransferId -> bytes, env: Setting, n: nat, a: bool, i: nat)
    requires FileRun(steps, worlds, source, env) && n < |worlds|
    requires var x, y := End(worlds[n], a), End(worlds[n], !a);
      i < |x.p.data| && i !in y.got && x.p.data[i].id in y.p.transfers && !Terminal(y.p.transfers[x.p.data[i].id].status)
    ensures var c := End(worlds[n], a).p.data[i];
      TakesChunk(End(worlds[n], !a).p.transfers[c.id], c.data) && 0 < |c.data| <= CHUNK
  {
    hide Act, Of;
    var x, y := End(worlds[n], a), End(worlds[n], !a);
    var id := x.p.data[i].id;
    EveryRecordRuns(steps, worlds, source, env, n, !a, id);
    LooseTaken(x.p.data, y.got, i, id);
    ChunkIsTaken(id, ViewOf(x, y, id), source(id), env, i);
  }

  lemma ChunkIsTaken(id: TransferId, v: View, source: bytes, env: Setting, i: nat)
    requires Agree(id, v, source, env) && v.r.Some? && !Terminal(v.r.value.status) && i in v.chunks
    ensures TakesChunk(v.r.value, v.chunks[i]) && 0 < |v.chunks[i]| <= CHUNK
  {
  }

  /** The next control message finds the record in the status it is meant for, unless the transfer has ended. */
  lemma NoControlIsDropped(steps: seq<Step>, worlds: seq<World>, source: TransferId -> bytes, env: Setting, n: nat, a: bool)
    requires FileRun(steps, worlds, source, env) && n < |worlds|
    requires var x, y := End(worlds[n], a), End(worlds[n], !a);
      x.heard < |y.p.controls| && y.p.controls[x.heard].id in x.p.transfers
        && !Terminal(x.p.transfers[y.p.controls[x.heard].id].status)
    ensures var x, y := End(worlds[n], a), End(worlds[n], !a);
      var c, t := y.p.controls[x.heard], x.p.transfers[y.p.controls[x.heard].id];
      match c
      case Offer(_, _, _, _) => false
      case Accept(_) => t.outgoing && t.status == Offered
      case Reject(_) => t.outgoing && t.status == Offered
      case Cancel(_) => true
      case DataAck(_) => t.outgoing && t.status == Waiting
  {
    hide Act, Of, Loose, Agree;
    var x, y := End(worlds[n], a), End(worlds[n], !a);
    var id := y.p.controls[x.heard].id;
    EveryRecordRuns(steps, worlds, source, env, n, a, id);
    OfNext(y.p.controls, x.heard, id);
    var d := DeskOf(x.p, id);
    if d.t.outgoing {
      var v := ViewOf(x, y, id);
      UpKinds(id, v, source(id), env);
      if v.up[0].Accept? {
        SenderHearsAccept(id, v, source(id), env, d, 0, 0);
      } else if v.up[0].DataAck? {
        SenderHearsAck(id, v, source(id), env, d, 0, 0);
      } else {
        SenderHearsEnd(id, v, source(id), env, d, 0, 0);
      }
    } else {
      DownKinds(id, ViewOf(y, x, id), source(id), env);
    }
  }

  /** With the source file unchanging, no transfer ever fails its digest. */
  lemma NoDigestMismatch(steps: seq<Step>, worlds: seq<World>, source: TransferId -> bytes, env: Setting, n: nat, a: bool, id: TransferId)
    requires FileRun(steps, worlds, source, env) && n < |worlds| && Record(End(worlds[n], a).p, id).Some?
    ensures Record(End(worlds[n], a).p, id).value.reason != Mismatch
  {
    EveryRecordRuns(steps, worlds, source, env, n, a, id);
    hide Of, Loose, Act, FileRun, Writing, GoodUp, GoodDown, GoodChunks;
  }

  /** A transfer that has not ended has a worker exactly while it says so; never two. */
  lemma WorkingMeansWorker(steps: seq<Step>, worlds: seq<World>, source: TransferId -> bytes, env: Setting, n: nat, a: bool, id: TransferId)
    requires FileRun(steps, worlds, source, env) && n < |worlds| && Record(End(worlds[n], a).p, id).Some?
    requires !Terminal(Record(End(worlds[n], a).p, id).value.status)
    ensures Record(End(worlds[n], a).p, id).value.working <==> JobOf(End(worlds[n], a).p, id).Some?
  {
    EveryRecordRuns(steps, worlds, source, env, n, a, id);
    hide Of, Loose, Act, FileRun, GoodUp, GoodDown, GoodChunks;
  }

  // ----- ended transfers -----

  lemma DeskKeepsEnded(d: Desk, id: TransferId, alive: bool, now: int, env: Setting)
    requires Terminal(d.t.status)
    ensures forall report :: OnReport(d, id, report, now, env).t == d.t
    ensures forall c :: OnControl(d, c, now).t == d.t
    ensures forall data :: OnChunk(d, data).t == d.t
    ensures OnUserAccept(d, now).t == d.t && OnUserReject(d, id, now).t == d.t && OnUserCancel(d, id, now).t == d.t
    ensures OnTick(d, id, alive, now).t == d.t && OnStop(d, now).t == d.t
  {
  }

  lemma WorksKeepsEnded(x: Site, y: Site, k: TransferId, ok: bool, scrap: bytes, now: int, source: TransferId -> bytes, env: Setting, id: TransferId)
    requires id in x.p.transfers && Terminal(x.p.transfers[id].status)
    ensures Record(Act(x, y, Works(k, ok, scrap, now), source, env).p, id) == Record(x.p, id)
  {
    hide Agree, Of, Loose, Settled, Perform, OnReport, OnControl, OnChunk, OnUserAccept, OnUserReject, OnUserCancel, OnTick, OnStop;
    var d := DeskOf(x.p, id);
    DeskKeepsEnded(d, id, true, now, env);
    if k == id && JobOf(x.p, id).Some? {
      var report := Perform(JobOf(x.p, id).value, ok, source(id), FileOf(x, id), scrap, env).0;
      assert OnReport(d, id, report, now, env).t == d.t;
    }
  }

  /** No event changes an ended record; an offer cannot revive its identifier. */
  lemma ActKeepsEnded(x: Site, y: Site, a: Action, source: TransferId -> bytes, env: Setting, id: TransferId)
    requires Sound(x, y) && AllSettled(x, y, source, env)
    requires Record(x.p, id).Some? && Terminal(Record(x.p, id).value.status)
    ensures Record(Act(x, y, a, source, env).p, id) == Record(x.p, id)
  {
    hide Agree, Of, Loose, Settled, Perform, OnReport, OnControl, OnChunk, OnUserAccept, OnUserReject, OnUserCancel, OnTick, OnStop;
    if id in x.p.transfers {
      ActKeepsListed(x, y, a, source, env, id);
    } else if a.HearsControl? && x.heard < |y.p.controls| && y.p.controls[x.heard].id == id {
      NoSecondOffer(x, y, source, env);
    }
  }

  lemma ActKeepsListed(x: Site, y: Site, a: Action, source: TransferId -> bytes, env: Setting, id: TransferId)
    requires id in x.p.transfers && Terminal(x.p.transfers[id].status)
    ensures Record(Act(x, y, a, source, env).p, id) == Record(x.p, id)
  {
    hide Agree, Of, Loose, Settled, Perform, OnReport, OnControl, OnChunk, OnUserAccept, OnUserReject, OnUserCancel, OnTick, OnStop;
    if a.HearsControl? || a.HearsChunk? {
      HearingKeepsListed(x, y, a, source, env, id);
    } else if a.UserAccepts? || a.UserRejects? || a.UserCancels? {
      UserKeepsListed(x, y, a, source, env, id);
    } else if a.Works? {
      WorksKeepsEnded(x, y, a.id, a.ok, a.scrap, a.now, source, env, id);
    } else if a.Ticks? {
      DeskKeepsEnded(DeskOf(x.p, id), id, a.alive, a.now, env);
    } else if a.Stops? {
      DeskKeepsEnded(DeskOf(x.p, id), id, true, a.now, env);
    }
  }

  lemma HearingKeepsListed(x: Site, y: Site, a: Action, source: TransferId -> bytes, env: Setting, id: TransferId)
    requires id in x.p.transfers && Terminal(x.p.transfers[id].status) && (a.HearsControl? || a.HearsChunk?)
    ensures Record(Act(x, y, a, source, env).p, id) == Record(x.p, id)
  {
    hide Perform, OnReport, OnControl, OnChunk, OnUserAccept, OnUserReject, OnUserCancel, OnTick, OnStop;
    DeskKeepsEnded(DeskOf(x.p, id), id, true, if a.HearsControl? then a.now else 0, env);
  }

  lemma UserKeepsListed(x: Site, y: Site, a: Action, source: TransferId -> bytes, env: Setting, id: TransferId)
    requires id in x.p.transfers && Terminal(x.p.transfers[id].status) && (a.UserAccepts? || a.UserRejects? || a.UserCancels?)
    ensures Record(Act(x, y, a, source, env).p, id) == Record(x.p, id)
  {
    hide Perform, OnReport, OnControl, OnChunk, OnUserAccept, OnUserReject, OnUserCancel, OnTick, OnStop;
    DeskKeepsEnded(DeskOf(x.p, id), id, true, a.now, env);
  }

  lemma NoSecondOffer(x: Site, y: Site, source: TransferId -> bytes, env: Setting)
    requires Sound(x, y) && AllSettled(x, y, source, env) && x.heard < |y.p.controls|
    requires Record(x.p, y.p.controls[x.heard].id).Some?
    ensures !y.p.controls[x.heard].Offer?
  {
    hide Agree, Of, Loose;
    var id := y.p.controls[x.heard].id;
    assert Settled(x, y, id, source(id), env);
    RunsSomeWay(x, y, id, source(id), env);
    OfNext(y.p.controls, x.heard, id);
    if Record(x.p, id).value.outgoing {
      UpKinds(id, ViewOf(x, y, id), source(id), env);
    } else {
      DownKinds(id, ViewOf(y, x, id), source(id), env);
    }
  }

  /** Ended transfers stay ended: over any run a terminal record never changes again. */
  lemma {:induction false} EndedStaysEnded(steps: seq<Step>, worlds: seq<World>, source: TransferId -> bytes, env: Setting,
                                           m: nat, n: nat, a: bool, id: TransferId)
    requires FileRun(steps, worlds, source, env) && m <= n < |worlds|
    requires var t := Record(End(worlds[m], a).p, id); t.Some? && Terminal(t.value.status)
    ensures Record(End(worlds[n], a).p, id) == Record(End(worlds[m], a).p, id)
    decreases n
  {
    hide Sound, AllSettled, Act;
    if m < n {
      EndedStaysEnded(steps, worlds, source, env, m, n - 1, a, id);
      EveryStateSettled(steps, worlds, source, env, n - 1);
      SoundBothWays(worlds[n - 1].a, worlds[n - 1].b, source, env);
      if steps[n - 1].byA == a {
        ActKeepsEnded(End(worlds[n - 1], a), End(worlds[n - 1], !a), steps[n - 1].action, source, env, id);
      }
    }
  }
}
