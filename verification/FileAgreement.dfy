/** Two ends of a file transfer agree: the invariant of one transfer.

    A view is what concerns one transfer: both records, both workers, the control messages on their way in each
    direction, the chunks that may still arrive, and the destination file. */
module FileAgreement {
  import opened Options
  import opened Bytes
  import opened FileMessages
  import opened FileTransfers

  datatype View = View(
    s: Transfer,
    sj: Option<Job>,
    r: Option<Transfer>,
    rj: Option<Job>,
    down: seq<Control>,
    up: seq<Control>,
    chunks: map<nat, bytes>,
    disk: bytes)

  /** Ended without completing. */
  predicate Dead(s: Status) {
    s in {Rejected, Canceled, Failed}
  }

  function ChunkAt(source: bytes, offset: nat): bytes
    requires offset <= |source|
  {
    source[offset..offset + Advance(|source|, offset)]
  }

  /** The record describes the source file, which is one that can be offered. */
  predicate Describes(t: Transfer, source: bytes, env: Setting) {
    && t.size == |source|
    && t.digest == env.hash(source)
    && |source| <= MAX_FILE_BYTES
  }

  /** The sending record and its worker. */
  predicate GoodSender(s: Transfer, job: Option<Job>, source: bytes, env: Setting) {
    && s.outgoing
    && s.reason != Mismatch
    && s.transferred <= |source|
    && (s.status in {Offered, Transferring, Waiting, Completed} ==> Describes(s, source, env))
    && match s.status
       case Preparing => s.working && job == Some(Measure) && s.transferred == 0
       case Offered => !s.working && job == None && s.transferred == 0
       case Transferring =>
         && s.working
         && s.transferred < |source|
         && job == Some(Job.Read(s.transferred, Advance(|source|, s.transferred)))
       case Waiting => !s.working && job == None && (s.transferred < |source| || |source| == 0)
       case Completed => s.transferred == |source|
       case Accepting => false
       case _ => true
  }

  /** The receiving record, its worker and its file: what is written and hashed is a prefix of the source. */
  predicate GoodReceiver(r: Transfer, job: Option<Job>, disk: bytes, source: bytes, env: Setting) {
    && !r.outgoing
    && r.reason != Mismatch
    && Describes(r, source, env)
    && r.transferred <= |source|
    && match r.status
       case Offered => !r.working && job == None && r.transferred == 0
       case Accepting => r.working && job == Some(Create) && r.transferred == 0
       case Transferring => Writing(r, job, disk, source)
       case Completed => job == None && r.transferred == |source| && disk == source
       case Preparing => false
       case Waiting => false
       case _ => true
  }

  /** A receiving record at work: idle with more to come, writing the next chunk, or closing the file. */
  predicate Writing(r: Transfer, job: Option<Job>, disk: bytes, source: bytes)
    requires r.transferred <= |source|
  {
    && r.hashed == source[..r.transferred]
    && disk == source[..r.transferred]
    && r.working == job.Some?
    && match job
       case None => r.transferred < |source|
       case Some(j) =>
         || (j == Sync && r.transferred == |source|)
         || (j == Job.Write(r.transferred, ChunkAt(source, r.transferred)) && r.transferred < |source|)
  }

  /** The control messages on their way to the receiver. */
  predicate GoodDown(id: TransferId, v: View, source: bytes, env: Setting) {
    && (v.down == [] || v.down == [Cancel(id)]
        || (|v.down| >= 1 && OfferOf(id, v.down[0], source, env) && v.r == None && (v.down[1..] == [] || v.down[1..] == [Cancel(id)])))
    && (Cancel(id) in v.down ==> Dead(v.s.status))
    && (v.s.status == Preparing ==> v.down == [] && v.r == None)
    && (v.r == None ==> v.up == [] && v.chunks == map[] && v.rj == None
                        && v.s.transferred == 0 && (v.s.status in {Preparing, Offered} || Dead(v.s.status)))
  }

  predicate OfferOf(id: TransferId, c: Control, source: bytes, env: Setting) {
    c.Offer? && c.id == id && c.size == |source| && c.digest == env.hash(source) && |source| <= MAX_FILE_BYTES
  }

  /** The receiver is at most one chunk ahead of what the sender knows. */
  predicate Ahead(v: View, source: bytes)
    requires v.r.Some? && v.s.transferred <= |source|
  {
    v.r.value.transferred == v.s.transferred + Advance(|source|, v.s.transferred)
  }

  predicate Level(v: View)
    requires v.r.Some?
  {
    v.r.value.transferred == v.s.transferred
  }

  /** The sender's status is this one, or it has given up. */
  predicate At(v: View, statuses: set<Status>) {
    v.s.status in statuses || Dead(v.s.status)
  }

  /** The control messages on their way to the sender, and what they say about the two records. */
  predicate GoodUp(id: TransferId, v: View, source: bytes)
    requires v.r.Some? && v.s.transferred <= |source|
  {
    match v.r.value.status
    case Offered => v.up == [] && At(v, {Offered}) && v.s.transferred == 0
    case Accepting => v.up == [] && At(v, {Offered}) && v.s.transferred == 0
    case Transferring => RunningUp(id, v, source)
    case Completed => CompletedUp(id, v, source)
    case _ => v.s.status != Completed && EndedUp(id, v, source)
  }

  predicate RunningUp(id: TransferId, v: View, source: bytes)
    requires v.r.Some? && v.s.transferred <= |source|
  {
    || (v.up == [Accept(id)] && At(v, {Offered}) && v.s.transferred == 0 && Level(v) && (v.rj == None || |source| == 0))
    || (v.up == [] && At(v, {Waiting}) && Level(v))
    || (v.up == [] && v.s.status == Transferring && v.rj == None && Level(v))
    || (v.up == [] && At(v, {Waiting}) && v.rj == Some(Sync) && Ahead(v, source))
    || (v.up == [] && Dead(v.s.status) && v.rj == None && Ahead(v, source))
    || (v.up == [DataAck(id)] && At(v, {Waiting}) && v.rj == None && Ahead(v, source) && |source| > 0)
  }

  predicate CompletedUp(id: TransferId, v: View, source: bytes)
    requires v.r.Some? && v.s.transferred <= |source|
  {
    || (v.up == [Accept(id), DataAck(id)] && At(v, {Offered}) && v.s.transferred == 0 && |source| == 0)
    || (v.up == [DataAck(id)] && At(v, {Waiting}) && Ahead(v, source))
    || (v.up == [] && At(v, {Completed}) && (Level(v) || Ahead(v, source)))
  }

  /** What the receiver still has to say when it has given up. */
  predicate EndedUp(id: TransferId, v: View, source: bytes)
    requires v.r.Some? && v.s.transferred <= |source|
  {
    || (Tail(id, v, []) && At(v, {Offered, Waiting, Transferring}) && (Level(v) || Ahead(v, source)))
    || (Tail(id, v, [Accept(id)]) && At(v, {Offered}) && Level(v))
    || (Tail(id, v, [DataAck(id)]) && At(v, {Waiting}) && Ahead(v, source) && v.r.value.transferred < |source|)
  }

  /** The messages under way are these, then at most one notice that the receiver gave up. */
  predicate Tail(id: TransferId, v: View, first: seq<Control>)
    requires v.r.Some?
  {
    || v.up == first
    || v.up == first + [Cancel(id)]
    || (v.up == first + [Reject(id)] && first == [] && At(v, {Offered}))
  }

  /** A chunk under way is the next one a receiver that has not given up is waiting for. */
  predicate GoodChunks(v: View, source: bytes)
    requires v.r.Some? && v.r.value.transferred <= |source|
  {
    !Dead(v.r.value.status) ==>
      forall i :: i in v.chunks ==>
        && v.r.value.status == Transferring
        && !v.r.value.working
        && v.up == []
        && At(v, {Waiting})
        && Level(v)
        && v.chunks[i] == ChunkAt(source, v.r.value.transferred)
        && v.chunks == map[i := v.chunks[i]]
  }

  predicate Agree(id: TransferId, v: View, source: bytes, env: Setting) {
    && GoodSender(v.s, v.sj, source, env)
    && GoodDown(id, v, source, env)
    && (v.r.Some? ==>
          && v.s.status != Preparing
          && GoodReceiver(v.r.value, v.rj, v.disk, source, env)
          && GoodUp(id, v, source)
          && GoodChunks(v, source))
  }

  // ----- events at the sender -----

  predicate FreshDesk(d: Desk, t: Transfer, job: Option<Job>) {
    d.t == t && d.job == job && d.told == [] && d.sent == []
  }

  function WithChunks(chunks: map<nat, bytes>, next: nat, sent: seq<bytes>): map<nat, bytes>
    decreases |sent|
  {
    if sent == [] then chunks else WithChunks(chunks[next := sent[0]], next + 1, sent[1..])
  }

  lemma OneChunk(chunks: map<nat, bytes>, next: nat, data: bytes)
    ensures WithChunks(chunks, next, [data]) == chunks[next := data]
  {
    assert [data][1..] == [];
  }

  /** The view after the sender handled an event; chunks queued get numbers from `next`. */
  function SenderDid(v: View, d: Desk, next: nat): View {
    v.(s := d.t, sj := d.job, down := v.down + d.told, chunks := WithChunks(v.chunks, next, d.sent))
  }

  /** A report that a worker on the sending side may give for its job. */
  predicate SenderReport(job: Job, report: Report, source: bytes, env: Setting) {
    match report
    case Broken => true
    case Measured(size, digest) => job == Measure && size == |source| <= MAX_FILE_BYTES && digest == env.hash(source)
    case HasRead(data) => job.Read? && job.offset + job.count <= |source| && data == source[job.offset..job.offset + job.count]
    case _ => false
  }

  /** While the sender has not given up, nothing but the offer can be on its way to the receiver. */
  lemma DownAlive(id: TransferId, v: View, source: bytes, env: Setting)
    requires GoodDown(id, v, source, env) && !Dead(v.s.status)
    ensures v.down == [] || (|v.down| == 1 && OfferOf(id, v.down[0], source, env) && v.r == None)
  {
    SecondIn(v.down, Cancel(id));
  }

  lemma SecondIn(cs: seq<Control>, c: Control)
    ensures cs == [c] || (|cs| > 0 && cs[1..] == [c]) ==> c in cs
  {
    if cs == [c] {
      assert cs[0] == c;
    } else if |cs| > 0 && cs[1..] == [c] {
      assert cs[1] == cs[1..][0];
    }
  }

  /** The sender may give up at any time, with or without a word. */
  lemma SenderEnds(id: TransferId, v: View, source: bytes, env: Setting, d: Desk, next: nat)
    requires Agree(id, v, source, env) && !Terminal(v.s.status)
    requires d.t.outgoing && d.t.transferred == v.s.transferred && Dead(d.t.status) && d.t.reason != Mismatch
    requires d.sent == [] && (d.told == [] || d.told == [Cancel(id)])
    ensures Agree(id, SenderDid(v, d, next), source, env)
  {
    hide Writing, Describes, OfferOf, ChunkAt, Advance;
    var w := SenderDid(v, d, next);
    assert w.chunks == v.chunks;
    DownAlive(id, v, source, env);
    assert v.down != [] ==> w.down[0] == v.down[0] && w.down[1..] == v.down[1..] + d.told;
    assert GoodDown(id, w, source, env);
    if v.r.Some? {
      assert GoodUp(id, w, source);
      assert GoodChunks(w, source);
    }
  }

  lemma SenderGone(id: TransferId, v: View, source: bytes, env: Setting)
    requires Agree(id, v, source, env) && Terminal(v.s.status)
    ensures Agree(id, v.(sj := None), source, env)
  {
    hide ChunkAt, Writing;
  }

  lemma FileMeasured(id: TransferId, v: View, source: bytes, env: Setting, d: Desk, next: nat, now: int)
    requires Agree(id, v, source, env) && FreshDesk(d, v.s, v.sj) && v.s.status == Preparing && |source| <= MAX_FILE_BYTES
    requires var e := OnReport(d, id, Measured(|source|, env.hash(source)), now, env); !Dead(e.t.status)
    ensures Agree(id, SenderDid(v, OnReport(d, id, Measured(|source|, env.hash(source)), now, env), next), source, env)
  {
    hide GoodReceiver, GoodUp, GoodChunks, ChunkAt, Advance;
    var e := OnReport(d, id, Measured(|source|, env.hash(source)), now, env);
    assert SenderDid(v, e, next).down == e.told;
  }

  /** Reports of the sender's worker: the offer goes out when the file is measured, a chunk when it is read. */
  lemma SenderReports(id: TransferId, v: View, source: bytes, env: Setting, d: Desk, next: nat, report: Report, now: int)
    requires Agree(id, v, source, env) && FreshDesk(d, v.s, v.sj)
    requires v.sj.Some? && SenderReport(v.sj.value, report, source, env)
    requires forall i :: i in v.chunks ==> i < next
    ensures Agree(id, SenderDid(v, OnReport(d, id, report, now, env), next), source, env)
  {
    hide Writing, ChunkAt, GoodUp, GoodChunks, GoodReceiver;
    var e := OnReport(d, id, report, now, env);
    if Terminal(v.s.status) {
      assert SenderDid(v, e, next) == v.(sj := None);
      SenderGone(id, v, source, env);
    } else if Dead(e.t.status) {
      SenderEnds(id, v, source, env, e, next);
    } else if report.Measured? {
      FileMeasured(id, v, source, env, d, next, now);
    } else {
      ChunkRead(id, v, source, env, d, next, report.data, now);
    }
  }

  /** A chunk goes out only when nothing else is under way and the receiver is idle at its offset. */
  lemma ChunkRead(id: TransferId, v: View, source: bytes, env: Setting, d: Desk, next: nat, data: bytes, now: int)
    requires Agree(id, v, source, env) && FreshDesk(d, v.s, v.sj) && v.s.status == Transferring
    requires v.sj.Some? && SenderReport(v.sj.value, HasRead(data), source, env) && !Refused(d)
    requires forall i :: i in v.chunks ==> i < next
    ensures data == ChunkAt(source, v.s.transferred) && v.down == [] && v.r.Some?
    ensures !Dead(v.r.value.status) ==>
      && v.r.value.status == Transferring && !v.r.value.working && v.r.value.transferred == v.s.transferred
      && v.up == [] && v.chunks == map[]
    ensures Agree(id, SenderDid(v, OnReport(d, id, HasRead(data), now, env), next), source, env)
  {
    DownAlive(id, v, source, env);
    var e := OnReport(d, id, HasRead(data), now, env);
    var w := SenderDid(v, e, next);
    assert w.down == v.down;
    assert e.sent == [data];
    OneChunk(v.chunks, next, data);
    assert w.chunks == v.chunks[next := data];
    if !Dead(v.r.value.status) {
      assert v.chunks == map[];
      assert w.chunks == map[next := data];
      assert data == ChunkAt(source, v.s.transferred);
    }
  }

  /** The receiver's acceptance starts the first read, or, for an empty file, the wait for its only acknowledgment. */
  lemma SenderHearsAccept(id: TransferId, v: View, source: bytes, env: Setting, d: Desk, next: nat, now: int)
    requires Agree(id, v, source, env) && FreshDesk(d, v.s, v.sj) && !Terminal(v.s.status)
    requires |v.up| > 0 && v.up[0] == Accept(id)
    ensures v.s.status == Offered
    ensures Agree(id, SenderDid(v.(up := v.up[1..]), OnControl(d, v.up[0], now), next), source, env)
  {
    hide Writing, ChunkAt;
    var w := SenderDid(v.(up := v.up[1..]), OnControl(d, v.up[0], now), next);
    assert w.down == v.down;
  }

  /** An acknowledgment always finds the sender waiting; the last one also finds the receiver done. */
  lemma SenderHearsAck(id: TransferId, v: View, source: bytes, env: Setting, d: Desk, next: nat, now: int)
    requires Agree(id, v, source, env) && FreshDesk(d, v.s, v.sj) && !Terminal(v.s.status)
    requires |v.up| > 0 && v.up[0] == DataAck(id)
    ensures v.s.status == Waiting && v.r.Some?
    ensures v.r.value.transferred == v.s.transferred + Advance(|source|, v.s.transferred)
    ensures v.r.value.transferred == |source| ==> v.r.value.status == Completed && v.disk == source
    ensures Agree(id, SenderDid(v.(up := v.up[1..]), OnControl(d, v.up[0], now), next), source, env)
  {
    hide ChunkAt;
    var w := SenderDid(v.(up := v.up[1..]), OnControl(d, v.up[0], now), next);
    assert w.down == v.down;
  }

  lemma UpIgnored(id: TransferId, v: View, source: bytes)
    requires v.r.Some? && v.s.transferred <= |source| && GoodUp(id, v, source) && Terminal(v.s.status) && |v.up| > 0
    requires v.r.value.status == Completed ==> v.r.value.transferred == |source|
    ensures GoodUp(id, v.(up := v.up[1..]), source)
  {
    if v.up[1..] == [] {
      assert v.up == [v.up[0]];
    }
  }

  /** A record that has ended ignores whatever still arrives. */
  lemma SenderIgnores(id: TransferId, v: View, source: bytes, env: Setting)
    requires Agree(id, v, source, env) && Terminal(v.s.status) && |v.up| > 0
    ensures Agree(id, v.(up := v.up[1..]), source, env)
  {
    hide ChunkAt, Writing, OfferOf, Describes, GoodUp, Advance;
    if v.r.Some? {
      UpIgnored(id, v, source);
    }
  }

  /** A refusal finds the sender still waiting for an answer; a cancellation may come at any time. */
  lemma SenderHearsEnd(id: TransferId, v: View, source: bytes, env: Setting, d: Desk, next: nat, now: int)
    requires Agree(id, v, source, env) && FreshDesk(d, v.s, v.sj) && !Terminal(v.s.status)
    requires |v.up| > 0 && (v.up[0] == Reject(id) || v.up[0] == Cancel(id))
    ensures v.up[0] == Reject(id) ==> v.s.status == Offered
    ensures Agree(id, SenderDid(v.(up := v.up[1..]), OnControl(d, v.up[0], now), next), source, env)
  {
    hide ChunkAt, Writing;
    var e := OnControl(d, v.up[0], now);
    assert v.up[1..] == [];
    var w := SenderDid(v.(up := v.up[1..]), e, next);
    assert w.down == v.down;
    DownAlive(id, v, source, env);
  }

  lemma SenderHears(id: TransferId, v: View, source: bytes, env: Setting, d: Desk, next: nat, now: int)
    requires Agree(id, v, source, env) && FreshDesk(d, v.s, v.sj)
    requires |v.up| > 0
    ensures v.up[0] in {Accept(id), Reject(id), Cancel(id), DataAck(id)}
    ensures Agree(id, SenderDid(v.(up := v.up[1..]), OnControl(d, v.up[0], now), next), source, env)
  {
    UpKinds(id, v, source, env);
    hide GoodSender, GoodDown, GoodReceiver, GoodUp, GoodChunks;
    if Terminal(v.s.status) {
      SenderIgnores(id, v, source, env);
      assert SenderDid(v.(up := v.up[1..]), OnControl(d, v.up[0], now), next) == v.(up := v.up[1..]);
    } else if v.up[0].Accept? {
      SenderHearsAccept(id, v, source, env, d, next, now);
    } else if v.up[0].DataAck? {
      SenderHearsAck(id, v, source, env, d, next, now);
    } else {
      SenderHearsEnd(id, v, source, env, d, next, now);
    }
  }

  lemma UpKinds(id: TransferId, v: View, source: bytes, env: Setting)
    requires Agree(id, v, source, env) && |v.up| > 0
    ensures v.up[0] in {Accept(id), Reject(id), Cancel(id), DataAck(id)}
  {
    hide GoodSender, GoodReceiver, GoodChunks, ChunkAt, Advance;
    if v.up[1..] == [] {
      assert v.up == [v.up[0]];
    }
  }

  // ----- events at the receiver -----

  function ReceiverDid(v: View, d: Desk): View {
    v.(r := Some(d.t), rj := d.job, up := v.up + d.told)
  }

  /** Whatever a receiving record has said so far, it may stop there. */
  lemma MayEnd(id: TransferId, v: View, source: bytes, env: Setting)
    requires Agree(id, v, source, env) && v.r.Some? && !Terminal(v.r.value.status)
    ensures v.s.status != Completed
    ensures
      || (v.up == [] && At(v, {Offered, Waiting, Transferring}) && (Level(v) || Ahead(v, source)))
      || (v.up == [Accept(id)] && At(v, {Offered}) && Level(v))
      || (v.up == [DataAck(id)] && At(v, {Waiting}) && Ahead(v, source) && v.r.value.transferred < |source|)
    ensures v.r.value.status == Offered ==> v.up == [] && At(v, {Offered})
  {
    hide ChunkAt, Describes, Advance, GoodDown, GoodChunks;
  }

  /** The receiver may give up at any time, with or without a word. */
  lemma ReceiverEnds(id: TransferId, v: View, source: bytes, env: Setting, d: Desk, disk: bytes)
    requires Agree(id, v, source, env) && v.r.Some? && !Terminal(v.r.value.status)
    requires d.t == v.r.value.(status := d.t.status, reason := d.t.reason, updatedAt := d.t.updatedAt,
                               working := d.t.working, fileOpen := d.t.fileOpen, hashed := d.t.hashed)
    requires Dead(d.t.status) && d.t.reason != Mismatch
    requires d.told == [] || d.told == [Cancel(id)] || (d.told == [Reject(id)] && v.r.value.status == Offered)
    ensures Agree(id, ReceiverDid(v, d).(disk := disk), source, env)
  {
    hide ChunkAt, Advance, GoodSender, Writing, GoodUp, RunningUp, CompletedUp;
    MayEnd(id, v, source, env);
    var w := ReceiverDid(v, d).(disk := disk);
    assert EndedUp(id, w, source);
    EndedIsUp(id, w, source);
  }

  lemma EndedIsUp(id: TransferId, v: View, source: bytes)
    requires v.r.Some? && v.s.transferred <= |source| && Dead(v.r.value.status)
    requires v.s.status != Completed && EndedUp(id, v, source)
    ensures GoodUp(id, v, source)
  {
  }

  lemma ReceiverAccepts(id: TransferId, v: View, source: bytes, env: Setting, d: Desk, now: int)
    requires Agree(id, v, source, env) && v.r.Some? && FreshDesk(d, v.r.value, v.rj)
    ensures Agree(id, ReceiverDid(v, OnUserAccept(d, now)), source, env)
  {
    hide ChunkAt, Writing;
    assert ReceiverDid(v, OnUserAccept(d, now)).up == v.up;
  }

  /** A chunk under way is never dropped by a receiver that has not given up. */
  lemma ReceiverTakesChunk(id: TransferId, v: View, source: bytes, env: Setting, d: Desk, i: nat)
    requires Agree(id, v, source, env) && v.r.Some? && FreshDesk(d, v.r.value, v.rj) && i in v.chunks
    ensures Dead(v.r.value.status) || TakesChunk(v.r.value, v.chunks[i])
    ensures Agree(id, ReceiverDid(v.(chunks := v.chunks - {i}), OnChunk(d, v.chunks[i])), source, env)
  {
    var w := ReceiverDid(v.(chunks := v.chunks - {i}), OnChunk(d, v.chunks[i]));
    assert w.up == v.up;
    if !Dead(v.r.value.status) {
      assert v.chunks == map[i := v.chunks[i]];
      assert w.chunks == map[];
    }
  }

  /** Reports a worker on the receiving side may give, and what its work left in the file. */
  predicate ReceiverReport(job: Job, report: Report, disk: bytes, after: bytes) {
    match report
    case Broken => true
    case Created => job == Create && after == []
    case Written(data) => job.Write? && data == job.data && (job.offset == |disk| ==> after == disk + data)
    case Synced => job == Sync && after == disk
    case _ => false
  }

  lemma ReceiverCreated(id: TransferId, v: View, source: bytes, env: Setting, d: Desk, now: int)
    requires Agree(id, v, source, env) && v.r.Some? && FreshDesk(d, v.r.value, v.rj)
    requires v.rj == Some(Create) && v.r.value.status == Accepting
    ensures Agree(id, ReceiverDid(v, OnReport(d, id, Created, now, env)).(disk := []), source, env)
  {
    hide ChunkAt;
    var e := OnReport(d, id, Created, now, env);
    assert source[..0] == [];
    if |source| == 0 {
      assert source == [];
    }
    if Dead(e.t.status) {
      ReceiverEnds(id, v, source, env, e, []);
    }
  }

  /** A written chunk extends the prefix; the last one always matches the digest of the offer. */
  lemma ReceiverWrote(id: TransferId, v: View, source: bytes, env: Setting, d: Desk, data: bytes, after: bytes, now: int)
    requires Agree(id, v, source, env) && v.r.Some? && FreshDesk(d, v.r.value, v.rj) && v.r.value.status == Transferring
    requires v.rj.Some? && ReceiverReport(v.rj.value, Written(data), v.disk, after)
    ensures v.r.value.transferred + |data| <= |source| && after == source[..v.r.value.transferred + |data|]
    ensures v.r.value.transferred + |data| == |source| ==> env.hash(after) == v.r.value.digest
    ensures Agree(id, ReceiverDid(v, OnReport(d, id, Written(data), now, env)).(disk := after), source, env)
  {
    var e := OnReport(d, id, Written(data), now, env);
    var r := v.r.value;
    assert source[..r.transferred] + ChunkAt(source, r.transferred) == source[..r.transferred + |data|];
    assert v.up == [];
    if r.transferred + |data| == |source| {
      assert source[..|source|] == source;
    }
    var w := ReceiverDid(v, e).(disk := after);
    assert w.up == e.told;
    assert v.chunks == map[];
    if Dead(e.t.status) {
      assert EndedUp(id, w, source);
    }
  }

  /** Closing the file completes the transfer together with the last acknowledgment. */
  lemma ReceiverSynced(id: TransferId, v: View, source: bytes, env: Setting, d: Desk, now: int)
    requires Agree(id, v, source, env) && v.r.Some? && FreshDesk(d, v.r.value, v.rj) && v.r.value.status == Transferring
    requires v.rj == Some(Sync)
    ensures Agree(id, ReceiverDid(v, OnReport(d, id, Synced, now, env)), source, env)
  {
    var e := OnReport(d, id, Synced, now, env);
    assert source[..|source|] == source;
    if Dead(e.t.status) {
      ReceiverEnds(id, v, source, env, e, v.disk);
    }
  }

  lemma ReceiverReports(id: TransferId, v: View, source: bytes, env: Setting, d: Desk, report: Report, after: bytes, now: int)
    requires Agree(id, v, source, env) && v.r.Some? && FreshDesk(d, v.r.value, v.rj)
    requires v.rj.Some? && ReceiverReport(v.rj.value, report, v.disk, after)
    ensures Agree(id, ReceiverDid(v, OnReport(d, id, report, now, env)).(disk := after), source, env)
  {
    hide ChunkAt, GoodSender, GoodDown, GoodUp, GoodChunks, AfterCreate, AfterWrite, AfterSync, AfterMeasure, AfterRead;
    var e := OnReport(d, id, report, now, env);
    if Terminal(v.r.value.status) {
      ReceiverGone(id, v, source, env, e, after);
    } else if report == Broken {
      ReceiverEnds(id, v, source, env, e, after);
    } else if report == Created {
      ReceiverCreated(id, v, source, env, d, now);
    } else if report.Written? {
      ReceiverWrote(id, v, source, env, d, report.data, after, now);
    } else {
      ReceiverSynced(id, v, source, env, d, now);
    }
  }

  /** A worker of a transfer that has ended may still touch the file of a transfer that did not complete. */
  lemma ReceiverGone(id: TransferId, v: View, source: bytes, env: Setting, e: Desk, after: bytes)
    requires Agree(id, v, source, env) && v.r.Some? && Terminal(v.r.value.status) && v.rj.Some?
    requires e.t == v.r.value && e.told == []
    ensures Agree(id, ReceiverDid(v, e).(disk := after), source, env)
  {
    hide ChunkAt, Writing;
    assert ReceiverDid(v, e).up == v.up;
  }

  /** The first message on its way to the receiver is the offer or a cancellation. */
  lemma DownKinds(id: TransferId, v: View, source: bytes, env: Setting)
    requires Agree(id, v, source, env) && |v.down| > 0
    ensures v.down[0] == Cancel(id) || (OfferOf(id, v.down[0], source, env) && v.r == None)
  {
  }

  /** A cancellation ends the receiving record if there is one. */
  lemma ReceiverHearsCancel(id: TransferId, v: View, source: bytes, env: Setting, d: Desk, now: int)
    requires Agree(id, v, source, env) && |v.down| > 0 && v.down[0] == Cancel(id)
    ensures Agree(id, v.(down := v.down[1..]), source, env)
    ensures v.r.Some? && FreshDesk(d, v.r.value, v.rj) ==>
      Agree(id, ReceiverDid(v.(down := v.down[1..]), OnControl(d, v.down[0], now)), source, env)
  {
    var u := v.(down := v.down[1..]);
    assert Agree(id, u, source, env) by {
      hide ChunkAt, Writing;
      assert u.down == [];
    }
    if v.r.Some? && FreshDesk(d, v.r.value, v.rj) {
      hide ChunkAt, Writing, GoodDown, GoodUp, GoodChunks, GoodSender, GoodReceiver;
      var e := OnControl(d, v.down[0], now);
      if Terminal(v.r.value.status) {
        assert ReceiverDid(u, e) == u;
      } else {
        ReceiverEnds(id, u, source, env, e, u.disk);
      }
    }
  }

  /** The offer creates the receiving record, unless the receiver has too many. */
  lemma ReceiverHearsOffer(id: TransferId, v: View, source: bytes, env: Setting, taken: bool, now: int)
    requires Agree(id, v, source, env) && |v.down| > 0 && OfferOf(id, v.down[0], source, env)
    ensures v.r == None
    ensures var u := v.(down := v.down[1..]);
      var c := v.down[0];
      Agree(id, if taken then u.(r := Some(NewTransfer(false, c.name, Offered, c.size, c.digest, false, now))) else u, source, env)
  {
    hide ChunkAt, Writing;
    assert v.down[0] != Cancel(id);
    assert v.down[1..] == [] || v.down[1..] == [Cancel(id)];
    SecondIn(v.down, Cancel(id));
  }
}
