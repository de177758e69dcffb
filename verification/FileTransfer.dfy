/** One end of the file-transfer protocol: what each event does to the record of a transfer. */
module FileTransfers {
  import opened Options
  import opened Bytes
  import opened FileMessages

  const MAX_RECORDS: nat := 32
  const OFFER_TIMEOUT: int := 600_000_000_000
  const TRANSFER_TIMEOUT: int := 120_000_000_000

  datatype Status = Preparing | Offered | Accepting | Transferring | Waiting | Completed | Rejected | Canceled | Failed

  datatype Reason =
    | NoReason | CanceledHere | CanceledByPeer | WorkFailed | BadName | Mismatch | CannotQueue | TimedOut
    | SessionEnded | Stopped

  datatype Transfer = Transfer(
    outgoing: bool,
    name: bytes,
    status: Status,
    size: nat,
    transferred: nat,
    digest: Digest,
    reason: Reason,
    updatedAt: int,
    working: bool,
    fileOpen: bool,
    hashed: bytes)

  /** What a file worker was asked to do. */
  datatype Job = Measure | Create | Read(offset: nat, count: nat) | Write(offset: nat, data: bytes) | Sync

  /** What a file worker reports. */
  datatype Report = Measured(size: nat, digest: Digest) | Created | HasRead(data: bytes) | Written(data: bytes) | Synced | Broken

  /** The two things the protocol takes from elsewhere: which names are file names, and SHA-256. */
  datatype Setting = Setting(names: bytes -> bool, hash: bytes -> Digest)

  /** A record while an event is handled, with what the event queues and starts. */
  datatype Desk = Desk(
    t: Transfer,
    job: Option<Job>,
    told: seq<Control>,
    sent: seq<bytes>,
    attempts: nat,
    refusals: set<nat>,
    discards: nat)

  predicate Terminal(s: Status) {
    s in {Completed, Rejected, Canceled, Failed}
  }

  /** The size of the chunk at an offset; the difference is one of unsigned numbers. */
  function Advance(size: nat, transferred: nat): nat {
    if 0 <= size - transferred < CHUNK then size - transferred else CHUNK
  }

  // ----- parts of handlers -----

  /** The transport may refuse to queue a message: `refusals` are the attempts it refuses. */
  predicate Refused(d: Desk) {
    d.attempts in d.refusals
  }

  function Tell(d: Desk, c: Control): Desk {
    d.(attempts := d.attempts + 1, told := if Refused(d) then d.told else d.told + [c])
  }

  function Send(d: Desk, data: bytes): Desk {
    d.(attempts := d.attempts + 1, sent := if Refused(d) then d.sent else d.sent + [data])
  }

  /** Ending a transfer also discards its file data in the transport, unless the session is gone. */
  function Finish(d: Desk, status: Status, reason: Reason, now: int): Desk {
    if Terminal(d.t.status) then d
    else d.(t := d.t.(status := status, reason := reason, updatedAt := now, working := false, fileOpen := false),
            discards := if reason == SessionEnded then d.discards else d.discards + 1)
  }

  function Start(d: Desk, job: Job): Desk {
    d.(t := d.t.(working := true), job := Some(job))
  }

  function ReadNext(d: Desk): Desk {
    if d.t.working || d.t.transferred >= d.t.size then d
    else Start(d, Job.Read(d.t.transferred, Advance(d.t.size, d.t.transferred)))
  }

  // ----- worker reports -----

  function AfterMeasure(d: Desk, id: TransferId, size: nat, digest: Digest, now: int, env: Setting): Desk {
    if d.t.status != Preparing || !(|d.t.name| > 0 && env.names(d.t.name)) then Finish(d, Failed, BadName, now)
    else
      var o := d.(t := d.t.(size := size, digest := digest, status := Offered, updatedAt := now));
      if size > MAX_FILE_BYTES then Finish(o, Failed, CannotQueue, now)
      else if Refused(o) then Finish(Tell(o, Offer(id, d.t.name, size, digest)), Failed, CannotQueue, now)
      else Tell(o, Offer(id, d.t.name, size, digest))
  }

  function AfterCreate(d: Desk, id: TransferId, now: int, env: Setting): Desk {
    if d.t.status != Accepting then d
    else
      var o := Tell(d.(t := d.t.(fileOpen := true, hashed := [], status := Transferring, updatedAt := now)), Accept(id));
      if Refused(d) then Finish(o, Failed, CannotQueue, now)
      else if d.t.size != 0 then o
      else if d.t.digest != env.hash([]) then Finish(Tell(o, Cancel(id)), Failed, Mismatch, now)
      else Start(o, Sync)
  }

  function AfterRead(d: Desk, data: bytes, now: int): Desk {
    if d.t.status != Transferring then d
    else if Refused(d) then Finish(Send(d, data), Failed, CannotQueue, now)
    else Send(d, data).(t := d.t.(status := Waiting, updatedAt := now))
  }

  function AfterWrite(d: Desk, id: TransferId, data: bytes, now: int, env: Setting): Desk {
    if d.t.status != Transferring then d
    else
      var o := d.(t := d.t.(hashed := d.t.hashed + data, transferred := d.t.transferred + |data|, updatedAt := now));
      if o.t.transferred == o.t.size then
        if env.hash(o.t.hashed) != o.t.digest then Finish(Tell(o, Cancel(id)), Failed, Mismatch, now)
        else Start(o, Sync)
      else if Refused(o) then Finish(Tell(o, DataAck(id)), Failed, CannotQueue, now)
      else Tell(o, DataAck(id))
  }

  function AfterSync(d: Desk, id: TransferId, now: int): Desk {
    var o := d.(t := d.t.(fileOpen := false));
    if o.t.status != Transferring then o
    else if Refused(o) then Finish(Tell(o, DataAck(id)), Failed, CannotQueue, now)
    else Finish(Tell(o, DataAck(id)), Completed, NoReason, now)
  }

  /** A worker reports: the report of a transfer that has ended meanwhile is dropped. */
  function OnReport(d0: Desk, id: TransferId, report: Report, now: int, env: Setting): Desk {
    if Terminal(d0.t.status) then d0.(job := None)
    else
      var d := d0.(job := None, t := d0.t.(working := false));
      match report
      case Broken => Finish(Tell(d, Cancel(id)), Failed, WorkFailed, now)
      case Measured(size, digest) => AfterMeasure(d, id, size, digest, now, env)
      case Created => AfterCreate(d, id, now, env)
      case HasRead(data) => AfterRead(d, data, now)
      case Written(data) => AfterWrite(d, id, data, now, env)
      case Synced => AfterSync(d, id, now)
  }

  // ----- messages of the peer -----

  function OnAccept(d: Desk, now: int): Desk {
    if !(d.t.outgoing && d.t.status == Offered) then d
    else if d.t.size == 0 then d.(t := d.t.(status := Waiting, updatedAt := now))
    else ReadNext(d.(t := d.t.(status := Transferring, updatedAt := now)))
  }

  function OnDataAck(d: Desk, now: int): Desk {
    if !(d.t.outgoing && d.t.status == Waiting) then d
    else
      var o := d.(discards := d.discards + 1,
                  t := d.t.(transferred := d.t.transferred + Advance(d.t.size, d.t.transferred), updatedAt := now));
      if o.t.transferred == o.t.size then Finish(o, Completed, NoReason, now)
      else ReadNext(o.(t := o.t.(status := Transferring)))
  }

  function OnControl(d: Desk, c: Control, now: int): Desk {
    if Terminal(d.t.status) then d
    else match c
      case Offer(_, _, _, _) => d
      case Accept(_) => OnAccept(d, now)
      case Reject(_) => if d.t.outgoing && d.t.status == Offered then Finish(d, Rejected, NoReason, now) else d
      case Cancel(_) => Finish(d, Canceled, CanceledByPeer, now)
      case DataAck(_) => OnDataAck(d, now)
  }

  /** A chunk is taken only by an idle receiving record, and only with the size expected at its offset. */
  predicate TakesChunk(t: Transfer, data: bytes) {
    && !t.outgoing
    && t.status == Transferring
    && !t.working
    && |data| == Advance(t.size, t.transferred)
  }

  function OnChunk(d: Desk, data: bytes): Desk {
    if TakesChunk(d.t, data) then Start(d, Write(d.t.transferred, data)) else d
  }

  // ----- the user and the clock -----

  function OnUserAccept(d: Desk, now: int): Desk {
    if d.t.outgoing || d.t.status != Offered then d
    else Start(d.(t := d.t.(status := Accepting, updatedAt := now)), Create)
  }

  function OnUserReject(d: Desk, id: TransferId, now: int): Desk {
    if d.t.outgoing || d.t.status != Offered then d else Finish(Tell(d, Reject(id)), Rejected, NoReason, now)
  }

  function OnUserCancel(d: Desk, id: TransferId, now: int): Desk {
    if Terminal(d.t.status) then d else Finish(Tell(d, Cancel(id)), Canceled, CanceledHere, now)
  }

  /** The periodic check: `alive` says whether the session of the transfer still is the active one. */
  function OnTick(d: Desk, id: TransferId, alive: bool, now: int): Desk {
    if Terminal(d.t.status) then d
    else if !alive then Finish(d, Failed, SessionEnded, now)
    else if d.t.working then d
    else if now < d.t.updatedAt + (if d.t.status == Offered then OFFER_TIMEOUT else TRANSFER_TIMEOUT) then d
    else Finish(Tell(d, Cancel(id)), Failed, TimedOut, now)
  }

  function OnStop(d: Desk, now: int): Desk {
    Finish(d, Canceled, Stopped, now)
  }

  // ----- the records of one end -----

  /** `past` keeps the last state of records that were pruned; nothing reads it. */
  datatype Party = Party(
    transfers: map<TransferId, Transfer>,
    past: map<TransferId, Transfer>,
    jobs: map<TransferId, Job>,
    controls: seq<Control>,
    data: seq<Chunk>,
    attempts: nat,
    refusals: set<nat>,
    outboundDiscards: nat,
    inboundDiscards: nat)

  function JobOf(p: Party, id: TransferId): Option<Job> {
    if id in p.jobs then Some(p.jobs[id]) else None
  }

  function DeskOf(p: Party, id: TransferId): Desk
    requires id in p.transfers
  {
    Desk(p.transfers[id], JobOf(p, id), [], [], p.attempts, p.refusals, 0)
  }

  function Chunks(id: TransferId, sent: seq<bytes>): (r: seq<Chunk>)
    ensures |r| == |sent|
    ensures forall i :: 0 <= i < |r| ==> r[i] == Chunk(id, sent[i])
  {
    seq(|sent|, i requires 0 <= i < |sent| => Chunk(id, sent[i]))
  }

  function File(p: Party, id: TransferId, d: Desk): Party
    requires id in p.transfers
  {
    p.(transfers := p.transfers[id := d.t],
       jobs := if d.job.Some? then p.jobs[id := d.job.value] else p.jobs - {id},
       controls := p.controls + d.told,
       data := p.data + Chunks(id, d.sent),
       attempts := d.attempts,
       outboundDiscards := p.outboundDiscards + (if d.t.outgoing then d.discards else 0),
       inboundDiscards := p.inboundDiscards + (if d.t.outgoing then 0 else d.discards))
  }

  function ActiveIds(transfers: map<TransferId, Transfer>): set<TransferId> {
    set id | id in transfers && !Terminal(transfers[id].status)
  }

  function TerminalIds(transfers: map<TransferId, Transfer>): set<TransferId> {
    set id | id in transfers && Terminal(transfers[id].status)
  }

  /** An incoming transfer has been accepted and has not ended. */
  predicate Receiving(transfers: map<TransferId, Transfer>) {
    exists id :: id in transfers && !transfers[id].outgoing && transfers[id].status != Offered && !Terminal(transfers[id].status)
  }

  predicate Offering(transfers: map<TransferId, Transfer>) {
    exists id :: id in transfers && transfers[id].outgoing && !Terminal(transfers[id].status)
  }

  function NewTransfer(outgoing: bool, name: bytes, status: Status, size: nat, digest: Digest, working: bool, now: int): Transfer {
    Transfer(outgoing, name, status, size, 0, digest, NoReason, now, working, false, [])
  }

  const NO_DIGEST: Digest := NO_ID + NO_ID

  /** Offering a file: refused while another outgoing transfer runs or the records are full. */
  function OfferFile(p: Party, id: TransferId, name: bytes, now: int): Party {
    if Offering(p.transfers) || |ActiveIds(p.transfers)| >= MAX_RECORDS then p
    else p.(transfers := p.transfers[id := NewTransfer(true, name, Preparing, 0, NO_DIGEST, true, now)],
            jobs := p.jobs[id := Measure])
  }

  function ReceiveOffer(p: Party, c: Control, now: int): Party
    requires c.Offer?
  {
    if c.id in p.transfers || |ActiveIds(p.transfers)| >= MAX_RECORDS then p
    else p.(transfers := p.transfers[c.id := NewTransfer(false, c.name, Offered, c.size, c.digest, false, now)])
  }

  function AcceptFile(p: Party, id: TransferId, now: int): Party {
    if id !in p.transfers || Receiving(p.transfers) then p else File(p, id, OnUserAccept(DeskOf(p, id), now))
  }

  function RejectFile(p: Party, id: TransferId, now: int): Party {
    if id !in p.transfers then p else File(p, id, OnUserReject(DeskOf(p, id), id, now))
  }

  function CancelFile(p: Party, id: TransferId, now: int): Party {
    if id !in p.transfers then p else File(p, id, OnUserCancel(DeskOf(p, id), id, now))
  }

  function HandleReport(p: Party, id: TransferId, report: Report, now: int, env: Setting): Party {
    if id !in p.transfers then p.(jobs := p.jobs - {id})
    else File(p, id, OnReport(DeskOf(p, id), id, report, now, env))
  }

  function HandleControl(p: Party, c: Control, now: int): Party {
    if c.Offer? then ReceiveOffer(p, c, now)
    else if c.id !in p.transfers then p
    else File(p, c.id, OnControl(DeskOf(p, c.id), c, now))
  }

  function HandleChunk(p: Party, c: Chunk): Party {
    if c.id !in p.transfers then p else File(p, c.id, OnChunk(DeskOf(p, c.id), c.data))
  }

  function Tick(p: Party, id: TransferId, alive: bool, now: int): Party {
    if id !in p.transfers then p else File(p, id, OnTick(DeskOf(p, id), id, alive, now))
  }

  function Stop(p: Party, id: TransferId, now: int): Party {
    if id !in p.transfers then p else File(p, id, OnStop(DeskOf(p, id), now))
  }

  /** Forget one ended transfer. */
  function Forget(p: Party, id: TransferId): Party
    requires id in p.transfers
  {
    p.(transfers := p.transfers - {id}, past := p.past[id := p.transfers[id]])
  }
}
