/** The record of a file transfer and its handlers, updated in place. */
module FileTransferRecords {
  import opened Options
  import opened Bytes
  import opened FileMessages
  import opened FileTransfers

  /** The sending half of a session, as the file code sees it. */
  class Session {
    var controls: seq<Control>
    var data: seq<Chunk>
    var attempts: nat
    var discards: nat
    const refusals: set<nat>

    constructor (refusals: set<nat>)
      ensures controls == [] && data == [] && attempts == 0 && discards == 0 && this.refusals == refusals
    {
      controls, data, attempts, discards := [], [], 0, 0;
      this.refusals := refusals;
    }

    method QueueControl(c: Control) returns (ok: bool)
      modifies this
      ensures ok == (old(attempts) !in refusals) && attempts == old(attempts) + 1
      ensures controls == (if ok then old(controls) + [c] else old(controls))
      ensures data == old(data) && discards == old(discards)
    {
      ok := attempts !in refusals;
      attempts := attempts + 1;
      if ok {
        controls := controls + [c];
      }
    }

    method QueueChunk(c: Chunk) returns (ok: bool)
      modifies this
      ensures ok == (old(attempts) !in refusals) && attempts == old(attempts) + 1
      ensures data == (if ok then old(data) + [c] else old(data))
      ensures controls == old(controls) && discards == old(discards)
    {
      ok := attempts !in refusals;
      attempts := attempts + 1;
      if ok {
        data := data + [c];
      }
    }

    /** Discard the file data of the transfer's direction. */
    method Discard()
      modifies this
      ensures discards == old(discards) + 1
      ensures controls == old(controls) && data == old(data) && attempts == old(attempts)
    {
      discards := discards + 1;
    }
  }

  class Record {
    const id: TransferId
    const outgoing: bool
    const name: bytes
    const session: Session
    var status: Status
    var size: nat
    var transferred: nat
    var digest: Digest
    var reason: Reason
    var updatedAt: int
    var working: bool
    var fileOpen: bool
    var hashed: bytes
    var job: Option<Job>

    constructor (id: TransferId, outgoing: bool, name: bytes, session: Session, status: Status, size: nat, digest: Digest, working: bool, now: int)
      ensures this.id == id && this.session == session && job == None
      ensures State() == NewTransfer(outgoing, name, status, size, digest, working, now)
    {
      this.id, this.outgoing, this.name, this.session := id, outgoing, name, session;
      this.status, this.size, this.digest, this.working, updatedAt := status, size, digest, working, now;
      transferred, reason, fileOpen, hashed, job := 0, NoReason, false, [], None;
    }

    function State(): Transfer
      reads this
    {
      Transfer(outgoing, name, status, size, transferred, digest, reason, updatedAt, working, fileOpen, hashed)
    }

    /** The record and its session at the start of an event. */
    function Before(): Desk
      reads this, session
    {
      Desk(State(), job, [], [], session.attempts, session.refusals, 0)
    }

    /** The record and its session are what this desk says, starting from these queues. */
    ghost predicate Did(d: Desk, controls: seq<Control>, data: seq<Chunk>, discards: nat)
      reads this, session
    {
      && State() == d.t && job == d.job
      && session.controls == controls + d.told
      && session.data == data + Chunks(id, d.sent)
      && session.attempts == d.attempts && session.refusals == d.refusals
      && session.discards == discards + d.discards
    }

    method Finish(status: Status, reason: Reason, now: int, ghost d: Desk, ghost controls: seq<Control>, ghost data: seq<Chunk>, ghost discards: nat)
      requires Did(d, controls, data, discards)
      modifies this, session
      ensures Did(FileTransfers.Finish(d, status, reason, now), controls, data, discards)
    {
      if Terminal(this.status) {
        return;
      }
      this.status, this.reason, updatedAt, working := status, reason, now, false;
      if reason != SessionEnded {
        session.Discard();
      }
      fileOpen := false;
    }

    method ReadNextChunk(ghost d: Desk, ghost controls: seq<Control>, ghost data: seq<Chunk>, ghost discards: nat)
      requires Did(d, controls, data, discards)
      modifies this
      ensures Did(ReadNext(d), controls, data, discards)
    {
      if working || transferred >= size {
        return;
      }
      working := true;
      job := Some(Job.Read(transferred, Advance(size, transferred)));
    }

    method HandleWorkResult(report: Report, now: int, env: Setting)
      modifies this, session
      ensures Did(OnReport(old(Before()), id, report, now, env), old(session.controls), old(session.data), old(session.discards))
    {
      ghost var controls, data, discards := session.controls, session.data, session.discards;
      job := None;
      if Terminal(status) {
        return;
      }
      working := false;
      ghost var d := Before();
      match report {
        case Broken =>
          var _ := session.QueueControl(Cancel(id));
          Finish(Failed, WorkFailed, now, Tell(d, Cancel(id)), controls, data, discards);
        case Measured(fileSize, fileDigest) =>
          HandleMeasured(fileSize, fileDigest, now, env);
        case Created =>
          HandleCreated(now, env);
        case HasRead(chunk) =>
          HandleRead(chunk, now);
        case Written(chunk) =>
          HandleWritten(chunk, now, env);
        case Synced =>
          HandleSynced(now);
      }
    }

    method HandleMeasured(fileSize: nat, fileDigest: Digest, now: int, env: Setting)
      modifies this, session
      ensures Did(AfterMeasure(old(Before()), id, fileSize, fileDigest, now, env), old(session.controls), old(session.data), old(session.discards))
    {
      ghost var controls, data, discards, d := session.controls, session.data, session.discards, Before();
      if status != Preparing || !(|name| > 0 && env.names(name)) {
        Finish(Failed, BadName, now, d, controls, data, discards);
        return;
      }
      size, digest, status, updatedAt := fileSize, fileDigest, Offered, now;
      ghost var o := Before();
      if size > MAX_FILE_BYTES {
        Finish(Failed, CannotQueue, now, o, controls, data, discards);
        return;
      }
      var ok := session.QueueControl(Offer(id, name, size, digest));
      if !ok {
        Finish(Failed, CannotQueue, now, Tell(o, Offer(id, name, size, digest)), controls, data, discards);
      }
    }

    method HandleCreated(now: int, env: Setting)
      modifies this, session
      ensures Did(AfterCreate(old(Before()), id, now, env), old(session.controls), old(session.data), old(session.discards))
    {
      ghost var controls, data, discards, d := session.controls, session.data, session.discards, Before();
      if status != Accepting {
        return;
      }
      fileOpen, hashed, status, updatedAt := true, [], Transferring, now;
      ghost var o := Tell(Before(), Accept(id));
      var ok := session.QueueControl(Accept(id));
      if !ok {
        Finish(Failed, CannotQueue, now, o, controls, data, discards);
      } else if size == 0 {
        if digest != env.hash([]) {
          var _ := session.QueueControl(Cancel(id));
          Finish(Failed, Mismatch, now, Tell(o, Cancel(id)), controls, data, discards);
          return;
        }
        working := true;
        job := Some(Sync);
      }
    }

    method HandleRead(chunk: bytes, now: int)
      modifies this, session
      ensures Did(AfterRead(old(Before()), chunk, now), old(session.controls), old(session.data), old(session.discards))
    {
      ghost var controls, data, discards, d := session.controls, session.data, session.discards, Before();
      if status != Transferring {
        return;
      }
      var ok := session.QueueChunk(Chunk(id, chunk));
      if !ok {
        Finish(Failed, CannotQueue, now, Send(d, chunk), controls, data, discards);
        return;
      }
      status, updatedAt := Waiting, now;
    }

    method HandleWritten(chunk: bytes, now: int, env: Setting)
      modifies this, session
      ensures Did(AfterWrite(old(Before()), id, chunk, now, env), old(session.controls), old(session.data), old(session.discards))
    {
      ghost var controls, data, discards := session.controls, session.data, session.discards;
      if status != Transferring {
        return;
      }
      hashed := hashed + chunk;
      transferred := transferred + |chunk|;
      updatedAt := now;
      ghost var o := Before();
      if transferred == size {
        if env.hash(hashed) != digest {
          var _ := session.QueueControl(Cancel(id));
          Finish(Failed, Mismatch, now, Tell(o, Cancel(id)), controls, data, discards);
          return;
        }
        working := true;
        job := Some(Sync);
        return;
      }
      var ok := session.QueueControl(DataAck(id));
      if !ok {
        Finish(Failed, CannotQueue, now, Tell(o, DataAck(id)), controls, data, discards);
      }
    }

    method HandleSynced(now: int)
      modifies this, session
      ensures Did(AfterSync(old(Before()), id, now), old(session.controls), old(session.data), old(session.discards))
    {
      ghost var controls, data, discards := session.controls, session.data, session.discards;
      fileOpen := false;
      if status != Transferring {
        return;
      }
      ghost var o := Tell(Before(), DataAck(id));
      var ok := session.QueueControl(DataAck(id));
      if !ok {
        Finish(Failed, CannotQueue, now, o, controls, data, discards);
        return;
      }
      Finish(Completed, NoReason, now, o, controls, data, discards);
    }

    method HandleControl(c: Control, now: int)
      modifies this, session
      ensures Did(OnControl(old(Before()), c, now), old(session.controls), old(session.data), old(session.discards))
    {
      ghost var controls, data, discards, d := session.controls, session.data, session.discards, Before();
      if Terminal(status) {
        return;
      }
      match c {
        case Offer(_, _, _, _) =>
        case Accept(_) =>
          if outgoing && status == Offered {
            status, updatedAt := Waiting, now;
            if size != 0 {
              status := Transferring;
              ReadNextChunk(Before(), controls, data, discards);
            }
          }
        case Reject(_) =>
          if outgoing && status == Offered {
            Finish(Rejected, NoReason, now, d, controls, data, discards);
          }
        case Cancel(_) =>
          Finish(Canceled, CanceledByPeer, now, d, controls, data, discards);
        case DataAck(_) =>
          if outgoing && status == Waiting {
            session.Discard();
            transferred := transferred + Advance(size, transferred);
            updatedAt := now;
            ghost var o := d.(t := State(), discards := 1);
            if transferred == size {
              Finish(Completed, NoReason, now, o, controls, data, discards);
            } else {
              status := Transferring;
              ReadNextChunk(o.(t := State()), controls, data, discards);
            }
          }
      }
    }

    method HandleChunk(chunk: bytes)
      modifies this
      ensures Did(OnChunk(old(Before()), chunk), old(session.controls), old(session.data), old(session.discards))
    {
      if outgoing || status != Transferring || working {
        return;
      }
      if |chunk| != Advance(size, transferred) {
        return;
      }
      working := true;
      job := Some(Job.Write(transferred, chunk));
    }

    /** The user accepts: an error is the record left as it was. */
    method AcceptFile(now: int) returns (ok: bool)
      modifies this
      ensures ok == (!outgoing && old(status) == Offered)
      ensures Did(OnUserAccept(old(Before()), now), old(session.controls), old(session.data), old(session.discards))
    {
      if outgoing || status != Offered {
        return false;
      }
      status, updatedAt, working := Accepting, now, true;
      job := Some(Create);
      return true;
    }

    method RejectFile(now: int) returns (ok: bool)
      modifies this, session
      ensures ok == (!outgoing && old(status) == Offered)
      ensures Did(OnUserReject(old(Before()), id, now), old(session.controls), old(session.data), old(session.discards))
    {
      ghost var controls, data, discards, d := session.controls, session.data, session.discards, Before();
      if outgoing || status != Offered {
        return false;
      }
      var _ := session.QueueControl(Reject(id));
      Finish(Rejected, NoReason, now, Tell(d, Reject(id)), controls, data, discards);
      return true;
    }

    method CancelFile(now: int) returns (ok: bool)
      modifies this, session
      ensures ok == !Terminal(old(status))
      ensures Did(OnUserCancel(old(Before()), id, now), old(session.controls), old(session.data), old(session.discards))
    {
      ghost var controls, data, discards, d := session.controls, session.data, session.discards, Before();
      if Terminal(status) {
        return false;
      }
      var _ := session.QueueControl(Cancel(id));
      Finish(Canceled, CanceledHere, now, Tell(d, Cancel(id)), controls, data, discards);
      return true;
    }

    method Expire(alive: bool, now: int)
      modifies this, session
      ensures Did(OnTick(old(Before()), id, alive, now), old(session.controls), old(session.data), old(session.discards))
    {
      ghost var controls, data, discards, d := session.controls, session.data, session.discards, Before();
      if Terminal(status) {
        return;
      }
      if !alive {
        Finish(Failed, SessionEnded, now, d, controls, data, discards);
        return;
      }
      if working {
        return;
      }
      var timeout := TRANSFER_TIMEOUT;
      if status == Offered {
        timeout := OFFER_TIMEOUT;
      }
      if now >= updatedAt + timeout {
        var _ := session.QueueControl(Cancel(id));
        Finish(Failed, TimedOut, now, Tell(d, Cancel(id)), controls, data, discards);
      }
    }
  }

  /** One scan of the records: how many have ended, and which of those is oldest. */
  method OldestEnded(transfers: map<TransferId, Transfer>) returns (count: nat, oldest: Option<TransferId>)
    ensures count == |TerminalIds(transfers)|
    ensures oldest == None <==> count == 0
    ensures oldest.Some? ==> oldest.value in TerminalIds(transfers)
    ensures oldest.Some? ==> forall id :: id in TerminalIds(transfers) ==> transfers[oldest.value].updatedAt <= transfers[id].updatedAt
  {
    count, oldest := 0, None;
    var left := transfers.Keys;
    ghost var seen: set<TransferId> := {};
    while left != {}
      invariant left <= transfers.Keys
      invariant forall k :: k in seen <==> k in transfers && k !in left && Terminal(transfers[k].status)
      invariant count == |seen|
      invariant oldest == None <==> seen == {}
      invariant oldest.Some? ==> oldest.value in seen
      invariant oldest.Some? ==> forall id :: id in seen ==> transfers[oldest.value].updatedAt <= transfers[id].updatedAt
      decreases |left|
    {
      hide TerminalIds, Terminal;
      var id :| id in left;
      left := left - {id};
      if Terminal(transfers[id].status) {
        count := count + 1;
        seen := seen + {id};
        if oldest == None || transfers[id].updatedAt < transfers[oldest.value].updatedAt {
          oldest := Some(id);
        }
      }
    }
    assert seen == TerminalIds(transfers);
  }

  /** Keeping no more than the last 32 ended records: a live record is never dropped, and no record is dropped
      while an older ended one is kept. */
  method PruneTransfers(transfers: map<TransferId, Transfer>) returns (kept: map<TransferId, Transfer>)
    ensures kept.Keys <= transfers.Keys && forall id :: id in kept ==> kept[id] == transfers[id]
    ensures ActiveIds(kept) == ActiveIds(transfers)
    ensures |TerminalIds(kept)| == if |TerminalIds(transfers)| <= MAX_RECORDS then |TerminalIds(transfers)| else MAX_RECORDS
    ensures forall id, k :: id in TerminalIds(transfers) && id !in kept && k in TerminalIds(kept) ==>
      transfers[id].updatedAt <= transfers[k].updatedAt
  {
    kept := transfers;
    while true
      invariant kept.Keys <= transfers.Keys && forall id :: id in kept ==> kept[id] == transfers[id]
      invariant ActiveIds(kept) == ActiveIds(transfers)
      invariant |TerminalIds(kept)| >= if |TerminalIds(transfers)| <= MAX_RECORDS then |TerminalIds(transfers)| else MAX_RECORDS
      invariant |TerminalIds(kept)| <= |TerminalIds(transfers)|
      invariant forall id, k :: id in TerminalIds(transfers) && id !in kept && k in TerminalIds(kept) ==>
        transfers[id].updatedAt <= transfers[k].updatedAt
      decreases |kept|
    {
      var count, oldest := OldestEnded(kept);
      if count <= MAX_RECORDS {
        return;
      }
      assert TerminalIds(kept - {oldest.value}) == TerminalIds(kept) - {oldest.value};
      kept := kept - {oldest.value};
    }
  }
}
