/** Keeping one UDP port mapping on a router that may answer anything. */
module PortMappings {
  import opened Options

  const SECOND: int := 1_000_000_000
  const FALLBACK_ATTEMPTS: nat := 4
  const CONFLICT: nat := 718
  const MILLISECOND: int := 1_000_000
  const HIGH_PORT_BASE: nat := 49152
  const HIGH_PORTS: nat := 16384

  /** What a router says about an external port. */
  datatype Entry = Entry(internalPort: nat, internalIP: nat, enabled: bool, description: nat, lease: nat)

  datatype LookupReply = NotFound | Found(entry: Entry) | LookupFailed
  datatype AddReply = Added | Refused(code: nat) | NoAnswer
  datatype DeleteReply = Deleted | Gone | DeleteFailed

  datatype Mapping = Mapping(gateway: nat, port: nat, address: nat, expiresAt: int)

  /** Everything the mapper does that can be seen from outside, in order. */
  datatype Event =
    | Lookup(gateway: nat, port: nat, lookup: LookupReply)
    | Add(gateway: nat, port: nat, lease: nat, startedAt: int, add: AddReply)
    | Delete(gateway: nat, port: nat, delete: DeleteReply)
    | Remove(gateway: nat, port: nat)
    | External(gateway: nat, address: Option<nat>)
    | Publish(mapping: Option<Mapping>, at: int)
    | Wait(delay: int, at: int, expiresAt: Option<int>)

  /** The outside: at each step it may answer anything. Gateways are numbers; some have a usable local address. */
  datatype Outside = Outside(
    named: nat -> bool,
    lookup: nat -> LookupReply,
    add: nat -> AddReply,
    delete: nat -> DeleteReply,
    external: nat -> Option<nat>,
    clock: nat -> int,
    canceled: nat -> bool,
    gateways: nat -> seq<nat>,
    localIP: nat -> Option<nat>,
    randomPort: nat -> nat)

  /** This run: the port to map, its token, and the lease to ask for. */
  datatype Job = Job(internalPort: nat, token: nat, lease: nat, retryInitial: int, retryMaximum: int, localIP: nat -> Option<nat>)

  /** What normalising the timing establishes. */
  predicate ValidJob(job: Job) {
    0 < job.retryInitial <= job.retryMaximum
  }

  /** The entry is this run's own. */
  predicate Mine(job: Job, gateway: nat, e: Entry) {
    e.internalPort == job.internalPort && Some(e.internalIP) == job.localIP(gateway) && e.enabled && e.description == job.token
  }

  function ConservativeLease(requested: nat, reported: nat): nat {
    if reported != 0 && reported < requested then reported else requested
  }

  // ----- what a trace may contain -----

  predicate LooksUp(e: Event, gateway: nat, port: nat) {
    e.Lookup? && e.gateway == gateway && e.port == port
  }

  /** A mapping is added only right after a lookup of that port found nothing or this run's token. */
  predicate AddIsSafe(job: Job, trace: seq<Event>, i: nat) {
    i < |trace| && trace[i].Add? ==>
      && i > 0 && LooksUp(trace[i - 1], trace[i].gateway, trace[i].port)
      && (trace[i - 1].lookup.NotFound? || (trace[i - 1].lookup.Found? && Mine(job, trace[i].gateway, trace[i - 1].lookup.entry)))
  }

  /** A mapping is deleted only right after a lookup of that port found this run's token. */
  predicate DeleteIsSafe(job: Job, trace: seq<Event>, i: nat) {
    i < |trace| && trace[i].Delete? ==>
      && i > 0 && LooksUp(trace[i - 1], trace[i].gateway, trace[i].port)
      && trace[i - 1].lookup.Found? && Mine(job, trace[i].gateway, trace[i - 1].lookup.entry)
  }

  /** Request j was confirmed by the lookup right after it, for a finite lease, until then at most. */
  predicate ConfirmedAt(job: Job, trace: seq<Event>, j: nat, gateway: nat, port: nat, expiresAt: int) {
    && j + 1 < |trace|
    && trace[j].Add? && trace[j].gateway == gateway && trace[j].port == port && trace[j].lease <= job.lease
    && LooksUp(trace[j + 1], gateway, port) && trace[j + 1].lookup.Found?
    && Mine(job, gateway, trace[j + 1].lookup.entry) && trace[j + 1].lookup.entry.lease != 0
    && expiresAt == trace[j].startedAt + ConservativeLease(trace[j].lease, trace[j + 1].lookup.entry.lease) * SECOND
  }

  ghost predicate Backed(job: Job, trace: seq<Event>, gateway: nat, port: nat, expiresAt: int) {
    exists j :: ConfirmedAt(job, trace, j, gateway, port, expiresAt)
  }

  /** A mapping is published only before it expires, and only if a request for it was confirmed. */
  ghost predicate PublishIsSafe(job: Job, trace: seq<Event>, i: nat) {
    i < |trace| && trace[i].Publish? && trace[i].mapping.Some? ==>
      var m := trace[i].mapping.value;
      trace[i].at < m.expiresAt && Backed(job, trace[..i], m.gateway, m.port, m.expiresAt)
  }

  /** No wait runs past the expiry of the mapping held, a last millisecond aside, and none is longer than the lease
      asked for or the largest retry. */
  predicate WaitIsSafe(job: Job, e: Event) {
    e.Wait? ==>
      && 0 < e.delay
      && (e.expiresAt.Some? ==> e.delay == MILLISECOND || e.at + e.delay <= e.expiresAt.value)
      && (e.expiresAt.None? ==> e.delay <= job.retryMaximum)
  }

  ghost predicate Safe(job: Job, trace: seq<Event>) {
    forall i: nat :: i < |trace| ==>
      AddIsSafe(job, trace, i) && DeleteIsSafe(job, trace, i) && PublishIsSafe(job, trace, i) && WaitIsSafe(job, trace[i])
  }

  lemma BackedLater(job: Job, trace: seq<Event>, more: seq<Event>, gateway: nat, port: nat, expiresAt: int)
    requires Backed(job, trace, gateway, port, expiresAt)
    ensures Backed(job, trace + more, gateway, port, expiresAt)
  {
    var j :| ConfirmedAt(job, trace, j, gateway, port, expiresAt);
    assert ConfirmedAt(job, trace + more, j, gateway, port, expiresAt);
  }

  /** One more event is safe if it is safe at the end. */
  lemma SafeMore(job: Job, trace: seq<Event>, e: Event)
    requires Safe(job, trace)
    requires AddIsSafe(job, trace + [e], |trace|) && DeleteIsSafe(job, trace + [e], |trace|) && WaitIsSafe(job, e)
    requires e.Publish? && e.mapping.Some? ==>
      e.at < e.mapping.value.expiresAt && Backed(job, trace, e.mapping.value.gateway, e.mapping.value.port, e.mapping.value.expiresAt)
    ensures Safe(job, trace + [e])
  {
    var more := trace + [e];
    assert more[..|trace|] == trace;
    forall i: nat | i < |more|
      ensures AddIsSafe(job, more, i) && DeleteIsSafe(job, more, i) && PublishIsSafe(job, more, i) && WaitIsSafe(job, more[i])
    {
      if i < |trace| {
        assert more[..i] == trace[..i];
        assert AddIsSafe(job, trace, i) && DeleteIsSafe(job, trace, i) && PublishIsSafe(job, trace, i) && WaitIsSafe(job, trace[i]);
      }
    }
  }

  // ----- nothing is left behind -----

  datatype Place = Place(gateway: nat, port: nat)

  /** A lookup showed that the port is not this run's. */
  predicate NotOurs(job: Job, e: Event) {
    e.Lookup? && (e.lookup.NotFound? || (e.lookup.Found? && !Mine(job, e.gateway, e.lookup.entry)))
  }

  /** A lookup showed that the port is not this run's, or is mapped for ever. */
  predicate Lost(job: Job, e: Event) {
    NotOurs(job, e) || (e.Lookup? && e.lookup.Found? && e.lookup.entry.lease == 0)
  }

  /** After this event the place needs no more attention: it is not ours, or its removal began. */
  predicate Closes(job: Job, e: Event, at: Place) {
    (NotOurs(job, e) || e.Remove?) && at == Place(e.gateway, e.port)
  }

  predicate MayHaveMapped(e: Event) {
    e.Add? && !e.add.Refused?
  }

  ghost predicate Closed(job: Job, trace: seq<Event>, i: nat, at: Place) {
    exists k :: i < k < |trace| && Closes(job, trace[k], at)
  }

  /** Every request that was not refused is for the place held, or its place was closed since. */
  ghost predicate Accounted(job: Job, trace: seq<Event>, held: Option<Place>) {
    forall i: nat :: i < |trace| && MayHaveMapped(trace[i]) ==>
      held == Some(Place(trace[i].gateway, trace[i].port)) || Closed(job, trace, i, Place(trace[i].gateway, trace[i].port))
  }

  /** What is held after an event. */
  function Holds(job: Job, held: Option<Place>, e: Event): Option<Place> {
    if MayHaveMapped(e) then Some(Place(e.gateway, e.port))
    else if held.Some? && Closes(job, e, held.value) then None
    else held
  }

  lemma AccountedMore(job: Job, trace: seq<Event>, e: Event, held: Option<Place>)
    requires Accounted(job, trace, held)
    requires MayHaveMapped(e) ==> held in {None, Some(Place(e.gateway, e.port))}
    ensures Accounted(job, trace + [e], Holds(job, held, e))
  {
    var more := trace + [e];
    forall i: nat | i < |more| && MayHaveMapped(more[i])
      ensures Holds(job, held, e) == Some(Place(more[i].gateway, more[i].port)) || Closed(job, more, i, Place(more[i].gateway, more[i].port))
    {
      if i < |trace| {
        var at := Place(trace[i].gateway, trace[i].port);
        if held == Some(at) {
          assert Closes(job, e, at) ==> Closes(job, more[|trace|], at);
        } else {
          var k :| i < k < |trace| && Closes(job, trace[k], at);
          assert Closes(job, more[k], at);
        }
      }
    }
  }

  // ----- verdicts -----

  datatype Verdict = Owns(lease: nat) | Pending | Conflict | Failure | Permanent

  /** What adding a mapping came to, from the router's answer and the lookup after it. */
  function AddVerdict(job: Job, gateway: nat, add: AddReply, after: LookupReply): Verdict {
    match after
    case LookupFailed => if add.Refused? then (if add.code == CONFLICT then Conflict else Failure) else Pending
    case Found(e) =>
      if !Mine(job, gateway, e) then NotMine(add)
      else if e.lease == 0 then Permanent
      else if add.Refused? then Pending
      else Owns(e.lease)
    case NotFound => NotMine(add)
  }

  function NotMine(add: AddReply): Verdict {
    if add.Refused? then (if add.code == CONFLICT then Conflict else Failure) else Pending
  }

  // ----- timing -----

  /** Renew when three fifths of the lease are left, or at once. */
  function RefreshDelay(expiresAt: int, lease: nat, now: int): int {
    var delay := expiresAt - lease * SECOND * 3 / 5 - now;
    if delay > 0 then delay else MILLISECOND
  }

  /** A refresh is due at once exactly when three fifths of the lease or less are left, and otherwise leaves that much. */
  lemma RefreshLeavesTime(expiresAt: int, lease: nat, now: int)
    ensures var d := RefreshDelay(expiresAt, lease, now);
      && 0 < d
      && (5 * (expiresAt - now) <= 3 * lease * SECOND ==> d == MILLISECOND)
      && (5 * (expiresAt - now) > 3 * lease * SECOND ==> 5 * (expiresAt - (now + d)) == 3 * lease * SECOND)
  {
    assert lease * SECOND * 3 == (lease * 600_000_000) * 5;
  }

  function NextRetry(current: int, maximum: int): int {
    if current >= maximum / 2 then maximum else current * 2
  }

  /** Retries never shrink, never pass the largest, and double until they reach it. */
  lemma NextRetryGrows(current: int, maximum: int)
    requires 0 < current <= maximum
    ensures current <= NextRetry(current, maximum) <= maximum
    ensures NextRetry(current, maximum) == maximum || NextRetry(current, maximum) == 2 * current
  {
  }

  // ----- the mapper -----

  datatype Owned = Owned(gateway: nat, port: nat, lease: nat, confirmed: bool, advertised: bool, address: nat, expiresAt: int)

  /** The mapping a snapshot shows. */
  function Snapshot(owned: Option<Owned>, now: int): Option<Mapping> {
    if owned.Some? && owned.value.advertised && now < owned.value.expiresAt
    then Some(Mapping(owned.value.gateway, owned.value.port, owned.value.address, owned.value.expiresAt))
    else None
  }

  function Expiry(owned: Option<Owned>): Option<int> {
    if owned.Some? then Some(owned.value.expiresAt) else None
  }

  datatype Creation = Created | Failed | Doubtful

  datatype Outcome = GatewayFailure | PortConflict | Unclear

  /** From this step on, the gateway's answers let this run have its own port: the port is free or this run's, the
      request is granted, the lookup after it confirms a finite lease, and the external address is known. */
  predicate Grants(job: Job, o: Outside, gateway: nat, at: nat) {
    && o.localIP(gateway).Some?
    && (o.lookup(at).NotFound? || Confirms(job, gateway, o.lookup(at)))
    && o.add(at + 2).Added?
    && Confirms(job, gateway, o.lookup(at + 3))
    && o.external(at + 4).Some?
  }

  predicate Confirms(job: Job, gateway: nat, reply: LookupReply) {
    reply.Found? && Mine(job, gateway, reply.entry) && reply.entry.lease != 0
  }

  /** What such a gateway lets this run have. */
  function Granted(job: Job, o: Outside, gateway: nat, at: nat): Owned
    requires Grants(job, o, gateway, at)
  {
    var lease := ConservativeLease(job.lease, o.lookup(at + 3).entry.lease);
    Owned(gateway, job.internalPort, lease, true, true, o.external(at + 4).value, o.clock(at + 1) + lease * SECOND)
  }

  lemma GrantedFields(job: Job, o: Outside, gateway: nat, at: nat)
    requires Grants(job, o, gateway, at)
    ensures o.localIP(gateway).Some? && o.external(at + 4).Some?
    ensures var granted := Granted(job, o, gateway, at);
      granted.confirmed && granted.advertised && granted.address == o.external(at + 4).value
  {
  }

  class Mapper {
    const job: Job
    const outside: Outside
    ghost var trace: seq<Event>
    ghost var held: Option<Place>
    var step: nat

    constructor (job: Job, outside: Outside)
      requires job.localIP == outside.localIP
      requires ValidJob(job)
      ensures Valid() && trace == [] && held == None && this.job == job && this.outside == outside
    {
      this.job, this.outside, trace, held, step := job, outside, [], None, 0;
    }

    ghost predicate Valid()
      reads this`trace, this`held
    {
      Safe(job, trace) && ValidJob(job) && Accounted(job, trace, held)
    }

    /** Whatever may be mapped on the router is what the program holds. */
    ghost predicate Covers(o: Option<Owned>)
      reads this`held
    {
      held.Some? ==> o.Some? && held.value == Place(o.value.gateway, o.value.port)
    }

    /** What the program holds is good, and is all that may be mapped. */
    ghost predicate Keeps(o: Option<Owned>)
      reads this`trace, this`held
    {
      Covers(o) && (o.Some? ==> Good(o.value))
    }

    /** An advertised mapping is backed by a confirmed request, and never leased for longer than asked. */
    ghost predicate Good(o: Owned)
      reads this`trace
    {
      o.lease <= job.lease && (o.advertised ==> Backed(job, trace, o.gateway, o.port, o.expiresAt))
    }

    method Now() returns (t: int)
      modifies this`step
      ensures t == outside.clock(old(step)) && step == old(step) + 1
    {
      t := outside.clock(step);
      step := step + 1;
    }

    method LookupMapping(gateway: nat, port: nat) returns (reply: LookupReply)
      requires Valid()
      modifies this
      ensures Valid() && trace == old(trace) + [Lookup(gateway, port, reply)] && held == Holds(job, old(held), Lookup(gateway, port, reply))
      ensures reply == outside.lookup(old(step)) && step == old(step) + 1
    {
      reply := outside.lookup(step);
      step := step + 1;
      SafeMore(job, trace, Lookup(gateway, port, reply));
      AccountedMore(job, trace, Lookup(gateway, port, reply), held);
      trace, held := trace + [Lookup(gateway, port, reply)], Holds(job, held, Lookup(gateway, port, reply));
    }

    method AddMapping(gateway: nat, port: nat, lease: nat, startedAt: int) returns (reply: AddReply)
      requires Valid() && trace != [] && LooksUp(trace[|trace| - 1], gateway, port)
      requires var found := trace[|trace| - 1].lookup; found.NotFound? || (found.Found? && Mine(job, gateway, found.entry))
      requires held in {None, Some(Place(gateway, port))}
      modifies this
      ensures Valid() && trace == old(trace) + [Add(gateway, port, lease, startedAt, reply)]
      ensures held == Holds(job, old(held), Add(gateway, port, lease, startedAt, reply))
      ensures reply == outside.add(old(step)) && step == old(step) + 1
    {
      reply := outside.add(step);
      step := step + 1;
      SafeMore(job, trace, Add(gateway, port, lease, startedAt, reply));
      AccountedMore(job, trace, Add(gateway, port, lease, startedAt, reply), held);
      trace, held := trace + [Add(gateway, port, lease, startedAt, reply)], Holds(job, held, Add(gateway, port, lease, startedAt, reply));
    }

    method DeleteMapping(gateway: nat, port: nat) returns (reply: DeleteReply)
      requires Valid() && trace != [] && LooksUp(trace[|trace| - 1], gateway, port)
      requires var found := trace[|trace| - 1].lookup; found.Found? && Mine(job, gateway, found.entry)
      modifies this
      ensures Valid() && trace == old(trace) + [Delete(gateway, port, reply)] && held == Holds(job, old(held), Delete(gateway, port, reply))
    {
      reply := outside.delete(step);
      step := step + 1;
      SafeMore(job, trace, Delete(gateway, port, reply));
      AccountedMore(job, trace, Delete(gateway, port, reply), held);
      trace, held := trace + [Delete(gateway, port, reply)], Holds(job, held, Delete(gateway, port, reply));
    }

    method ExternalAddress(gateway: nat) returns (address: Option<nat>)
      requires Valid()
      modifies this
      ensures Valid() && trace == old(trace) + [External(gateway, address)] && held == Holds(job, old(held), External(gateway, address))
      ensures address == outside.external(old(step)) && step == old(step) + 1
    {
      address := outside.external(step);
      step := step + 1;
      SafeMore(job, trace, External(gateway, address));
      AccountedMore(job, trace, External(gateway, address), held);
      trace, held := trace + [External(gateway, address)], Holds(job, held, External(gateway, address));
    }

    /** Delete the mapping if it is still this run's; says whether it may be forgotten. */
    method DeleteOwnedMapping(gateway: nat, port: nat) returns (safeToForget: bool)
      requires Valid()
      modifies this
      ensures Valid() && old(trace) <= trace
      ensures held == if old(held) == Some(Place(gateway, port)) then None else old(held)
    {
      SafeMore(job, trace, Remove(gateway, port));
      AccountedMore(job, trace, Remove(gateway, port), held);
      trace, held := trace + [Remove(gateway, port)], Holds(job, held, Remove(gateway, port));
      var found := LookupMapping(gateway, port);
      if found.LookupFailed? {
        return false;
      }
      if found.NotFound? || !Mine(job, gateway, found.entry) {
        return true;
      }
      var reply := DeleteMapping(gateway, port);
      return !reply.DeleteFailed?;
    }

    /** Ask for a port whose lookup allows it, and confirm it. */
    method RequestPort(gateway: nat, port: nat) returns (owned: Option<Owned>, outcome: Outcome)
      requires Valid() && held == None && trace != [] && LooksUp(trace[|trace| - 1], gateway, port)
      requires var found := trace[|trace| - 1].lookup; found.NotFound? || (found.Found? && Mine(job, gateway, found.entry))
      modifies this
      ensures Valid() && old(trace) <= trace && Covers(owned)
      ensures owned.Some? ==> Good(owned.value) && owned.value.gateway == gateway && owned.value.port == port && !owned.value.advertised
      ensures owned.Some? && owned.value.confirmed ==> Backed(job, trace, gateway, port, owned.value.expiresAt)
      ensures outside.add(old(step) + 1).Added? && Confirms(job, gateway, outside.lookup(old(step) + 2)) ==>
        var lease := ConservativeLease(job.lease, outside.lookup(old(step) + 2).entry.lease);
        step == old(step) + 3
        && owned == Some(Owned(gateway, port, lease, true, false, 0, outside.clock(old(step)) + lease * SECOND))
    {
      var started := Now();
      var added := AddMapping(gateway, port, job.lease, started);
      ghost var request := |trace| - 1;
      var after := LookupMapping(gateway, port);
      match AddVerdict(job, gateway, added, after) {
        case Owns(lease) =>
          var expiresAt := started + ConservativeLease(job.lease, lease) * SECOND;
          assert ConfirmedAt(job, trace, request, gateway, port, expiresAt);
          return Some(Owned(gateway, port, ConservativeLease(job.lease, lease), true, false, 0, expiresAt)), GatewayFailure;
        case Pending =>
          return Some(Owned(gateway, port, job.lease, false, false, 0, started + job.lease * SECOND)), Unclear;
        case Conflict => return None, PortConflict;
        case Failure => return None, GatewayFailure;
        case Permanent =>
          var _ := DeleteOwnedMapping(gateway, port);
          return None, GatewayFailure;
      }
    }

    /** Try one external port. */
    method AttemptPort(gateway: nat, port: nat) returns (owned: Option<Owned>, outcome: Outcome)
      requires Valid() && held == None
      modifies this
      ensures Valid() && old(trace) <= trace && Covers(owned)
      ensures owned.Some? ==> Good(owned.value) && owned.value.gateway == gateway && owned.value.port == port && !owned.value.advertised
      ensures owned.Some? && owned.value.confirmed ==> Backed(job, trace, gateway, port, owned.value.expiresAt)
      ensures port == job.internalPort && Grants(job, outside, gateway, old(step)) ==>
        step == old(step) + 4 && owned == Some(Granted(job, outside, gateway, old(step)).(advertised := false, address := 0))
    {
      var found := LookupMapping(gateway, port);
      if found.LookupFailed? {
        return None, GatewayFailure;
      }
      if found.Found? && !Mine(job, gateway, found.entry) {
        return None, PortConflict;
      }
      if found.Found? && found.entry.lease == 0 {
        var _ := DeleteOwnedMapping(gateway, port);
        return None, GatewayFailure;
      }
      owned, outcome := RequestPort(gateway, port);
    }

    /** An unused port in the dynamic range, within a few draws. */
    method NextRandomPort(used: set<nat>) returns (port: Option<nat>)
      modifies this`step
      ensures port.Some? ==> port.value !in used && HIGH_PORT_BASE <= port.value < 0x1_0000
    {
      for n := 0 to FALLBACK_ATTEMPTS {
        var candidate := HIGH_PORT_BASE + outside.randomPort(step) % HIGH_PORTS;
        step := step + 1;
        if candidate !in used {
          return Some(candidate);
        }
      }
      return None;
    }

    /** What an owned mapping still promises after more has happened. */
    lemma GoodLater(o: Owned, before: seq<Event>)
      requires before <= trace && o.lease <= job.lease
      requires o.advertised ==> Backed(job, before, o.gateway, o.port, o.expiresAt)
      ensures Good(o)
    {
      if o.advertised {
        BackedLater(job, before, trace[|before|..], o.gateway, o.port, o.expiresAt);
        assert trace == before + trace[|before|..];
      }
    }

    /** Ask for the external address of a mapping just confirmed; without one the mapping is taken back. */
    method Advertise(found: Owned) returns (owned: Option<Owned>, result: Creation)
      requires Valid() && Keeps(Some(found)) && !found.advertised
      requires Backed(job, trace, found.gateway, found.port, found.expiresAt)
      modifies this
      ensures Valid() && old(trace) <= trace && Keeps(owned)
      ensures owned.Some? ==> owned.value.gateway == found.gateway
      ensures result == Created <==> owned.Some? && owned.value.advertised
      ensures result == Created ==> trace == old(trace) + [External(found.gateway, Some(owned.value.address))]
      ensures outside.external(old(step)).Some? ==>
        step == old(step) + 1 && owned == Some(found.(address := outside.external(old(step)).value, advertised := true))
    {
      var address := ExternalAddress(found.gateway);
      GoodLater(found.(advertised := true), old(trace));
      if address.Some? {
        return Some(found.(address := address.value, advertised := true)), Created;
      }
      var safeToForget := DeleteOwnedMapping(found.gateway, found.port);
      if safeToForget {
        return None, Failed;
      }
      return Some(found), Doubtful;
    }

    /** Map a port on one gateway: this run's port, or else one of a few random ones. */
    method Create(gateway: nat) returns (owned: Option<Owned>, result: Creation)
      requires Valid() && held == None
      modifies this
      ensures Valid() && old(trace) <= trace && Keeps(owned)
      ensures owned.Some? ==> owned.value.gateway == gateway
      ensures result == Created <==> owned.Some? && owned.value.advertised
      ensures Grants(job, outside, gateway, old(step)) ==>
        step == old(step) + 5 && owned == Some(Granted(job, outside, gateway, old(step)))
    {
      hide Grants, Granted, Safe, Accounted, Backed;
      if Grants(job, outside, gateway, step) {
        GrantedFields(job, outside, gateway, step);
      }
      if outside.localIP(gateway).None? {
        return None, Failed;
      }
      var used, port, attempt := {job.internalPort}, job.internalPort, 0;
      while true
        invariant Valid() && old(trace) <= trace && held == None
        invariant attempt <= FALLBACK_ATTEMPTS && |used| == attempt + 1 && port in used
        invariant (attempt == 0 && port == job.internalPort && step == old(step)) || !Grants(job, outside, gateway, old(step))
        decreases FALLBACK_ATTEMPTS - attempt
      {
        var found, outcome := AttemptPort(gateway, port);
        if found.Some? {
          if !found.value.confirmed {
            return found, Doubtful;
          }
          owned, result := Advertise(found.value);
          return;
        }
        if outcome == Unclear {
          return None, Doubtful;
        }
        if outcome == GatewayFailure || attempt >= FALLBACK_ATTEMPTS {
          return None, Failed;
        }
        var next := NextRandomPort(used);
        if next.None? {
          return None, Failed;
        }
        port, attempt, used := next.value, attempt + 1, used + {next.value};
      }
    }

    /** The search made at this step finds a gateway, we are not cancelled at once, and the first gateway found grants. */
    predicate FirstGrants(at: nat) {
      outside.gateways(at) != [] && !outside.canceled(at + 1) && Grants(job, outside, outside.gateways(at)[0], at + 1)
    }

    /** Map a port on the first gateway that lets us, each tried once, stopping where the outcome is unclear. */
    method Establish() returns (owned: Option<Owned>, ok: bool)
      requires Valid() && held == None
      modifies this
      ensures Valid() && old(trace) <= trace && Keeps(owned)
      ensures ok <==> owned.Some? && owned.value.advertised
      ensures FirstGrants(old(step)) ==>
        ok && step == old(step) + 6 && owned == Some(Granted(job, outside, outside.gateways(old(step))[0], old(step) + 1))
    {
      var gateways := outside.gateways(step);
      step := step + 1;
      if outside.canceled(step) {
        return None, false;
      }
      var seen: set<nat>, i := {}, 0;
      while i < |gateways|
        invariant Valid() && old(trace) <= trace && held == None
        invariant i == 0 ==> seen == {} && step == old(step) + 1
        invariant i > 0 ==> !FirstGrants(old(step))
      {
        var gateway := gateways[i];
        i := i + 1;
        if !(outside.named(gateway) && gateway in seen) {
          seen := seen + {gateway};
          var result;
          owned, result := Create(gateway);
          if owned.Some? {
            return owned, result == Created;
          }
          if outside.canceled(step) || result == Doubtful {
            return None, false;
          }
        }
      }
      return None, false;
    }

    /** Take back a mapping that is not leased for a finite time. */
    method RejectPermanent(owned: Owned)
      requires Valid() && Covers(Some(owned))
      modifies this
      ensures Valid() && old(trace) <= trace && held == None
    {
      var _ := DeleteOwnedMapping(owned.gateway, owned.port);
    }

    /** Ask for a mapping again and confirm it. */
    method Renew(owned: Owned) returns (keep: bool, renewed: Option<Owned>)
      requires Valid() && Keeps(Some(owned)) && trace != [] && LooksUp(trace[|trace| - 1], owned.gateway, owned.port)
      requires trace[|trace| - 1].lookup.Found? && Mine(job, owned.gateway, trace[|trace| - 1].lookup.entry)
      modifies this
      ensures Valid() && old(trace) <= trace
      ensures Keeps(if !keep then None else if renewed.Some? then renewed else Some(owned))
      ensures keep <==> NothingLost(old(|trace|))
      ensures renewed.Some? ==> keep && renewed.value == owned.(lease := renewed.value.lease, expiresAt := renewed.value.expiresAt)
      ensures renewed.Some? ==> renewed.value.lease <= owned.lease
      ensures renewed.Some? ==> ConfirmedAt(job, trace, old(|trace|), owned.gateway, owned.port, renewed.value.expiresAt)
      ensures outside.add(old(step) + 1).Added? && Confirms(job, owned.gateway, outside.lookup(old(step) + 2)) ==>
        var lease := ConservativeLease(owned.lease, outside.lookup(old(step) + 2).entry.lease);
        step == old(step) + 3 && renewed == Some(owned.(lease := lease, expiresAt := outside.clock(old(step)) + lease * SECOND))
    {
      var started := Now();
      ghost var request := |trace|;
      var added := AddMapping(owned.gateway, owned.port, owned.lease, started);
      var after := LookupMapping(owned.gateway, owned.port);
      GoodLater(owned, old(trace));
      if after.LookupFailed? {
        return true, None;
      }
      assert trace[request + 1] == Lookup(owned.gateway, owned.port, after);
      if after.NotFound? || !Mine(job, owned.gateway, after.entry) {
        return false, None;
      }
      if after.entry.lease == 0 {
        RejectPermanent(owned);
        return false, None;
      }
      if !added.Added? {
        return true, None;
      }
      var lease := ConservativeLease(owned.lease, after.entry.lease);
      renewed := Some(owned.(lease := lease, expiresAt := started + lease * SECOND));
      assert ConfirmedAt(job, trace, request, owned.gateway, owned.port, renewed.value.expiresAt);
      return true, renewed;
    }

    /** No lookup since then showed that the mapping is lost. */
    ghost predicate NothingLost(since: nat)
      reads this`trace
    {
      forall i :: since <= i < |trace| ==> !Lost(job, trace[i])
    }

    /** From this step on the gateway still has the mapping, grants it anew, confirms it, and knows its address. */
    predicate Renews(gateway: nat, at: nat) {
      && Confirms(job, gateway, outside.lookup(at))
      && outside.add(at + 2).Added?
      && Confirms(job, gateway, outside.lookup(at + 3))
      && outside.external(at + 4).Some?
    }

    /** Renew a mapping. It is given up exactly when a lookup shows that it is no longer this run's, or permanent; and
        it is advertised anew only with the external address just asked for. */
    method Refresh(owned: Owned) returns (keep: bool, renewed: Owned, ok: bool)
      requires Valid() && Keeps(Some(owned))
      modifies this
      ensures Valid() && old(trace) <= trace
      ensures Keeps(if keep then Some(renewed) else None)
      ensures keep <==> NothingLost(old(|trace|))
      ensures renewed.gateway == owned.gateway && renewed.port == owned.port && renewed.lease <= owned.lease
      ensures ok ==> keep && renewed.advertised && trace[|trace| - 1] == External(owned.gateway, Some(renewed.address))
      ensures keep && !ok ==> renewed.advertised == owned.advertised && renewed.address == owned.address
      ensures Renews(owned.gateway, old(step)) ==>
        var lease := ConservativeLease(owned.lease, outside.lookup(old(step) + 3).entry.lease);
        keep && ok && renewed.expiresAt == outside.clock(old(step) + 1) + lease * SECOND
    {
      hide Safe, Accounted, Backed, Mine, ConservativeLease;
      var found := LookupMapping(owned.gateway, owned.port);
      GoodLater(owned, old(trace));
      if found.LookupFailed? {
        return true, owned, false;
      }
      assert trace[old(|trace|)] == Lookup(owned.gateway, owned.port, found);
      if found.NotFound? || !Mine(job, owned.gateway, found.entry) {
        return false, owned.(advertised := false), false;
      }
      if found.entry.lease == 0 {
        RejectPermanent(owned);
        return false, owned.(advertised := false), false;
      }
      var again;
      keep, again := Renew(owned);
      if again.None? {
        return keep, if keep then owned else owned.(advertised := false), false;
      }
      ghost var before := trace;
      var address := ExternalAddress(owned.gateway);
      GoodLater(again.value.(advertised := true), before);
      if address.None? {
        return true, again.value, false;
      }
      return true, again.value.(address := address.value, advertised := true), true;
    }

    /** Hand a snapshot to the user of the mapper: the mapping only while it is advertised and has not expired. */
    method PublishState(owned: Option<Owned>, now: int) returns (sent: bool)
      requires Valid() && Keeps(owned)
      modifies this
      ensures Valid() && old(trace) <= trace
      ensures trace == old(trace) || trace == old(trace) + [Publish(Snapshot(owned, now), now)]
      ensures Keeps(owned)
      ensures sent <==> trace != old(trace)
      ensures sent == !outside.canceled(old(step))
    {
      sent := !outside.canceled(step);
      step := step + 1;
      if sent {
        SafeMore(job, trace, Publish(Snapshot(owned, now), now));
        AccountedMore(job, trace, Publish(Snapshot(owned, now), now), held);
        trace := trace + [Publish(Snapshot(owned, now), now)];
        if owned.Some? {
          GoodLater(owned.value, old(trace));
        }
      }
    }

    method WaitFor(delay: int, now: int, owned: Option<Owned>) returns (running: bool)
      requires Valid() && Keeps(owned)
      requires WaitIsSafe(job, Wait(delay, now, Expiry(owned)))
      modifies this
      ensures Valid() && old(trace) <= trace
      ensures Keeps(owned)
    {
      running := !outside.canceled(step);
      step := step + 1;
      SafeMore(job, trace, Wait(delay, now, Expiry(owned)));
      AccountedMore(job, trace, Wait(delay, now, Expiry(owned)), held);
      trace := trace + [Wait(delay, now, Expiry(owned))];
      if owned.Some? {
        GoodLater(owned.value, old(trace));
      }
    }

    /** Forget a mapping that has expired, deleting it if it is still this run's. */
    method DropExpired(owned: Option<Owned>, now: int) returns (left: Option<Owned>)
      requires Valid() && Keeps(owned)
      modifies this
      ensures Valid() && old(trace) <= trace
      ensures left == (if owned.Some? && now < owned.value.expiresAt then owned else None)
      ensures left == owned ==> step == old(step)
      ensures Keeps(left)
    {
      if owned.Some? && now >= owned.value.expiresAt {
        var _ := DeleteOwnedMapping(owned.value.gateway, owned.value.port);
        return None;
      }
      return owned;
    }

    /** Map a port, or renew the mapping held, and drop it if it expired meanwhile. */
    method Attempt(had: Option<Owned>) returns (owned: Option<Owned>, ok: bool)
      requires Valid() && Keeps(had)
      modifies this
      ensures Valid() && old(trace) <= trace
      ensures Keeps(owned)
      ensures ok ==> owned.Some? && owned.value.advertised
      ensures had.None? && FirstGrants(old(step)) ==>
        var granted := Granted(job, outside, outside.gateways(old(step))[0], old(step) + 1);
        !outside.canceled(old(step) + 7) && outside.clock(old(step) + 6) < granted.expiresAt ==>
          ok && owned == Some(granted) && step == old(step) + 7
    {
      hide Safe, Accounted, Backed, Grants, Granted, Mine;
      if had.None? {
        owned, ok := Establish();
      } else {
        var keep, renewed;
        keep, renewed, ok := Refresh(had.value);
        owned := if keep then Some(renewed) else None;
      }
      var now := Now();
      if !outside.canceled(step) {
        owned := DropExpired(owned, now);
        ok := ok && owned.Some?;
      }
    }

    /** After success: publish the mapping and wait until it should be renewed. */
    method ReportSuccess(owned: Owned) returns (running: bool)
      requires Valid() && Keeps(Some(owned)) && owned.advertised
      modifies this
      ensures Valid() && old(trace) <= trace && Keeps(Some(owned))
      ensures running ==> old(|trace|) < |trace| && exists at :: trace[old(|trace|)] == Publish(Snapshot(Some(owned), at), at)
      ensures !outside.canceled(old(step) + 1) ==>
        old(|trace|) < |trace|
        && trace[old(|trace|)] == Publish(Snapshot(Some(owned), outside.clock(old(step))), outside.clock(old(step)))
    {
      var now := Now();
      running := PublishState(Some(owned), now);
      if running {
        now := Now();
        RefreshLeavesTime(owned.expiresAt, owned.lease, now);
        running := WaitFor(RefreshDelay(owned.expiresAt, owned.lease, now), now, Some(owned));
      }
    }

    /** After a failure: drop the mapping if it expired, publish what is left, and wait to try again. */
    method ReportFailure(had: Option<Owned>, retry: int) returns (running: bool, owned: Option<Owned>)
      requires Valid() && Keeps(had) && 0 < retry <= job.retryMaximum
      modifies this
      ensures Valid() && old(trace) <= trace
      ensures Keeps(owned)
    {
      var now := Now();
      owned := DropExpired(had, now);
      running := PublishState(owned, now);
      if running {
        var delay := if owned.Some? && owned.value.expiresAt - now < retry then owned.value.expiresAt - now else retry;
        running := WaitFor(delay, now, owned);
      }
    }

    /** From this step on the mapping can still be published. */
    predicate Reports(at: nat, o: Owned) {
      !outside.canceled(at) && !outside.canceled(at + 1) && outside.clock(at) < o.expiresAt
    }

    /** Report how an attempt went and wait, unless we are cancelled. */
    method Report(had: Option<Owned>, ok: bool, retried: int) returns (running: bool, owned: Option<Owned>, retry: int)
      requires Valid() && Keeps(had) && 0 < retried <= job.retryMaximum
      requires ok ==> had.Some? && had.value.advertised
      modifies this
      ensures Valid() && old(trace) <= trace
      ensures Keeps(owned)
      ensures 0 < retry <= job.retryMaximum
      ensures ok && Reports(old(step), had.value) ==> Publishes(old(|trace|), had.value)
    {
      owned, retry, running := had, retried, false;
      if outside.canceled(step) {
        return;
      }
      if ok {
        retry := job.retryInitial;
        running := ReportSuccess(owned.value);
      } else {
        running, owned := ReportFailure(owned, retry);
        NextRetryGrows(retry, job.retryMaximum);
        retry := NextRetry(retry, job.retryMaximum);
      }
    }

    /** For a whole turn from this step on the first gateway grants, nothing is cancelled, and the lease has not run out. */
    predicate Lets(at: nat) {
      && FirstGrants(at + 1)
      && !outside.canceled(at + 8) && !outside.canceled(at + 9)
      && var granted := Granted(job, outside, outside.gateways(at + 1)[0], at + 2);
         outside.clock(at + 7) < granted.expiresAt && outside.clock(at + 8) < granted.expiresAt
    }

    /** Since then this mapping has been published. */
    ghost predicate Publishes(since: nat, o: Owned)
      reads this`trace
    {
      exists i, at :: since <= i < |trace| && trace[i] == Publish(Some(Mapping(o.gateway, o.port, o.address, o.expiresAt)), at)
    }

    /** One turn of the loop: drop an expired mapping, map or renew, publish, wait. */
    method Turn(had: Option<Owned>, retried: int) returns (running: bool, owned: Option<Owned>, retry: int)
      requires Valid() && Keeps(had) && 0 < retried <= job.retryMaximum
      modifies this
      ensures Valid() && old(trace) <= trace
      ensures Keeps(owned)
      ensures 0 < retry <= job.retryMaximum
      ensures had.None? && Lets(old(step)) ==> Publishes(old(|trace|), Granted(job, outside, outside.gateways(old(step) + 1)[0], old(step) + 2))
    {
      hide Safe, Accounted, Backed, Grants, Granted, Good;
      retry := retried;
      var now := Now();
      owned := DropExpired(had, now);
      if owned != had {
        running := PublishState(None, now);
        if !running {
          return;
        }
      }
      var ok;
      owned, ok := Attempt(owned);
      running, owned, retry := Report(owned, ok, retry);
    }

    /** Keep a mapping for so many turns, whatever the router answers and whenever we are cancelled; then remove it. */
    method Run(turns: nat)
      requires Valid() && held == None
      modifies this
      ensures Valid() && old(trace) <= trace && held == None
    {
      var owned: Option<Owned>, retry := None, job.retryInitial;
      var running, n := true, 0;
      while n < turns && running && !outside.canceled(step)
        invariant Valid() && old(trace) <= trace
        invariant Keeps(owned)
        invariant 0 < retry <= job.retryMaximum
      {
        running, owned, retry := Turn(owned, retry);
        n := n + 1;
      }
      if owned.Some? {
        var _ := DeleteOwnedMapping(owned.value.gateway, owned.value.port);
      }
    }
  }
}
