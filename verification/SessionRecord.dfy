/** The session as the object its handlers update in place. */
module SessionRecords {
  import opened Options
  import opened Words
  import opened SequenceWindows
  import opened SessionKeys
  import opened Sessions

  class SessionRecord {
    const key: nat
    const local: Hello
    var remote: Option<Hello>
    var ciphers: Option<Ciphers>
    var path: Path
    var candidate: Option<Probe>
    var authenticated: bool
    var everAuthenticated: bool
    var sendSequence: uint64
    var window: Window
    var ping: PendingPing
    var rtt: int
    var lastHeard: int
    ghost var taken: set<uint64>
    ghost var inbox: seq<(uint64, nat)>
    ghost var proven: set<Path>
    var outbox: seq<Packet>

    constructor (key: nat, local: Hello, path: Path, now: int)
      ensures Valid() && State() == NewSession(key, local, path, now) && outbox == []
    {
      this.key, this.local, this.path, lastHeard := key, local, path, now;
      remote, ciphers, candidate, authenticated, everAuthenticated := None, None, None, false, false;
      sendSequence, window, ping, rtt := 0, EMPTY_WINDOW, NO_PING, 0;
      taken, inbox, proven, outbox := {}, [], {}, [];
    }

    ghost function State(): Session
      reads this
    {
      Session(key, local, remote, path, candidate, authenticated, everAuthenticated, sendSequence, window, ping, rtt, lastHeard,
              taken, inbox, proven)
    }

    /** The ciphers are those of the two hellos. */
    ghost predicate Valid()
      reads this
    {
      ciphers == CiphersOf(State())
    }

    /** The packets sent since then. */
    ghost predicate Sent(before: seq<Packet>, packets: set<Packet>)
      reads this
    {
      before <= outbox && packets == set p | p in outbox[|before|..]
    }

    method CompleteSessionHello(hello: Hello) returns (ok: bool)
      requires Valid()
      modifies this
      ensures Valid() && outbox == old(outbox)
      ensures ok == Complete(old(State()), hello).Some?
      ensures State() == if ok then Complete(old(State()), hello).value else old(State())
    {
      var derived := DeriveSession(key, local, hello);
      if derived.None? {
        return false;
      }
      remote, ciphers := Some(hello), derived;
      return true;
    }

    method ClearCandidatePath()
      requires Valid()
      modifies this
      ensures Valid() && State() == old(State()).(candidate := None) && outbox == old(outbox)
    {
      candidate := None;
    }

    method RememberCandidatePath(other: Path, now: int) returns (added: bool)
      requires Valid()
      modifies this
      ensures Valid() && State() == RememberCandidate(old(State()), other, now) && outbox == old(outbox)
    {
      if SameRoute(path, other) {
        return false;
      }
      if candidate.Some? {
        if SameRoute(candidate.value.path, other) {
          candidate := Some(candidate.value.(path := other));
          return false;
        }
        if candidate.value.path.Direct? && !other.Direct? {
          return false;
        }
      }
      candidate := Some(Probe(other, now, NO_PING));
      return true;
    }

    /** The next packet number; none is left after the last. */
    method NextSendSequence() returns (n: Option<uint64>)
      requires Valid()
      modifies this
      ensures Valid() && outbox == old(outbox)
      ensures n == if old(sendSequence) == MAX_UINT64 then None else Some(old(sendSequence) + 1)
      ensures State() == if n.None? then old(State()) else old(State()).(sendSequence := n.value)
    {
      if sendSequence == MAX_UINT64 {
        return None;
      }
      sendSequence := sendSequence + 1;
      return Some(sendSequence);
    }

    method PingCurrentPath(now: int)
      requires Valid() && ciphers.Some?
      modifies this
      ensures Valid() && ciphers == old(ciphers) && State() == PingCurrent(old(State()), now).0
      ensures Sent(old(outbox), PingCurrent(old(State()), now).1)
    {
      if ping.sequence != 0 && now - ping.sentAt < PING_INTERVAL {
        return;
      }
      var n := NextSendSequence();
      if n.None? {
        authenticated := false;
        return;
      }
      ping := PendingPing(n.value, path, now);
      outbox := outbox + [Sealed(ciphers.value.send, local.sessionID, n.value, Ping)];
    }

    method PingCandidatePath(now: int)
      requires Valid() && ciphers.Some? && candidate.Some?
      modifies this
      ensures Valid() && ciphers == old(ciphers) && State() == PingCandidate(old(State()), now).0
      ensures Sent(old(outbox), PingCandidate(old(State()), now).1)
    {
      var probe := candidate.value;
      if probe.ping.sequence != 0 && now - probe.ping.sentAt < PING_INTERVAL {
        return;
      }
      var n := NextSendSequence();
      if n.None? {
        authenticated := false;
        return;
      }
      candidate := Some(probe.(ping := PendingPing(n.value, probe.path, now)));
      outbox := outbox + [Sealed(ciphers.value.send, local.sessionID, n.value, Ping)];
    }

    method SendPing(now: int)
      requires Valid()
      modifies this
      ensures Valid() && State() == Pings(old(State()), now).0
      ensures Sent(old(outbox), Pings(old(State()), now).1)
    {
      hide PingCurrent, PingCandidate, DeriveSession;
      if ciphers.None? {
        return;
      }
      ghost var before := outbox;
      PingCurrentPath(now);
      if candidate.Some? {
        ghost var middle := outbox;
        PingCandidatePath(now);
        assert outbox[|before|..] == middle[|before|..] + outbox[|middle|..];
      }
    }

    /** A pong on the candidate or the current path, whose number was taken: nothing unless it answers the ping. */
    method HandlePong(packetPath: Path, echo: uint64, now: int) returns (answered: bool)
      requires Valid()
      modifies this
      ensures Valid() && outbox == old(outbox)
      ensures answered == Answers(old(State()), packetPath, echo)
      ensures State() == if answered then TakePong(old(State()), packetPath, now) else old(State())
    {
      var onCandidate := candidate.Some? && SameRoute(candidate.value.path, packetPath);
      var pending := if onCandidate then candidate.value.ping else ping;
      if pending.sequence == 0 || echo != pending.sequence || !SameRoute(pending.path, packetPath) {
        return false;
      }
      if onCandidate {
        FinishProbe(packetPath, now);
      } else {
        ConfirmPath(packetPath, now);
      }
      return true;
    }

    /** The candidate answered: it becomes the path, or is dropped. */
    method FinishProbe(packetPath: Path, now: int)
      requires Valid() && candidate.Some?
      modifies this
      ensures Valid() && outbox == old(outbox) && State() == Probed(old(State()), packetPath, now)
    {
      var millis := RoundTrip(candidate.value.ping.sentAt, now);
      proven := proven + {packetPath};
      var promote := ShouldPromotePath(packetPath, millis, now);
      ClearCandidatePath();
      if promote {
        path, lastHeard, rtt, authenticated, everAuthenticated, ping := packetPath, now, millis, true, true, NO_PING;
      }
    }

    /** The current path answered. */
    method ConfirmPath(packetPath: Path, now: int)
      requires Valid()
      modifies this
      ensures Valid() && outbox == old(outbox) && State() == Confirmed(old(State()), packetPath, now)
    {
      var millis := RoundTrip(ping.sentAt, now);
      proven := proven + {packetPath};
      ping := NO_PING;
      if SameRoute(path, packetPath) {
        path := packetPath;
      }
      lastHeard, authenticated, everAuthenticated, rtt := now, true, true, millis;
    }

    method ShouldPromotePath(packetPath: Path, millis: int, now: int) returns (promote: bool)
      ensures promote == ShouldPromote(State(), now, packetPath, millis)
      ensures !authenticated || lastHeard < now - PATH_FAILOVER ==> promote
      ensures promote && authenticated && lastHeard >= now - PATH_FAILOVER ==>
        && (path.Direct? ==> packetPath.Direct?)
        && forall t: Session, later: int :: t.authenticated && t.lastHeard >= later - PATH_FAILOVER && t.path == packetPath && t.rtt == millis ==>
             !ShouldPromote(t, later, path, rtt)
    {
      if !authenticated || lastHeard < now - PATH_FAILOVER {
        return true;
      }
      if path.Direct? && !packetPath.Direct? {
        return false;
      }
      if !path.Direct? && packetPath.Direct? {
        return true;
      }
      return millis + LIKE_FOR_LIKE_MARGIN <= rtt;
    }

    /** A ping whose number was taken: it is answered on its own path, and only refreshes a session already confirmed. */
    method HandlePing(packetPath: Path, sequence: uint64, now: int)
      requires Valid() && ciphers.Some?
      modifies this
      ensures Valid() && State() == Seal(TakePing(old(State()), packetPath, now), Pong(sequence)).0
      ensures Sent(old(outbox), Seal(TakePing(old(State()), packetPath, now), Pong(sequence)).1)
    {
      hide DeriveSession;
      RefreshPath(packetPath, now);
      var n := NextSendSequence();
      if n.Some? {
        outbox := outbox + [Sealed(ciphers.value.send, local.sessionID, n.value, Pong(sequence))];
      }
    }

    /** A ping shows that the current path lives. */
    method RefreshPath(packetPath: Path, now: int)
      requires Valid() && ciphers.Some?
      modifies this
      ensures Valid() && ciphers == old(ciphers) && outbox == old(outbox) && State() == TakePing(old(State()), packetPath, now)
    {
      hide DeriveSession;
      var onCandidate := candidate.Some? && SameRoute(candidate.value.path, packetPath);
      if everAuthenticated && !onCandidate {
        if SameRoute(path, packetPath) {
          path := packetPath;
        }
        lastHeard := now;
      }
    }
  }
}
