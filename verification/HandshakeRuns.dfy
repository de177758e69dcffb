/** Every step of the handshake is safe, and what that says about whole runs. */
module HandshakeRuns {
  import opened Options
  import opened Words
  import opened SequenceWindows
  import opened SessionKeys
  import opened Sessions
  import opened Handshakes
  import opened HandshakeSafety

  // ----- changes to a session -----

  /** The sessions differ only in what no safety condition reads, or have lost their authentication. */
  predicate SameCore(s: Session, t: Session) {
    && t.key == s.key && t.local == s.local && t.remote == s.remote
    && t.window == s.window && t.taken == s.taken && t.inbox == s.inbox
    && (t.authenticated ==> s.authenticated) && t.everAuthenticated == s.everAuthenticated
    && t.proven == s.proven && SameRoute(s.path, t.path)
    && s.sendSequence <= t.sendSequence
  }

  lemma SameCoreOK(id: nat, y: Peer, wire: set<Packet>, nextFresh: nat, k: nat, s: Session, t: Session)
    requires SessionOK(id, y, wire, nextFresh, k, s) && SameCore(s, t)
    ensures SessionOK(id, y, wire, nextFresh, k, t)
  {
    hide Tracks, DeriveSession;
    if s.everAuthenticated {
      var p :| p in s.proven && SameRoute(p, s.path);
      RoutesAreClasses(p, s.path, t.path);
    }
  }

  lemma SealOK(wire: set<Packet>, s: Session, body: Body)
    requires Ready(s)
    requires body.Pong? ==> exists ping :: ping in wire && IsPing(ping, CiphersOf(s).value.receive, body.echo)
    ensures SameCore(s, Seal(s, body).0)
    ensures Emits(wire, s, Seal(s, body).0, Seal(s, body).1)
  {
    SealEmits(wire, s, body);
    RoutesAreClasses(s.path, s.path, s.path);
  }

  lemma EmitsSameNumbers(wire: set<Packet>, s: Session, t: Session, u: Session, packets: set<Packet>)
    requires Emits(wire, s, t, packets) && Grows(t, u)
    ensures Emits(wire, s, u, packets)
  {
    hide SealedBy;
    EmitsNothing(wire, t, u);
    EmitsThen(wire, s, t, u, packets, {});
    assert packets + {} == packets;
  }

  lemma PingsOK(wire: set<Packet>, s: Session, now: int)
    ensures SameCore(s, Pings(s, now).0)
    ensures Emits(wire, s, Pings(s, now).0, Pings(s, now).1)
  {
    RoutesAreClasses(s.path, s.path, s.path);
    EmitsNothing(wire, s, s);
    if Ready(s) {
      var (t, first) := PingCurrent(s, now);
      PingCurrentOK(wire, s, now);
      if t.candidate.Some? {
        PingCandidateOK(wire, t, now);
        hide Emits, Ready;
        var (u, second) := PingCandidate(t, now);
        EmitsThen(wire, s, t, u, first, second);
        RoutesAreClasses(s.path, t.path, u.path);
      }
    }
  }

  lemma PingCurrentOK(wire: set<Packet>, s: Session, now: int)
    requires Ready(s)
    ensures Ready(PingCurrent(s, now).0)
    ensures SameCore(s, PingCurrent(s, now).0) && Emits(wire, s, PingCurrent(s, now).0, PingCurrent(s, now).1)
  {
    SealOK(wire, s, Ping);
    RoutesAreClasses(s.path, s.path, s.path);
    EmitsNothing(wire, s, s.(authenticated := false));
    if Due(s.ping, now) && s.sendSequence != MAX_UINT64 {
      EmitsSameNumbers(wire, s, Seal(s, Ping).0, PingCurrent(s, now).0, Seal(s, Ping).1);
    }
    hide Emits;
  }

  lemma PingCandidateOK(wire: set<Packet>, s: Session, now: int)
    requires Ready(s) && s.candidate.Some?
    ensures SameCore(s, PingCandidate(s, now).0) && Emits(wire, s, PingCandidate(s, now).0, PingCandidate(s, now).1)
  {
    SealOK(wire, s, Ping);
    RoutesAreClasses(s.path, s.path, s.path);
    EmitsNothing(wire, s, s.(authenticated := false));
    if Due(s.candidate.value.ping, now) && s.sendSequence != MAX_UINT64 {
      EmitsSameNumbers(wire, s, Seal(s, Ping).0, PingCandidate(s, now).0, Seal(s, Ping).1);
    }
    hide Emits;
  }

  lemma AdvertiseOK(wire: set<Packet>, s: Session, path: Path, now: int)
    ensures SameCore(s, Advertise(s, path, now).0)
    ensures Emits(wire, s, Advertise(s, path, now).0, Advertise(s, path, now).1)
  {
    RoutesAreClasses(s.path, s.path, s.path);
  }

  lemma AdvertiseAndPingOK(wire: set<Packet>, s: Session, path: Path, now: int)
    ensures SameCore(s, AdvertiseAndPing(s, path, now).0)
    ensures Emits(wire, s, AdvertiseAndPing(s, path, now).0, AdvertiseAndPing(s, path, now).1)
  {
    hide Emits, Pings, RememberCandidate;
    var (t, hello) := Advertise(s, path, now);
    AdvertiseOK(wire, s, path, now);
    PingsOK(wire, t, now);
    EmitsThen(wire, s, t, Pings(t, now).0, hello, Pings(t, now).1);
    RoutesAreClasses(s.path, t.path, Pings(t, now).0.path);
  }

  // ----- hellos -----

  ghost predicate Keeps(x: Peer, y: Peer, wire: set<Packet>, nextFresh: nat, o: Outcome) {
    nextFresh <= o.nextFresh && Safe(o.peer, y, wire + o.packets, o.nextFresh)
  }

  /** A handler that changes one session the peer has, keeping its core. */
  lemma KeepsCore(x: Peer, y: Peer, wire: set<Packet>, nextFresh: nat, k: nat, t: Session, packets: set<Packet>, z: Peer)
    requires Safe(x, y, wire, nextFresh) && k in x.sessions
    requires SameCore(x.sessions[k], t) && Emits(wire, x.sessions[k], t, packets)
    requires Becomes(x, k, t, z)
    ensures Safe(z, y, wire + packets, nextFresh)
  {
    hide SessionOK, Emits, WireOK;
    assert SessionOK(x.id, y, wire, nextFresh, k, x.sessions[k]);
    IdentifiedKey(x, y, wire, nextFresh, k);
    SameCoreOK(x.id, y, wire, nextFresh, k, x.sessions[k], t);
    Touched(x, y, wire, nextFresh, k, x.sessions[k], t, z, packets, nextFresh);
  }

  lemma IdentifiedKey(x: Peer, y: Peer, wire: set<Packet>, nextFresh: nat, k: nat)
    requires Safe(x, y, wire, nextFresh) && k in x.sessions
    ensures x.sessions[k].local.key == k && k < nextFresh && k !in y.sessions
  {
    hide Tracks, InboxOK, WireOK;
    assert SessionOK(x.id, y, wire, nextFresh, k, x.sessions[k]);
  }

  lemma FreshIsNew(x: Peer, y: Peer, wire: set<Packet>, nextFresh: nat, k: nat)
    requires Safe(x, y, wire, nextFresh) && k >= nextFresh
    ensures k !in x.sessions && k !in y.sessions
  {
    hide Tracks, InboxOK, WireOK;
    forall j | j in x.sessions
      ensures j < nextFresh
    {
      IdentifiedKey(x, y, wire, nextFresh, j);
    }
    forall j | j in y.sessions
      ensures j < nextFresh
    {
      assert SessionOK(y.id, x, wire, nextFresh, j, y.sessions[j]);
    }
  }

  lemma NewSessionOK(id: nat, y: Peer, wire: set<Packet>, nextFresh: nat, k: nat, local: Hello, path: Path, now: int)
    requires local.key == k && local.peerID == id && 0 < local.sessionID && k < nextFresh
    ensures SessionOK(id, y, wire, nextFresh, k, NewSession(k, local, path, now))
  {
    TracksEmpty();
  }

  lemma InitiatingKeeps(x: Peer, y: Peer, wire: set<Packet>, path: Path, now: int, nextFresh: nat)
    requires Safe(x, y, wire, nextFresh)
    ensures Keeps(x, y, wire, nextFresh, StartInitiating(x, path, now, nextFresh))
  {
    hide SessionOK, Emits, Safe;
    var k := nextFresh;
    FreshIsNew(x, y, wire, nextFresh, k);
    var s := NewSession(k, Hello(nextFresh + 1, x.id, k), path, now);
    NewSessionOK(x.id, y, wire, nextFresh + 2, k, s.local, path, now);
    HelloEmits(wire, s);
    Touched(x, y, wire, nextFresh, k, s, s, StartInitiating(x, path, now, nextFresh).peer, {SessionHello(s.local)}, nextFresh + 2);
  }

  lemma HelloEmits(wire: set<Packet>, s: Session)
    ensures Emits(wire, s, s, {SessionHello(s.local)})
  {
  }

  lemma ProbeIsHarmless(x: Peer, y: Peer, wire: set<Packet>, nextFresh: nat)
    requires Safe(x, y, wire, nextFresh)
    ensures Safe(x, y, wire + {HelloProbe(x.id)}, nextFresh)
  {
    hide SessionOK, SealedBy;
    var more := {HelloProbe(x.id)};
    forall k | k in x.sessions
      ensures SessionOK(x.id, y, wire + more, nextFresh, k, x.sessions[k])
    {
      SameEndStays(y, x.id, nextFresh, wire, more, nextFresh, k, x.sessions[k]);
    }
    forall k | k in y.sessions
      ensures SessionOK(y.id, x, wire + more, nextFresh, k, y.sessions[k])
    {
      SameEndStays(x, y.id, nextFresh, wire, more, nextFresh, k, y.sessions[k]);
    }
    forall p | p in wire + more
      ensures PacketOK(x, y, wire + more, p)
    {
      if p in wire {
        assert PacketOK(x, y, wire, p);
        if p.Sealed? {
          SealedStays(x, wire, more, p);
          SealedStays(y, wire, more, p);
        }
      }
    }
  }

  lemma SealedStays(x: Peer, wire: set<Packet>, more: set<Packet>, p: Packet)
    ensures SealedAt(wire, x, p) ==> SealedAt(wire + more, x, p)
  {
    hide SealedBy;
    if SealedAt(wire, x, p) {
      var k :| k in x.sessions && SealedBy(wire, x.sessions[k], p);
      MoreWire(wire, more, x.sessions[k], p);
    }
  }

  lemma ProbeKeeps(x: Peer, y: Peer, wire: set<Packet>, from: nat, path: Path, now: int, nextFresh: nat)
    requires Safe(x, y, wire, nextFresh)
    ensures Keeps(x, y, wire, nextFresh, HandleProbe(x, from, path, now, nextFresh))
  {
    hide Safe, Emits, SameCore, AdvertiseAndPing, StartInitiating;
    var current := if Holds(x, x.pending) then x.pending else x.active;
    if Holds(x, current) {
      AdvertiseAndPingOK(wire, x.sessions[current.value], path, now);
      var (s, packets) := AdvertiseAndPing(x.sessions[current.value], path, now);
      KeepsCore(x, y, wire, nextFresh, current.value, s, packets, Put(x, current.value, s));
    } else if x.id < from {
      InitiatingKeeps(x, y, wire, path, now, nextFresh);
    } else {
      ProbeIsHarmless(x, y, wire, nextFresh);
    }
  }

  /** A hello that was sent by a peer is one of that peer's sessions'. */
  lemma HelloIsTheirs(x: Peer, y: Peer, wire: set<Packet>, nextFresh: nat, h: Hello)
    requires Safe(x, y, wire, nextFresh) && SessionHello(h) in wire && h.peerID != x.id
    ensures Theirs(y, h)
  {
    hide Tracks, InboxOK, NumbersOnce;
    assert PacketOK(x, y, wire, SessionHello(h));
    OwnHello(x, y, wire, nextFresh, h);
  }

  lemma OwnHello(x: Peer, y: Peer, wire: set<Packet>, nextFresh: nat, h: Hello)
    requires Safe(x, y, wire, nextFresh)
    ensures Theirs(x, h) ==> h.peerID == x.id
    ensures Theirs(y, h) ==> h.peerID == y.id
  {
    hide Tracks, InboxOK, WireOK;
    if Theirs(x, h) {
      assert SessionOK(x.id, y, wire, nextFresh, h.key, x.sessions[h.key]);
    } else if Theirs(y, h) {
      assert SessionOK(y.id, x, wire, nextFresh, h.key, y.sessions[h.key]);
    }
  }

  lemma ResumedOK(x: Peer, y: Peer, wire: set<Packet>, nextFresh: nat, k: nat, s: Session, hello: Hello)
    requires SessionOK(x.id, y, wire, nextFresh, k, s) && Theirs(y, hello) && Resumed(s, hello).Some?
    ensures SessionOK(x.id, y, wire, nextFresh, k, Resumed(s, hello).value)
    ensures Grows(s, Resumed(s, hello).value)
  {
    hide Tracks;
  }

  lemma GrowsCore(s: Session, t: Session, u: Session)
    requires Grows(s, t) && SameCore(t, u)
    ensures Grows(s, u)
  {
  }

  /** A handler that may complete the transcript of one session, then announces and pings it. */
  lemma ResumeKeeps(x: Peer, y: Peer, wire: set<Packet>, nextFresh: nat, k: nat, hello: Hello, path: Path, now: int)
    requires Safe(x, y, wire, nextFresh) && Theirs(y, hello)
    requires k in x.sessions && Resumed(x.sessions[k], hello).Some?
    ensures Keeps(x, y, wire, nextFresh, Resume(x, k, Resumed(x.sessions[k], hello).value, path, now, nextFresh))
  {
    hide SessionOK, Emits, WireOK, Resumed, SameCore, Pings, RememberCandidate, Theirs;
    var s := x.sessions[k];
    var t := Resumed(s, hello).value;
    var u := RememberCandidate(t, path, now);
    var v := Pings(u, now).0;
    assert SessionOK(x.id, y, wire, nextFresh, k, s);
    IdentifiedKey(x, y, wire, nextFresh, k);
    ResumedOK(x, y, wire, nextFresh, k, s, hello);
    RememberedCore(t, path, now);
    PingsOK(wire, u, now);
    SameCoreOK(x.id, y, wire, nextFresh, k, t, u);
    SameCoreOK(x.id, y, wire, nextFresh, k, u, v);
    GrowsCore(s, t, u);
    GrowsCore(s, u, v);
    EmitsNothing(wire, s, u);
    EmitsThen(wire, s, u, v, {}, Pings(u, now).1);
    assert {} + Pings(u, now).1 == Pings(u, now).1;
    Touched(x, y, wire, nextFresh, k, s, v, Put(x, k, v), Pings(u, now).1, nextFresh);
  }

  lemma RememberedCore(s: Session, path: Path, now: int)
    ensures SameCore(s, RememberCandidate(s, path, now))
  {
    RoutesAreClasses(s.path, s.path, s.path);
  }

  lemma RespondKeeps(x: Peer, y: Peer, wire: set<Packet>, nextFresh: nat, hello: Hello, path: Path, now: int)
    requires Safe(x, y, wire, nextFresh) && Theirs(y, hello)
    ensures Keeps(x, y, wire, nextFresh, Respond(x, hello, path, now, nextFresh))
  {
    hide SessionOK, Emits, WireOK, SameCore, AdvertiseAndPing, Theirs, Complete, PeerOK;
    var k := nextFresh;
    FreshIsNew(x, y, wire, nextFresh, k);
    var blank := NewSession(k, Hello(hello.sessionID, x.id, k), path, now);
    var s := Complete(blank, hello);
    if s.Some? {
      CompleteOK(x, y, wire, nextFresh + 1, k, hello, path, now);
      var (t, packets) := AdvertiseAndPing(s.value, path, now);
      AdvertiseAndPingOK(wire, s.value, path, now);
      SameCoreOK(x.id, y, wire, nextFresh + 1, k, s.value, t);
      CoreHello(s.value, t);
      Touched(x, y, wire, nextFresh, k, s.value, t, Put(x, k, t), packets, nextFresh + 1);
      SafeIgnoresUse(Put(x, k, t), y, wire + packets, nextFresh + 1, x.active, Some(k));
    } else {
      assert wire + {} == wire;
    }
  }

  lemma CoreHello(s: Session, t: Session)
    requires SameCore(s, t)
    ensures t.local == s.local && t.key == s.key
  {
  }

  /** Which sessions are in use does not matter for safety. */
  lemma SafeIgnoresUse(x: Peer, y: Peer, wire: set<Packet>, nextFresh: nat, active: Option<nat>, pending: Option<nat>)
    requires Safe(x, y, wire, nextFresh)
    ensures Safe(x.(active := active, pending := pending), y, wire, nextFresh)
  {
    hide NumbersOnce, SealedBy, InboxOK, Tracks;
    var z := x.(active := active, pending := pending);
    forall k | k in y.sessions
      ensures SessionOK(y.id, z, wire, nextFresh, k, y.sessions[k])
    {
      assert SessionOK(y.id, x, wire, nextFresh, k, y.sessions[k]);
    }
    forall p | p in wire
      ensures PacketOK(z, y, wire, p)
    {
      assert PacketOK(x, y, wire, p);
    }
  }

  lemma CompleteOK(x: Peer, y: Peer, wire: set<Packet>, nextFresh: nat, k: nat, hello: Hello, path: Path, now: int)
    requires k < nextFresh && Theirs(y, hello)
    requires Complete(NewSession(k, Hello(hello.sessionID, x.id, k), path, now), hello).Some?
    ensures var s := Complete(NewSession(k, Hello(hello.sessionID, x.id, k), path, now), hello).value;
      SessionOK(x.id, y, wire, nextFresh, k, s) && s.key == k && s.local == Hello(hello.sessionID, x.id, k) && s.sendSequence == 0
  {
    TracksEmpty();
  }

  lemma HelloKeeps(x: Peer, y: Peer, wire: set<Packet>, nextFresh: nat, hello: Hello, path: Path, now: int)
    requires Safe(x, y, wire, nextFresh) && SessionHello(hello) in wire && hello.peerID != x.id
    ensures Keeps(x, y, wire, nextFresh, HandleHello(x, hello, path, now, nextFresh))
  {
    hide Safe, Resume, Resumed, Respond, StartInitiating, Advertise, Emits, SameCore, Theirs;
    HelloIsTheirs(x, y, wire, nextFresh, hello);
    if Holds(x, x.active) && Resumed(x.sessions[x.active.value], hello).Some? {
      ResumeKeeps(x, y, wire, nextFresh, x.active.value, hello, path, now);
    } else if Holds(x, x.pending) && Resumed(x.sessions[x.pending.value], hello).Some? {
      ResumeKeeps(x, y, wire, nextFresh, x.pending.value, hello, path, now);
    } else if x.id < hello.peerID {
      var current := if Holds(x, x.pending) then x.pending else x.active;
      if Holds(x, current) && x.sessions[current.value].local.sessionID != hello.sessionID {
        var (s, packets) := Advertise(x.sessions[current.value], path, now);
        AdvertiseOK(wire, x.sessions[current.value], path, now);
        KeepsCore(x, y, wire, nextFresh, current.value, s, packets, Put(x, current.value, s));
      } else {
        InitiatingKeeps(x, y, wire, path, now, nextFresh);
      }
    } else {
      RespondKeeps(x, y, wire, nextFresh, hello, path, now);
    }
  }

  // ----- sealed packets -----

  /** A packet under this session's receive key was sealed by the session of the other end that mirrors this one. */
  lemma KeyIsMirrored(x: Peer, y: Peer, wire: set<Packet>, nextFresh: nat, k: nat, packet: Packet)
    requires Safe(x, y, wire, nextFresh) && k in x.sessions && packet in wire && packet.Sealed?
    requires Ready(x.sessions[k]) && packet.key == CiphersOf(x.sessions[k]).value.receive
    ensures Mirrored(y, x.sessions[k])
    ensures SealedBy(wire, y.sessions[x.sessions[k].remote.value.key], packet)
  {
    hide Tracks, InboxOK, NumbersOnce, DeriveSession, OnProvenRoute;
    assert SessionOK(x.id, y, wire, nextFresh, k, x.sessions[k]);
    assert PacketOK(x, y, wire, packet);
    var t := x.sessions[k];
    if SealedAt(wire, x, packet) {
      var j :| j in x.sessions && SealedBy(wire, x.sessions[j], packet);
      var u := x.sessions[j];
      assert SessionOK(x.id, y, wire, nextFresh, j, u);
      SwappedIffMirrored(t.key, t.local, t.remote.value, u.key, u.local, u.remote.value);
      assert false;
    } else {
      var j :| j in y.sessions && SealedBy(wire, y.sessions[j], packet);
      var u := y.sessions[j];
      assert SessionOK(y.id, x, wire, nextFresh, j, u);
      SwappedIffMirrored(t.key, t.local, t.remote.value, u.key, u.local, u.remote.value);
    }
  }

  lemma TakeOK(id: nat, y: Peer, wire: set<Packet>, nextFresh: nat, k: nat, s: Session, n: uint64)
    requires SessionOK(id, y, wire, nextFresh, k, s) && Takes(s.window, n)
    ensures SessionOK(id, y, wire, nextFresh, k, Take(s, n)) && Grows(s, Take(s, n))
    ensures n !in s.taken
  {
    AcceptTracks(s.window, s.taken, n);
    hide Tracks, Offer, DeriveSession;
    var t := Take(s, n);
    assert InboxOK(wire, t) by {
      assert CiphersOf(t) == CiphersOf(s);
    }
  }

  /** A session changes without sending anything. */
  lemma KeepsSilently(x: Peer, y: Peer, wire: set<Packet>, nextFresh: nat, k: nat, t: Session, z: Peer)
    requires Safe(x, y, wire, nextFresh) && k in x.sessions
    requires SessionOK(x.id, y, wire, nextFresh, k, t) && Grows(x.sessions[k], t)
    requires Becomes(x, k, t, z)
    ensures Safe(z, y, wire, nextFresh)
  {
    hide SessionOK, Emits, WireOK, PeerOK;
    IdentifiedKey(x, y, wire, nextFresh, k);
    EmitsNothing(wire, x.sessions[k], t);
    Touched(x, y, wire, nextFresh, k, x.sessions[k], t, z, {}, nextFresh);
    assert wire + {} == wire;
  }

  lemma TakePingCore(s: Session, path: Path, now: int)
    ensures SameCore(s, TakePing(s, path, now))
  {
    RoutesAreClasses(s.path, s.path, path);
  }

  lemma PingKeeps(x: Peer, y: Peer, wire: set<Packet>, nextFresh: nat, k: nat, packet: Packet, path: Path, now: int)
    requires Safe(x, y, wire, nextFresh) && k in x.sessions && packet in wire && packet.Sealed? && Opens(x.sessions[k], packet)
    requires packet.body == Ping
    ensures Keeps(x, y, wire, nextFresh, HandlePing(x, k, packet.sequence, path, now, nextFresh))
  {
    hide SessionOK, Emits, WireOK, PeerOK, SameCore, TakePing, Seal;
    var s := x.sessions[k];
    var n := packet.sequence;
    var t := Take(s, n);
    var u := TakePing(t, path, now);
    assert SessionOK(x.id, y, wire, nextFresh, k, s) by {
      SafePeer(x, y, wire, nextFresh, k);
    }
    IdentifiedKey(x, y, wire, nextFresh, k);
    TakeOK(x.id, y, wire, nextFresh, k, s, n);
    TakePingCore(t, path, now);
    SameCoreOK(x.id, y, wire, nextFresh, k, t, u);
    GrowsCore(s, t, u);
    SameReady(t, u);
    assert IsPing(packet, CiphersOf(u).value.receive, n);
    SealOK(wire, u, Pong(n));
    var v := Seal(u, Pong(n)).0;
    SameCoreOK(x.id, y, wire, nextFresh, k, u, v);
    GrowsCore(s, u, v);
    EmitsNothing(wire, s, u);
    EmitsThen(wire, s, u, v, {}, Seal(u, Pong(n)).1);
    assert {} + Seal(u, Pong(n)).1 == Seal(u, Pong(n)).1;
    Touched(x, y, wire, nextFresh, k, s, v, Put(x, k, v), Seal(u, Pong(n)).1, nextFresh);
  }

  lemma SafePeer(x: Peer, y: Peer, wire: set<Packet>, nextFresh: nat, k: nat)
    requires Safe(x, y, wire, nextFresh) && k in x.sessions
    ensures SessionOK(x.id, y, wire, nextFresh, k, x.sessions[k])
  {
  }

  lemma SameReady(s: Session, t: Session)
    requires SameCore(s, t)
    ensures CiphersOf(t) == CiphersOf(s)
  {
  }

  /** A pong that answers confirms a session whose mirror image exists. */
  lemma TakePongOK(id: nat, y: Peer, wire: set<Packet>, nextFresh: nat, k: nat, s: Session, path: Path, now: int)
    requires SessionOK(id, y, wire, nextFresh, k, s) && Mirrored(y, s) && AcceptsPath(s, path)
    ensures SessionOK(id, y, wire, nextFresh, k, TakePong(s, path, now)) && Grows(s, TakePong(s, path, now))
  {
    hide Tracks, DeriveSession, RoundTrip, ShouldPromote;
    var t := TakePong(s, path, now);
    RoutesAreClasses(path, path, path);
    assert path in t.proven;
    if s.everAuthenticated {
      var p :| p in s.proven && SameRoute(p, s.path);
      assert p in t.proven;
    }
    assert InboxOK(wire, t) by {
      assert CiphersOf(t) == CiphersOf(s);
    }
  }

  lemma PongKeeps(x: Peer, y: Peer, wire: set<Packet>, nextFresh: nat, k: nat, packet: Packet, path: Path, now: int)
    requires Safe(x, y, wire, nextFresh) && k in x.sessions && packet in wire && packet.Sealed? && Opens(x.sessions[k], packet)
    requires packet.body.Pong? && AcceptsPath(x.sessions[k], path)
    ensures Keeps(x, y, wire, nextFresh, HandlePong(x, k, packet.sequence, packet.body.echo, path, now, nextFresh))
  {
    hide SessionOK, Emits, WireOK, PeerOK, TakePong, Promote;
    var s := x.sessions[k];
    var t := Take(s, packet.sequence);
    KeyIsMirrored(x, y, wire, nextFresh, k, packet);
    SafePeer(x, y, wire, nextFresh, k);
    OpensNew(s, packet);
    TakeOK(x.id, y, wire, nextFresh, k, s, packet.sequence);
    assert wire + {} == wire;
    if Answers(t, path, packet.body.echo) {
      var u := TakePong(t, path, now);
      TakePongOK(x.id, y, wire, nextFresh, k, t, path, now);
      GrowsTwice(s, t, u);
      KeepsSilently(x, y, wire, nextFresh, k, u, Put(x, k, u));
      PromoteKeeps(Put(x, k, u), y, wire, nextFresh, k);
    } else {
      KeepsSilently(x, y, wire, nextFresh, k, t, Put(x, k, t));
    }
  }

  lemma OpensNew(s: Session, packet: Packet)
    requires packet.Sealed? && Opens(s, packet)
    ensures Takes(s.window, packet.sequence)
  {
  }

  lemma GrowsTwice(s: Session, t: Session, u: Session)
    requires Grows(s, t) && Grows(t, u)
    ensures Grows(s, u)
  {
  }

  lemma PromoteKeeps(x: Peer, y: Peer, wire: set<Packet>, nextFresh: nat, k: nat)
    requires Safe(x, y, wire, nextFresh) && k in x.sessions
    ensures Safe(Promote(x, k), y, wire, nextFresh)
  {
    hide Safe, SameCore;
    if x.pending == Some(k) && x.active != Some(k) {
      if Holds(x, x.active) {
        var j := x.active.value;
        var t := x.sessions[j].(authenticated := false);
        Unauthenticated(x.sessions[j]);
        SafePeer(x, y, wire, nextFresh, j);
        SameCoreOK(x.id, y, wire, nextFresh, j, x.sessions[j], t);
        KeepsSilently(x, y, wire, nextFresh, j, t, Put(x, j, t));
        SafeIgnoresUse(Put(x, j, t), y, wire, nextFresh, Some(k), None);
      } else {
        SafeIgnoresUse(x, y, wire, nextFresh, Some(k), None);
      }
    }
  }

  lemma Unauthenticated(s: Session)
    ensures SameCore(s, s.(authenticated := false)) && Grows(s, s.(authenticated := false))
    ensures var t := s.(authenticated := false, ping := NO_PING, candidate := None); SameCore(s, t) && Grows(s, t)
    ensures SameCore(s, s.(candidate := None)) && Grows(s, s.(candidate := None))
  {
    RoutesAreClasses(s.path, s.path, s.path);
  }

  lemma DataOK(id: nat, y: Peer, wire: set<Packet>, nextFresh: nat, k: nat, s: Session, packet: Packet, now: int)
    requires SessionOK(id, y, wire, nextFresh, k, s) && packet in wire && packet.Sealed? && Opens(s, packet)
    requires packet.body.Data? && packet.sessionID == s.local.sessionID
    ensures var t := Take(s, packet.sequence).(lastHeard := now, inbox := s.inbox + [(packet.sequence, packet.body.content)]);
      SessionOK(id, y, wire, nextFresh, k, t) && Grows(s, t)
  {
    TakeOK(id, y, wire, nextFresh, k, s, packet.sequence);
    hide Tracks, DeriveSession, Offer;
    var t := Take(s, packet.sequence).(lastHeard := now, inbox := s.inbox + [(packet.sequence, packet.body.content)]);
    assert CiphersOf(t) == CiphersOf(s);
  }

  lemma SealedKeeps(x: Peer, y: Peer, wire: set<Packet>, nextFresh: nat, packet: Packet, path: Path, now: int)
    requires Safe(x, y, wire, nextFresh) && packet in wire && packet.Sealed?
    ensures Keeps(x, y, wire, nextFresh, HandleSealed(x, packet, path, now, nextFresh))
  {
    hide Safe, SessionOK, Opens, HandlePing, HandlePong, Take;
    assert wire + {} == wire;
    var found := SessionFor(x, packet.sessionID, path);
    if found.Some? && Opens(x.sessions[found.value], packet) {
      var k := found.value;
      match packet.body
      case Ping => PingKeeps(x, y, wire, nextFresh, k, packet, path, now);
      case Pong(_) => PongKeeps(x, y, wire, nextFresh, k, packet, path, now);
      case Data(content) =>
        if x.active == Some(k) && x.sessions[k].authenticated && SameRoute(x.sessions[k].path, path) {
          SafePeer(x, y, wire, nextFresh, k);
          DataOK(x.id, y, wire, nextFresh, k, x.sessions[k], packet, now);
          var t := Take(x.sessions[k], packet.sequence).(lastHeard := now, inbox := x.sessions[k].inbox + [(packet.sequence, content)]);
          KeepsSilently(x, y, wire, nextFresh, k, t, Put(x, k, t));
        }
      case Leave =>
        if x.active == Some(k) && x.sessions[k].everAuthenticated && SameRoute(x.sessions[k].path, path) {
          SafePeer(x, y, wire, nextFresh, k);
          OpensNew(x.sessions[k], packet);
          TakeOK(x.id, y, wire, nextFresh, k, x.sessions[k], packet.sequence);
          var t := Take(x.sessions[k], packet.sequence);
          KeepsSilently(x, y, wire, nextFresh, k, t, Put(x, k, t));
          SafeIgnoresUse(Put(x, k, t), y, wire, nextFresh, None, None);
        }
    }
  }

  // ----- steps -----

  lemma SealOrStopOK(wire: set<Packet>, s: Session, body: Body)
    requires Ready(s) && !body.Pong?
    ensures SameCore(s, SealOrStop(s, body).0) && Emits(wire, s, SealOrStop(s, body).0, SealOrStop(s, body).1)
  {
    SealOK(wire, s, body);
    Unauthenticated(s);
    EmitsNothing(wire, s, s.(authenticated := false));
    hide Emits;
  }

  lemma ActKeeps(x: Peer, y: Peer, wire: set<Packet>, nextFresh: nat, a: Action)
    requires Safe(x, y, wire, nextFresh) && (a.Gets? ==> a.packet in wire)
    ensures Keeps(x, y, wire, nextFresh, Act(x, a, nextFresh))
  {
    hide Safe, Emits, SameCore, HandleProbe, HandleHello, HandleSealed, Advertise, Pings, SealOrStop;
    assert wire + {} == wire;
    match a
    case Gets(packet, path, now) =>
      if packet.HelloProbe? && packet.peerID != x.id {
        ProbeKeeps(x, y, wire, packet.peerID, path, now, nextFresh);
      } else if packet.SessionHello? && packet.hello.peerID != x.id {
        HelloKeeps(x, y, wire, nextFresh, packet.hello, path, now);
      } else if packet.Sealed? {
        SealedKeeps(x, y, wire, nextFresh, packet, path, now);
      }
    case Probes => ProbeIsHarmless(x, y, wire, nextFresh);
    case Announces(which, path, now) =>
      if Holds(x, Chosen(x, which)) {
        var k := Chosen(x, which).value;
        AdvertiseOK(wire, x.sessions[k], path, now);
        var (s, packets) := Advertise(x.sessions[k], path, now);
        KeepsCore(x, y, wire, nextFresh, k, s, packets, Put(x, k, s));
      }
    case PingsPeer(which, now) =>
      if Holds(x, Chosen(x, which)) {
        var k := Chosen(x, which).value;
        PingsOK(wire, x.sessions[k], now);
        var (s, packets) := Pings(x.sessions[k], now);
        KeepsCore(x, y, wire, nextFresh, k, s, packets, Put(x, k, s));
      }
    case Sends(body) =>
      if !body.Ping? && !body.Pong? && Holds(x, x.active) && Ready(x.sessions[x.active.value]) && x.sessions[x.active.value].authenticated {
        var k := x.active.value;
        SealOrStopOK(wire, x.sessions[k], body);
        var (s, packets) := SealOrStop(x.sessions[k], body);
        KeepsCore(x, y, wire, nextFresh, k, s, packets, Put(x, k, s));
      }
    case Drops(which) =>
      if which {
        SafeIgnoresUse(x, y, wire, nextFresh, x.active, None);
      } else {
        SafeIgnoresUse(x, y, wire, nextFresh, None, x.pending);
      }
    case _ =>
      if Holds(x, x.active) {
        var k := x.active.value;
        var s := x.sessions[k];
        var t := if a.Fails? then s.(authenticated := false, ping := NO_PING, candidate := None) else s.(candidate := None);
        Unauthenticated(s);
        EmitsNothing(wire, s, t);
        KeepsCore(x, y, wire, nextFresh, k, t, {}, Put(x, k, t));
      }
  }

  ghost predicate SafeWorld(w: World) {
    Safe(w.a, w.b, w.wire, w.nextFresh)
  }

  lemma StartIsSafe(w: World)
    requires Start(w)
    ensures SafeWorld(w)
  {
  }

  lemma NextIsSafe(w: World, step: Step)
    requires SafeWorld(w) && Possible(w, step)
    ensures SafeWorld(Next(w, step))
  {
    hide Safe, Act;
    if step.byA {
      ActKeeps(w.a, w.b, w.wire, w.nextFresh, step.action);
    } else {
      SafeBothWays(w.a, w.b, w.wire, w.nextFresh);
      ActKeeps(w.b, w.a, w.wire, w.nextFresh, step.action);
      var o := Act(w.b, step.action, w.nextFresh);
      SafeBothWays(o.peer, w.a, w.wire + o.packets, o.nextFresh);
    }
  }

  // ----- runs -----

  ghost predicate Run(steps: seq<Step>, worlds: seq<World>) {
    && |worlds| == |steps| + 1
    && Start(worlds[0])
    && forall i :: 0 <= i < |steps| ==> Possible(worlds[i], steps[i]) && worlds[i + 1] == Next(worlds[i], steps[i])
  }

  lemma {:induction false} EveryWorldIsSafe(steps: seq<Step>, worlds: seq<World>, n: nat)
    requires Run(steps, worlds) && n < |worlds|
    ensures SafeWorld(worlds[n])
  {
    hide SafeWorld, Next;
    if n == 0 {
      StartIsSafe(worlds[0]);
    } else {
      EveryWorldIsSafe(steps, worlds, n - 1);
      NextIsSafe(worlds[n - 1], steps[n - 1]);
    }
  }

  function End(w: World, a: bool): Peer {
    if a then w.a else w.b
  }

  lemma EveryEndIsSafe(steps: seq<Step>, worlds: seq<World>, n: nat, a: bool)
    requires Run(steps, worlds) && n < |worlds|
    ensures Safe(End(worlds[n], a), End(worlds[n], !a), worlds[n].wire, worlds[n].nextFresh)
  {
    hide Safe, Next;
    EveryWorldIsSafe(steps, worlds, n);
    SafeBothWays(worlds[n].a, worlds[n].b, worlds[n].wire, worlds[n].nextFresh);
  }

  /** Agreement. Whenever a session was ever authenticated, the other peer has created the session that mirrors it:
      the same session identifier, each end's hello where the other expects it, and the two keys exchanged. */
  lemma AuthenticatedAgrees(steps: seq<Step>, worlds: seq<World>, n: nat, a: bool, k: nat)
    requires Run(steps, worlds) && n < |worlds|
    requires k in End(worlds[n], a).sessions && End(worlds[n], a).sessions[k].everAuthenticated
    ensures var s, y := End(worlds[n], a).sessions[k], End(worlds[n], !a);
      && s.remote.Some? && s.remote.value.key in y.sessions
      && var t := y.sessions[s.remote.value.key];
        && t.local == s.remote.value && t.remote == Some(s.local) && t.local.sessionID == s.local.sessionID
        && Ready(s) && Ready(t)
        && CiphersOf(t).value.send == CiphersOf(s).value.receive && CiphersOf(t).value.receive == CiphersOf(s).value.send
  {
    EveryEndIsSafe(steps, worlds, n, a);
    hide Tracks, InboxOK, WireOK, Run;
    var x, y := End(worlds[n], a), End(worlds[n], !a);
    SafePeer(x, y, worlds[n].wire, worlds[n].nextFresh, k);
    var s := x.sessions[k];
    SafeBothWays(x, y, worlds[n].wire, worlds[n].nextFresh);
    SafePeer(y, x, worlds[n].wire, worlds[n].nextFresh, s.remote.value.key);
    var t := y.sessions[s.remote.value.key];
    SwappedIffMirrored(s.key, s.local, s.remote.value, t.key, t.local, t.remote.value);
  }

  /** No nonce is used twice: two packets of a run under one key and sequence number are the same packet. */
  lemma NoncesAreUsedOnce(steps: seq<Step>, worlds: seq<World>, n: nat, p: Packet, q: Packet)
    requires Run(steps, worlds) && n < |worlds| && p in worlds[n].wire && q in worlds[n].wire && SameNumber(p, q)
    ensures p == q
  {
    EveryWorldIsSafe(steps, worlds, n);
  }

  /** The session sealed this content under this number. */
  ghost predicate IsData(wire: set<Packet>, t: Session, p: Packet, n: uint64, content: nat) {
    p in wire && SealedBy(wire, t, p) && p.sequence == n && p.body == Data(content)
  }

  /** Data taken by a session was sealed by the session that mirrors it, and no packet is taken twice. */
  lemma DataIsGenuine(steps: seq<Step>, worlds: seq<World>, n: nat, a: bool, k: nat, i: nat)
    requires Run(steps, worlds) && n < |worlds|
    requires k in End(worlds[n], a).sessions && i < |End(worlds[n], a).sessions[k].inbox|
    ensures var s, y := End(worlds[n], a).sessions[k], End(worlds[n], !a);
      && Mirrored(y, s)
      && (exists p :: IsData(worlds[n].wire, y.sessions[s.remote.value.key], p, s.inbox[i].0, s.inbox[i].1))
      && forall j :: 0 <= j < |s.inbox| && j != i ==> s.inbox[j].0 != s.inbox[i].0
  {
    EveryEndIsSafe(steps, worlds, n, a);
    hide Tracks, Run, NumbersOnce, SealedBy;
    var x, y, w := End(worlds[n], a), End(worlds[n], !a), worlds[n];
    SafePeer(x, y, w.wire, w.nextFresh, k);
    var s := x.sessions[k];
    var p := Sealed(CiphersOf(s).value.receive, s.local.sessionID, s.inbox[i].0, Data(s.inbox[i].1));
    KeyIsMirrored(x, y, w.wire, w.nextFresh, k, p);
    assert IsData(w.wire, y.sessions[s.remote.value.key], p, s.inbox[i].0, s.inbox[i].1);
  }

  // ----- paths -----

  /** The route stays, and the session has not become authenticated. */
  predicate SamePath(s: Session, t: Session) {
    SameRoute(s.path, t.path) && (t.authenticated ==> s.authenticated)
  }

  predicate Steady(x: Peer, z: Peer) {
    forall k :: k in x.sessions ==> k in z.sessions && SamePath(x.sessions[k], z.sessions[k])
  }

  lemma PutSteady(x: Peer, k: nat, t: Session)
    requires k in x.sessions ==> SamePath(x.sessions[k], t)
    ensures Steady(x, Put(x, k, t))
  {
    forall j | j in x.sessions
      ensures SamePath(x.sessions[j], Put(x, k, t).sessions[j])
    {
      RoutesAreClasses(x.sessions[j].path, x.sessions[j].path, x.sessions[j].path);
    }
  }

  lemma SteadyItself(x: Peer, active: Option<nat>, pending: Option<nat>)
    ensures Steady(x, x.(active := active, pending := pending))
  {
    forall j | j in x.sessions
      ensures SamePath(x.sessions[j], x.sessions[j])
    {
      RoutesAreClasses(x.sessions[j].path, x.sessions[j].path, x.sessions[j].path);
    }
  }

  lemma CoreSamePath(s: Session, t: Session)
    requires SameCore(s, t)
    ensures SamePath(s, t)
  {
  }

  lemma HelloSteady(x: Peer, wire: set<Packet>, hello: Hello, path: Path, now: int, nextFresh: nat)
    requires nextFresh !in x.sessions
    ensures Steady(x, HandleHello(x, hello, path, now, nextFresh).peer)
  {
    hide Advertise, Pings, RememberCandidate, AdvertiseAndPing, SameCore, Steady, SamePath, Complete, Emits, DeriveSession;
    SteadyItself(x, x.active, x.pending);
    forall k | k in x.sessions
      ensures Resumed(x.sessions[k], hello).Some? ==>
        Steady(x, Resume(x, k, Resumed(x.sessions[k], hello).value, path, now, nextFresh).peer)
      ensures Steady(x, Put(x, k, Advertise(x.sessions[k], path, now).0))
    {
      var s := x.sessions[k];
      AdvertiseOK(wire, s, path, now);
      CoreSamePath(s, Advertise(s, path, now).0);
      PutSteady(x, k, Advertise(s, path, now).0);
      if Resumed(s, hello).Some? {
        var t := Resumed(s, hello).value;
        var u := RememberCandidate(t, path, now);
        ResumedPath(s, hello);
        RememberedCore(t, path, now);
        PingsOK(wire, u, now);
        SamePathThrough(s, t, u, Pings(u, now).0);
        PutSteady(x, k, Pings(u, now).0);
      }
    }
    NewSteady(x, nextFresh, hello, path, now);
  }

  lemma ResumedPath(s: Session, hello: Hello)
    requires Resumed(s, hello).Some?
    ensures Resumed(s, hello).value.path == s.path && Resumed(s, hello).value.authenticated == s.authenticated
  {
  }

  lemma SamePathThrough(s: Session, t: Session, u: Session, v: Session)
    requires t.path == s.path && t.authenticated == s.authenticated && SameCore(t, u) && SameCore(u, v)
    ensures SamePath(s, v)
  {
    RoutesAreClasses(t.path, u.path, v.path);
  }

  lemma NewSteady(x: Peer, nextFresh: nat, hello: Hello, path: Path, now: int)
    requires nextFresh !in x.sessions
    ensures Steady(x, StartInitiating(x, path, now, nextFresh).peer)
    ensures Steady(x, Respond(x, hello, path, now, nextFresh).peer)
  {
    hide AdvertiseAndPing, Complete, SamePath;
    forall j | j in x.sessions
      ensures SamePath(x.sessions[j], x.sessions[j])
    {
      SteadyItself(x, x.active, x.pending);
    }
  }

  lemma ProbeSteady(x: Peer, wire: set<Packet>, from: nat, path: Path, now: int, nextFresh: nat)
    requires nextFresh !in x.sessions
    ensures Steady(x, HandleProbe(x, from, path, now, nextFresh).peer)
  {
    hide AdvertiseAndPing, SameCore, Steady, SamePath, StartInitiating, Emits;
    SteadyItself(x, x.active, x.pending);
    var current := if Holds(x, x.pending) then x.pending else x.active;
    if Holds(x, current) {
      var s := x.sessions[current.value];
      AdvertiseAndPingOK(wire, s, path, now);
      CoreSamePath(s, AdvertiseAndPing(s, path, now).0);
      PutSteady(x, current.value, AdvertiseAndPing(s, path, now).0);
    }
    NewSteady(x, nextFresh, Hello(0, 0, 0), path, now);
  }

  lemma SealedSteady(x: Peer, wire: set<Packet>, packet: Packet, path: Path, now: int, nextFresh: nat)
    requires packet.Sealed? && !packet.body.Pong?
    requires packet in wire
    ensures Steady(x, HandleSealed(x, packet, path, now, nextFresh).peer)
  {
    hide Steady, SamePath, Emits, SameCore, Seal, TakePing, Opens, Offer, SealedBy;
    SteadyItself(x, x.active, x.pending);
    var found := SessionFor(x, packet.sessionID, path);
    if found.Some? && Opens(x.sessions[found.value], packet) {
      var k := found.value;
      var s := x.sessions[k];
      var n := packet.sequence;
      OpensReady(s, packet);
      TakeSamePath(s, n);
      match packet.body
      case Ping =>
        var u := TakePing(Take(s, n), path, now);
        TakePingCore(Take(s, n), path, now);
        SameReady(Take(s, n), u);
        assert CiphersOf(Take(s, n)) == CiphersOf(s);
        assert IsPing(packet, CiphersOf(u).value.receive, n);
        SealOK(wire, u, Pong(n));
        SamePathThrough(s, Take(s, n), u, Seal(u, Pong(n)).0);
        PutSteady(x, k, Seal(u, Pong(n)).0);
      case Data(content) =>
        PutSteady(x, k, Take(s, n).(lastHeard := now, inbox := s.inbox + [(n, content)]));
      case Leave =>
        PutSteady(x, k, Take(s, n));
        SteadyDropped(x, Put(x, k, Take(s, n)));
    }
  }

  lemma SteadyDropped(x: Peer, z: Peer)
    requires Steady(x, z)
    ensures Steady(x, z.(active := None, pending := None))
  {
  }

  lemma OpensReady(s: Session, packet: Packet)
    requires packet.Sealed? && Opens(s, packet)
    ensures Ready(s) && packet.key == CiphersOf(s).value.receive
  {
  }

  lemma TakeSamePath(s: Session, n: uint64)
    ensures SamePath(s, Take(s, n))
    ensures forall now: int, inbox :: SamePath(s, Take(s, n).(lastHeard := now, inbox := inbox))
  {
    RoutesAreClasses(s.path, s.path, s.path);
  }

  /** Only a pong moves a session to another route or authenticates it. */
  lemma OnlyPongsMove(x: Peer, wire: set<Packet>, a: Action, nextFresh: nat)
    requires nextFresh !in x.sessions && (a.Gets? ==> a.packet in wire)
    requires a.Gets? && a.packet.Sealed? ==> !a.packet.body.Pong?
    ensures Steady(x, Act(x, a, nextFresh).peer)
  {
    hide HandleProbe, HandleHello, HandleSealed, Advertise, Pings, SealOrStop, Steady, SamePath, SameCore, Emits;
    SteadyItself(x, x.active, x.pending);
    SteadyItself(x, x.active, None);
    SteadyItself(x, None, x.pending);
    match a
    case Gets(packet, path, now) =>
      if packet.HelloProbe? {
        ProbeSteady(x, wire, packet.peerID, path, now, nextFresh);
      } else if packet.SessionHello? {
        HelloSteady(x, wire, packet.hello, path, now, nextFresh);
      } else {
        SealedSteady(x, wire, packet, path, now, nextFresh);
      }
    case Announces(which, path, now) =>
      if Holds(x, Chosen(x, which)) {
        var k := Chosen(x, which).value;
        AdvertiseOK(wire, x.sessions[k], path, now);
        CoreSamePath(x.sessions[k], Advertise(x.sessions[k], path, now).0);
        PutSteady(x, k, Advertise(x.sessions[k], path, now).0);
      }
    case PingsPeer(which, now) =>
      if Holds(x, Chosen(x, which)) {
        var k := Chosen(x, which).value;
        PingsOK(wire, x.sessions[k], now);
        CoreSamePath(x.sessions[k], Pings(x.sessions[k], now).0);
        PutSteady(x, k, Pings(x.sessions[k], now).0);
      }
    case Sends(body) =>
      if !body.Ping? && !body.Pong? && Holds(x, x.active) && Ready(x.sessions[x.active.value]) && x.sessions[x.active.value].authenticated {
        var k := x.active.value;
        SealOrStopOK(wire, x.sessions[k], body);
        CoreSamePath(x.sessions[k], SealOrStop(x.sessions[k], body).0);
        PutSteady(x, k, SealOrStop(x.sessions[k], body).0);
      }
    case Probes =>
    case Drops(_) =>
    case _ =>
      if Holds(x, x.active) {
        var s := x.sessions[x.active.value];
        Unauthenticated(s);
        CoreSamePath(s, s.(authenticated := false, ping := NO_PING, candidate := None));
        CoreSamePath(s, s.(candidate := None));
        PutSteady(x, x.active.value, s.(authenticated := false, ping := NO_PING, candidate := None));
        PutSteady(x, x.active.value, s.(candidate := None));
      }
  }

  /** This step hands session s, now t, the pong that answers the ping outstanding on the pong's route; the ping was
      sealed by s, and t's route is the one it was sent on. */
  ghost predicate MovedByPong(wire: set<Packet>, s: Session, t: Session, a: Action) {
    && a.Gets? && a.packet.Sealed? && a.packet.body.Pong?
    && Opens(s, a.packet) && AcceptsPath(s, a.path) && Answers(s, a.path, a.packet.body.echo)
    && SameRoute(t.path, a.path)
    && exists ping :: ping in wire && IsPing(ping, CiphersOf(s).value.send, a.packet.body.echo)
  }

  lemma PongMoves(x: Peer, packet: Packet, path: Path, now: int, nextFresh: nat, k: nat)
    requires packet.Sealed? && packet.body.Pong? && k in x.sessions
    ensures var z := HandleSealed(x, packet, path, now, nextFresh).peer;
      && k in z.sessions
      && (SamePath(x.sessions[k], z.sessions[k])
          || (SessionFor(x, packet.sessionID, path) == Some(k) && Opens(x.sessions[k], packet)
              && Answers(x.sessions[k], path, packet.body.echo) && SameRoute(z.sessions[k].path, path)))
  {
    hide Opens, Offer, ShouldPromote, RoundTrip;
    var s := x.sessions[k];
    RoutesAreClasses(s.path, s.path, path);
    RoutesAreClasses(path, path, path);
  }

  lemma AnsweredPingWasSent(x: Peer, y: Peer, wire: set<Packet>, nextFresh: nat, k: nat, packet: Packet)
    requires Safe(x, y, wire, nextFresh) && k in x.sessions && packet in wire && packet.Sealed? && packet.body.Pong? && Opens(x.sessions[k], packet)
    ensures exists ping :: ping in wire && IsPing(ping, CiphersOf(x.sessions[k]).value.send, packet.body.echo)
  {
    KeyIsMirrored(x, y, wire, nextFresh, k, packet);
    hide Tracks, InboxOK, NumbersOnce, DeriveSession, WireOK;
    var s := x.sessions[k];
    SafeBothWays(x, y, wire, nextFresh);
    SafePeer(y, x, wire, nextFresh, s.remote.value.key);
    SafePeer(x, y, wire, nextFresh, k);
    var t := y.sessions[s.remote.value.key];
    SwappedIffMirrored(s.key, s.local, s.remote.value, t.key, t.local, t.remote.value);
  }

  /** A session changes its route, or becomes authenticated, only in the step that hands it a genuine pong for the
      ping outstanding on that very route: a pong its mirror image sealed in answer to that ping. */
  lemma RouteNeedsPong(steps: seq<Step>, worlds: seq<World>, n: nat, a: bool, k: nat)
    requires Run(steps, worlds) && n < |steps| && k in End(worlds[n], a).sessions
    ensures k in End(worlds[n + 1], a).sessions
    ensures var s, t := End(worlds[n], a).sessions[k], End(worlds[n + 1], a).sessions[k];
      SamePath(s, t) || (steps[n].byA == a && MovedByPong(worlds[n].wire, s, t, steps[n].action))
  {
    EveryEndIsSafe(steps, worlds, n, a);
    hide Safe, Act, SamePath, Answers, Opens;
    var x, y, w := End(worlds[n], a), End(worlds[n], !a), worlds[n];
    assert worlds[n + 1] == Next(w, steps[n]);
    SteadyItself(x, x.active, x.pending);
    FreshIsNew(x, y, w.wire, w.nextFresh, w.nextFresh);
    if steps[n].byA == a {
      var act := steps[n].action;
      if act.Gets? && act.packet.Sealed? && act.packet.body.Pong? {
        PongMoves(x, act.packet, act.path, act.now, w.nextFresh, k);
        ActOnSealed(x, act, w.nextFresh);
        if SessionFor(x, act.packet.sessionID, act.path) == Some(k) && Opens(x.sessions[k], act.packet) {
          AnsweredPingWasSent(x, y, w.wire, w.nextFresh, k, act.packet);
        }
      } else {
        OnlyPongsMove(x, w.wire, act, w.nextFresh);
      }
    }
  }

  lemma ActOnSealed(x: Peer, a: Action, nextFresh: nat)
    requires a.Gets? && a.packet.Sealed?
    ensures Act(x, a, nextFresh) == HandleSealed(x, a.packet, a.path, a.now, nextFresh)
  {
  }

  /** A session that was ever authenticated runs on a route on which a pong was taken. */
  lemma CurrentRouteIsProven(steps: seq<Step>, worlds: seq<World>, n: nat, a: bool, k: nat)
    requires Run(steps, worlds) && n < |worlds|
    requires k in End(worlds[n], a).sessions && End(worlds[n], a).sessions[k].everAuthenticated
    ensures OnProvenRoute(End(worlds[n], a).sessions[k])
  {
    EveryEndIsSafe(steps, worlds, n, a);
    hide Tracks, InboxOK, WireOK, Run;
    SafePeer(End(worlds[n], a), End(worlds[n], !a), worlds[n].wire, worlds[n].nextFresh, k);
  }

  // ----- who starts -----

  /** The larger peer only ever answers: every session it has carries a hello of the smaller one. */
  predicate Answering(x: Peer) {
    forall k :: k in x.sessions ==> x.sessions[k].remote.Some?
  }

  lemma PutAnswers(x: Peer, k: nat, t: Session, active: Option<nat>, pending: Option<nat>)
    requires Answering(x) && t.remote.Some?
    ensures Answering(Put(x, k, t).(active := active, pending := pending))
  {
  }

  lemma CoreRemote(s: Session, t: Session)
    requires SameCore(s, t)
    ensures t.remote == s.remote
  {
  }

  lemma HelloAnswers(x: Peer, wire: set<Packet>, hello: Hello, path: Path, now: int, nextFresh: nat)
    requires Answering(x) && hello.peerID < x.id
    ensures Answering(HandleHello(x, hello, path, now, nextFresh).peer)
  {
    hide Advertise, Pings, RememberCandidate, AdvertiseAndPing, SameCore, Answering, Complete, Emits, DeriveSession;
    forall k | k in x.sessions && Resumed(x.sessions[k], hello).Some?
      ensures Answering(Resume(x, k, Resumed(x.sessions[k], hello).value, path, now, nextFresh).peer)
    {
      var t := Resumed(x.sessions[k], hello).value;
      var u := RememberCandidate(t, path, now);
      ResumedRemote(x.sessions[k], hello);
      RememberedCore(t, path, now);
      PingsOK(wire, u, now);
      CoreRemote(t, u);
      CoreRemote(u, Pings(u, now).0);
      PutAnswers(x, k, Pings(u, now).0, x.active, x.pending);
    }
    var blank := NewSession(nextFresh, Hello(hello.sessionID, x.id, nextFresh), path, now);
    var s := Complete(blank, hello);
    if s.Some? {
      CompleteRemote(blank, hello);
      AdvertiseAndPingOK(wire, s.value, path, now);
      CoreRemote(s.value, AdvertiseAndPing(s.value, path, now).0);
      PutAnswers(x, nextFresh, AdvertiseAndPing(s.value, path, now).0, x.active, Some(nextFresh));
    }
  }

  lemma ResumedRemote(s: Session, hello: Hello)
    requires Resumed(s, hello).Some?
    ensures Resumed(s, hello).value.remote.Some?
  {
  }

  lemma CompleteRemote(s: Session, hello: Hello)
    ensures Complete(s, hello).Some? ==> Complete(s, hello).value.remote.Some?
  {
  }

  lemma SealedAnswers(x: Peer, packet: Packet, path: Path, now: int, nextFresh: nat)
    requires Answering(x) && packet.Sealed?
    ensures Answering(HandleSealed(x, packet, path, now, nextFresh).peer)
  {
    hide ShouldPromote, RoundTrip, Offer, Answers, OnCandidate, AcceptsPath, Opens, SameRoute, DeriveSession;
  }

  lemma ActAnswers(x: Peer, y: Peer, wire: set<Packet>, nextFresh: nat, a: Action)
    requires Safe(x, y, wire, nextFresh) && (a.Gets? ==> a.packet in wire) && y.id < x.id && Answering(x)
    ensures Answering(Act(x, a, nextFresh).peer)
  {
    if a.Gets? && a.packet.HelloProbe? {
      assert PacketOK(x, y, wire, a.packet);
    } else if a.Gets? && a.packet.SessionHello? && a.packet.hello.peerID != x.id {
      HelloIsTheirs(x, y, wire, nextFresh, a.packet.hello);
      OwnHello(x, y, wire, nextFresh, a.packet.hello);
    }
    StepAnswers(x, wire, y.id, a, nextFresh);
  }

  lemma StepAnswers(x: Peer, wire: set<Packet>, other: nat, a: Action, nextFresh: nat)
    requires Answering(x) && other < x.id
    requires a.Gets? && a.packet.HelloProbe? ==> a.packet.peerID == x.id || a.packet.peerID == other
    requires a.Gets? && a.packet.SessionHello? ==> a.packet.hello.peerID == x.id || a.packet.hello.peerID == other
    ensures Answering(Act(x, a, nextFresh).peer)
  {
    hide HandleHello, HandleSealed, Advertise, AdvertiseAndPing, Pings, SealOrStop, SameCore, Emits, StartInitiating;
    forall k: nat, path, now | k in x.sessions
      ensures AdvertiseAndPing(x.sessions[k], path, now).0.remote.Some?
      ensures Advertise(x.sessions[k], path, now).0.remote.Some?
    {
      AdvertiseAndPingOK(wire, x.sessions[k], path, now);
      CoreRemote(x.sessions[k], AdvertiseAndPing(x.sessions[k], path, now).0);
      AdvertiseOK(wire, x.sessions[k], path, now);
      CoreRemote(x.sessions[k], Advertise(x.sessions[k], path, now).0);
    }
    forall k: nat, now | k in x.sessions
      ensures Pings(x.sessions[k], now).0.remote.Some?
    {
      PingsOK(wire, x.sessions[k], now);
      CoreRemote(x.sessions[k], Pings(x.sessions[k], now).0);
    }
    match a
    case Gets(packet, path, now) =>
      if packet.SessionHello? && packet.hello.peerID != x.id {
        HelloAnswers(x, wire, packet.hello, path, now, nextFresh);
      } else if packet.Sealed? {
        SealedAnswers(x, packet, path, now, nextFresh);
      }
    case Sends(body) =>
      if !body.Ping? && !body.Pong? && Holds(x, x.active) && Ready(x.sessions[x.active.value]) {
        SealOrStopOK(wire, x.sessions[x.active.value], body);
        CoreRemote(x.sessions[x.active.value], SealOrStop(x.sessions[x.active.value], body).0);
      }
    case _ =>
  }

  lemma {:induction false} LargerPeerAnswers(steps: seq<Step>, worlds: seq<World>, n: nat, a: bool)
    requires Run(steps, worlds) && n < |worlds| && End(worlds[0], !a).id < End(worlds[0], a).id
    ensures Answering(End(worlds[n], a)) && End(worlds[n], a).id == End(worlds[0], a).id && End(worlds[n], !a).id == End(worlds[0], !a).id
  {
    hide Act, Answering, Safe;
    NoSessionsAnswer(worlds[0], a);
    if n > 0 {
      LargerPeerAnswers(steps, worlds, n - 1, a);
      EveryEndIsSafe(steps, worlds, n - 1, a);
      var w := worlds[n - 1];
      assert worlds[n] == Next(w, steps[n - 1]);
      ActKeepsId(w.a, steps[n - 1].action, w.nextFresh);
      ActKeepsId(w.b, steps[n - 1].action, w.nextFresh);
      if steps[n - 1].byA == a {
        ActAnswers(End(w, a), End(w, !a), w.wire, w.nextFresh, steps[n - 1].action);
      }
    }
  }

  lemma NoSessionsAnswer(w: World, a: bool)
    requires Start(w)
    ensures Answering(End(w, a))
  {
  }

  lemma ActKeepsId(x: Peer, a: Action, nextFresh: nat)
    ensures Act(x, a, nextFresh).peer.id == x.id
  {
    hide Seal, Pings, RememberCandidate, AdvertiseAndPing, TakePong, Opens, Resumed, Complete, Answers, SealOrStop, Matches;
  }

  /** One initiator: every session of the larger peer answers a hello of a session of the smaller one, under the
      session identifier which that one chose. */
  lemma SmallerPeerInitiates(steps: seq<Step>, worlds: seq<World>, n: nat, a: bool, k: nat)
    requires Run(steps, worlds) && n < |worlds| && End(worlds[0], !a).id < End(worlds[0], a).id
    requires k in End(worlds[n], a).sessions
    ensures var s, y := End(worlds[n], a).sessions[k], End(worlds[n], !a);
      && s.remote.Some? && Theirs(y, s.remote.value)
      && y.sessions[s.remote.value.key].local.sessionID == s.local.sessionID
  {
    LargerPeerAnswers(steps, worlds, n, a);
    EveryEndIsSafe(steps, worlds, n, a);
    hide Tracks, InboxOK, WireOK, Run;
    SafePeer(End(worlds[n], a), End(worlds[n], !a), worlds[n].wire, worlds[n].nextFresh, k);
  }
}
