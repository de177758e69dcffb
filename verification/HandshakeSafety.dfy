/** What every step of the session handshake keeps: keys are shared by mirrored sessions only, no sequence number is
    sealed twice under a key, and whatever is confirmed was answered by the other end. */
module HandshakeSafety {
  import opened Options
  import opened Words
  import opened SequenceWindows
  import opened SessionKeys
  import opened Sessions
  import opened Handshakes

  // ----- what one session may turn into -----

  /** The same session later on: its own hello stays, and the peer's hello once it is there. */
  predicate Grows(s: Session, t: Session) {
    && t.key == s.key && t.local == s.local
    && (s.remote.Some? ==> t.remote == s.remote)
    && s.sendSequence <= t.sendSequence
  }

  /** The session sealed this packet, and answers only pings that were sent. */
  ghost predicate SealedBy(wire: set<Packet>, s: Session, p: Packet) {
    && p.Sealed? && Ready(s)
    && p.key == CiphersOf(s).value.send && p.sessionID == s.local.sessionID && 0 < p.sequence <= s.sendSequence
    && (p.body.Pong? ==> exists ping :: ping in wire && IsPing(ping, CiphersOf(s).value.receive, p.body.echo))
  }

  predicate IsPing(p: Packet, key: Key, n: uint64) {
    p.Sealed? && p.key == key && p.sequence == n && p.body == Ping
  }

  predicate SameNumber(p: Packet, q: Packet) {
    p.Sealed? && q.Sealed? && p.key == q.key && p.sequence == q.sequence
  }

  /** No two packets are sealed under the same key and sequence number. */
  ghost predicate NumbersOnce(packets: set<Packet>) {
    forall p, q :: p in packets && q in packets && SameNumber(p, q) ==> p == q
  }

  function NumberOf(p: Packet): nat {
    if p.Sealed? then p.sequence else 0
  }

  /** What turning s into t may put on the wire: the session's hello and packets under fresh numbers. */
  ghost predicate Emits(wire: set<Packet>, s: Session, t: Session, packets: set<Packet>) {
    && Grows(s, t)
    && NumbersOnce(packets)
    && forall p :: p in packets ==>
      || p == SessionHello(s.local)
      || (SealedBy(wire, t, p) && s.sendSequence < NumberOf(p))
  }

  lemma EmitsNothing(wire: set<Packet>, s: Session, t: Session)
    requires Grows(s, t)
    ensures Emits(wire, s, t, {})
  {
  }

  lemma SealedLater(wire: set<Packet>, s: Session, t: Session, p: Packet)
    requires SealedBy(wire, s, p) && Grows(s, t)
    ensures SealedBy(wire, t, p)
  {
    assert CiphersOf(t) == CiphersOf(s);
  }

  lemma EmitsThen(wire: set<Packet>, s: Session, t: Session, u: Session, first: set<Packet>, second: set<Packet>)
    requires Emits(wire, s, t, first) && Emits(wire, t, u, second)
    ensures Emits(wire, s, u, first + second)
  {
    hide SealedBy, Ready, CiphersOf;
    forall p | p in first + second
      ensures p == SessionHello(s.local) || (SealedBy(wire, u, p) && s.sendSequence < NumberOf(p))
    {
      if p in first && p != SessionHello(s.local) {
        SealedLater(wire, t, u, p);
      }
    }
    forall p, q | p in first + second && q in first + second && SameNumber(p, q)
      ensures p == q
    {
      if p in first && q in second {
        NumberBound(wire, t, p);
      } else if q in first && p in second {
        NumberBound(wire, t, q);
      }
    }
  }

  lemma NumberBound(wire: set<Packet>, t: Session, p: Packet)
    ensures SealedBy(wire, t, p) ==> NumberOf(p) <= t.sendSequence
  {
  }

  lemma SealEmits(wire: set<Packet>, s: Session, body: Body)
    requires Ready(s)
    requires body.Pong? ==> exists ping :: ping in wire && IsPing(ping, CiphersOf(s).value.receive, body.echo)
    ensures Emits(wire, s, Seal(s, body).0, Seal(s, body).1)
  {
  }

  // ----- the invariant -----

  /** The hello is that of one of this peer's sessions. */
  predicate Theirs(y: Peer, h: Hello) {
    h.key in y.sessions && y.sessions[h.key].local == h
  }

  /** The other end has the session that mirrors this one. */
  predicate Mirrored(y: Peer, s: Session) {
    s.remote.Some? && s.remote.value.key in y.sessions
    && y.sessions[s.remote.value.key].local == s.remote.value && y.sessions[s.remote.value.key].remote == Some(s.local)
  }

  predicate OnProvenRoute(s: Session) {
    exists p :: p in s.proven && SameRoute(p, s.path)
  }

  /** The data taken was sealed for this session, each packet taken once. */
  ghost predicate InboxOK(wire: set<Packet>, s: Session) {
    && (s.inbox != [] ==> Ready(s))
    && (forall i :: 0 <= i < |s.inbox| ==>
      s.inbox[i].0 in s.taken && Sealed(CiphersOf(s).value.receive, s.local.sessionID, s.inbox[i].0, Data(s.inbox[i].1)) in wire)
    && forall i, j :: 0 <= i < j < |s.inbox| ==> s.inbox[i].0 != s.inbox[j].0
  }

  ghost predicate Identified(id: nat, y: Peer, nextFresh: nat, k: nat, s: Session) {
    && s.key == k && s.local.key == k && k < nextFresh
    && s.local.peerID == id && 0 < s.local.sessionID
    && (s.remote.Some? ==> ValidPair(s.local, s.remote.value) && Theirs(y, s.remote.value))
  }

  ghost predicate SessionOK(id: nat, y: Peer, wire: set<Packet>, nextFresh: nat, k: nat, s: Session) {
    && Identified(id, y, nextFresh, k, s)
    && Tracks(s.window, s.taken)
    && InboxOK(wire, s)
    && (s.authenticated ==> s.everAuthenticated)
    && (s.everAuthenticated ==> Mirrored(y, s) && OnProvenRoute(s))
  }

  ghost predicate SealedAt(wire: set<Packet>, x: Peer, p: Packet) {
    exists k :: k in x.sessions && SealedBy(wire, x.sessions[k], p)
  }

  ghost predicate PacketOK(x: Peer, y: Peer, wire: set<Packet>, p: Packet) {
    match p
    case HelloProbe(id) => id == x.id || id == y.id
    case SessionHello(h) => Theirs(x, h) || Theirs(y, h)
    case Sealed(_, _, _, _) => SealedAt(wire, x, p) || SealedAt(wire, y, p)
  }

  ghost predicate PeerOK(x: Peer, y: Peer, wire: set<Packet>, nextFresh: nat) {
    forall k :: k in x.sessions ==> SessionOK(x.id, y, wire, nextFresh, k, x.sessions[k])
  }

  ghost predicate WireOK(x: Peer, y: Peer, wire: set<Packet>) {
    NumbersOnce(wire) && forall p :: p in wire ==> PacketOK(x, y, wire, p)
  }

  ghost predicate Safe(x: Peer, y: Peer, wire: set<Packet>, nextFresh: nat) {
    && 0 < x.id && 0 < y.id && x.id != y.id && 0 < nextFresh
    && x.sessions.Keys !! y.sessions.Keys
    && PeerOK(x, y, wire, nextFresh) && PeerOK(y, x, wire, nextFresh)
    && WireOK(x, y, wire)
  }

  lemma SafeBothWays(x: Peer, y: Peer, wire: set<Packet>, nextFresh: nat)
    requires Safe(x, y, wire, nextFresh)
    ensures Safe(y, x, wire, nextFresh)
  {
    hide SealedAt, SessionOK, NumbersOnce;
    forall p | p in wire
      ensures PacketOK(y, x, wire, p)
    {
      assert PacketOK(x, y, wire, p);
    }
  }

  // ----- one session changes -----

  /** The session before: one the peer has, or a new one under a fresh key. */
  ghost predicate Before(x: Peer, nextFresh: nat, k: nat, s: Session) {
    if k in x.sessions then s == x.sessions[k] else k >= nextFresh && s.sendSequence == 0 && s.key == k && s.local.key == k && s.local.peerID == x.id
  }

  /** Same sessions but for one, which has grown. */
  ghost predicate Becomes(x: Peer, k: nat, t: Session, z: Peer) {
    z.id == x.id && z.sessions == x.sessions[k := t]
  }

  lemma StillSealed(x: Peer, nextFresh: nat, k: nat, s: Session, t: Session, z: Peer, wire: set<Packet>, more: set<Packet>, p: Packet)
    requires Before(x, nextFresh, k, s) && Grows(s, t) && Becomes(x, k, t, z) && SealedAt(wire, x, p)
    ensures SealedAt(wire + more, z, p)
  {
    hide CiphersOf, Ready;
    var j :| j in x.sessions && SealedBy(wire, x.sessions[j], p);
    if j == k {
      SealedLater(wire, s, t, p);
    }
    assert SealedBy(wire + more, z.sessions[j], p) by {
      MoreWire(wire, more, z.sessions[j], p);
    }
  }

  lemma MoreWire(wire: set<Packet>, more: set<Packet>, s: Session, p: Packet)
    requires SealedBy(wire, s, p)
    ensures SealedBy(wire + more, s, p)
  {
    if p.body.Pong? {
      var ping :| ping in wire && IsPing(ping, CiphersOf(s).value.receive, p.body.echo);
      assert ping in wire + more;
    }
  }

  /** The sessions of the other end stay sound: what they rely on at this end only grows. */
  lemma OtherEndStays(x: Peer, nextFresh: nat, k: nat, s: Session, t: Session, z: Peer, wire: set<Packet>, more: set<Packet>,
                      y: Peer, next: nat, j: nat, u: Session)
    requires Before(x, nextFresh, k, s) && Grows(s, t) && Becomes(x, k, t, z) && nextFresh <= next
    requires SessionOK(y.id, x, wire, nextFresh, j, u)
    ensures SessionOK(y.id, z, wire + more, next, j, u)
  {
    hide Tracks, CiphersOf, Ready;
  }

  lemma SameEndStays(y: Peer, id: nat, nextFresh: nat, wire: set<Packet>, more: set<Packet>, next: nat, j: nat, u: Session)
    requires SessionOK(id, y, wire, nextFresh, j, u) && nextFresh <= next
    ensures SessionOK(id, y, wire + more, next, j, u)
  {
    hide Tracks, CiphersOf, Ready, Mirrored;
  }

  /** Fresh numbers: every old packet under this session's send key carries a number the session has used. */
  lemma OldNumbersAreUsed(x: Peer, y: Peer, wire: set<Packet>, nextFresh: nat, k: nat, s: Session, t: Session, p: Packet, q: Packet)
    requires Safe(x, y, wire, nextFresh) && Before(x, nextFresh, k, s) && k !in y.sessions && Grows(s, t)
    requires SealedBy(wire, t, p) && q in wire && q.Sealed? && q.key == p.key
    ensures NumberOf(q) <= s.sendSequence
  {
    hide Tracks, InboxOK, OnProvenRoute, NumbersOnce;
    assert PacketOK(x, y, wire, q);
    if SealedAt(wire, x, q) {
      var j :| j in x.sessions && SealedBy(wire, x.sessions[j], q);
      assert SessionOK(x.id, y, wire, nextFresh, j, x.sessions[j]);
      SameSealer(wire, t, x.sessions[j], p, q);
    } else {
      var j :| j in y.sessions && SealedBy(wire, y.sessions[j], q);
      assert SessionOK(y.id, x, wire, nextFresh, j, y.sessions[j]);
      SameSealer(wire, t, y.sessions[j], p, q);
      assert false;
    }
  }

  lemma SameSealer(wire: set<Packet>, t: Session, u: Session, p: Packet, q: Packet)
    requires SealedBy(wire, t, p) && SealedBy(wire, u, q) && p.key == q.key
    ensures u.local == t.local
  {
    SwappedIffMirrored(t.key, t.local, t.remote.value, u.key, u.local, u.remote.value);
  }

  /** If one session of a peer grows and stays sound, and its packets are its own, everything stays safe. */
  lemma Touched(x: Peer, y: Peer, wire: set<Packet>, nextFresh: nat, k: nat, s: Session, t: Session, z: Peer, packets: set<Packet>, next: nat)
    requires Safe(x, y, wire, nextFresh) && nextFresh <= next && (k in x.sessions || k < next)
    requires Before(x, nextFresh, k, s) && Becomes(x, k, t, z) && k !in y.sessions
    requires Emits(wire, s, t, packets)
    requires SessionOK(x.id, y, wire, next, k, t) && t.local.key == k
    ensures Safe(z, y, wire + packets, next)
  {
    hide SessionOK, SealedBy, NumbersOnce, SealedAt, Before, Theirs, SameNumber;
    forall j | j in z.sessions
      ensures SessionOK(z.id, y, wire + packets, next, j, z.sessions[j])
    {
      if j == k {
        SameEndStays(y, x.id, next, wire, packets, next, j, t);
      } else {
        SameEndStays(y, x.id, nextFresh, wire, packets, next, j, x.sessions[j]);
      }
    }
    forall j | j in y.sessions
      ensures SessionOK(y.id, z, wire + packets, next, j, y.sessions[j])
    {
      OtherEndStays(x, nextFresh, k, s, t, z, wire, packets, y, next, j, y.sessions[j]);
    }
    WireStaysOK(x, y, wire, nextFresh, k, s, t, z, packets);
  }

  lemma WireStaysOK(x: Peer, y: Peer, wire: set<Packet>, nextFresh: nat, k: nat, s: Session, t: Session, z: Peer, packets: set<Packet>)
    requires Safe(x, y, wire, nextFresh) && Before(x, nextFresh, k, s) && Becomes(x, k, t, z) && k !in y.sessions
    requires Emits(wire, s, t, packets) && t.local.key == k
    ensures WireOK(z, y, wire + packets)
  {
    hide PeerOK, SealedBy, Before, SameNumber;
    forall p | p in wire + packets
      ensures PacketOK(z, y, wire + packets, p)
    {
      if p in wire {
        OldPacketStays(x, y, wire, nextFresh, k, s, t, z, packets, p);
      } else if p != SessionHello(s.local) {
        MoreWire(wire, packets, t, p);
        assert SealedBy(wire + packets, z.sessions[k], p);
        SealedIsSealed(wire, t, p);
      }
    }
    forall p, q | p in wire + packets && q in wire + packets && SameNumber(p, q)
      ensures p == q
    {
      NumbersStayOnce(x, y, wire, nextFresh, k, s, t, packets, p, q);
    }
  }

  lemma SealedIsSealed(wire: set<Packet>, t: Session, p: Packet)
    requires SealedBy(wire, t, p)
    ensures p.Sealed?
  {
  }

  lemma OldPacketStays(x: Peer, y: Peer, wire: set<Packet>, nextFresh: nat, k: nat, s: Session, t: Session, z: Peer, packets: set<Packet>, p: Packet)
    requires Safe(x, y, wire, nextFresh) && Before(x, nextFresh, k, s) && Becomes(x, k, t, z) && Grows(s, t) && p in wire
    ensures PacketOK(z, y, wire + packets, p)
  {
    hide PeerOK, SealedBy, NumbersOnce;
    assert PacketOK(x, y, wire, p);
    if p.Sealed? {
      if SealedAt(wire, x, p) {
        StillSealed(x, nextFresh, k, s, t, z, wire, packets, p);
      } else {
        var j :| j in y.sessions && SealedBy(wire, y.sessions[j], p);
        MoreWire(wire, packets, y.sessions[j], p);
      }
    }
  }

  lemma NumbersStayOnce(x: Peer, y: Peer, wire: set<Packet>, nextFresh: nat, k: nat, s: Session, t: Session, packets: set<Packet>,
                        p: Packet, q: Packet)
    requires Safe(x, y, wire, nextFresh) && Before(x, nextFresh, k, s) && k !in y.sessions
    requires Emits(wire, s, t, packets)
    requires p in wire + packets && q in wire + packets && SameNumber(p, q)
    ensures p == q
  {
    hide PeerOK, SealedBy, Before, SealedAt;
    if p in wire && q in wire {
    } else if p in packets && q in packets {
    } else if p in wire {
      OldNumbersAreUsed(x, y, wire, nextFresh, k, s, t, q, p);
    } else {
      OldNumbersAreUsed(x, y, wire, nextFresh, k, s, t, p, q);
    }
  }
}
