/** That the handshake gets somewhere: a genuine answer authenticates its session and moves it to the better path, and two
    peers that start with nothing can end up with authenticated sessions that mirror each other. */
module HandshakeLiveness {
  import opened Options
  import opened Words
  import opened SequenceWindows
  import opened SessionKeys
  import opened Sessions
  import opened Handshakes
  import opened HandshakeSafety
  import opened HandshakeRuns

  // ----- what a genuine pong achieves -----

  /** The ping outstanding on a path has this number. */
  predicate Outstanding(ping: PendingPing, path: Path, n: uint64) {
    ping.sequence != 0 && ping.sequence == n && SameRoute(ping.path, path)
  }

  /** A pong that opens, for a session that the peer has for its path. */
  predicate Genuine(p: Peer, k: nat, packet: Packet, path: Path) {
    && packet.Sealed? && packet.body.Pong?
    && SessionFor(p, packet.sessionID, path) == Some(k)
    && Opens(p.sessions[k], packet)
  }

  /** A pong on the current route that echoes its outstanding ping leaves the session authenticated, active, and on the
      very path the pong came by. */
  lemma PongConfirms(p: Peer, k: nat, packet: Packet, path: Path, now: int, nextFresh: nat)
    requires Genuine(p, k, packet, path) && !OnCandidate(p.sessions[k], path)
    requires Outstanding(p.sessions[k].ping, path, packet.body.echo)
    ensures var q := Receive(p, packet, path, now, nextFresh).peer;
      && q.active == Some(k) && k in q.sessions
      && q.sessions[k].authenticated && q.sessions[k].everAuthenticated
      && q.sessions[k].path == path && q.sessions[k].lastHeard == now
  {
    hide Offer, CiphersOf;
  }

  /** The candidate is the better path: the current one is not confirmed or has been silent for two and a half seconds;
      or the candidate is direct and the current one is not; or both are alike and it is at least five milliseconds faster. */
  predicate Better(s: Session, path: Path, now: int)
    requires s.candidate.Some?
  {
    var rtt := RoundTrip(s.candidate.value.ping.sentAt, now);
    || !s.authenticated
    || now - s.lastHeard > 2_500_000_000
    || (path.Direct? && !s.path.Direct?)
    || (path.Direct? == s.path.Direct? && s.rtt - rtt >= 5)
  }

  /** A pong on the candidate's route that echoes the candidate's outstanding ping leaves the session authenticated and
      active, without a candidate, and on the candidate's path exactly if that is the better one. */
  lemma PongPromotes(p: Peer, k: nat, packet: Packet, path: Path, now: int, nextFresh: nat)
    requires Genuine(p, k, packet, path) && OnCandidate(p.sessions[k], path)
    requires Outstanding(p.sessions[k].candidate.value.ping, path, packet.body.echo)
    ensures var s, q := p.sessions[k], Receive(p, packet, path, now, nextFresh).peer;
      && q.active == Some(k) && k in q.sessions
      && q.sessions[k].authenticated && q.sessions[k].candidate == None
      && q.sessions[k].path == if Better(s, path, now) then path else s.path
  {
    hide Offer, CiphersOf;
  }

  /** A ping that opens is answered at once, under the next number, unless the numbers are used up. */
  lemma PingIsAnswered(p: Peer, k: nat, packet: Packet, path: Path, now: int, nextFresh: nat)
    requires packet.Sealed? && packet.body.Ping? && SessionFor(p, packet.sessionID, path) == Some(k) && Opens(p.sessions[k], packet)
    ensures var s, o := p.sessions[k], Receive(p, packet, path, now, nextFresh);
      && Ready(s)
      && (s.sendSequence < MAX_UINT64 ==>
            o.packets == {Sealed(CiphersOf(s).value.send, s.local.sessionID, s.sendSequence + 1, Pong(packet.sequence))})
  {
    hide Offer;
  }

  /** Data that opens on the current route of the active, authenticated session is taken. */
  lemma DataIsTaken(p: Peer, k: nat, packet: Packet, path: Path, now: int, nextFresh: nat)
    requires packet.Sealed? && packet.body.Data? && SessionFor(p, packet.sessionID, path) == Some(k) && Opens(p.sessions[k], packet)
    requires p.active == Some(k) && p.sessions[k].authenticated && SameRoute(p.sessions[k].path, path)
    ensures var q := Receive(p, packet, path, now, nextFresh).peer;
      k in q.sessions && q.sessions[k].inbox == p.sessions[k].inbox + [(packet.sequence, packet.body.content)]
  {
    hide Offer, CiphersOf;
  }

  /** The current path is pinged when no ping is outstanding, or the last one is a second old; the ping is then the
      outstanding one, under a number not used before. */
  lemma PingsEverySecond(s: Session, now: int)
    requires Ready(s) && s.candidate == None && s.sendSequence < MAX_UINT64
    ensures var (t, packets) := Pings(s, now);
      if s.ping.sequence != 0 && now - s.ping.sentAt < 1_000_000_000 then t == s && packets == {}
      else
        && Outstanding(t.ping, s.path, s.sendSequence + 1) && t.ping.sentAt == now && t.sendSequence == s.sendSequence + 1
        && packets == {Sealed(CiphersOf(s).value.send, s.local.sessionID, s.sendSequence + 1, Ping)}
  {
    RoutesAreClasses(s.path, s.path, s.path);
  }

  /** A probe by another route makes that path the candidate of the session in use, and it is pinged at once. */
  lemma ProbeTriesPath(p: Peer, k: nat, from: nat, path: Path, now: int, nextFresh: nat)
    requires from != p.id && p.active == Some(k) && p.pending == None && k in p.sessions && Ready(p.sessions[k])
    requires var s := p.sessions[k]; s.candidate == None && !SameRoute(s.path, path) && s.sendSequence < MAX_UINT64 - 1
    ensures var o := Receive(p, HelloProbe(from), path, now, nextFresh);
      && k in o.peer.sessions
      && var t := o.peer.sessions[k];
         && t.candidate.Some? && t.candidate.value.path == path && t.path == p.sessions[k].path
         && Outstanding(t.candidate.value.ping, path, t.sendSequence)
         && Sealed(CiphersOf(p.sessions[k]).value.send, t.local.sessionID, t.sendSequence, Ping) in o.packets
  {
    hide CiphersOf, Offer, SameRoute;
    RoutesAreClasses(path, path, path);
    var s := p.sessions[k].(candidate := Some(Probe(path, now, NO_PING)));
    assert RememberCandidate(p.sessions[k], path, now) == s;
    assert CiphersOf(s) == CiphersOf(p.sessions[k]) by {
      SameCiphers(p.sessions[k], s);
    }
    CandidateIsPinged(s, now);
  }

  lemma SameCiphers(s: Session, t: Session)
    requires t.key == s.key && t.local == s.local && t.remote == s.remote
    ensures CiphersOf(t) == CiphersOf(s)
  {
  }

  lemma CandidateIsPinged(s: Session, now: int)
    requires Ready(s) && s.candidate.Some? && s.candidate.value.ping == NO_PING && s.sendSequence < MAX_UINT64 - 1
    ensures var (t, packets) := Pings(s, now);
      && t.candidate == Some(s.candidate.value.(ping := PendingPing(t.sendSequence, s.candidate.value.path, now)))
      && t.sendSequence > 0 && t.path == s.path && t.local == s.local
      && Sealed(CiphersOf(s).value.send, s.local.sessionID, t.sendSequence, Ping) in packets
  {
    hide DeriveSession;
  }

  // ----- a run from nothing -----

  datatype Story = Story(steps: seq<Step>, worlds: seq<World>)

  ghost predicate Told(s: Story) {
    s.worlds != [] && Run(s.steps, s.worlds)
  }

  ghost function Now(s: Story): World
    requires s.worlds != []
  {
    s.worlds[|s.worlds| - 1]
  }

  lemma Extended(s: Story, who: bool, a: Action) returns (r: Story)
    requires Told(s) && Possible(Now(s), Step(who, a))
    ensures Told(r) && r.worlds[0] == s.worlds[0]
    ensures var o := Act(End(Now(s), who), a, Now(s).nextFresh);
      && End(Now(r), who) == o.peer && End(Now(r), !who) == End(Now(s), !who)
      && Now(r).wire == Now(s).wire + o.packets && Now(r).nextFresh == o.nextFresh
  {
    hide Act;
    r := Story(s.steps + [Step(who, a)], s.worlds + [Next(Now(s), Step(who, a))]);
  }

  /** The one session of a peer, half way: it knows both hellos, has pinged, and waits for the answer. */
  predicate Half(x: Peer, k: nat, local: Hello, remote: Hello, path: Path, sent: nat, highest: nat) {
    && x.active == None && x.pending == Some(k) && k in x.sessions
    && var s := x.sessions[k];
       && s.key == local.key && s.local == local && s.remote == Some(remote)
       && s.path == path && s.candidate == None && !s.everAuthenticated
       && s.sendSequence == sent && s.window.highest == highest
       && s.ping.sequence == 1 && s.ping.path == path
  }

  /** What the peer with these hellos seals. */
  function SealedWith(local: Hello, remote: Hello, n: uint64, body: Body): Packet
    requires DeriveSession(local.key, local, remote).Some?
  {
    Sealed(DeriveSession(local.key, local, remote).value.send, local.sessionID, n, body)
  }

  lemma PairsMirror(local: Hello, remote: Hello)
    requires ValidPair(local, remote)
    ensures DeriveSession(local.key, local, remote).Some? && DeriveSession(remote.key, remote, local).Some?
    ensures DeriveSession(local.key, local, remote).value.receive == DeriveSession(remote.key, remote, local).value.send
  {
  }

  /** Half way, the other end's ping is answered. */
  lemma HalfAnswers(s: Story, who: bool, k: nat, local: Hello, remote: Hello, path: Path, now: int) returns (r: Story)
    requires Told(s) && ValidPair(local, remote) && DeriveSession(remote.key, remote, local).Some?
    requires Half(End(Now(s), who), k, local, remote, path, 1, 0)
    requires SealedWith(remote, local, 1, Ping) in Now(s).wire
    ensures Told(r) && Half(End(Now(r), who), k, local, remote, path, 2, 1) && End(Now(r), !who) == End(Now(s), !who)
    ensures DeriveSession(local.key, local, remote).Some? && SealedWith(local, remote, 2, Pong(1)) in Now(r).wire
    ensures Now(s).wire <= Now(r).wire && r.worlds[0] == s.worlds[0]
  {
    PairsMirror(local, remote);
    hide DeriveSession, ShiftLeft, SetBit, Bit;
    var packet := SealedWith(remote, local, 1, Ping);
    r := Extended(s, who, Gets(packet, path, now));
  }

  /** Half way, the answer to one's own ping authenticates the session and makes it the active one. */
  lemma HalfConfirmed(s: Story, who: bool, k: nat, local: Hello, remote: Hello, path: Path, now: int) returns (r: Story)
    requires Told(s) && ValidPair(local, remote) && DeriveSession(remote.key, remote, local).Some?
    requires Half(End(Now(s), who), k, local, remote, path, 2, 1)
    requires SealedWith(remote, local, 2, Pong(1)) in Now(s).wire
    ensures Told(r) && Settled(End(Now(r), who), k, local, remote, path) && End(Now(r), !who) == End(Now(s), !who)
    ensures Now(s).wire <= Now(r).wire && r.worlds[0] == s.worlds[0]
  {
    PairsMirror(local, remote);
    hide DeriveSession, ShiftLeft, SetBit, Bit;
    var packet := SealedWith(remote, local, 2, Pong(1));
    r := Extended(s, who, Gets(packet, path, now));
  }

  /** The active session of a peer, authenticated between these hellos. */
  predicate Settled(x: Peer, k: nat, local: Hello, remote: Hello, path: Path) {
    && x.active == Some(k) && x.pending == None && k in x.sessions
    && var s := x.sessions[k];
       && s.authenticated && s.everAuthenticated && s.key == local.key && s.local == local && s.remote == Some(remote) && s.path == path
  }

  /** The smaller peer hears a probe and starts a session. */
  lemma SmallerStarts(w: World, who: bool, path: Path, now: int) returns (s: Story)
    requires Start(w) && End(w, who).id < End(w, !who).id
    ensures Told(s) && s.worlds[0] == w
    ensures var k, hello := w.nextFresh, Hello(w.nextFresh + 1, End(w, who).id, w.nextFresh);
      && End(Now(s), who) == Peer(End(w, who).id, map[k := NewSession(k, hello, path, now)], None, Some(k))
      && End(Now(s), !who) == End(w, !who)
      && SessionHello(hello) in Now(s).wire && Now(s).nextFresh == w.nextFresh + 2
  {
    s := Story([], [w]);
    assert Run(s.steps, s.worlds);
    s := Extended(s, !who, Probes);
    s := Extended(s, who, Gets(HelloProbe(End(w, !who).id), path, now));
  }

  /** The larger peer answers the hello, with a hello and a ping. */
  lemma LargerAnswers(s: Story, who: bool, k: nat, hello: Hello, path: Path, now: int) returns (r: Story)
    requires Told(s) && SessionHello(hello) in Now(s).wire
    requires var y := End(Now(s), who);
      y == Peer(y.id, map[], None, None) && ValidPair(hello, Hello(hello.sessionID, y.id, k)) && hello.peerID < y.id && Now(s).nextFresh == k
    ensures Told(r) && r.worlds[0] == s.worlds[0] && End(Now(r), !who) == End(Now(s), !who) && Now(s).wire <= Now(r).wire
    ensures var answer := Hello(hello.sessionID, End(Now(s), who).id, k);
      && Half(End(Now(r), who), k, answer, hello, path, 1, 0)
      && DeriveSession(k, answer, hello).Some?
      && SessionHello(answer) in Now(r).wire && SealedWith(answer, hello, 1, Ping) in Now(r).wire
  {
    PairsMirror(hello, Hello(hello.sessionID, End(Now(s), who).id, k));
    hide DeriveSession, Offer;
    r := Extended(s, who, Gets(SessionHello(hello), path, now));
  }

  /** The smaller peer has both hellos, and pings. */
  lemma SmallerPings(s: Story, who: bool, k: nat, hello: Hello, answer: Hello, path: Path, start: int, now: int) returns (r: Story)
    requires Told(s) && SessionHello(answer) in Now(s).wire && ValidPair(hello, answer) && hello.key == k
    requires var x := End(Now(s), who);
      x == Peer(hello.peerID, map[k := NewSession(k, hello, path, start)], None, Some(k))
    ensures Told(r) && r.worlds[0] == s.worlds[0] && End(Now(r), !who) == End(Now(s), !who) && Now(s).wire <= Now(r).wire
    ensures Half(End(Now(r), who), k, hello, answer, path, 1, 0)
    ensures DeriveSession(k, hello, answer).Some? && SealedWith(hello, answer, 1, Ping) in Now(r).wire
  {
    PairsMirror(hello, answer);
    hide DeriveSession, Offer;
    r := Extended(s, who, Gets(SessionHello(answer), path, now));
  }

  /** From any start there is a run at whose end both peers have an active session, both authenticated, each the mirror
      image of the other, on whatever paths their packets came by. */
  lemma PeersCanMeet(w: World, here: Path, there: Path, now: int) returns (s: Story)
    requires Start(w)
    ensures Run(s.steps, s.worlds) && s.worlds[0] == w && s.worlds != []
    ensures var x, y := Now(s).a, Now(s).b;
      && Holds(x, x.active) && Holds(y, y.active)
      && var t, u := x.sessions[x.active.value], y.sessions[y.active.value];
         && t.authenticated && u.authenticated
         && t.remote == Some(u.local) && u.remote == Some(t.local)
         && t.path == here && u.path == there
  {
    hide Half, Run, DeriveSession, Start;
    var who := w.a.id < w.b.id;
    StartFacts(w);
    var p, q := if who then here else there, if who then there else here;
    var k := w.nextFresh;
    var hello := Hello(k + 1, End(w, who).id, k);
    var answer := Hello(k + 1, End(w, !who).id, k + 2);
    s := SmallerStarts(w, who, p, now);
    s := LargerAnswers(s, !who, k + 2, hello, q, now);
    s := SmallerPings(s, who, k, hello, answer, p, now, now);
    PairsMirror(hello, answer);
    s := HalfAnswers(s, who, k, hello, answer, p, now);
    s := HalfAnswers(s, !who, k + 2, answer, hello, q, now);
    s := HalfConfirmed(s, who, k, hello, answer, p, now);
    s := HalfConfirmed(s, !who, k + 2, answer, hello, q, now);
  }

  lemma StartFacts(w: World)
    requires Start(w)
    ensures 0 < w.a.id && 0 < w.b.id && w.a.id != w.b.id && 0 < w.nextFresh
    ensures w.a == Peer(w.a.id, map[], None, None) && w.b == Peer(w.b.id, map[], None, None)
  {
  }
}
