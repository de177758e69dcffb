/** One session: its hellos, its paths, and the pings that prove them. */
module Sessions {
  import opened Options
  import opened Words
  import opened SequenceWindows
  import opened SessionKeys

  const PING_INTERVAL: int := 1_000_000_000
  const PATH_FAILOVER: int := 2_500_000_000
  const LIKE_FOR_LIKE_MARGIN: int := 5

  /** A network path: straight to an address, or through an intermediary at an address. */
  datatype Path = Direct(address: nat) | Bridge(address: nat, intermediary: nat, target: nat)

  predicate SameRoute(p: Path, q: Path) {
    match p
    case Direct(address) => q == p
    case Bridge(_, intermediary, target) => q.Bridge? && q.intermediary == intermediary && q.target == target
  }

  datatype PendingPing = PendingPing(sequence: uint64, path: Path, sentAt: int)

  const NO_PING := PendingPing(0, Direct(0), 0)

  datatype Probe = Probe(path: Path, startedAt: int, ping: PendingPing)

  datatype Body = Ping | Pong(echo: uint64) | Data(content: nat) | Leave

  datatype Packet =
    | HelloProbe(peerID: nat)
    | SessionHello(hello: Hello)
    | Sealed(key: Key, sessionID: nat, sequence: uint64, body: Body)

  /** The last three fields are a record of the past that no code reads: the sequence numbers taken, the
      contents of the data packets taken, and the paths on which a pong was taken. */
  datatype Session = Session(
    key: nat,
    local: Hello,
    remote: Option<Hello>,
    path: Path,
    candidate: Option<Probe>,
    authenticated: bool,
    everAuthenticated: bool,
    sendSequence: uint64,
    window: Window,
    ping: PendingPing,
    rtt: int,
    lastHeard: int,
    taken: set<uint64>,
    inbox: seq<(uint64, nat)>,
    proven: set<Path>)

  function NewSession(key: nat, local: Hello, path: Path, now: int): Session {
    Session(key, local, None, path, None, false, false, 0, EMPTY_WINDOW, NO_PING, 0, now, {}, [], {})
  }

  function CiphersOf(s: Session): Option<Ciphers> {
    if s.remote.None? then None else DeriveSession(s.key, s.local, s.remote.value)
  }

  predicate Ready(s: Session) {
    CiphersOf(s).Some?
  }

  /** Completing the hello fixes the transcript; hellos that do not fit leave the session as it is. */
  function Complete(s: Session, hello: Hello): Option<Session> {
    if DeriveSession(s.key, s.local, hello).None? then None else Some(s.(remote := Some(hello)))
  }

  predicate OnCandidate(s: Session, path: Path) {
    s.candidate.Some? && SameRoute(s.candidate.value.path, path)
  }

  predicate AcceptsPath(s: Session, path: Path) {
    SameRoute(s.path, path) || OnCandidate(s, path)
  }

  /** A path other than the current one becomes the candidate, but a bridge never displaces a direct candidate. */
  function RememberCandidate(s: Session, path: Path, now: int): Session {
    if SameRoute(s.path, path) then s
    else if OnCandidate(s, path) then s.(candidate := Some(s.candidate.value.(path := path)))
    else if s.candidate.Some? && s.candidate.value.path.Direct? && !path.Direct? then s
    else s.(candidate := Some(Probe(path, now, NO_PING)))
  }

  // ----- sending -----

  /** Seal a packet under the next sequence number; an exhausted sequence ends the authentication. */
  function Seal(s: Session, body: Body): (Session, set<Packet>)
    requires Ready(s)
  {
    if s.sendSequence == MAX_UINT64 then (s, {})
    else
      var n := s.sendSequence + 1;
      (s.(sendSequence := n), {Sealed(CiphersOf(s).value.send, s.local.sessionID, n, body)})
  }

  predicate Due(ping: PendingPing, now: int) {
    ping.sequence == 0 || now - ping.sentAt >= PING_INTERVAL
  }

  function PingCurrent(s: Session, now: int): (Session, set<Packet>)
    requires Ready(s)
  {
    if !Due(s.ping, now) then (s, {})
    else if s.sendSequence == MAX_UINT64 then (s.(authenticated := false), {})
    else
      var (t, packets) := Seal(s, Ping);
      (t.(ping := PendingPing(t.sendSequence, s.path, now)), packets)
  }

  function PingCandidate(s: Session, now: int): (Session, set<Packet>)
    requires Ready(s) && s.candidate.Some?
  {
    var probe := s.candidate.value;
    if !Due(probe.ping, now) then (s, {})
    else if s.sendSequence == MAX_UINT64 then (s.(authenticated := false), {})
    else
      var (t, packets) := Seal(s, Ping);
      (t.(candidate := Some(probe.(ping := PendingPing(t.sendSequence, probe.path, now)))), packets)
  }

  /** Ping the current path and the candidate. */
  function Pings(s: Session, now: int): (Session, set<Packet>) {
    if !Ready(s) then (s, {})
    else
      var (t, packets) := PingCurrent(s, now);
      if t.candidate.None? then (t, packets)
      else
        var (u, more) := PingCandidate(t, now);
        (u, packets + more)
  }

  // ----- receiving -----

  function ShouldPromote(s: Session, now: int, path: Path, rtt: int): bool {
    if !s.authenticated || s.lastHeard < now - PATH_FAILOVER then true
    else if s.path.Direct? && !path.Direct? then false
    else if !s.path.Direct? && path.Direct? then true
    else rtt + LIKE_FOR_LIKE_MARGIN <= s.rtt
  }

  function RoundTrip(sentAt: int, now: int): int {
    var millis := (now - sentAt) / 1_000_000;
    if millis < 1 then 1 else millis
  }

  /** Take the sequence number of a packet that opened under the receive key. */
  function Take(s: Session, n: uint64): Session {
    s.(window := Offer(s.window, n).0, taken := s.taken + {n})
  }

  function PendingOn(s: Session, path: Path): PendingPing {
    if OnCandidate(s, path) then s.candidate.value.ping else s.ping
  }

  /** A pong answers the outstanding ping of its path. */
  predicate Answers(s: Session, path: Path, echo: uint64) {
    var pending := PendingOn(s, path);
    pending.sequence != 0 && echo == pending.sequence && SameRoute(pending.path, path)
  }

  /** A pong on the current path confirms it. */
  function Confirmed(s: Session, path: Path, now: int): Session {
    var rtt := RoundTrip(s.ping.sentAt, now);
    s.(ping := NO_PING, path := if SameRoute(s.path, path) then path else s.path, lastHeard := now,
       authenticated := true, everAuthenticated := true, rtt := rtt, proven := s.proven + {path})
  }

  /** A pong on the candidate ends the probe, and makes the candidate current if it is the better path. */
  function Probed(s: Session, path: Path, now: int): Session
    requires s.candidate.Some?
  {
    var rtt := RoundTrip(s.candidate.value.ping.sentAt, now);
    var t := s.(candidate := None, proven := s.proven + {path});
    if ShouldPromote(s, now, path, rtt) then
      t.(path := path, lastHeard := now, rtt := rtt, authenticated := true, everAuthenticated := true, ping := NO_PING)
    else t
  }

  function TakePong(s: Session, path: Path, now: int): Session {
    if OnCandidate(s, path) then Probed(s, path, now) else Confirmed(s, path, now)
  }

  function TakePing(s: Session, path: Path, now: int): Session {
    if s.everAuthenticated && !OnCandidate(s, path) then
      s.(path := if SameRoute(s.path, path) then path else s.path, lastHeard := now)
    else s
  }

  // ----- choosing paths -----

  /** Routes are classes: a path has the route of any path it shares a route with. */
  lemma RoutesAreClasses(p: Path, q: Path, r: Path)
    ensures SameRoute(p, p)
    ensures SameRoute(p, q) ==> SameRoute(q, p)
    ensures SameRoute(p, q) && SameRoute(q, r) ==> SameRoute(p, r)
  {
  }
}
