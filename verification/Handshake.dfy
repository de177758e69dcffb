/** Two peers setting up sessions over a network that loses, repeats, reorders and redirects their packets but
    cannot forge them: the hellos carry the room's MAC and the rest is sealed under session keys. */
module Handshakes {
  import opened Options
  import opened Words
  import opened SequenceWindows
  import opened SessionKeys
  import opened Sessions

  /** A peer keeps every session it ever had under its private key; two of them may be in use. */
  datatype Peer = Peer(id: nat, sessions: map<nat, Session>, active: Option<nat>, pending: Option<nat>)

  /** `nextFresh` stands for the random numbers: no number is drawn twice. */
  datatype World = World(a: Peer, b: Peer, nextFresh: nat, wire: set<Packet>)

  /** What a handler leaves: the peer, the packets it sent, the random numbers left. */
  datatype Outcome = Outcome(peer: Peer, packets: set<Packet>, nextFresh: nat)

  function Put(p: Peer, k: nat, s: Session): Peer {
    p.(sessions := p.sessions[k := s])
  }

  predicate Holds(p: Peer, k: Option<nat>) {
    k.Some? && k.value in p.sessions
  }

  // ----- handlers -----

  /** Announce a session on a path, having registered the path first. */
  function Advertise(s: Session, path: Path, now: int): (Session, set<Packet>) {
    (RememberCandidate(s, path, now), {SessionHello(s.local)})
  }

  /** Announce a session on a path and ping it. */
  function AdvertiseAndPing(s: Session, path: Path, now: int): (Session, set<Packet>) {
    var (t, hello) := Advertise(s, path, now);
    var (u, pings) := Pings(t, now);
    (u, hello + pings)
  }

  function StartInitiating(p: Peer, path: Path, now: int, nextFresh: nat): Outcome {
    var k, sessionID := nextFresh, nextFresh + 1;
    var s := NewSession(k, Hello(sessionID, p.id, k), path, now);
    Outcome(Put(p, k, s).(pending := Some(k)), {SessionHello(s.local)}, nextFresh + 2)
  }

  function HandleProbe(p: Peer, from: nat, path: Path, now: int, nextFresh: nat): Outcome {
    var current := if Holds(p, p.pending) then p.pending else p.active;
    if Holds(p, current) then
      var (s, packets) := AdvertiseAndPing(p.sessions[current.value], path, now);
      Outcome(Put(p, current.value, s), packets, nextFresh)
    else if p.id < from then StartInitiating(p, path, now, nextFresh)
    else Outcome(p, {HelloProbe(p.id)}, nextFresh)
  }

  /** The hello belongs to this session: it is the one the session has, or the one it still lacks. */
  function Resumed(s: Session, hello: Hello): Option<Session> {
    if !Ready(s) && s.local.sessionID == hello.sessionID then Complete(s, hello)
    else if s.remote == Some(hello) then Some(s)
    else None
  }

  function Resume(p: Peer, k: nat, s: Session, path: Path, now: int, nextFresh: nat): Outcome {
    var (t, packets) := Pings(RememberCandidate(s, path, now), now);
    Outcome(Put(p, k, t), packets, nextFresh)
  }

  function Respond(p: Peer, hello: Hello, path: Path, now: int, nextFresh: nat): Outcome {
    var k := nextFresh;
    var s := Complete(NewSession(k, Hello(hello.sessionID, p.id, k), path, now), hello);
    if s.None? then Outcome(p, {}, nextFresh)
    else
      var (t, packets) := AdvertiseAndPing(s.value, path, now);
      Outcome(Put(p, k, t).(pending := Some(k)), packets, nextFresh + 1)
  }

  /** A late hello must not replace a newer transcript. */
  function Unexpected(p: Peer, hello: Hello, path: Path, now: int, nextFresh: nat): Outcome {
    var current := if Holds(p, p.pending) then p.pending else p.active;
    if Holds(p, current) && p.sessions[current.value].local.sessionID != hello.sessionID then
      var (s, packets) := Advertise(p.sessions[current.value], path, now);
      Outcome(Put(p, current.value, s), packets, nextFresh)
    else StartInitiating(p, path, now, nextFresh)
  }

  function HandleHello(p: Peer, hello: Hello, path: Path, now: int, nextFresh: nat): Outcome {
    if Holds(p, p.active) && Resumed(p.sessions[p.active.value], hello).Some? then
      Resume(p, p.active.value, Resumed(p.sessions[p.active.value], hello).value, path, now, nextFresh)
    else if Holds(p, p.pending) && Resumed(p.sessions[p.pending.value], hello).Some? then
      Resume(p, p.pending.value, Resumed(p.sessions[p.pending.value], hello).value, path, now, nextFresh)
    else if p.id < hello.peerID then Unexpected(p, hello, path, now, nextFresh)
    else Respond(p, hello, path, now, nextFresh)
  }

  /** The session a sealed packet is for. */
  predicate Matches(p: Peer, k: Option<nat>, sessionID: nat, path: Path) {
    Holds(p, k) && Ready(p.sessions[k.value]) && p.sessions[k.value].local.sessionID == sessionID && AcceptsPath(p.sessions[k.value], path)
  }

  function SessionFor(p: Peer, sessionID: nat, path: Path): Option<nat> {
    if Matches(p, p.active, sessionID, path) then p.active
    else if Matches(p, p.pending, sessionID, path) then p.pending
    else None
  }

  /** The packet is new and opens under the session's receive key. */
  predicate Opens(s: Session, packet: Packet)
    requires packet.Sealed?
  {
    Ready(s) && Takes(s.window, packet.sequence) && packet.key == CiphersOf(s).value.receive
  }

  /** A session in use takes over from the one before it when a pong confirms it. */
  function Promote(p: Peer, k: nat): Peer
    requires k in p.sessions
  {
    if p.pending != Some(k) || p.active == Some(k) then p
    else
      var q := if Holds(p, p.active) then Put(p, p.active.value, p.sessions[p.active.value].(authenticated := false)) else p;
      q.(active := Some(k), pending := None)
  }

  function HandlePing(p: Peer, k: nat, n: uint64, path: Path, now: int, nextFresh: nat): Outcome
    requires k in p.sessions && Ready(p.sessions[k])
  {
    var (t, packets) := Seal(TakePing(Take(p.sessions[k], n), path, now), Pong(n));
    Outcome(Put(p, k, t), packets, nextFresh)
  }

  function HandlePong(p: Peer, k: nat, n: uint64, echo: uint64, path: Path, now: int, nextFresh: nat): Outcome
    requires k in p.sessions
  {
    var s := Take(p.sessions[k], n);
    if !Answers(s, path, echo) then Outcome(Put(p, k, s), {}, nextFresh)
    else Outcome(Promote(Put(p, k, TakePong(s, path, now)), k), {}, nextFresh)
  }

  function HandleData(p: Peer, k: nat, n: uint64, content: nat, path: Path, now: int, nextFresh: nat): Outcome
    requires k in p.sessions
  {
    var s := p.sessions[k];
    if p.active != Some(k) || !s.authenticated || !SameRoute(s.path, path) then Outcome(p, {}, nextFresh)
    else Outcome(Put(p, k, Take(s, n).(lastHeard := now, inbox := s.inbox + [(n, content)])), {}, nextFresh)
  }

  function HandleLeave(p: Peer, k: nat, n: uint64, path: Path, nextFresh: nat): Outcome
    requires k in p.sessions
  {
    var s := p.sessions[k];
    if p.active != Some(k) || !s.everAuthenticated || !SameRoute(s.path, path) then Outcome(p, {}, nextFresh)
    else Outcome(Put(p, k, Take(s, n)).(active := None, pending := None), {}, nextFresh)
  }

  function HandleSealed(p: Peer, packet: Packet, path: Path, now: int, nextFresh: nat): Outcome
    requires packet.Sealed?
  {
    var k := SessionFor(p, packet.sessionID, path);
    if k.None? || !Opens(p.sessions[k.value], packet) then Outcome(p, {}, nextFresh)
    else match packet.body
      case Ping => HandlePing(p, k.value, packet.sequence, path, now, nextFresh)
      case Pong(echo) => HandlePong(p, k.value, packet.sequence, echo, path, now, nextFresh)
      case Data(content) => HandleData(p, k.value, packet.sequence, content, path, now, nextFresh)
      case Leave => HandleLeave(p, k.value, packet.sequence, path, nextFresh)
  }

  function Receive(p: Peer, packet: Packet, path: Path, now: int, nextFresh: nat): Outcome {
    match packet
    case HelloProbe(from) => if from == p.id then Outcome(p, {}, nextFresh) else HandleProbe(p, from, path, now, nextFresh)
    case SessionHello(hello) => if hello.peerID == p.id then Outcome(p, {}, nextFresh) else HandleHello(p, hello, path, now, nextFresh)
    case Sealed(_, _, _, _) => HandleSealed(p, packet, path, now, nextFresh)
  }

  /** Sending data on an exhausted sequence ends the authentication. */
  function SealOrStop(s: Session, body: Body): (Session, set<Packet>)
    requires Ready(s)
  {
    if s.sendSequence == MAX_UINT64 && body.Data? then (s.(authenticated := false), {}) else Seal(s, body)
  }

  // ----- steps -----

  /** `which` picks the pending session or the active one. */
  datatype Action =
    | Gets(packet: Packet, path: Path, now: int)
    | Probes
    | Announces(which: bool, path: Path, now: int)
    | PingsPeer(which: bool, now: int)
    | Sends(body: Body)
    | Fails
    | Drops(which: bool)
    | ForgetsCandidate

  function Chosen(p: Peer, which: bool): Option<nat> {
    if which then p.pending else p.active
  }

  /** One peer acts; time-outs may strike at any moment. */
  function Act(p: Peer, a: Action, nextFresh: nat): Outcome {
    var none := Outcome(p, {}, nextFresh);
    match a
    case Gets(packet, path, now) => Receive(p, packet, path, now, nextFresh)
    case Probes => Outcome(p, {HelloProbe(p.id)}, nextFresh)
    case Announces(which, path, now) =>
      if !Holds(p, Chosen(p, which)) then none
      else
        var k := Chosen(p, which).value;
        var (s, packets) := Advertise(p.sessions[k], path, now);
        Outcome(Put(p, k, s), packets, nextFresh)
    case PingsPeer(which, now) =>
      if !Holds(p, Chosen(p, which)) then none
      else
        var k := Chosen(p, which).value;
        var (s, packets) := Pings(p.sessions[k], now);
        Outcome(Put(p, k, s), packets, nextFresh)
    case Sends(body) =>
      if body.Ping? || body.Pong? || !Holds(p, p.active) || !Ready(p.sessions[p.active.value]) then none
      else if !p.sessions[p.active.value].authenticated then none
      else
        var (s, packets) := SealOrStop(p.sessions[p.active.value], body);
        Outcome(Put(p, p.active.value, s), packets, nextFresh)
    case Fails =>
      if !Holds(p, p.active) then none
      else
        var s := p.sessions[p.active.value];
        Outcome(Put(p, p.active.value, s.(authenticated := false, ping := NO_PING, candidate := None)), {}, nextFresh)
    case Drops(which) => if which then none.(peer := p.(pending := None)) else none.(peer := p.(active := None))
    case ForgetsCandidate =>
      if !Holds(p, p.active) then none
      else Outcome(Put(p, p.active.value, p.sessions[p.active.value].(candidate := None)), {}, nextFresh)
  }

  datatype Step = Step(byA: bool, action: Action)

  /** A packet is handed over only if it was sent. */
  predicate Possible(w: World, step: Step) {
    step.action.Gets? ==> step.action.packet in w.wire
  }

  function Next(w: World, step: Step): World {
    if step.byA then
      var o := Act(w.a, step.action, w.nextFresh);
      World(o.peer, w.b, o.nextFresh, w.wire + o.packets)
    else
      var o := Act(w.b, step.action, w.nextFresh);
      World(w.a, o.peer, o.nextFresh, w.wire + o.packets)
  }

  /** Two different peers with no sessions; the first random number is not zero. */
  predicate Start(w: World) {
    && 0 < w.a.id && 0 < w.b.id && w.a.id != w.b.id && 0 < w.nextFresh && w.wire == {}
    && w.a == Peer(w.a.id, map[], None, None) && w.b == Peer(w.b.id, map[], None, None)
  }
}
