/** What the peers of a room claim about whom they reach, and when a plan built on it must be rebuilt. */
module Topologies {
  import opened Sets
  import opened SortedIds
  import opened FanoutPlans

  const CLAIM_TTL: int := 30_000_000_000
  const PEER_TTL: int := 2 * CLAIM_TTL

  datatype Known = Known(lastSeen: int, neighbors: map<PeerId, int>)

  /** The claims that have not expired. */
  function Active(claims: map<PeerId, int>, now: int): map<PeerId, int> {
    map p | p in claims && claims[p] > now :: claims[p]
  }

  /** The claims a snapshot makes: everyone listed but the zero peer, the sender and ourselves. */
  function NewClaims(local: PeerId, sender: PeerId, entries: seq<PeerId>, now: int): map<PeerId, int> {
    map p | p in entries && p != 0 && p != local && p != sender :: now + CLAIM_TTL
  }

  /** The peers a snapshot makes known. */
  function Mentioned(local: PeerId, sender: PeerId, entries: seq<PeerId>): set<PeerId> {
    Elements(entries) + {sender} - {0, local}
  }

  function NeighborsAfter(local: PeerId, before: map<PeerId, Known>, sender: PeerId, entries: seq<PeerId>, now: int, p: PeerId): map<PeerId, int> {
    if p == sender then NewClaims(local, sender, entries, now) else if p in before then before[p].neighbors else map[]
  }

  lemma NoEntries(local: PeerId, sender: PeerId, now: int)
    ensures NewClaims(local, sender, [], now) == map[]
    ensures Mentioned(local, sender, []) == {sender} - {0, local}
  {
  }

  lemma EntriesMore(local: PeerId, sender: PeerId, entries: seq<PeerId>, i: nat, now: int)
    requires i < |entries|
    ensures var p, claims := entries[i], NewClaims(local, sender, entries[..i], now);
      NewClaims(local, sender, entries[..i + 1], now) == if p != 0 && p != local && p != sender then claims[p := now + CLAIM_TTL] else claims
    ensures Mentioned(local, sender, entries[..i + 1]) == Mentioned(local, sender, entries[..i]) + ({entries[i]} - {0, local})
  {
    assert entries[..i + 1] == entries[..i] + [entries[i]];
    ElementsMore(entries[..i], entries[i]);
  }

  lemma SenderIsMentioned(local: PeerId, sender: PeerId, entries: seq<PeerId>)
    ensures sender in Mentioned(local, sender, entries) <==> sender != 0 && sender != local
    ensures 0 !in Mentioned(local, sender, entries) && local !in Mentioned(local, sender, entries)
  {
  }

  lemma ActiveNone(now: int)
    ensures Active(map[], now) == map[]
  {
  }

  lemma SoundKeys(local: PeerId, peers: map<PeerId, Known>)
    requires Sound(local, peers)
    ensures 0 !in peers && local !in peers
  {
  }

  lemma RecordedIsSound(local: PeerId, before: map<PeerId, Known>, after: map<PeerId, Known>, sender: PeerId, entries: seq<PeerId>, now: int)
    requires Sound(local, before)
    requires after.Keys == before.Keys + Mentioned(local, sender, entries)
    requires forall p :: p in after ==> after[p].neighbors == NeighborsAfter(local, before, sender, entries, now, p)
    ensures Sound(local, after)
  {
    SenderIsMentioned(local, sender, entries);
  }

  function NetOf(peers: map<PeerId, Known>, listeners: set<PeerId>, direct: set<PeerId>, now: int): Net {
    Net(listeners, direct, map p | p in peers :: peers[p].neighbors, now)
  }

  /** No claim about oneself, about us or about the zero peer, and every claimed peer is known. */
  ghost predicate Sound(local: PeerId, peers: map<PeerId, Known>) {
    && 0 !in peers && local !in peers
    && forall p :: p in peers ==> p !in peers[p].neighbors && peers[p].neighbors.Keys <= peers.Keys
  }

  lemma SoundHasNoSelfClaims(local: PeerId, peers: map<PeerId, Known>, listeners: set<PeerId>, direct: set<PeerId>, now: int)
    requires Sound(local, peers)
    ensures NoSelfClaims(NetOf(peers, listeners, direct, now))
  {
  }

  // ----- expiry -----

  function Purged(k: Known, now: int): Known {
    k.(neighbors := Active(k.neighbors, now))
  }

  /** Peers not seen for long and without a session. */
  function Stale(peers: map<PeerId, Known>, connected: set<PeerId>, now: int): set<PeerId> {
    set p | p in peers && peers[p].lastSeen + PEER_TTL < now && p !in connected
  }

  /** The table without some peers and without the claims about them. */
  function Without(peers: map<PeerId, Known>, gone: set<PeerId>): map<PeerId, Known> {
    map p | p in peers && p !in gone :: peers[p].(neighbors := peers[p].neighbors - gone)
  }

  function Unexpired(peers: map<PeerId, Known>, connected: set<PeerId>, now: int): map<PeerId, Known> {
    Without(map p | p in peers :: Purged(peers[p], now), Stale(peers, connected, now))
  }

  lemma WithoutNone(peers: map<PeerId, Known>)
    ensures Without(peers, {}) == peers
  {
    forall p | p in peers
      ensures peers[p].neighbors - {} == peers[p].neighbors
    {
    }
  }

  lemma WithoutMore(peers: map<PeerId, Known>, gone: set<PeerId>, p: PeerId)
    ensures Without(peers, gone + {p}) == Without(Without(peers, gone), {p})
  {
    forall q | q in peers && q !in gone && q != p
      ensures peers[q].neighbors - (gone + {p}) == (peers[q].neighbors - gone) - {p}
    {
    }
  }

  lemma ExpiredAtOnce(before: map<PeerId, Known>, purged: map<PeerId, Known>, connected: set<PeerId>, now: int)
    requires purged.Keys == before.Keys && forall p :: p in before ==> purged[p] == Purged(before[p], now)
    ensures Without(purged, Stale(before, connected, now)) == Unexpired(before, connected, now)
  {
    assert purged == map p | p in before :: Purged(before[p], now);
  }

  lemma UnexpiredIsSound(local: PeerId, peers: map<PeerId, Known>, connected: set<PeerId>, now: int)
    requires Sound(local, peers)
    ensures Sound(local, Unexpired(peers, connected, now))
  {
  }

  /** A claim in a snapshot holds for thirty seconds, and not longer. */
  lemma ClaimLasts(local: PeerId, sender: PeerId, entries: seq<PeerId>, heard: int, now: int, p: PeerId)
    requires heard <= now
    ensures p in Active(NewClaims(local, sender, entries, heard), now) <==>
      p in entries && p != 0 && p != local && p != sender && now - heard < 30_000_000_000
  {
  }

  /** A connected peer stays however long it has not been seen; any other stays for sixty seconds after it was. */
  lemma WhoStays(peers: map<PeerId, Known>, connected: set<PeerId>, now: int, p: PeerId)
    ensures p in Unexpired(peers, connected, now) <==>
      p in peers && (p in connected || now - peers[p].lastSeen <= 60_000_000_000)
  {
  }

  /** Of a peer that stays, exactly the claims that still hold about peers that stay remain. */
  lemma WhichClaimsStay(local: PeerId, peers: map<PeerId, Known>, connected: set<PeerId>, now: int, p: PeerId, q: PeerId)
    requires Sound(local, peers) && p in Unexpired(peers, connected, now)
    ensures q in Unexpired(peers, connected, now)[p].neighbors <==>
      q in peers[p].neighbors && now < peers[p].neighbors[q] && q in Unexpired(peers, connected, now)
  {
    assert q in peers[p].neighbors ==> q in peers;
  }

  /** Expiry changes the table exactly when a claim had expired or a peer had gone stale. */
  lemma DirtyIffChanged(peers: map<PeerId, Known>, connected: set<PeerId>, now: int)
    ensures Unexpired(peers, connected, now) != peers
      <==> Stale(peers, connected, now) != {} || exists p :: p in peers && Purged(peers[p], now) != peers[p]
  {
    var stale := Stale(peers, connected, now);
    var after := Unexpired(peers, connected, now);
    if stale != {} {
      var p :| p in stale;
      assert p in peers && p !in after;
    } else {
      forall p | p in peers
        ensures after[p] == Purged(peers[p], now)
      {
        assert Purged(peers[p], now).neighbors - stale == Purged(peers[p], now).neighbors;
      }
      if forall p :: p in peers ==> Purged(peers[p], now) == peers[p] {
        assert after == peers;
      }
    }
  }

  // ----- claims that change nothing -----

  /** Two views in which everybody currently claims the same peers. */
  ghost predicate SameClaims(m: Net, n: Net) {
    && m.listeners == n.listeners && m.direct == n.direct
    && forall f, p :: Claims(m, f, p) <==> Claims(n, f, p)
  }

  lemma SameReach(m: Net, n: Net, f: PeerId, peers: set<PeerId>)
    requires SameClaims(m, n)
    ensures Reach(m, f, peers) == Reach(n, f, peers)
  {
    hide Claims;
  }

  lemma {:induction false} SameLeft(m: Net, n: Net, picks: seq<PeerId>)
    requires SameClaims(m, n)
    ensures Left(m, picks) == Left(n, picks)
    decreases |picks|
  {
    if picks != [] {
      SameLeft(m, n, picks[..|picks| - 1]);
      SameReach(m, n, picks[|picks| - 1], Left(m, picks[..|picks| - 1]));
    }
  }

  /** The plan depends only on who currently claims whom. */
  lemma SameClaimsSamePlan(m: Net, n: Net, plan: Plan)
    requires SameClaims(m, n) && IsPlan(m, plan)
    ensures IsPlan(n, plan)
  {
    hide Claims, Reach, Left;
    var picks := plan.destinations;
    forall i: nat | i <= |picks|
      ensures Left(m, picks[..i]) == Left(n, picks[..i])
    {
      SameLeft(m, n, picks[..i]);
    }
    forall f, peers
      ensures Reach(m, f, peers) == Reach(n, f, peers)
    {
      SameReach(m, n, f, peers);
    }
    assert picks[..|picks|] == picks;
    forall i | 0 <= i < |picks|
      ensures Best(n, picks[i], Left(n, picks[..i]))
    {
      assert Best(m, picks[i], Left(m, picks[..i]));
    }
  }

  // ----- the table -----

  class Topology {
    const local: PeerId
    var peers: map<PeerId, Known>
    var fanoutDirty: bool

    constructor (local: PeerId)
      ensures this.local == local && peers == map[] && !fanoutDirty
    {
      this.local, peers, fanoutDirty := local, map[], false;
    }

    /** Note that a peer exists; the zero peer and ourselves are not peers. */
    method RememberTopologyPeer(peer: PeerId, now: int) returns (known: bool)
      modifies this`peers
      ensures known == (peer != 0 && peer != local)
      ensures peers == if !known then old(peers) else Remembered(old(peers), peer, now)
    {
      if peer == 0 || peer == local {
        return false;
      }
      if peer in peers {
        peers := peers[peer := peers[peer].(lastSeen := now)];
        return true;
      }
      peers := peers[peer := Known(now, map[])];
      return true;
    }

    static function Remembered(peers: map<PeerId, Known>, peer: PeerId, now: int): map<PeerId, Known> {
      peers[peer := Known(now, if peer in peers then peers[peer].neighbors else map[])]
    }

    /** A snapshot replaces the claims of its sender. The plan is marked for rebuilding exactly when the peers the sender
        currently claims change. */
    method RecordTopologyClaims(sender: PeerId, entries: seq<PeerId>, now: int)
      requires Sound(local, peers)
      modifies this
      ensures Sound(local, peers)
      ensures peers.Keys == old(peers.Keys) + Mentioned(local, sender, entries)
      ensures forall p :: p in peers ==> peers[p].neighbors == NeighborsAfter(local, old(peers), sender, entries, now, p)
      ensures fanoutDirty == (old(fanoutDirty)
        || (sender != 0 && sender != local && ClaimsOf(old(peers), sender, now) != NewClaims(local, sender, entries, now).Keys))
    {
      hide Sound, NewClaims, Active, Mentioned;
      ghost var before := peers;
      var known := RememberTopologyPeer(sender, now);
      var claims: map<PeerId, int> := map[];
      NoEntries(local, sender, now);
      assert entries[..0] == [];
      for i := 0 to |entries|
        invariant claims == NewClaims(local, sender, entries[..i], now)
        invariant peers.Keys == before.Keys + Mentioned(local, sender, entries[..i])
        invariant forall p :: p in peers ==> peers[p].neighbors == if p in before then before[p].neighbors else map[]
        invariant fanoutDirty == old(fanoutDirty)
      {
        var peer := entries[i];
        EntriesMore(local, sender, entries, i, now);
        var remembered := RememberTopologyPeer(peer, now);
        if remembered && peer != sender && peer != local {
          claims := claims[peer := now + CLAIM_TTL];
        }
      }
      assert entries[..|entries|] == entries;
      SenderIsMentioned(local, sender, entries);
      if known {
        var changed := ClaimsChanged(peers[sender].neighbors, claims, now);
        ActiveNone(now);
        peers := peers[sender := peers[sender].(neighbors := claims)];
        if changed {
          fanoutDirty := true;
        }
      }
      SoundKeys(local, before);
      RecordedIsSound(local, before, peers, sender, entries, now);
    }

    /** Drop expired claims, and peers that were not seen for long and are not connected, with the claims about them.
        The plan is marked for rebuilding exactly when something was dropped. */
    method ExpireTopology(connected: set<PeerId>, now: int)
      requires Sound(local, peers)
      modifies this
      ensures Sound(local, peers)
      ensures peers == Unexpired(old(peers), connected, now)
      ensures fanoutDirty == (old(fanoutDirty) || peers != old(peers))
    {
      hide Active, Sound, Unexpired, Without;
      var changed := false;
      var before := peers;
      var left := peers.Keys;
      while left != {}
        invariant left <= before.Keys && peers.Keys == before.Keys
        invariant forall p :: p in peers ==> peers[p] == if p in left then before[p] else Purged(before[p], now)
        invariant changed <==> exists p :: p in before && p !in left && Purged(before[p], now) != before[p]
        invariant fanoutDirty == old(fanoutDirty)
        decreases |left|
      {
        var p :| p in left;
        left := left - {p};
        var claims := PurgeClaims(peers[p].neighbors, now);
        changed := changed || claims != peers[p].neighbors;
        peers := peers[p := peers[p].(neighbors := claims)];
      }
      ghost var purged := peers;
      ghost var stale := Stale(before, connected, now);
      left := before.Keys;
      ghost var gone: set<PeerId> := {};
      WithoutNone(purged);
      while left != {}
        invariant left <= before.Keys
        invariant forall p :: p in gone <==> p in stale && p !in left
        invariant peers == Without(purged, gone)
        invariant changed <==> gone != {} || exists p :: p in before && Purged(before[p], now) != before[p]
        invariant fanoutDirty == old(fanoutDirty)
        decreases |left|
      {
        var p :| p in left;
        left := left - {p};
        if before[p].lastSeen + PEER_TTL < now && p !in connected {
          WithoutMore(purged, gone, p);
          gone := gone + {p};
          peers := Without(peers, {p});
          changed := true;
        }
      }
      if changed {
        fanoutDirty := true;
      }
      assert gone == stale;
      ExpiredAtOnce(before, purged, connected, now);
      DirtyIffChanged(before, connected, now);
      UnexpiredIsSound(local, before, connected, now);
    }

    /** The unexpired claims of one peer. */
    static method PurgeClaims(neighbors: map<PeerId, int>, now: int) returns (claims: map<PeerId, int>)
      ensures claims == Active(neighbors, now)
    {
      claims := neighbors;
      var left := neighbors.Keys;
      while left != {}
        invariant left <= neighbors.Keys
        invariant claims == map p | p in neighbors && (p in left || neighbors[p] > now) :: neighbors[p]
        decreases |left|
      {
        var p :| p in left;
        left := left - {p};
        if neighbors[p] <= now {
          claims := claims - {p};
        }
      }
    }

    static function ClaimsOf(peers: map<PeerId, Known>, p: PeerId, now: int): set<PeerId> {
      if p in peers then Active(peers[p].neighbors, now).Keys else {}
    }

    /** The peers currently claimed differ from the new claims: counted, as the code does it. */
    static method ClaimsChanged(neighbors: map<PeerId, int>, claims: map<PeerId, int>, now: int) returns (changed: bool)
      ensures changed <==> Active(neighbors, now).Keys != claims.Keys
    {
      var activeClaims := 0;
      changed := false;
      var left := neighbors.Keys;
      ghost var seen: set<PeerId> := {};
      while left != {}
        invariant left <= neighbors.Keys
        invariant forall p :: p in seen <==> p in neighbors && p !in left && neighbors[p] > now
        invariant activeClaims == |seen|
        invariant changed <==> !(seen <= claims.Keys)
        decreases |left|
      {
        var p :| p in left;
        left := left - {p};
        if neighbors[p] > now {
          seen := seen + {p};
          activeClaims := activeClaims + 1;
          if p !in claims {
            changed := true;
          }
        }
      }
      assert seen == Active(neighbors, now).Keys;
      if !changed {
        EqualSizes(seen, claims.Keys);
      }
      changed := changed || activeClaims != |claims|;
    }
  }

  /** Not marking the plan is right: if the sender's current claims did not change, the plan is the same. */
  lemma QuietClaimsKeepPlan(local: PeerId, before: map<PeerId, Known>, after: map<PeerId, Known>, sender: PeerId, entries: seq<PeerId>,
                            listeners: set<PeerId>, direct: set<PeerId>, now: int, plan: Plan)
    requires after.Keys >= before.Keys
    requires forall p :: p in after ==> after[p].neighbors == NeighborsAfter(local, before, sender, entries, now, p)
    requires sender in after ==> Topology.ClaimsOf(before, sender, now) == NewClaims(local, sender, entries, now).Keys
    ensures IsPlan(NetOf(before, listeners, direct, now), plan) <==> IsPlan(NetOf(after, listeners, direct, now), plan)
  {
    var m, n := NetOf(before, listeners, direct, now), NetOf(after, listeners, direct, now);
    forall f, p
      ensures Claims(m, f, p) <==> Claims(n, f, p)
    {
      if f == sender && sender in after {
        assert p in Topology.ClaimsOf(before, sender, now) <==> p in NewClaims(local, sender, entries, now).Keys;
      }
    }
    if IsPlan(m, plan) {
      SameClaimsSamePlan(m, n, plan);
    }
    if IsPlan(n, plan) {
      SameClaimsSamePlan(n, m, plan);
    }
  }
}
