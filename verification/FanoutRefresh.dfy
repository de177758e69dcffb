/** From the topology table and the sessions at hand to the plan in use. */
module FanoutRefreshes {
  import opened SortedIds
  import opened FanoutPlans
  import opened FanoutPaths
  import opened Topologies

  /** Whoever has an authenticated session. */
  function Listeners(sessions: map<PeerId, Route>): set<PeerId> {
    set p | p in sessions && !sessions[p].Unavailable?
  }

  function DirectPeers(sessions: map<PeerId, Route>): set<PeerId> {
    set p | p in sessions && sessions[p].Direct?
  }

  /** Plan, then move the bridged listeners behind their intermediaries. The table never makes a peer its own neighbour,
      which the planner relies on. Every listener that a direct peer reaches or that is bridged through one is
      delivered to, the bridged ones through that peer alone, and no listener is on two lists. */
  method RefreshFanout(table: Topology, sessions: map<PeerId, Route>, now: int) returns (plan: Plan)
    requires Sound(table.local, table.peers) && 0 !in sessions
    ensures var n := NetOf(table.peers, Listeners(sessions), DirectPeers(sessions), now);
      forall p :: p in n.listeners && (p in Coverable(n) || IsForced(sessions, p)) ==> Delivers(plan, p)
    ensures forall p, f :: IsForced(sessions, p) ==> (p in ListOf(plan, f) <==> f == sessions[p].intermediary)
    ensures Distinct(plan.destinations) && forall f, g :: f != g ==> Elements(ListOf(plan, f)) !! Elements(ListOf(plan, g))
  {
    hide Coverable, Delivers, IsPlan, Moved, Distinct, Ascending, Elements, Sound, NoSelfClaims;
    var n := NetOf(table.peers, Listeners(sessions), DirectPeers(sessions), now);
    SoundHasNoSelfClaims(table.local, table.peers, n.listeners, n.direct, now);
    var greedy := BuildFanoutPlan(n);
    PlansAreApart(n, greedy);
    plan := ConstrainFanoutToActivePaths(greedy, sessions);
    MovedStaysApart(greedy, Forced(sessions), plan);
    forall p | p in n.listeners && (p in Coverable(n) || IsForced(sessions, p))
      ensures Delivers(plan, p)
    {
      ConstrainedPlanCovers(n, greedy, sessions, plan, p);
    }
    forall p, f | IsForced(sessions, p)
      ensures p in ListOf(plan, f) <==> f == sessions[p].intermediary
    {
      ConstrainedPlanCovers(n, greedy, sessions, plan, p);
    }
  }
}
