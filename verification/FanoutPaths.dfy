/** Rewriting a fan-out plan so that every peer whose active path is bridged hears through its own intermediary. */
module FanoutPaths {
  import opened SortedIds
  import opened FanoutPlans

  /** The active path to a peer with an authenticated session; addresses are numbers. */
  datatype Route = Unavailable | Direct(address: nat) | Bridged(intermediary: PeerId, address: nat)

  /** The path of a peer is bridged, by a peer that is itself direct at the same address. */
  predicate IsForced(peers: map<PeerId, Route>, target: PeerId) {
    && target in peers && peers[target].Bridged?
    && peers[target].intermediary in peers
    && peers[peers[target].intermediary] == Direct(peers[target].address)
  }

  /** The peers that must hear through their intermediary, and that intermediary. */
  function Forced(peers: map<PeerId, Route>): map<PeerId, PeerId> {
    map target | target in peers && IsForced(peers, target) :: peers[target].intermediary
  }

  function ListOf(plan: Plan, f: PeerId): seq<PeerId> {
    if f in plan.assignments then plan.assignments[f] else []
  }

  /** The targets bridged by one forwarder. */
  function Behind(forced: map<PeerId, PeerId>, f: PeerId): set<PeerId> {
    set t | t in forced && forced[t] == f
  }

  /** The list holds exactly these peers, in order. */
  predicate Lists(list: seq<PeerId>, peers: set<PeerId>) {
    Ascending(list) && Elements(list) == peers
  }

  /** The plan with some targets moved: taken off every list, then put on their intermediaries' lists. */
  ghost predicate Moved(plan: Plan, forced: map<PeerId, PeerId>, after: Plan) {
    && plan.destinations <= after.destinations
    && Elements(after.destinations) == Elements(plan.destinations) + forced.Values
    && after.assignments.Keys == plan.assignments.Keys + forced.Values
    && forall f :: Lists(ListOf(after, f), (Elements(ListOf(plan, f)) - forced.Keys) + Behind(forced, f))
  }

  ghost predicate Apart(plan: Plan) {
    && Distinct(plan.destinations)
    && (forall f :: Ascending(ListOf(plan, f)))
    && forall f, g :: f != g ==> Elements(ListOf(plan, f)) !! Elements(ListOf(plan, g))
  }

  lemma PlansAreApart(n: Net, plan: Plan)
    requires IsPlan(n, plan)
    ensures Apart(plan)
  {
    PlanIsApart(n, plan);
  }

  // ----- what moving keeps -----

  /** Nobody loses delivery. */
  lemma MovedKeepsDelivery(plan: Plan, forced: map<PeerId, PeerId>, after: Plan, p: PeerId)
    requires Moved(plan, forced, after) && Delivers(plan, p)
    ensures Delivers(after, p)
  {
    if p in plan.destinations {
      assert p in Elements(after.destinations);
    } else {
      var f :| f in plan.assignments && p in plan.assignments[f];
      assert p in Elements(ListOf(plan, f));
      var g := if p in forced then forced[p] else f;
      assert p in Elements(ListOf(after, g));
    }
  }

  /** A moved target is on the list of its intermediary and on no other; the intermediary is a destination. */
  lemma MovedOnce(plan: Plan, forced: map<PeerId, PeerId>, after: Plan, target: PeerId, f: PeerId)
    requires Moved(plan, forced, after) && target in forced
    ensures target in ListOf(after, f) <==> f == forced[target]
    ensures forced[target] in after.destinations
  {
    assert target in Elements(ListOf(after, f)) <==> f == forced[target];
    assert forced[target] in Elements(after.destinations);
  }

  /** Everyone else stays where they were, and lists stay apart. */
  lemma MovedStaysApart(plan: Plan, forced: map<PeerId, PeerId>, after: Plan)
    requires Moved(plan, forced, after) && Apart(plan)
    ensures forall f, g :: f != g ==> Elements(ListOf(after, f)) !! Elements(ListOf(after, g))
    ensures forall f, p :: p !in forced ==> (p in ListOf(after, f) <==> p in ListOf(plan, f))
  {
    forall f, g | f != g
      ensures Elements(ListOf(after, f)) !! Elements(ListOf(after, g))
    {
    }
    forall f, p | p !in forced
      ensures p in ListOf(after, f) <==> p in ListOf(plan, f)
    {
      assert p in Elements(ListOf(after, f)) <==> p in Elements(ListOf(plan, f));
    }
  }

  /** The rewritten greedy plan delivers to every listener a direct peer reaches and to every listener that is bridged
      through a direct peer, and to the bridged ones through that peer alone. */
  lemma ConstrainedPlanCovers(n: Net, plan: Plan, peers: map<PeerId, Route>, after: Plan, p: PeerId)
    requires IsPlan(n, plan) && Moved(plan, Forced(peers), after)
    requires p in n.listeners && (p in Coverable(n) || IsForced(peers, p))
    ensures Delivers(after, p)
    ensures IsForced(peers, p) ==> forall f :: p in ListOf(after, f) <==> f == peers[p].intermediary
  {
    if p in Coverable(n) {
      PlanCovers(n, plan, p);
      MovedKeepsDelivery(plan, Forced(peers), after, p);
    }
    if IsForced(peers, p) {
      forall f
        ensures p in ListOf(after, f) <==> f == peers[p].intermediary
      {
        MovedOnce(plan, Forced(peers), after, p, f);
      }
      assert p in ListOf(after, peers[p].intermediary);
    }
  }

  // ----- the rewriting -----

  lemma BridgedForced(peers: map<PeerId, Route>, target: PeerId)
    requires IsForced(peers, target)
    ensures target in peers && peers[target].Bridged?
  {
  }

  lemma ForcedPointwise(peers: map<PeerId, Route>, forced: map<PeerId, PeerId>)
    requires forall t :: t in forced <==> t in peers && IsForced(peers, t)
    requires forall t :: t in forced ==> peers[t].Bridged? && forced[t] == peers[t].intermediary
    ensures forced == Forced(peers)
  {
  }

  method FindForced(peers: map<PeerId, Route>) returns (forced: map<PeerId, PeerId>, targets: seq<PeerId>)
    ensures forced == Forced(peers)
    ensures Ascending(targets) && Elements(targets) == forced.Keys
  {
    hide Elements, Distinct, Ascending, IsForced, Forced;
    forced, targets := map[], [];
    EmptyList();
    var left := peers.Keys;
    while left != {}
      invariant left <= peers.Keys
      invariant forall t :: t in forced <==> t in peers && IsForced(peers, t) && t !in left
      invariant forall t :: t in forced ==> peers[t].Bridged? && forced[t] == peers[t].intermediary
      invariant Distinct(targets) && Elements(targets) == forced.Keys
      decreases |left|
    {
      var target :| target in left;
      ElementsMore(targets, target);
      left := left - {target};
      if IsForced(peers, target) {
        BridgedForced(peers, target);
        forced := forced[target := peers[target].intermediary];
        targets := targets + [target];
      }
    }
    targets := Sort(targets);
    ForcedPointwise(peers, forced);
  }

  /** The members of a list that are not forced; the program filters its slice in place. */
  method Unforced(listed: seq<PeerId>, forced: map<PeerId, PeerId>) returns (filtered: seq<PeerId>)
    requires Ascending(listed)
    ensures Ascending(filtered) && Elements(filtered) == Elements(listed) - forced.Keys
  {
    filtered := [];
    for i := 0 to |listed|
      invariant Ascending(filtered) && Elements(filtered) == Elements(listed[..i]) - forced.Keys
    {
      var target := listed[i];
      assert listed[..i + 1] == listed[..i] + [target];
      ElementsMore(listed[..i], target);
      assert forall x :: x in Elements(listed[..i]) ==> x < target;
      if target !in forced {
        ElementsMore(filtered, target);
        AscendingMore(filtered, target);
        filtered := filtered + [target];
      }
    }
    assert listed[..|listed|] == listed;
  }

  method FilterAssignments(plan: Plan, forced: map<PeerId, PeerId>) returns (filtered: Plan)
    requires Apart(plan)
    ensures filtered.destinations == plan.destinations && filtered.assignments.Keys == plan.assignments.Keys
    ensures forall f :: Lists(ListOf(filtered, f), Elements(ListOf(plan, f)) - forced.Keys)
  {
    filtered := plan;
    var left := plan.assignments.Keys;
    while left != {}
      invariant left <= plan.assignments.Keys
      invariant filtered.destinations == plan.destinations && filtered.assignments.Keys == plan.assignments.Keys
      invariant forall f :: f in left ==> filtered.assignments[f] == plan.assignments[f]
      invariant forall f :: f !in left ==> Lists(ListOf(filtered, f), Elements(ListOf(plan, f)) - forced.Keys)
      decreases |left|
    {
      var f :| f in left;
      assert Ascending(ListOf(plan, f));
      var list := Unforced(plan.assignments[f], forced);
      left := left - {f};
      filtered := filtered.(assignments := filtered.assignments[f := list]);
    }
  }

  /** The intermediaries of some of the forced targets. */
  function Through(forced: map<PeerId, PeerId>, done: set<PeerId>): set<PeerId> {
    set t | t in forced && t in done :: forced[t]
  }

  /** The plan with the first targets put on their intermediaries' lists. */
  ghost predicate Placed(plan: Plan, forced: map<PeerId, PeerId>, done: set<PeerId>, after: Plan) {
    && plan.destinations <= after.destinations && Distinct(after.destinations)
    && Elements(after.destinations) == Elements(plan.destinations) + Through(forced, done)
    && after.assignments.Keys == plan.assignments.Keys + Through(forced, done)
    && forall f :: Lists(ListOf(after, f), Elements(ListOf(plan, f)) + (Behind(forced, f) * done))
  }

  lemma NonePlaced(plan: Plan, forced: map<PeerId, PeerId>)
    requires Distinct(plan.destinations) && forall f :: Ascending(ListOf(plan, f))
    ensures Placed(plan, forced, {}, plan)
  {
    assert Through(forced, {}) == {};
  }

  lemma PlacedMore(plan: Plan, forced: map<PeerId, PeerId>, done: set<PeerId>, before: Plan, target: PeerId, after: Plan)
    requires Placed(plan, forced, done, before) && target in forced && target !in done
    requires forall f :: Elements(ListOf(plan, f)) !! forced.Keys
    requires before.destinations <= after.destinations && Distinct(after.destinations)
    requires Elements(after.destinations) == Elements(before.destinations) + {forced[target]}
    requires after.assignments.Keys == before.assignments.Keys + {forced[target]}
    requires forall f :: f != forced[target] ==> ListOf(after, f) == ListOf(before, f)
    requires Lists(ListOf(after, forced[target]), Elements(ListOf(before, forced[target])) + {target})
    ensures Placed(plan, forced, done + {target}, after)
  {
    hide Ascending, Distinct, Elements, ListOf;
    ThroughMore(forced, done, target);
    hide Through;
    forall f
      ensures Lists(ListOf(after, f), Elements(ListOf(plan, f)) + (Behind(forced, f) * (done + {target})))
    {
      assert Lists(ListOf(before, f), Elements(ListOf(plan, f)) + (Behind(forced, f) * done));
      BehindMore(forced, done, target, f);
    }
  }

  lemma ThroughMore(forced: map<PeerId, PeerId>, done: set<PeerId>, target: PeerId)
    requires target in forced
    ensures Through(forced, done + {target}) == Through(forced, done) + {forced[target]}
  {
  }

  lemma BehindMore(forced: map<PeerId, PeerId>, done: set<PeerId>, target: PeerId, f: PeerId)
    requires target in forced
    ensures Behind(forced, f) * (done + {target}) == Behind(forced, f) * done + (if f == forced[target] then {target} else {})
  {
  }

  lemma AllPlaced(plan: Plan, forced: map<PeerId, PeerId>, filtered: Plan, after: Plan)
    requires filtered.destinations == plan.destinations && filtered.assignments.Keys == plan.assignments.Keys
    requires forall f :: Lists(ListOf(filtered, f), Elements(ListOf(plan, f)) - forced.Keys)
    requires Placed(filtered, forced, forced.Keys, after)
    ensures Moved(plan, forced, after)
  {
    hide Ascending, Distinct;
    assert Through(forced, forced.Keys) == forced.Values;
    forall f
      ensures Lists(ListOf(after, f), (Elements(ListOf(plan, f)) - forced.Keys) + Behind(forced, f))
    {
      assert Behind(forced, f) * forced.Keys == Behind(forced, f);
    }
  }

  method Place(plan: Plan, target: PeerId, forwarder: PeerId) returns (after: Plan)
    requires Distinct(plan.destinations) && Ascending(ListOf(plan, forwarder))
    ensures plan.destinations <= after.destinations && Distinct(after.destinations)
    ensures Elements(after.destinations) == Elements(plan.destinations) + {forwarder}
    ensures forall f :: f != forwarder ==> ListOf(after, f) == ListOf(plan, f)
    ensures target in Elements(ListOf(plan, forwarder)) ==> after.assignments == plan.assignments
    ensures target !in Elements(ListOf(plan, forwarder)) ==> after.assignments.Keys == plan.assignments.Keys + {forwarder}
    ensures Ascending(ListOf(after, forwarder)) && Elements(ListOf(after, forwarder)) == Elements(ListOf(plan, forwarder)) + {target}
  {
    hide Elements, Distinct, Ascending, ListOf;
    after := plan;
    ElementsMore(after.destinations, forwarder);
    ElementsHas(after.destinations, forwarder);
    if forwarder !in after.destinations {
      after := after.(destinations := after.destinations + [forwarder]);
    }
    var list := ListOf(plan, forwarder);
    ElementsMore(list, target);
    ElementsHas(list, target);
    ListsAre(plan, after);
    if target !in list {
      AscendingIsDistinct(list);
      list := Sort(list + [target]);
      ListUpdate(after, forwarder, list);
      after := after.(assignments := after.assignments[forwarder := list]);
    }
  }

  lemma ListsAre(plan: Plan, after: Plan)
    requires after.assignments == plan.assignments
    ensures forall f :: ListOf(after, f) == ListOf(plan, f)
  {
  }

  lemma ListUpdate(plan: Plan, forwarder: PeerId, list: seq<PeerId>)
    ensures var after := plan.(assignments := plan.assignments[forwarder := list]);
      && ListOf(after, forwarder) == list
      && after.assignments.Keys == plan.assignments.Keys + {forwarder}
      && forall f :: f != forwarder ==> ListOf(after, f) == ListOf(plan, f)
  {
  }

  lemma ElementsHas(list: seq<PeerId>, x: PeerId)
    ensures x in Elements(list) <==> x in list
    ensures x in list ==> Elements(list) + {x} == Elements(list)
  {
  }

  /** The rewriting: a plan without bridged listeners stays as it is. */
  method ConstrainFanoutToActivePaths(plan: Plan, peers: map<PeerId, Route>) returns (after: Plan)
    requires Apart(plan)
    ensures Moved(plan, Forced(peers), after)
    ensures Forced(peers) == map[] ==> after == plan
    ensures Distinct(after.destinations)
  {
    hide Forced, Ascending, Distinct, Elements, Placed, Behind, Through;
    var forced, targets := FindForced(peers);
    if |forced| == 0 {
      NothingMoved(plan);
      return plan;
    }
    var filtered := FilterAssignments(plan, forced);
    after := filtered;
    NonePlaced(filtered, forced);
    EmptyList();
    assert targets[..0] == [];
    for i := 0 to |targets|
      invariant Placed(filtered, forced, Elements(targets[..i]), after)
    {
      var target := targets[i];
      NextTarget(targets, i);
      var before := after;
      PlacedLists(filtered, forced, Elements(targets[..i]), before, target);
      after := Place(before, target, forced[target]);
      PlacedMore(filtered, forced, Elements(targets[..i]), before, target, after);
    }
    assert targets[..|targets|] == targets;
    AllPlaced(plan, forced, filtered, after);
    PlacedLists(filtered, forced, Elements(targets), after, 0);
  }

  lemma EmptyList()
    ensures Elements([]) == {} && Distinct([])
  {
  }

  lemma NothingMoved(plan: Plan)
    requires Apart(plan)
    ensures Moved(plan, map[], plan)
  {
    var none: map<PeerId, PeerId> := map[];
    assert none.Values == {};
  }

  lemma NextTarget(targets: seq<PeerId>, i: nat)
    requires Ascending(targets) && i < |targets|
    ensures targets[i] in Elements(targets) && targets[i] !in Elements(targets[..i])
    ensures Elements(targets[..i + 1]) == Elements(targets[..i]) + {targets[i]}
  {
    assert targets[..i + 1] == targets[..i] + [targets[i]];
    ElementsMore(targets[..i], targets[i]);
  }

  lemma PlacedLists(plan: Plan, forced: map<PeerId, PeerId>, done: set<PeerId>, after: Plan, target: PeerId)
    requires Placed(plan, forced, done, after)
    ensures Distinct(after.destinations)
    ensures forall f :: Ascending(ListOf(after, f))
    ensures (forall f :: Elements(ListOf(plan, f)) !! forced.Keys) && target in forced && target !in done ==>
      forall f :: target !in Elements(ListOf(after, f))
  {
    forall f
      ensures Ascending(ListOf(after, f))
      ensures (forall g :: Elements(ListOf(plan, g)) !! forced.Keys) && target in forced && target !in done ==>
        target !in Elements(ListOf(after, f))
    {
      assert Lists(ListOf(after, f), Elements(ListOf(plan, f)) + (Behind(forced, f) * done));
    }
  }
}
