/** The fan-out plan: which directly reachable peers a frame is sent to, and whom each of them forwards it to. */
module FanoutPlans {
  import opened SortedIds
  import opened Sets

  /** What the planner sees: who wants to listen, who is reachable directly, and until when each peer claims its
      neighbours. */
  datatype Net = Net(
    listeners: set<PeerId>,
    direct: set<PeerId>,
    neighbors: map<PeerId, map<PeerId, int>>,
    now: int)

  datatype Plan = Plan(destinations: seq<PeerId>, assignments: map<PeerId, seq<PeerId>>)

  predicate Claims(n: Net, forwarder: PeerId, peer: PeerId) {
    forwarder in n.neighbors && peer in n.neighbors[forwarder] && n.neighbors[forwarder][peer] > n.now
  }

  /** Whom of these peers a forwarder covers: itself, and the neighbours it currently claims. */
  function Reach(n: Net, forwarder: PeerId, peers: set<PeerId>): set<PeerId> {
    set p | p in peers && (p == forwarder || Claims(n, forwarder, p))
  }

  /** The forwarder that covers most of these peers, the smallest one of several. */
  ghost predicate Best(n: Net, f: PeerId, peers: set<PeerId>) {
    && f in n.direct && Reach(n, f, peers) != {}
    && forall g :: g in n.direct ==>
      |Reach(n, g, peers)| < |Reach(n, f, peers)| || (|Reach(n, g, peers)| == |Reach(n, f, peers)| && f <= g)
  }

  /** The listeners still uncovered after these picks. */
  function Left(n: Net, picks: seq<PeerId>): set<PeerId> {
    if picks == [] then n.listeners
    else
      var before := Left(n, picks[..|picks| - 1]);
      before - Reach(n, picks[|picks| - 1], before)
  }

  /** What pick number i covers. */
  function Coverage(n: Net, picks: seq<PeerId>, i: nat): set<PeerId>
    requires i < |picks|
  {
    Reach(n, picks[i], Left(n, picks[..i]))
  }

  ghost predicate Greedy(n: Net, picks: seq<PeerId>) {
    forall i :: 0 <= i < |picks| ==> Best(n, picks[i], Left(n, picks[..i]))
  }

  ghost predicate Finished(n: Net, picks: seq<PeerId>) {
    forall f :: f in n.direct ==> Reach(n, f, Left(n, picks)) == {}
  }

  /** Each pick is assigned what it covers besides itself, in order. */
  ghost predicate Assigned(n: Net, picks: seq<PeerId>, assignments: map<PeerId, seq<PeerId>>) {
    && assignments.Keys == Elements(picks)
    && forall i :: 0 <= i < |picks| ==>
      Ascending(assignments[picks[i]]) && Elements(assignments[picks[i]]) == Coverage(n, picks, i) - {picks[i]}
  }

  ghost predicate IsPlan(n: Net, plan: Plan) {
    Greedy(n, plan.destinations) && Finished(n, plan.destinations) && Assigned(n, plan.destinations, plan.assignments)
  }

  // ----- one plan -----

  lemma BestIsUnique(n: Net, f: PeerId, g: PeerId, peers: set<PeerId>)
    requires Best(n, f, peers) && Best(n, g, peers)
    ensures f == g
  {
  }

  lemma {:induction false} SamePicks(n: Net, a: seq<PeerId>, b: seq<PeerId>, k: nat)
    requires Greedy(n, a) && Greedy(n, b) && k <= |a| && k <= |b|
    ensures a[..k] == b[..k]
  {
    hide Best, Left;
    if k > 0 {
      SamePicks(n, a, b, k - 1);
      BestIsUnique(n, a[k - 1], b[k - 1], Left(n, a[..k - 1]));
      assert a[..k] == a[..k - 1] + [a[k - 1]] && b[..k] == b[..k - 1] + [b[k - 1]];
    }
  }

  lemma LongerGoesOn(n: Net, a: seq<PeerId>, b: seq<PeerId>)
    requires Greedy(n, a) && Greedy(n, b) && |b| > |a|
    ensures !Finished(n, a)
  {
    SamePicks(n, a, b, |a|);
    assert b[..|a|] == a[..|a|] == a;
    assert Best(n, b[|a|], Left(n, a));
  }

  /** The plan depends on the listeners, the direct peers and the claims alone: not on the order in which their
      maps are walked. */
  lemma PlanIsUnique(n: Net, p: Plan, q: Plan)
    requires IsPlan(n, p) && IsPlan(n, q)
    ensures p == q
  {
    hide Best, Left, Coverage;
    if |q.destinations| > |p.destinations| {
      LongerGoesOn(n, p.destinations, q.destinations);
    } else if |p.destinations| > |q.destinations| {
      LongerGoesOn(n, q.destinations, p.destinations);
    }
    SamePicks(n, p.destinations, q.destinations, |p.destinations|);
    var picks := p.destinations;
    assert picks == picks[..|picks|] == q.destinations[..|picks|] == q.destinations;
    forall f | f in Elements(picks)
      ensures p.assignments[f] == q.assignments[f]
    {
      var i :| 0 <= i < |picks| && picks[i] == f;
      AscendingIsUnique(p.assignments[f], q.assignments[f]);
    }
    assert p.assignments == q.assignments;
  }

  // ----- what a plan covers -----

  lemma {:induction false} LeftShrinks(n: Net, picks: seq<PeerId>, i: nat, j: nat)
    requires i <= j <= |picks|
    ensures Left(n, picks[..j]) <= Left(n, picks[..i])
    decreases j
  {
    if i < j {
      LeftShrinks(n, picks, i, j - 1);
      LeftNext(n, picks, j - 1);
    }
  }

  lemma LeftNext(n: Net, picks: seq<PeerId>, i: nat)
    requires i < |picks|
    ensures Left(n, picks[..i + 1]) == Left(n, picks[..i]) - Coverage(n, picks, i)
  {
    assert picks[..i + 1][..i] == picks[..i];
  }

  /** No peer is picked twice, and no listener is covered by two picks. */
  lemma PicksAreApart(n: Net, picks: seq<PeerId>, i: nat, j: nat)
    requires Greedy(n, picks) && i < j < |picks|
    ensures picks[i] != picks[j]
    ensures Coverage(n, picks, i) !! Coverage(n, picks, j)
  {
    LeftNext(n, picks, i);
    LeftShrinks(n, picks, i + 1, j);
    assert Best(n, picks[j], Left(n, picks[..j]));
    assert Reach(n, picks[i], Left(n, picks[..j])) == {};
  }

  /** The listeners some direct peer reaches. */
  function Coverable(n: Net): set<PeerId> {
    set p | p in n.listeners && exists f :: f in n.direct && p in Reach(n, f, n.listeners)
  }

  /** Everyone a plan delivers to: its destinations and those they forward to. */
  ghost predicate Delivers(plan: Plan, p: PeerId) {
    p in plan.destinations || exists f :: f in plan.assignments && p in plan.assignments[f]
  }

  lemma {:induction false} CoveredOnce(n: Net, picks: seq<PeerId>, p: PeerId) returns (i: nat)
    requires p in n.listeners && p !in Left(n, picks)
    ensures i < |picks| && p in Coverage(n, picks, i)
    decreases |picks|
  {
    var last := |picks| - 1;
    assert picks[..|picks|] == picks;
    LeftNext(n, picks, last);
    if p in Left(n, picks[..last]) {
      i := last;
    } else {
      i := CoveredOnce(n, picks[..last], p);
      assert picks[..last][..i] == picks[..i];
    }
  }

  lemma LeftIsUncoverable(n: Net, picks: seq<PeerId>, p: PeerId)
    requires Greedy(n, picks) && Finished(n, picks) && p in n.listeners
    ensures p in Left(n, picks) <==> p !in Coverable(n)
  {
    if p in Coverable(n) {
      var f :| f in n.direct && p in Reach(n, f, n.listeners);
      assert p in Left(n, picks) <==> p in Reach(n, f, Left(n, picks));
    }
    if p !in Left(n, picks) {
      var i := CoveredOnce(n, picks, p);
      assert Best(n, picks[i], Left(n, picks[..i]));
      assert p in Reach(n, picks[i], n.listeners);
    }
  }

  /** Exactly the listeners that some direct peer reaches are delivered to. */
  lemma PlanCovers(n: Net, plan: Plan, p: PeerId)
    requires IsPlan(n, plan) && p in n.listeners
    ensures Delivers(plan, p) <==> p in Coverable(n)
  {
    var picks := plan.destinations;
    LeftIsUncoverable(n, picks, p);
    if p in Coverable(n) {
      var i := CoveredOnce(n, picks, p);
      if p != picks[i] {
        assert p in Elements(plan.assignments[picks[i]]);
      }
    }
    if Delivers(plan, p) {
      if p in picks {
        var i :| 0 <= i < |picks| && picks[i] == p;
        assert Best(n, p, Left(n, picks[..i]));
        assert p in Reach(n, p, n.listeners);
      } else {
        var f :| f in plan.assignments && p in plan.assignments[f];
        assert f in Elements(picks);
        var i :| 0 <= i < |picks| && picks[i] == f;
        assert p in Elements(plan.assignments[f]);
        assert Best(n, f, Left(n, picks[..i]));
        assert p in Reach(n, f, n.listeners);
      }
    }
  }

  /** Destinations are distinct, and no listener is on two lists or twice on one. */
  lemma PlanIsApart(n: Net, plan: Plan)
    requires IsPlan(n, plan)
    ensures Distinct(plan.destinations)
    ensures forall f :: f in plan.assignments ==> Ascending(plan.assignments[f])
    ensures forall f, g :: f in plan.assignments && g in plan.assignments && f != g ==>
      Elements(plan.assignments[f]) !! Elements(plan.assignments[g])
  {
    hide Best, Left, Coverage, Finished, Greedy;
    var picks := plan.destinations;
    forall i, j | 0 <= i < j < |picks|
      ensures picks[i] != picks[j]
    {
      PicksAreApart(n, picks, i, j);
    }
    forall f | f in plan.assignments
      ensures Ascending(plan.assignments[f])
    {
      assert f in Elements(picks);
    }
    forall f, g | f in plan.assignments && g in plan.assignments && f != g
      ensures Elements(plan.assignments[f]) !! Elements(plan.assignments[g])
    {
      assert f in Elements(picks) && g in Elements(picks);
      var i :| 0 <= i < |picks| && picks[i] == f;
      var j :| 0 <= j < |picks| && picks[j] == g;
      if i < j {
        PicksAreApart(n, picks, i, j);
      } else {
        PicksAreApart(n, picks, j, i);
      }
    }
  }

  // ----- how many picks -----

  function Harmonic(n: nat): (h: real)
    ensures h >= 0.0
  {
    if n == 0 then 0.0 else Harmonic(n - 1) + 1.0 / (n as real)
  }

  lemma Recip(a: nat, b: nat)
    requires 0 < a <= b
    ensures 1.0 / (a as real) >= 1.0 / (b as real)
  {
  }

  /** The last `c` terms of a harmonic sum are each at least 1/r. */
  lemma {:induction false} HarmonicGap(r: nat, c: nat)
    requires c <= r && r > 0
    ensures Harmonic(r) - Harmonic(r - c) >= (c as real) * (1.0 / (r as real))
  {
    if c > 0 {
      HarmonicGap(r, c - 1);
      Recip(r - c + 1, r);
      assert Harmonic(r - c + 1) == Harmonic(r - c) + 1.0 / ((r - c + 1) as real);
      OneTerm(c, 1.0 / (r as real));
    }
  }

  lemma OneTerm(c: nat, x: real)
    requires c > 0
    ensures (c as real) * x == ((c - 1) as real) * x + x
  {
    assert (c as real) == ((c - 1) as real) + 1.0;
  }

  /** Direct peers that together reach every coverable listener. */
  ghost predicate Covers(n: Net, cover: set<PeerId>) {
    && cover <= n.direct
    && forall p :: p in Coverable(n) ==> exists f :: f in cover && p in Reach(n, f, n.listeners)
  }

  /** If each of some forwarders reaches at most m of these peers and together they reach all, there are few. */
  lemma {:induction false} UnionBound(n: Net, cover: set<PeerId>, peers: set<PeerId>, reached: set<PeerId>, m: nat)
    requires forall p :: p in reached ==> exists f :: f in cover && p in Reach(n, f, peers)
    requires forall f :: f in cover ==> |Reach(n, f, peers)| <= m
    ensures |reached| <= |cover| * m
    decreases |cover|
  {
    hide Reach;
    if cover == {} {
      assert reached == {};
    } else {
      var f :| f in cover;
      var rest := reached - Reach(n, f, peers);
      forall p | p in rest
        ensures exists g :: g in cover - {f} && p in Reach(n, g, peers)
      {
        var g :| g in cover && p in Reach(n, g, peers);
        assert g in cover - {f};
      }
      UnionBound(n, cover - {f}, peers, rest, m);
      SizeLeft(reached, Reach(n, f, peers));
      assert |cover| * m == |cover - {f}| * m + m;
    }
  }

  lemma SizeLeft(a: set<PeerId>, b: set<PeerId>)
    ensures |a| <= |a - b| + |b|
  {
    assert a == (a - b) + (a * b);
    SizeWithin(a * b, b);
  }

  /** The coverable listeners not yet covered. */
  function Due(n: Net, picks: seq<PeerId>): set<PeerId> {
    Left(n, picks) * Coverable(n)
  }

  /** Each pick covers at least 1/k of what any k direct peers could still cover. */
  lemma PickIsLarge(n: Net, picks: seq<PeerId>, i: nat, cover: set<PeerId>)
    requires Greedy(n, picks) && Covers(n, cover) && i < |picks|
    ensures |Due(n, picks[..i])| <= |cover| * |Coverage(n, picks, i)|
    ensures 0 < |Coverage(n, picks, i)| <= |Due(n, picks[..i])|
    ensures Due(n, picks[..i + 1]) == Due(n, picks[..i]) - Coverage(n, picks, i)
    ensures Coverage(n, picks, i) <= Due(n, picks[..i])
  {
    var before := Left(n, picks[..i]);
    assert Best(n, picks[i], before);
    LeftNext(n, picks, i);
    LeftShrinks(n, picks, 0, i);
    assert picks[..0] == [];
    assert before <= n.listeners;
    assert Coverage(n, picks, i) <= Due(n, picks[..i]) by {
      forall p | p in Reach(n, picks[i], before)
        ensures p in Coverable(n)
      {
        assert p in Reach(n, picks[i], n.listeners);
      }
    }
    SizeWithin(Coverage(n, picks, i), Due(n, picks[..i]));
    forall p | p in Due(n, picks[..i])
      ensures exists f :: f in cover && p in Reach(n, f, before)
    {
      var f :| f in cover && p in Reach(n, f, n.listeners);
      assert p in Reach(n, f, before);
    }
    UnionBound(n, cover, before, Due(n, picks[..i]), |Coverage(n, picks, i)|);
  }

  lemma {:induction false} PicksFrom(n: Net, picks: seq<PeerId>, i: nat, cover: set<PeerId>)
    requires Greedy(n, picks) && Covers(n, cover) && i <= |picks|
    ensures (|picks| - i) as real <= (|cover| as real) * Harmonic(|Due(n, picks[..i])|)
    decreases |picks| - i
  {
    hide Harmonic, Covers, Coverage, Greedy, Due, Coverable;
    if i < |picks| {
      PicksFrom(n, picks, i + 1, cover);
      PickIsLarge(n, picks, i, cover);
      var r, c := |Due(n, picks[..i])|, |Coverage(n, picks, i)|;
      SizeOfRest(Due(n, picks[..i]), Coverage(n, picks, i));
      HarmonicGap(r, c);
      OnePick(|cover|, r, c, Harmonic(r), Harmonic(r - c));
    }
  }

  lemma OnePick(k: nat, r: nat, c: nat, h: real, g: real)
    requires 0 < c <= r <= k * c && h - g >= (c as real) * (1.0 / (r as real))
    ensures 1.0 + (k as real) * g <= (k as real) * h
  {
    var inv := 1.0 / (r as real);
    assert (k as real) * (c as real) == (k * c) as real;
    assert (r as real) * inv == 1.0;
    assert (k as real) * ((c as real) * inv) == ((k * c) as real) * inv;
    assert ((k * c) as real) * inv >= (r as real) * inv;
    assert (k as real) * (h - g) >= (k as real) * ((c as real) * inv);
  }

  lemma DueAtFirst(n: Net)
    ensures Due(n, []) == Coverable(n)
  {
  }

  /** Greedy is nearly optimal: if any k direct peers reach all coverable listeners, the plan has at most
      k * (1 + 1/2 + ... + 1/n) destinations, n being the number of coverable listeners. */
  lemma PlanIsSmall(n: Net, plan: Plan, cover: set<PeerId>)
    requires IsPlan(n, plan) && Covers(n, cover)
    ensures |plan.destinations| as real <= (|cover| as real) * Harmonic(|Coverable(n)|)
  {
    hide Harmonic, Covers, Coverable, Greedy;
    PicksFrom(n, plan.destinations, 0, cover);
    assert plan.destinations[..0] == [];
    DueAtFirst(n);
  }

  // ----- the planner -----

  /** The peers of an unordered collection in any order. */
  method Collect(peers: set<PeerId>) returns (list: seq<PeerId>)
    ensures Distinct(list) && Elements(list) == peers
  {
    list := [];
    var left := peers;
    while left != {}
      invariant left <= peers && Distinct(list) && Elements(list) == peers - left
      decreases |left|
    {
      var p :| p in left;
      ElementsMore(list, p);
      left := left - {p};
      list := list + [p];
    }
  }

  /** No peer claims itself. */
  predicate NoSelfClaims(n: Net) {
    forall f :: f in n.neighbors ==> f !in n.neighbors[f]
  }

  /** What a forwarder would cover, as a sorted list. */
  method Candidate(n: Net, forwarder: PeerId, uncovered: set<PeerId>) returns (candidate: seq<PeerId>)
    requires NoSelfClaims(n)
    ensures Ascending(candidate) && Elements(candidate) == Reach(n, forwarder, uncovered)
  {
    candidate := [];
    if forwarder in uncovered {
      candidate := [forwarder];
    }
    if forwarder in n.neighbors {
      var claims := n.neighbors[forwarder];
      var left := claims.Keys;
      while left != {}
        invariant left <= claims.Keys
        invariant Distinct(candidate)
        invariant Elements(candidate) == Reach(n, forwarder, uncovered) - left
        decreases |left|
      {
        var neighbor :| neighbor in left;
        ElementsMore(candidate, neighbor);
        left := left - {neighbor};
        if neighbor in uncovered && claims[neighbor] > n.now {
          candidate := candidate + [neighbor];
        }
      }
    }
    candidate := Sort(candidate);
  }

  /** The forwarder with the longest candidate list, the first one of several in order. */
  method Select(n: Net, uncovered: set<PeerId>) returns (selected: PeerId, coverage: seq<PeerId>)
    requires NoSelfClaims(n)
    ensures coverage == [] ==> forall f :: f in n.direct ==> Reach(n, f, uncovered) == {}
    ensures coverage != [] ==> Best(n, selected, uncovered)
    ensures coverage != [] ==> Ascending(coverage) && Elements(coverage) == Reach(n, selected, uncovered)
  {
    selected, coverage := 0, [];
    var forwarders := Collect(n.direct);
    forwarders := Sort(forwarders);
    for i := 0 to |forwarders|
      invariant Ascending(coverage)
      invariant coverage != [] ==> selected in forwarders[..i] && Elements(coverage) == Reach(n, selected, uncovered)
      invariant forall j :: 0 <= j < i ==>
        || |Reach(n, forwarders[j], uncovered)| < |coverage|
        || (|Reach(n, forwarders[j], uncovered)| == |coverage| && (coverage == [] || selected <= forwarders[j]))
    {
      var candidate := Candidate(n, forwarders[i], uncovered);
      AscendingIsDistinct(candidate);
      DistinctSize(candidate);
      if |candidate| > |coverage| {
        selected, coverage := forwarders[i], candidate;
      }
    }
    AscendingIsDistinct(coverage);
    DistinctSize(coverage);
    forall f | f in n.direct
      ensures f in Elements(forwarders)
    {
    }
  }

  lemma GreedyMore(n: Net, picks: seq<PeerId>, f: PeerId)
    requires Greedy(n, picks) && Best(n, f, Left(n, picks))
    ensures Greedy(n, picks + [f]) && f !in picks
    ensures Left(n, picks + [f]) == Left(n, picks) - Reach(n, f, Left(n, picks))
    ensures Coverage(n, picks + [f], |picks|) == Reach(n, f, Left(n, picks))
    ensures forall i :: 0 <= i < |picks| ==> Coverage(n, picks + [f], i) == Coverage(n, picks, i)
  {
    var more := picks + [f];
    assert more[..|picks|] == picks;
    forall i | 0 <= i < |more|
      ensures Best(n, more[i], Left(n, more[..i]))
    {
      if i < |picks| {
        assert more[..i] == picks[..i];
      }
    }
    forall i | 0 <= i < |picks|
      ensures Coverage(n, more, i) == Coverage(n, picks, i) && picks[i] != f
    {
      assert more[..i] == picks[..i];
      PicksAreApart(n, more, i, |picks|);
    }
  }

  lemma AssignedMore(n: Net, picks: seq<PeerId>, assignments: map<PeerId, seq<PeerId>>, f: PeerId, forwards: seq<PeerId>)
    requires Greedy(n, picks) && Best(n, f, Left(n, picks)) && Assigned(n, picks, assignments)
    requires Ascending(forwards) && Elements(forwards) == Reach(n, f, Left(n, picks)) - {f}
    ensures Assigned(n, picks + [f], assignments[f := forwards])
  {
    hide Best, Greedy, Left, Reach, Coverage;
    GreedyMore(n, picks, f);
    ElementsMore(picks, f);
  }

  /** Everyone a pick covers but itself. */
  method Forwards(coverage: seq<PeerId>, selected: PeerId) returns (forwards: seq<PeerId>)
    requires Ascending(coverage)
    ensures Ascending(forwards) && Elements(forwards) == Elements(coverage) - {selected}
  {
    forwards := [];
    for i := 0 to |coverage|
      invariant Ascending(forwards) && Elements(forwards) == Elements(coverage[..i]) - {selected}
    {
      var listener := coverage[i];
      assert coverage[..i + 1] == coverage[..i] + [listener];
      ElementsMore(coverage[..i], listener);
      assert forall x :: x in Elements(coverage[..i]) ==> x < listener;
      if listener != selected {
        ElementsMore(forwards, listener);
        AscendingMore(forwards, listener);
        forwards := forwards + [listener];
      }
    }
    assert coverage[..|coverage|] == coverage;
  }

  /** The greedy plan. A peer with the zero identifier is never direct. */
  method BuildFanoutPlan(n: Net) returns (plan: Plan)
    requires NoSelfClaims(n) && 0 !in n.direct
    ensures IsPlan(n, plan)
  {
    hide Best, Reach, Coverage, Greedy, Assigned;
    var uncovered := n.listeners;
    plan := Plan([], map[]);
    NoPicks(n);
    while uncovered != {}
      invariant Greedy(n, plan.destinations)
      invariant uncovered == Left(n, plan.destinations)
      invariant Assigned(n, plan.destinations, plan.assignments)
      decreases |uncovered|
    {
      var selected, coverage := Select(n, uncovered);
      if selected == 0 || coverage == [] {
        SelectedIsDirect(n, selected, uncovered);
        return;
      }
      var forwards := Forwards(coverage, selected);
      assert coverage[0] in Elements(coverage);
      GreedyMore(n, plan.destinations, selected);
      AssignedMore(n, plan.destinations, plan.assignments, selected, forwards);
      ReachWithin(n, selected, uncovered);
      uncovered := uncovered - Elements(coverage);
      plan := Plan(plan.destinations + [selected], plan.assignments[selected := forwards]);
    }
    NothingLeft(n, plan.destinations);
  }

  lemma NoPicks(n: Net)
    ensures Greedy(n, []) && Assigned(n, [], map[])
  {
  }

  lemma SelectedIsDirect(n: Net, f: PeerId, peers: set<PeerId>)
    ensures Best(n, f, peers) ==> f in n.direct
  {
  }

  lemma ReachWithin(n: Net, f: PeerId, peers: set<PeerId>)
    ensures Reach(n, f, peers) <= peers
  {
  }

  lemma NothingLeft(n: Net, picks: seq<PeerId>)
    requires Left(n, picks) == {}
    ensures Finished(n, picks)
  {
  }

  // ----- a peer that claims itself -----

  /** The length of the list that the loop makes for a forwarder: itself if it is uncovered, and once more if it claims
      itself. */
  function CandidateSize(n: Net, f: PeerId, uncovered: set<PeerId>): nat {
    (if f in uncovered then 1 else 0) + |set p | p in uncovered && Claims(n, f, p)|
  }

  /** The length is what the forwarder covers, plus one if it is uncovered and claims itself. */
  lemma CandidateSizeIs(n: Net, f: PeerId, uncovered: set<PeerId>)
    ensures CandidateSize(n, f, uncovered) == |Reach(n, f, uncovered)| + (if f in uncovered && Claims(n, f, f) then 1 else 0)
  {
    var claimed := set p | p in uncovered && Claims(n, f, p);
    if f in uncovered && !Claims(n, f, f) {
      assert Reach(n, f, uncovered) == claimed + {f};
    } else {
      assert Reach(n, f, uncovered) == claimed;
    }
  }

  /** Peer 1 claims only itself, peer 2 claims peer 3. */
  const BOASTFUL: Net := Net({1, 2, 3}, {1, 2}, map[1 := map[1 := 1], 2 := map[3 := 1]], 0)

  /** So a peer that claims itself is preferred to one that covers more. */
  lemma SelfClaimMisleads()
    ensures CandidateSize(BOASTFUL, 1, BOASTFUL.listeners) >= CandidateSize(BOASTFUL, 2, BOASTFUL.listeners)
    ensures |Reach(BOASTFUL, 1, BOASTFUL.listeners)| < |Reach(BOASTFUL, 2, BOASTFUL.listeners)|
  {
    CandidateSizeIs(BOASTFUL, 1, BOASTFUL.listeners);
    CandidateSizeIs(BOASTFUL, 2, BOASTFUL.listeners);
    assert Reach(BOASTFUL, 1, BOASTFUL.listeners) == {1};
    assert Reach(BOASTFUL, 2, BOASTFUL.listeners) == {2, 3};
  }
}
