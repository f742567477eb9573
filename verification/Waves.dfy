/** The visualizer's layered propagation, compared with shortest paths over the live edges. */
module Waves {
  import opened Common

  datatype Edge = Edge(source: Peer, target: Peer)

  datatype Transmission = Transmission(from: Peer, to: Peer, hop: nat)

  type Adjacency = map<Peer, seq<Peer>>

  // ---- Live edges and adjacency ----

  /** Edge `e` joins `a` and `b`, and neither of them is dead. */
  predicate JoinsLive(e: Edge, dead: set<Peer>, a: Peer, b: Peer) {
    e.source !in dead && e.target !in dead && ((e.source == a && e.target == b) || (e.source == b && e.target == a))
  }

  ghost predicate LiveEdge(edges: seq<Edge>, dead: set<Peer>, a: Peer, b: Peer) {
    exists i :: 0 <= i < |edges| && JoinsLive(edges[i], dead, a, b)
  }

  function Neighbours(adj: Adjacency, n: Peer): seq<Peer> { if n in adj then adj[n] else [] }

  predicate Adjacent(adj: Adjacency, a: Peer, b: Peer) { b in Neighbours(adj, a) }

  function Ends(e: Edge, dead: set<Peer>, n: Peer): nat {
    if e.source in dead || e.target in dead then 0 else (if e.source == n then 1 else 0) + if e.target == n then 1 else 0
  }

  /** How often a live edge leads from `a` to `b`; one from a node to itself does so both ways. */
  function Times(edges: seq<Edge>, dead: set<Peer>, a: Peer, b: Peer): nat {
    if edges == [] then 0 else Times(edges[..|edges| - 1], dead, a, b) + TimesOne(edges[|edges| - 1], dead, a, b)
  }

  function TimesOne(e: Edge, dead: set<Peer>, a: Peer, b: Peer): nat {
    if e.source in dead || e.target in dead then 0
    else (if e.source == a && e.target == b then 1 else 0) + if e.source == b && e.target == a then 1 else 0
  }

  /** The number of ends of live edges at a node. */
  function Degree(edges: seq<Edge>, dead: set<Peer>, n: Peer): nat {
    if edges == [] then 0 else Degree(edges[..|edges| - 1], dead, n) + Ends(edges[|edges| - 1], dead, n)
  }

  ghost predicate AdjacencyOk(adj: Adjacency, edges: seq<Edge>, dead: set<Peer>) {
    && (forall a, b :: b in Neighbours(adj, a) <==> LiveEdge(edges, dead, a, b))
    && (forall a :: |Neighbours(adj, a)| == Degree(edges, dead, a))
    && (forall a, b :: multiset(Neighbours(adj, a))[b] == Times(edges, dead, a, b))
  }

  method BuildAdjacency(edges: seq<Edge>, dead: set<Peer>) returns (adj: Adjacency)
    ensures AdjacencyOk(adj, edges, dead)
  {
    hide AdjacencyOk;
    adj := map[];
    NoEdges(edges, dead);
    for i := 0 to |edges|
      invariant AdjacencyOk(adj, edges[..i], dead)
    {
      var e := edges[i];
      ghost var before := adj;
      if e.source !in dead && e.target !in dead {
        if e.source !in adj { adj := adj[e.source := []]; }
        if e.target !in adj { adj := adj[e.target := []]; }
        adj := adj[e.source := adj[e.source] + [e.target]];
        adj := adj[e.target := adj[e.target] + [e.source]];
      }
      EdgeAdded(before, adj, e, dead);
      AdjacencyGrows(before, adj, edges, dead, i);
    }
    AllEdges(adj, edges, dead);
  }

  lemma EdgeAdded(before: Adjacency, after: Adjacency, e: Edge, dead: set<Peer>)
    requires
      if e.source in dead || e.target in dead then after == before
      else
        var one := before[e.source := Neighbours(before, e.source)];
        var both := one[e.target := Neighbours(one, e.target)];
        var half := both[e.source := both[e.source] + [e.target]];
        after == half[e.target := half[e.target] + [e.source]]
    ensures forall a :: Grown(before, after, e, dead, a)
  {
  }

  lemma AllEdges(adj: Adjacency, edges: seq<Edge>, dead: set<Peer>)
    requires AdjacencyOk(adj, edges[..|edges|], dead)
    ensures AdjacencyOk(adj, edges, dead)
  {
    assert edges[..|edges|] == edges;
  }

  /** What edge `e` adds to the neighbours of `a`. */
  function Appended(e: Edge, dead: set<Peer>, a: Peer): seq<Peer> {
    if e.source in dead || e.target in dead then []
    else (if e.source == a then [e.target] else []) + if e.target == a then [e.source] else []
  }

  ghost predicate Grown(before: Adjacency, after: Adjacency, e: Edge, dead: set<Peer>, a: Peer) {
    Neighbours(after, a) == Neighbours(before, a) + Appended(e, dead, a)
  }

  lemma AppendedIs(e: Edge, dead: set<Peer>, a: Peer, b: Peer)
    ensures b in Appended(e, dead, a) <==> JoinsLive(e, dead, a, b)
    ensures |Appended(e, dead, a)| == Ends(e, dead, a) && multiset(Appended(e, dead, a))[b] == TimesOne(e, dead, a, b)
  {
  }

  lemma NoEdges(edges: seq<Edge>, dead: set<Peer>)
    ensures AdjacencyOk(map[], edges[..0], dead)
  {
    assert edges[..0] == [];
    assert forall a :: Neighbours(map[], a) == [];
  }

  lemma AdjacencyGrows(before: Adjacency, after: Adjacency, edges: seq<Edge>, dead: set<Peer>, i: nat)
    requires i < |edges| && AdjacencyOk(before, edges[..i], dead)
    requires forall a :: Grown(before, after, edges[i], dead, a)
    ensures AdjacencyOk(after, edges[..i + 1], dead)
  {
    hide LiveEdge, JoinsLive, Ends, TimesOne, Appended;
    LiveEdgeSnoc(edges, dead, i);
    assert edges[..i + 1][..i] == edges[..i];
    forall a ensures |Neighbours(after, a)| == Degree(edges[..i + 1], dead, a) {
      assert Grown(before, after, edges[i], dead, a);
      AppendedIs(edges[i], dead, a, a);
    }
    forall a, b
      ensures b in Neighbours(after, a) <==> LiveEdge(edges[..i + 1], dead, a, b)
      ensures multiset(Neighbours(after, a))[b] == Times(edges[..i + 1], dead, a, b)
    {
      assert Grown(before, after, edges[i], dead, a);
      AppendedIs(edges[i], dead, a, b);
    }
  }

  lemma LiveEdgeSnoc(edges: seq<Edge>, dead: set<Peer>, i: nat)
    requires i < |edges|
    ensures forall a, b :: LiveEdge(edges[..i + 1], dead, a, b) <==> LiveEdge(edges[..i], dead, a, b) || JoinsLive(edges[i], dead, a, b)
  {
    forall a, b ensures LiveEdge(edges[..i + 1], dead, a, b) <==> LiveEdge(edges[..i], dead, a, b) || JoinsLive(edges[i], dead, a, b) {
      assert edges[..i + 1] == edges[..i] + [edges[i]];
      if LiveEdge(edges[..i], dead, a, b) {
        var k :| 0 <= k < i && JoinsLive(edges[..i][k], dead, a, b);
        assert edges[..i + 1][k] == edges[..i][k];
      }
      if JoinsLive(edges[i], dead, a, b) { assert edges[..i + 1][i] == edges[i]; }
    }
  }

  // ---- Distances ----

  ghost function NeighboursOf(adj: Adjacency, s: set<Peer>): set<Peer> {
    set x, y | x in s && y in Neighbours(adj, x) :: y
  }

  /** The nodes within `d` hops of the source. */
  ghost function Ball(adj: Adjacency, source: Peer, d: nat): set<Peer> {
    if d == 0 then {source} else Ball(adj, source, d - 1) + NeighboursOf(adj, Ball(adj, source, d - 1))
  }

  ghost predicate LivePath(edges: seq<Edge>, dead: set<Peer>, p: seq<Peer>, a: Peer, b: Peer) {
    p != [] && p[0] == a && p[|p| - 1] == b && forall i :: 0 <= i < |p| - 1 ==> LiveEdge(edges, dead, p[i], p[i + 1])
  }

  /** There is a live path of at most `d` edges. */
  ghost predicate WithinHops(edges: seq<Edge>, dead: set<Peer>, a: Peer, b: Peer, d: nat) {
    exists p :: LivePath(edges, dead, p, a, b) && |p| <= d + 1
  }

  lemma {:induction false} BallIsWithinHops(adj: Adjacency, edges: seq<Edge>, dead: set<Peer>, source: Peer, d: nat, n: Peer)
    requires AdjacencyOk(adj, edges, dead)
    ensures n in Ball(adj, source, d) <==> WithinHops(edges, dead, source, n, d)
  {
    if n in Ball(adj, source, d) { BallHasPath(adj, edges, dead, source, d, n); }
    if WithinHops(edges, dead, source, n, d) {
      var p :| LivePath(edges, dead, p, source, n) && |p| <= d + 1;
      PathInBall(adj, edges, dead, source, p);
      BallMonotone(adj, source, |p| - 1, d);
    }
  }

  lemma {:induction false} BallHasPath(adj: Adjacency, edges: seq<Edge>, dead: set<Peer>, source: Peer, d: nat, n: Peer)
    requires AdjacencyOk(adj, edges, dead) && n in Ball(adj, source, d)
    ensures WithinHops(edges, dead, source, n, d)
  {
    hide LiveEdge;
    if d == 0 {
      assert LivePath(edges, dead, [source], source, n);
    } else if n in Ball(adj, source, d - 1) {
      BallHasPath(adj, edges, dead, source, d - 1, n);
    } else {
      var x :| x in Ball(adj, source, d - 1) && n in Neighbours(adj, x);
      BallHasPath(adj, edges, dead, source, d - 1, x);
      var p :| LivePath(edges, dead, p, source, x) && |p| <= d;
      LongerPath(edges, dead, p, source, x, n);
    }
  }

  lemma LongerPath(edges: seq<Edge>, dead: set<Peer>, p: seq<Peer>, a: Peer, x: Peer, n: Peer)
    requires LivePath(edges, dead, p, a, x) && LiveEdge(edges, dead, x, n)
    ensures LivePath(edges, dead, p + [n], a, n)
  {
    var q := p + [n];
    forall i | 0 <= i < |q| - 1 ensures LiveEdge(edges, dead, q[i], q[i + 1]) {
      if i < |p| - 1 { assert LiveEdge(edges, dead, p[i], p[i + 1]); }
    }
  }

  lemma {:induction false} PathInBall(adj: Adjacency, edges: seq<Edge>, dead: set<Peer>, source: Peer, p: seq<Peer>)
    requires AdjacencyOk(adj, edges, dead) && p != [] && LivePath(edges, dead, p, source, p[|p| - 1])
    ensures p[|p| - 1] in Ball(adj, source, |p| - 1)
    decreases |p|
  {
    if |p| > 1 {
      var q := p[..|p| - 1];
      PathInBall(adj, edges, dead, source, q);
      assert LiveEdge(edges, dead, p[|p| - 2], p[|p| - 1]);
    }
  }

  lemma {:induction false} BallMonotone(adj: Adjacency, source: Peer, d: nat, e: nat)
    requires d <= e
    ensures Ball(adj, source, d) <= Ball(adj, source, e)
  {
    if d < e { BallMonotone(adj, source, d, e - 1); }
  }

  lemma {:induction false} ClosedBall(adj: Adjacency, source: Peer, d: nat, e: nat)
    requires NeighboursOf(adj, Ball(adj, source, d)) <= Ball(adj, source, d) && d <= e
    ensures Ball(adj, source, e) == Ball(adj, source, d)
  {
    if d < e { ClosedBall(adj, source, d, e - 1); }
  }

  // ---- Random samples ----

  /** Some permutation of the array. */
  method Shuffle(arr: seq<Peer>) returns (shuffled: seq<Peer>)
    ensures multiset(shuffled) == multiset(arr)
  {
    shuffled := [];
    var rest := arr;
    while rest != []
      invariant multiset(shuffled) + multiset(rest) == multiset(arr)
      decreases |rest|
    {
      var i :| 0 <= i < |rest|;
      assert rest == rest[..i] + [rest[i]] + rest[i + 1..];
      shuffled := shuffled + [rest[i]];
      rest := rest[..i] + rest[i + 1..];
    }
  }

  method SampleK(arr: seq<Peer>, k: nat) returns (sample: seq<Peer>)
    ensures multiset(sample) <= multiset(arr) && Elements(sample) <= Elements(arr)
    ensures |sample| == if k <= |arr| then k else |arr|
    ensures k >= |arr| ==> Elements(sample) == Elements(arr)
  {
    var shuffled := Shuffle(arr);
    assert |multiset(shuffled)| == |multiset(arr)|;
    sample := shuffled[..if k <= |shuffled| then k else |shuffled|];
    assert shuffled == sample + shuffled[|sample|..];
    SameElements(sample, arr);
    if k >= |arr| { SameElements(arr, sample); }
  }

  lemma SameElements(s: seq<Peer>, t: seq<Peer>)
    requires multiset(s) <= multiset(t)
    ensures Elements(s) <= Elements(t)
  {
    forall x | x in s ensures x in t { assert x in multiset(s) && x in multiset(t); }
  }

  function Elements(s: seq<Peer>): set<Peer> { set x | x in s }

  lemma ElementsBounds(s: seq<Peer>)
    ensures Elements(s[..0]) == {} && Elements(s[..|s|]) == Elements(s)
  {
    assert s[..|s|] == s;
  }

  lemma ElementsUpTo(s: seq<Peer>, i: nat)
    requires i < |s|
    ensures Elements(s[..i + 1]) == Elements(s[..i]) + {s[i]}
  {
    assert s[..i + 1] == s[..i] + [s[i]];
  }

  // ---- Waves ----

  lemma ElementsSnoc(s: seq<Peer>, x: Peer)
    ensures Elements(s + [x]) == Elements(s) + {x}
  {
  }

  ghost function Receivers(wave: seq<Transmission>): set<Peer> { set i | 0 <= i < |wave| :: wave[i].to }

  /** The source and everyone who got a transmission in these waves. */
  ghost function ReachedIn(source: Peer, waves: seq<seq<Transmission>>): set<Peer> {
    if waves == [] then {source} else ReachedIn(source, waves[..|waves| - 1]) + Receivers(waves[|waves| - 1])
  }

  ghost predicate WaveOk(adj: Adjacency, wave: seq<Transmission>, hop: nat) {
    forall i :: 0 <= i < |wave| ==> wave[i].to in Neighbours(adj, wave[i].from) && wave[i].hop == hop
  }

  lemma Recorded(adj: Adjacency, wave: seq<Transmission>, t: Transmission, hop: nat)
    requires WaveOk(adj, wave, hop) && Adjacent(adj, t.from, t.to) && t.hop == hop
    ensures WaveOk(adj, wave + [t], hop)
    ensures Receivers(wave + [t]) == Receivers(wave) + {t.to}
  {
    var all := wave + [t];
    forall x | x in Receivers(wave) ensures x in Receivers(all) {
      var i :| 0 <= i < |wave| && wave[i].to == x;
      assert all[i] == wave[i];
    }
    assert all[|wave|] == t;
  }

  /** To whom the node's transmissions of the wave go. */
  function SentBy(wave: seq<Transmission>, n: Peer): multiset<Peer> {
    if wave == [] then multiset{}
    else SentBy(wave[..|wave| - 1], n) + if wave[|wave| - 1].from == n then multiset{wave[|wave| - 1].to} else multiset{}
  }

  lemma SentBySnoc(wave: seq<Transmission>, t: Transmission)
    ensures forall n :: SentBy(wave + [t], n) == SentBy(wave, n) + if t.from == n then multiset{t.to} else multiset{}
  {
    assert (wave + [t])[..|wave|] == wave;
  }

  /** The node has sent this more. */
  ghost predicate SentMore(before: seq<Transmission>, after: seq<Transmission>, node: Peer, more: multiset<Peer>) {
    forall n :: SentBy(after, n) == SentBy(before, n) + if n == node then more else multiset{}
  }

  lemma SentOneMore(before: seq<Transmission>, after: seq<Transmission>, targets: seq<Peer>, i: nat, t: Transmission)
    requires i < |targets| && t.to == targets[i] && SentMore(before, after, t.from, multiset(targets[..i]))
    ensures SentMore(before, after + [t], t.from, multiset(targets[..i + 1]))
  {
    SentBySnoc(after, t);
    assert targets[..i + 1] == targets[..i] + [t.to];
    hide SentBy;
  }

  lemma SentBounds(before: seq<Transmission>, node: Peer, targets: seq<Peer>)
    ensures SentMore(before, before, node, multiset(targets[..0])) && targets[..|targets|] == targets
  {
    assert targets[..0] == [];
  }

  function Least(a: nat, b: nat): nat { if a <= b then a else b }

  ghost predicate Distinct(s: seq<Peer>) { forall i, j :: 0 <= i < j < |s| ==> s[i] != s[j] }

  /** Each node of the frontier passes the message on to as many neighbours as the fan-out allows, to none more often
      than edges lead there, and nobody else does. */
  ghost predicate Fanned(adj: Adjacency, fanout: nat, frontier: set<Peer>, wave: seq<Transmission>) {
    forall n :: |SentBy(wave, n)| == (if n in frontier then Least(fanout, |Neighbours(adj, n)|) else 0)
                && SentBy(wave, n) <= multiset(Neighbours(adj, n))
  }

  lemma FannedOne(adj: Adjacency, fanout: nat, frontier: set<Peer>, before: seq<Transmission>, after: seq<Transmission>, node: Peer,
                  targets: seq<Peer>)
    requires Fanned(adj, fanout, frontier, before) && node !in frontier
    requires multiset(targets) <= multiset(Neighbours(adj, node)) && |targets| == Least(fanout, |Neighbours(adj, node)|)
    requires SentMore(before, after, node, multiset(targets))
    ensures Fanned(adj, fanout, frontier + {node}, after)
  {
    assert |SentBy(before, node)| == 0;
    assert SentBy(before, node) == multiset{};
    assert |multiset(targets)| == |targets|;
  }

  lemma DistinctSnoc(s: seq<Peer>, t: Peer)
    requires Distinct(s) && t !in s
    ensures Distinct(s + [t])
  {
  }

  /** The nodes that got the message in the last of these waves and not before. */
  ghost function Newly(source: Peer, waves: seq<seq<Transmission>>): set<Peer> {
    if waves == [] then {source} else Receivers(waves[|waves| - 1]) - ReachedIn(source, waves[..|waves| - 1])
  }

  ghost predicate Unlimited(adj: Adjacency, fanout: nat) {
    forall n :: |Neighbours(adj, n)| <= fanout
  }

  /** What is recorded once the nodes `told` were told. */
  predicate Telling(events0: set<Peer>, seen0: set<Peer>, next0: set<Peer>, told: set<Peer>,
                    events: set<Peer>, seen: set<Peer>, next: set<Peer>) {
    events == events0 + told && seen == seen0 + told && next == next0 + (told - seen0)
  }

  lemma Tell(events0: set<Peer>, seen0: set<Peer>, next0: set<Peer>, told: set<Peer>,
             events: set<Peer>, seen: set<Peer>, next: set<Peer>, t: Peer)
    requires Telling(events0, seen0, next0, told, events, seen, next)
    ensures t in seen ==> Telling(events0, seen0, next0, told + {t}, events + {t}, seen, next)
    ensures t !in seen ==> Telling(events0, seen0, next0, told + {t}, events + {t}, seen + {t}, next + {t})
  {
  }

  lemma NextDistinct(next: seq<Peer>, seen: set<Peer>, t: Peer)
    requires Distinct(next) && Elements(next) <= seen && t !in seen
    ensures Distinct(next + [t]) && Elements(next + [t]) <= seen + {t}
  {
    assert t !in Elements(next);
    DistinctSnoc(next, t);
  }

  /** One node of the frontier passes the message on to its targets. */
  method Spread(adj: Adjacency, node: Peer, targets: seq<Peer>, seen0: set<Peer>, events0: seq<Transmission>,
                next0: seq<Peer>, hop: nat)
    returns (seen: set<Peer>, events: seq<Transmission>, next: seq<Peer>)
    requires WaveOk(adj, events0, hop) && forall i :: 0 <= i < |targets| ==> Adjacent(adj, node, targets[i])
    requires Distinct(next0) && Elements(next0) <= seen0
    ensures WaveOk(adj, events, hop)
    ensures Distinct(next) && Elements(next) <= seen
    ensures SentMore(events0, events, node, multiset(targets))
    ensures Telling(Receivers(events0), seen0, Elements(next0), Elements(targets), Receivers(events), seen, Elements(next))
  {
    ElementsBounds(targets);
    assert Telling(Receivers(events0), seen0, Elements(next0), {}, Receivers(events0), seen0, Elements(next0));
    SentBounds(events0, node, targets);
    hide Elements, Receivers, WaveOk, Adjacent, Telling, SentBy, SentMore, Distinct;
    seen, events, next := seen0, events0, next0;
    for i := 0 to |targets|
      invariant WaveOk(adj, events, hop)
      invariant Distinct(next) && Elements(next) <= seen
      invariant SentMore(events0, events, node, multiset(targets[..i]))
      invariant Telling(Receivers(events0), seen0, Elements(next0), Elements(targets[..i]), Receivers(events), seen, Elements(next))
    {
      var t := targets[i];
      Tell(Receivers(events0), seen0, Elements(next0), Elements(targets[..i]), Receivers(events), seen, Elements(next), t);
      ElementsUpTo(targets, i);
      ElementsSnoc(next, t);
      Recorded(adj, events, Transmission(node, t, hop), hop);
      SentOneMore(events0, events, targets, i, Transmission(node, t, hop));
      if t !in seen { NextDistinct(next, seen, t); }
      events := events + [Transmission(node, t, hop)];
      if t !in seen {
        seen, next := seen + {t}, next + [t];
      }
    }
  }

  /** A wave goes from the frontier to neighbours only, and to all of them if the fan-out allows it. */
  ghost predicate Told(adj: Adjacency, fanout: nat, frontier: set<Peer>, wave: seq<Transmission>, hop: nat) {
    && WaveOk(adj, wave, hop)
    && Receivers(wave) <= NeighboursOf(adj, frontier)
    && (Unlimited(adj, fanout) ==> Receivers(wave) == NeighboursOf(adj, frontier))
  }

  /** All nodes of the frontier pass the message on. */
  method Wave(adj: Adjacency, frontier: seq<Peer>, seen0: set<Peer>, fanout: nat, hop: nat)
    returns (seen: set<Peer>, events: seq<Transmission>, next: seq<Peer>)
    requires Distinct(frontier)
    ensures Told(adj, fanout, Elements(frontier), events, hop)
    ensures Fanned(adj, fanout, Elements(frontier), events) && Distinct(next)
    ensures seen == seen0 + Receivers(events) && Elements(next) == Receivers(events) - seen0
  {
    hide Distinct, SentBy, SentMore, Fanned, Receivers, Told, WaveOk, NeighboursOf, Elements;
    NobodyTold(adj, fanout, hop);
    seen, events, next := seen0, [], [];
    ElementsBounds(frontier);
    for i := 0 to |frontier|
      invariant Told(adj, fanout, Elements(frontier[..i]), events, hop)
      invariant Fanned(adj, fanout, Elements(frontier[..i]), events) && Distinct(next)
      invariant seen == seen0 + Receivers(events) && Elements(next) == Receivers(events) - seen0
    {
      ghost var before, events0 := Elements(frontier[..i]), events;
      FrontierNext(frontier, i);
      var targets := SampleK(Neighbours(adj, frontier[i]), fanout);
      forall k | 0 <= k < |targets| ensures Adjacent(adj, frontier[i], targets[k]) {
        SampledAdjacent(adj, frontier[i], targets, k);
      }
      ToldOnEdges(adj, fanout, before, events, hop);
      seen, events, next := Spread(adj, frontier[i], targets, seen, events, next, hop);
      FannedOne(adj, fanout, before, events0, events, frontier[i], targets);
      ToldOne(adj, fanout, before, events0, events, frontier[i], targets, hop);
    }
  }

  lemma SampledAdjacent(adj: Adjacency, n: Peer, targets: seq<Peer>, k: nat)
    requires Elements(targets) <= Elements(Neighbours(adj, n)) && k < |targets|
    ensures Adjacent(adj, n, targets[k])
  {
    assert targets[k] in Elements(targets);
  }

  lemma ToldOnEdges(adj: Adjacency, fanout: nat, frontier: set<Peer>, wave: seq<Transmission>, hop: nat)
    requires Told(adj, fanout, frontier, wave, hop)
    ensures WaveOk(adj, wave, hop)
  {
  }

  lemma ToldOne(adj: Adjacency, fanout: nat, frontier: set<Peer>, before: seq<Transmission>, after: seq<Transmission>, node: Peer,
                targets: seq<Peer>, hop: nat)
    requires Told(adj, fanout, frontier, before, hop) && WaveOk(adj, after, hop)
    requires Receivers(after) == Receivers(before) + Elements(targets) && Elements(targets) <= Elements(Neighbours(adj, node))
    requires fanout >= |Neighbours(adj, node)| ==> Elements(targets) == Elements(Neighbours(adj, node))
    ensures Told(adj, fanout, frontier + {node}, after, hop)
  {
    NeighboursOfMore(adj, frontier, node);
    hide Receivers, WaveOk, NeighboursOf, Elements;
  }

  lemma NobodyTold(adj: Adjacency, fanout: nat, hop: nat)
    ensures Told(adj, fanout, {}, [], hop) && Fanned(adj, fanout, {}, []) && Distinct([]) && Receivers([]) == {}
  {
  }

  lemma FrontierNext(frontier: seq<Peer>, i: nat)
    requires Distinct(frontier) && i < |frontier|
    ensures Elements(frontier[..i + 1]) == Elements(frontier[..i]) + {frontier[i]} && frontier[i] !in Elements(frontier[..i])
  {
    ElementsUpTo(frontier, i);
  }

  lemma NeighboursOfMore(adj: Adjacency, s: set<Peer>, n: Peer)
    ensures NeighboursOf(adj, s + {n}) == NeighboursOf(adj, s) + Elements(Neighbours(adj, n))
  {
  }

  ghost predicate WavesOk(adj: Adjacency, waves: seq<seq<Transmission>>) {
    forall k :: 0 <= k < |waves| ==> WaveOk(adj, waves[k], k + 1)
  }

  /** The waves so far reach exactly what lies within as many hops. */
  ghost predicate Exact(adj: Adjacency, source: Peer, waves: seq<seq<Transmission>>) {
    forall k :: 0 <= k <= |waves| ==> ReachedIn(source, waves[..k]) == Ball(adj, source, k)
  }

  /** The frontier is the layer at distance `d`, or nothing lies further away. */
  ghost predicate LastLayer(adj: Adjacency, source: Peer, d: nat, frontier: set<Peer>) {
    if frontier == {} then NeighboursOf(adj, Ball(adj, source, d)) <= Ball(adj, source, d)
    else frontier == Ball(adj, source, d) - (if d == 0 then {} else Ball(adj, source, d - 1))
  }

  ghost predicate Layered(adj: Adjacency, source: Peer, waves: seq<seq<Transmission>>, frontier: set<Peer>) {
    Exact(adj, source, waves) && LastLayer(adj, source, |waves|, frontier)
  }

  ghost predicate Bounded(adj: Adjacency, source: Peer, waves: seq<seq<Transmission>>) {
    forall k :: 0 <= k <= |waves| ==> ReachedIn(source, waves[..k]) <= Ball(adj, source, k)
  }

  lemma NeighboursMonotone(adj: Adjacency, s: set<Peer>, t: set<Peer>)
    requires s <= t
    ensures NeighboursOf(adj, s) <= NeighboursOf(adj, t)
  {
  }

  lemma NeighboursUnion(adj: Adjacency, s: set<Peer>, t: set<Peer>)
    ensures NeighboursOf(adj, s + t) == NeighboursOf(adj, s) + NeighboursOf(adj, t)
  {
  }

  /** Only the last layer has neighbours that are not within reach already. */
  lemma LastLayerDecides(adj: Adjacency, source: Peer, d: nat, frontier: set<Peer>)
    requires frontier == Ball(adj, source, d) - (if d == 0 then {} else Ball(adj, source, d - 1))
    ensures Ball(adj, source, d + 1) == Ball(adj, source, d) + NeighboursOf(adj, frontier)
  {
    if d > 0 {
      assert Ball(adj, source, d) == Ball(adj, source, d - 1) + frontier;
      NeighboursUnion(adj, Ball(adj, source, d - 1), frontier);
    }
  }

  /** A wave without transmissions is not recorded. */
  function Extended(waves: seq<seq<Transmission>>, wave: seq<Transmission>): seq<seq<Transmission>> {
    if |wave| == 0 then waves else waves + [wave]
  }

  lemma ReachedPrefix(source: Peer, waves: seq<seq<Transmission>>, wave: seq<Transmission>, k: nat)
    requires k <= |waves| + 1
    ensures ReachedIn(source, (waves + [wave])[..k]) ==
            if k <= |waves| then ReachedIn(source, waves[..k]) else ReachedIn(source, waves) + Receivers(wave)
  {
    var more := waves + [wave];
    if k <= |waves| { assert more[..k] == waves[..k]; } else { assert more[..k] == more && more[..|waves|] == waves; }
  }

  lemma WaveKeepsLayers(adj: Adjacency, source: Peer, waves: seq<seq<Transmission>>, frontier: set<Peer>,
                        wave: seq<Transmission>, next: set<Peer>)
    requires Layered(adj, source, waves, frontier) && frontier != {}
    requires Receivers(wave) == NeighboursOf(adj, frontier) && next == Receivers(wave) - ReachedIn(source, waves)
    ensures Layered(adj, source, Extended(waves, wave), next)
  {
    var d := |waves|;
    LastLayerDecides(adj, source, d, frontier);
    assert waves[..d] == waves;
    NoReceivers(wave);
    NextLayer(adj, source, d, Receivers(wave), |wave| == 0);
    if |wave| > 0 { WaveIsExact(adj, source, waves, wave); }
  }

  lemma BallStep(adj: Adjacency, source: Peer, d: nat)
    ensures Ball(adj, source, d + 1) == Ball(adj, source, d) + NeighboursOf(adj, Ball(adj, source, d))
  {
  }

  lemma NextLayer(adj: Adjacency, source: Peer, d: nat, told: set<Peer>, none: bool)
    requires Ball(adj, source, d + 1) == Ball(adj, source, d) + told && (none ==> told == {})
    ensures LastLayer(adj, source, if none then d else d + 1, told - Ball(adj, source, d))
  {
    BallStep(adj, source, d);
    hide Ball, NeighboursOf;
    var inner, outer, next := Ball(adj, source, d), Ball(adj, source, d + 1), told - Ball(adj, source, d);
    if next == {} {
      assert outer == inner && NeighboursOf(adj, inner) <= inner;
      assert LastLayer(adj, source, d, next) && LastLayer(adj, source, d + 1, next);
    } else {
      assert told != {} && next == outer - inner;
      assert LastLayer(adj, source, d + 1, next);
    }
  }

  lemma WaveIsExact(adj: Adjacency, source: Peer, waves: seq<seq<Transmission>>, wave: seq<Transmission>)
    requires Exact(adj, source, waves)
    requires Ball(adj, source, |waves| + 1) == ReachedIn(source, waves) + Receivers(wave)
    ensures Exact(adj, source, waves + [wave])
  {
    var more := waves + [wave];
    forall k | 0 <= k <= |more| ensures ReachedIn(source, more[..k]) == Ball(adj, source, k) {
      ReachedPrefix(source, waves, wave, k);
    }
  }

  lemma NoReceivers(wave: seq<Transmission>)
    ensures |wave| == 0 ==> Receivers(wave) == {}
  {
  }

  lemma WaveKeepsBound(adj: Adjacency, source: Peer, waves: seq<seq<Transmission>>, frontier: set<Peer>, wave: seq<Transmission>)
    requires Bounded(adj, source, waves) && frontier <= ReachedIn(source, waves)
    requires Receivers(wave) <= NeighboursOf(adj, frontier)
    ensures Bounded(adj, source, Extended(waves, wave))
    ensures ReachedIn(source, Extended(waves, wave)) == ReachedIn(source, waves) + Receivers(wave)
  {
    var more, d := waves + [wave], |waves|;
    assert waves[..d] == waves && more[..d + 1] == more;
    NeighboursMonotone(adj, frontier, Ball(adj, source, d));
    NoReceivers(wave);
    hide NeighboursOf, Receivers, ReachedIn;
    ReachedPrefix(source, waves, wave, d + 1);
    forall k | 0 <= k <= |more| ensures ReachedIn(source, more[..k]) <= Ball(adj, source, k) {
      ReachedPrefix(source, waves, wave, k);
    }
  }

  function Endpoints(edges: seq<Edge>): set<Peer> {
    if edges == [] then {} else Endpoints(edges[..|edges| - 1]) + {edges[|edges| - 1].source, edges[|edges| - 1].target}
  }

  lemma {:induction false} EndpointsCover(edges: seq<Edge>, dead: set<Peer>, a: Peer, b: Peer)
    requires LiveEdge(edges, dead, a, b)
    ensures b in Endpoints(edges)
  {
    var i :| 0 <= i < |edges| && JoinsLive(edges[i], dead, a, b);
    if i < |edges| - 1 {
      assert edges[..|edges| - 1][i] == edges[i];
      EndpointsCover(edges[..|edges| - 1], dead, a, b);
    }
  }

  lemma ReceiversWithin(adj: Adjacency, edges: seq<Edge>, dead: set<Peer>, wave: seq<Transmission>, hop: nat)
    requires AdjacencyOk(adj, edges, dead) && WaveOk(adj, wave, hop)
    ensures Receivers(wave) <= Endpoints(edges)
  {
    forall i | 0 <= i < |wave| ensures wave[i].to in Endpoints(edges) {
      EndpointsCover(edges, dead, wave[i].from, wave[i].to);
    }
  }

  lemma GrowthDecreases(all: set<Peer>, seen: set<Peer>, more: set<Peer>)
    requires seen <= more <= all
    ensures |all - more| <= |all - seen|
    ensures more != seen ==> |all - more| < |all - seen|
  {
    SubsetSize(all - more, all - seen);
    if more != seen {
      var x :| x in more && x !in seen;
      SubsetSize(all - more, (all - seen) - {x});
    }
  }

  /** What a round of the search has established. */
  ghost predicate Searching(adj: Adjacency, edges: seq<Edge>, source: Peer, fanout: nat,
                            waves: seq<seq<Transmission>>, frontier: set<Peer>, seen: set<Peer>) {
    && seen == ReachedIn(source, waves) && frontier <= seen <= Endpoints(edges) + {source}
    && WavesOk(adj, waves) && Bounded(adj, source, waves)
    && (Unlimited(adj, fanout) ==> Layered(adj, source, waves, frontier))
    && (forall k :: 0 <= k < |waves| ==> Fanned(adj, fanout, Newly(source, waves[..k]), waves[k]))
    && (if frontier != {} then frontier == Newly(source, waves)
        else forall n :: n in Newly(source, waves) ==> Least(fanout, |Neighbours(adj, n)|) == 0)
  }

  ghost function Unseen(edges: seq<Edge>, source: Peer, seen: set<Peer>): nat { |Endpoints(edges) + {source} - seen| }

  lemma SearchStarts(adj: Adjacency, edges: seq<Edge>, source: Peer, fanout: nat)
    ensures Searching(adj, edges, source, fanout, [], {source}, {source})
  {
    assert Layered(adj, source, [], {source});
  }

  lemma Grows(edges: seq<Edge>, source: Peer, seen: set<Peer>, told: set<Peer>)
    requires seen <= Endpoints(edges) + {source} && told <= Endpoints(edges)
    ensures Unseen(edges, source, seen + told) <= Unseen(edges, source, seen)
    ensures told - seen != {} ==> Unseen(edges, source, seen + told) < Unseen(edges, source, seen)
  {
    GrowthDecreases(Endpoints(edges) + {source}, seen, seen + told);
  }

  lemma WaveKeepsFans(adj: Adjacency, source: Peer, fanout: nat, waves: seq<seq<Transmission>>, frontier: set<Peer>,
                      wave: seq<Transmission>, next: set<Peer>)
    requires forall k :: 0 <= k < |waves| ==> Fanned(adj, fanout, Newly(source, waves[..k]), waves[k])
    requires frontier == Newly(source, waves) && Fanned(adj, fanout, frontier, wave) && next == Receivers(wave) - ReachedIn(source, waves)
    ensures var more := Extended(waves, wave);
            && (forall k :: 0 <= k < |more| ==> Fanned(adj, fanout, Newly(source, more[..k]), more[k]))
            && (if next != {} then next == Newly(source, more)
                else forall n :: n in Newly(source, more) ==> Least(fanout, |Neighbours(adj, n)|) == 0)
  {
    var more := Extended(waves, wave);
    if |wave| == 0 {
      assert Receivers(wave) == {};
      forall n | n in Newly(source, more) ensures Least(fanout, |Neighbours(adj, n)|) == 0 { assert SentBy(wave, n) == multiset{}; }
    } else {
      assert more[..|waves|] == waves;
      assert Newly(source, more) == next;
      hide Newly, Fanned;
      forall k | 0 <= k < |more| ensures Fanned(adj, fanout, Newly(source, more[..k]), more[k]) {
        if k < |waves| { assert more[..k] == waves[..k]; }
      }
    }
  }

  lemma SearchGoesOn(adj: Adjacency, edges: seq<Edge>, dead: set<Peer>, source: Peer, fanout: nat, waves: seq<seq<Transmission>>,
                     frontier: set<Peer>, seen: set<Peer>, wave: seq<Transmission>, next: set<Peer>)
    requires AdjacencyOk(adj, edges, dead)
    requires Searching(adj, edges, source, fanout, waves, frontier, seen) && frontier != {}
    requires Told(adj, fanout, frontier, wave, |waves| + 1) && next == Receivers(wave) - seen
    requires Fanned(adj, fanout, frontier, wave)
    ensures Searching(adj, edges, source, fanout, Extended(waves, wave), next, seen + Receivers(wave))
    ensures Unseen(edges, source, seen + Receivers(wave)) <= Unseen(edges, source, seen)
    ensures next != {} ==> Unseen(edges, source, seen + Receivers(wave)) < Unseen(edges, source, seen)
  {
    hide AdjacencyOk, Bounded, Layered, WaveOk, Unlimited, Receivers, ReachedIn, NeighboursOf, Endpoints, Unseen, Fanned, Newly, Least;
    ReceiversWithin(adj, edges, dead, wave, |waves| + 1);
    WaveKeepsBound(adj, source, waves, frontier, wave);
    if Unlimited(adj, fanout) { WaveKeepsLayers(adj, source, waves, frontier, wave, next); }
    WaveKeepsFans(adj, source, fanout, waves, frontier, wave, next);
    Grows(edges, source, seen, Receivers(wave));
  }

  /** What the caller can rely on at any fan-out. */
  ghost predicate Sound(source: Peer, edges: seq<Edge>, dead: set<Peer>, waves: seq<seq<Transmission>>) {
    && (forall k, i :: 0 <= k < |waves| && 0 <= i < |waves[k]| ==>
          LiveEdge(edges, dead, waves[k][i].from, waves[k][i].to) && waves[k][i].hop == k + 1)
    && (forall k, n :: 0 <= k <= |waves| && n in ReachedIn(source, waves[..k]) ==> WithinHops(edges, dead, source, n, k))
  }

  /** Everyone within reach got the message, and as early as a shortest path allows. */
  ghost predicate Complete(source: Peer, edges: seq<Edge>, dead: set<Peer>, waves: seq<seq<Transmission>>) {
    && (forall k, n :: 0 <= k <= |waves| && WithinHops(edges, dead, source, n, k) ==> n in ReachedIn(source, waves[..k]))
    && (forall n, d :: WithinHops(edges, dead, source, n, d) ==> n in ReachedIn(source, waves))
  }

  /** Whoever got the message first in one wave passes it on in the next one, over as many ends of live edges as the
      fan-out allows and over none twice, and nobody else sends anything; after the last wave no such node is left. */
  ghost predicate Generous(source: Peer, edges: seq<Edge>, dead: set<Peer>, fanout: nat, waves: seq<seq<Transmission>>) {
    && (forall k, n :: 0 <= k < |waves| ==>
          |SentBy(waves[k], n)| ==
          if n in Newly(source, waves[..k]) then (if fanout <= Degree(edges, dead, n) then fanout else Degree(edges, dead, n)) else 0)
    && (forall k, n, x :: 0 <= k < |waves| ==> SentBy(waves[k], n)[x] <= Times(edges, dead, n, x))
    && (forall n :: n in Newly(source, waves) ==> fanout == 0 || Degree(edges, dead, n) == 0)
  }

  /** No node has more live neighbours than the fan-out. */
  ghost predicate Roomy(edges: seq<Edge>, dead: set<Peer>, fanout: nat) {
    forall n :: Degree(edges, dead, n) <= fanout
  }

  /** Breadth-first propagation in waves. Every transmission uses a live edge and carries its wave's
      number; whoever is reached in the first k waves has a live path of at most k edges from the
      source. If no node has more neighbours than the fan-out, the converse holds too: the first
      wave in which a node receives is its distance, and all that can be reached are reached. */
  method ComputeGossipWaves(source: Peer, edges: seq<Edge>, dead: set<Peer>, fanout: nat)
    returns (waves: seq<seq<Transmission>>, reached: set<Peer>)
    ensures reached == ReachedIn(source, waves)
    ensures Sound(source, edges, dead, waves)
    ensures Generous(source, edges, dead, fanout, waves)
    ensures Roomy(edges, dead, fanout) ==> Complete(source, edges, dead, waves)
  {
    hide Generous, Fanned, Newly, Sound, Complete, Roomy, AdjacencyOk, WavesOk, Bounded, Layered, WaveOk, Unlimited, Told;
    var adj := BuildAdjacency(edges, dead);
    var seen := {source};
    waves := [];
    var frontier := [source];
    SearchStarts(adj, edges, source, fanout);
    assert Elements(frontier) == {source};
    while |frontier| > 0
      invariant Searching(adj, edges, source, fanout, waves, Elements(frontier), seen) && Distinct(frontier)
      decreases Unseen(edges, source, seen), |frontier|
    {
      var next: seq<Peer>;
      var waveEvents: seq<Transmission>;
      ghost var seen0 := seen;
      assert frontier[0] in Elements(frontier);
      seen, waveEvents, next := Wave(adj, frontier, seen, fanout, |waves| + 1);
      SearchGoesOn(adj, edges, dead, source, fanout, waves, Elements(frontier), seen0, waveEvents, Elements(next));
      if |next| > 0 { assert next[0] in Elements(next); }
      if |waveEvents| > 0 {
        waves := waves + [waveEvents];
      }
      frontier := next;
    }
    assert Elements(frontier) == {};
    reached := seen;
    WavesMeaning(adj, source, edges, dead, fanout, waves, seen);
    FansMeaning(adj, source, edges, dead, fanout, waves, seen);
    LayersMeaning(adj, source, edges, dead, fanout, waves, seen);
  }

  lemma FansMeaning(adj: Adjacency, source: Peer, edges: seq<Edge>, dead: set<Peer>, fanout: nat, waves: seq<seq<Transmission>>, seen: set<Peer>)
    requires AdjacencyOk(adj, edges, dead) && Searching(adj, edges, source, fanout, waves, {}, seen)
    ensures Generous(source, edges, dead, fanout, waves)
  {
    hide WavesOk, Bounded, Layered, Newly, SentBy, Degree;
    forall k, n | 0 <= k < |waves|
      ensures |SentBy(waves[k], n)| ==
              if n in Newly(source, waves[..k]) then (if fanout <= Degree(edges, dead, n) then fanout else Degree(edges, dead, n)) else 0
    {
      assert Fanned(adj, fanout, Newly(source, waves[..k]), waves[k]);
      assert |Neighbours(adj, n)| == Degree(edges, dead, n);
    }
    forall k, n, x | 0 <= k < |waves| ensures SentBy(waves[k], n)[x] <= Times(edges, dead, n, x) {
      assert Fanned(adj, fanout, Newly(source, waves[..k]), waves[k]);
      assert SentBy(waves[k], n)[x] <= multiset(Neighbours(adj, n))[x];
    }
  }

  lemma WavesMeaning(adj: Adjacency, source: Peer, edges: seq<Edge>, dead: set<Peer>, fanout: nat, waves: seq<seq<Transmission>>, seen: set<Peer>)
    requires AdjacencyOk(adj, edges, dead) && Searching(adj, edges, source, fanout, waves, {}, seen)
    ensures Sound(source, edges, dead, waves)
  {
    forall k, i | 0 <= k < |waves| && 0 <= i < |waves[k]|
      ensures LiveEdge(edges, dead, waves[k][i].from, waves[k][i].to) && waves[k][i].hop == k + 1
    {
      assert WaveOk(adj, waves[k], k + 1);
    }
    forall k, n | 0 <= k <= |waves| && n in ReachedIn(source, waves[..k]) ensures WithinHops(edges, dead, source, n, k) {
      BallIsWithinHops(adj, edges, dead, source, k, n);
    }
  }

  lemma LayersMeaning(adj: Adjacency, source: Peer, edges: seq<Edge>, dead: set<Peer>, fanout: nat, waves: seq<seq<Transmission>>, seen: set<Peer>)
    requires AdjacencyOk(adj, edges, dead) && Searching(adj, edges, source, fanout, waves, {}, seen)
    ensures Roomy(edges, dead, fanout) ==> Complete(source, edges, dead, waves)
  {
    if Roomy(edges, dead, fanout) {
      assert Unlimited(adj, fanout);
      forall k, n | 0 <= k <= |waves| && WithinHops(edges, dead, source, n, k) ensures n in ReachedIn(source, waves[..k]) {
        BallIsWithinHops(adj, edges, dead, source, k, n);
      }
      assert waves[..|waves|] == waves;
      forall n, d: nat | WithinHops(edges, dead, source, n, d) ensures n in ReachedIn(source, waves) {
        BallIsWithinHops(adj, edges, dead, source, d, n);
        if d <= |waves| { BallMonotone(adj, source, d, |waves|); } else { ClosedBall(adj, source, |waves|, d); }
      }
    }
  }
}
