/** How much traffic a run can cause: the deliveries and losses are bounded by the originations. */
module Termination {
  import opened Common
  import opened TopicRouting
  import opened Gossip
  import opened Network
  import opened PathVector

  /** The (node, message) pairs still to be processed for the first time. */
  ghost function Unseen(cfg: Config, s: State): set<(Peer, Id)> {
    set n, id | n in Nodes(cfg) && id in s.log && id !in Seen(s, n) :: (n, id)
  }

  /** More than the number of copies that one broadcast can put in flight. */
  function Burst(cfg: Config): nat { 2 * |Nodes(cfg)| + 1 }

  /** N * (2N + 1): more than one origination can cost. */
  function Flood(cfg: Config): (cost: nat)
    ensures cost == |Nodes(cfg)| * (2 * |Nodes(cfg)| + 1)
  {
    |Nodes(cfg)| * Burst(cfg)
  }

  ghost function Potential(cfg: Config, s: State): nat {
    |Unseen(cfg, s)| * Burst(cfg) + |s.net|
  }

  predicate Consumes(step: Step) { step.Deliver? || step.Lose? }

  predicate Originates(step: Step) { step.Publish? || step.Advertise? }

  predicate Duplicates(step: Step) { step.Duplicate? }

  function Count(steps: seq<Step>, p: Step -> bool): nat {
    if steps == [] then 0 else (if p(steps[0]) then 1 else 0) + Count(steps[1..], p)
  }

  /** A set of values of `f` on `a` has no more elements than `a`. */
  lemma {:induction false} ImageSize<A, B>(a: set<A>, f: A -> B, image: set<B>)
    requires forall y :: y in image ==> exists x :: x in a && y == f(x)
    ensures |image| <= |a|
    decreases |a|
  {
    if image != {} {
      var y0 :| y0 in image;
      var x0 :| x0 in a && y0 == f(x0);
      forall y | y in image - {y0} ensures exists x :: x in a - {x0} && y == f(x) {
        var x :| x in a && y == f(x);
        assert x in a - {x0};
      }
      ImageSize(a - {x0}, f, image - {y0});
    }
  }

  lemma OneWaySize(peers: set<Peer>, self: Peer, targets: set<Peer>, m: Message, trail: seq<Peer>, all: set<Peer>)
    requires targets * peers <= all
    ensures |OneWay(peers, self, targets, m, trail)| <= |all|
  {
    var send := p => Copy(self, p, m, trail);
    forall c | c in OneWay(peers, self, targets, m, trail) ensures exists p :: p in targets * peers && c == send(p) {
      assert c == send(c.to);
    }
    ImageSize(targets * peers, send, OneWay(peers, self, targets, m, trail));
    SubsetSize(targets * peers, all);
  }

  lemma CopiesSize(pool: Pool, self: Peer, targets: set<Peer>, m: Message, trail: seq<Peer>, all: set<Peer>)
    requires targets * (pool.outbound + pool.inbound) <= all
    ensures |Copies(pool, self, targets, m, trail)| <= 2 * |all|
    ensures targets == {} ==> Copies(pool, self, targets, m, trail) == multiset{}
  {
    OneWaySize(pool.outbound, self, targets, m, trail, all);
    OneWaySize(pool.inbound, self, targets, m, trail, all);
  }

  /** A node that has seen the message already sends nothing, another one at most two copies per node. */
  lemma ArriveNet(cfg: Config, s: State, n: Peer, m: Message, trail: seq<Peer>, now: int, chosen: set<Peer>)
    requires ValidConfig(cfg) && s.locals.Keys == Nodes(cfg) && n in Nodes(cfg)
    ensures var t := Arrive(cfg, s, n, m, trail, now, chosen);
            |t.net| <= |s.net| + if m.id in Seen(s, n) then 0 else Burst(cfg) - 1
  {
    var e := Receive(n, Links(cfg, n), s.locals[n], m, Inbound(trail), now, chosen);
    CopiesSize(cfg.pools[n], n, e.targets, e.message, trail + [n], Nodes(cfg));
  }

  lemma ArriveUnseen(cfg: Config, s: State, n: Peer, m: Message, trail: seq<Peer>, now: int, chosen: set<Peer>)
    requires s.locals.Keys == Nodes(cfg) && n in Nodes(cfg) && m.id in s.log
    ensures var t := Arrive(cfg, s, n, m, trail, now, chosen);
            |Unseen(cfg, t)| == |Unseen(cfg, s)| - if m.id in Seen(s, n) then 0 else 1
  {
    var t := Arrive(cfg, s, n, m, trail, now, chosen);
    ArriveFrame(cfg, s, n, m, trail, now, chosen);
    if m.id in Seen(s, n) {
      assert Unseen(cfg, t) == Unseen(cfg, s);
    } else {
      assert (n, m.id) in Unseen(cfg, s);
      assert Unseen(cfg, t) == Unseen(cfg, s) - {(n, m.id)};
    }
  }

  lemma ArrivePotential(cfg: Config, s: State, n: Peer, m: Message, trail: seq<Peer>, now: int, chosen: set<Peer>)
    requires ValidConfig(cfg) && s.locals.Keys == Nodes(cfg) && n in Nodes(cfg) && m.id in s.log
    ensures var t := Arrive(cfg, s, n, m, trail, now, chosen);
            Potential(cfg, t) <= Potential(cfg, s) - if m.id in Seen(s, n) then 0 else 1
  {
    ArriveNet(cfg, s, n, m, trail, now, chosen);
    ArriveUnseen(cfg, s, n, m, trail, now, chosen);
    var t := Arrive(cfg, s, n, m, trail, now, chosen);
    if m.id !in Seen(s, n) {
      assert |Unseen(cfg, s)| * Burst(cfg) == |Unseen(cfg, t)| * Burst(cfg) + Burst(cfg);
    }
  }

  lemma DeliveryPotential(cfg: Config, s: State, step: Step)
    requires ValidConfig(cfg) && BaseInv(cfg, s) && Enabled(cfg, s, step) && step.Deliver?
    ensures Potential(cfg, Next(cfg, s, step)) < Potential(cfg, s)
  {
    var c := step.copy;
    assert CopyOk(cfg, s, c);
    assert Unseen(cfg, Taken(s, c)) == Unseen(cfg, s);
    ArrivePotential(cfg, Taken(s, c), c.to, c.msg, c.trail, step.now, step.chosen);
  }

  /** Originating a message adds one pair per node at most. */
  lemma OriginatedUnseen(cfg: Config, s: State, step: Step)
    requires Enabled(cfg, s, step) && Originates(step)
    ensures |Unseen(cfg, Originated(cfg, s, step))| <= |Unseen(cfg, s)| + |Nodes(cfg)|
  {
    var t := Originated(cfg, s, step);
    var pair := (n: Peer) => (n, step.id);
    var added := Unseen(cfg, t) - Unseen(cfg, s);
    forall y | y in added ensures exists n :: n in Nodes(cfg) && y == pair(n) {
      assert y.0 in Nodes(cfg) && y == pair(y.0);
    }
    ImageSize(Nodes(cfg), pair, added);
    SubsetSize(Unseen(cfg, t), Unseen(cfg, s) + added);
    assert |Unseen(cfg, s) + added| <= |Unseen(cfg, s)| + |added|;
  }

  lemma OriginatedPotential(cfg: Config, s: State, step: Step)
    requires Enabled(cfg, s, step) && Originates(step)
    ensures Potential(cfg, Originated(cfg, s, step)) <= Potential(cfg, s) + Flood(cfg)
  {
    var t := Originated(cfg, s, step);
    OriginatedUnseen(cfg, s, step);
    MulMonotone(|Unseen(cfg, t)|, |Unseen(cfg, s)| + |Nodes(cfg)|, Burst(cfg));
    assert (|Unseen(cfg, s)| + |Nodes(cfg)|) * Burst(cfg) == |Unseen(cfg, s)| * Burst(cfg) + |Nodes(cfg)| * Burst(cfg);
  }

  lemma MulMonotone(a: nat, b: nat, k: nat)
    requires a <= b
    ensures a * k <= b * k
  {
  }

  lemma OriginationPotential(cfg: Config, s: State, step: Step)
    requires ValidConfig(cfg) && BaseInv(cfg, s) && Enabled(cfg, s, step) && Originates(step)
    ensures Potential(cfg, Next(cfg, s, step)) <= Potential(cfg, s) + Flood(cfg)
  {
    OriginatedPotential(cfg, s, step);
    ArrivePotential(cfg, Originated(cfg, s, step), step.node, NewMessage(cfg, step, s), [], step.now,
                    if step.Publish? then step.chosen else {});
  }

  lemma TableStepPotential(cfg: Config, s: State, step: Step)
    requires Enabled(cfg, s, step) && (step.Handshake? || step.Collect? || step.Disconnect?)
    ensures Potential(cfg, Next(cfg, s, step)) == Potential(cfg, s)
  {
    SameUnseen(cfg, s, step.node, Next(cfg, s, step).locals[step.node].routes);
  }

  lemma SameUnseen(cfg: Config, s: State, n: Peer, table: Table)
    requires n in s.locals
    ensures Unseen(cfg, WithRoutes(s, n, table)) == Unseen(cfg, s)
  {
  }

  /** What a step may add to the potential. */
  function Allowance(cfg: Config, step: Step): nat {
    if Originates(step) then Flood(cfg) else if step.Duplicate? then 1 else 0
  }

  function Budget(cfg: Config, steps: seq<Step>): nat {
    if steps == [] then 0 else Allowance(cfg, steps[0]) + Budget(cfg, steps[1..])
  }

  lemma StepPotential(cfg: Config, s: State, step: Step)
    requires ValidConfig(cfg) && BaseInv(cfg, s) && Enabled(cfg, s, step)
    ensures Potential(cfg, Next(cfg, s, step)) + (if Consumes(step) then 1 else 0) <= Potential(cfg, s) + Allowance(cfg, step)
  {
    var t := Next(cfg, s, step);
    if step.Deliver? {
      DeliveryPotential(cfg, s, step);
    } else if Originates(step) {
      OriginationPotential(cfg, s, step);
    } else if step.Lose? || step.Duplicate? {
      assert Unseen(cfg, t) == Unseen(cfg, s);
    } else {
      TableStepPotential(cfg, s, step);
    }
  }

  lemma {:induction false} RunPotential(cfg: Config, s: State, steps: seq<Step>, end: State)
    requires ValidConfig(cfg) && BaseInv(cfg, s) && Run(cfg, s, steps, end)
    ensures Count(steps, Consumes) + Potential(cfg, end) <= Potential(cfg, s) + Budget(cfg, steps)
    decreases |steps|
  {
    if steps != [] {
      NextKeepsBase(cfg, s, steps[0]);
      StepPotential(cfg, s, steps[0]);
      RunPotential(cfg, Next(cfg, s, steps[0]), steps[1..], end);
    }
  }

  lemma {:induction false} BudgetCounts(cfg: Config, steps: seq<Step>)
    ensures Budget(cfg, steps) == Count(steps, Originates) * Flood(cfg) + Count(steps, Duplicates)
  {
    if steps != [] {
      BudgetCounts(cfg, steps[1..]);
      var k := if Originates(steps[0]) then 1 else 0;
      assert (k + Count(steps[1..], Originates)) * Flood(cfg) == k * Flood(cfg) + Count(steps[1..], Originates) * Flood(cfg);
    }
  }

  /** Every run of N nodes with k originations and d duplications, whatever else happens in it, has at
      most k * N * (2N + 1) + d deliveries and losses, the copies still in flight included. */
  lemma TrafficBound(cfg: Config, steps: seq<Step>, s: State)
    requires ValidConfig(cfg) && Run(cfg, Initial(cfg), steps, s)
    ensures Count(steps, Consumes) + |s.net|
            <= Count(steps, Originates) * (|Nodes(cfg)| * (2 * |Nodes(cfg)| + 1)) + Count(steps, Duplicates)
  {
    assert Flood(cfg) == |Nodes(cfg)| * (2 * |Nodes(cfg)| + 1);
    InitialBase(cfg);
    RunPotential(cfg, Initial(cfg), steps, s);
    BudgetCounts(cfg, steps);
    InitialPotential(cfg);
    NetWithinPotential(cfg, s);
    hide Potential, Flood, BaseInv, Run;
  }

  lemma NetWithinPotential(cfg: Config, s: State)
    ensures |s.net| <= Potential(cfg, s)
  {
    MulMonotone(0, |Unseen(cfg, s)|, Burst(cfg));
  }

  lemma InitialPotential(cfg: Config)
    ensures Potential(cfg, Initial(cfg)) == 0
  {
    assert Unseen(cfg, Initial(cfg)) == {};
  }

  /** A copy in flight can always be delivered, and that brings the network closer to rest. */
  lemma CanDeliver(cfg: Config, s: State, c: Copy, now: int) returns (step: Step)
    requires ValidConfig(cfg) && BaseInv(cfg, s) && c in s.net
    ensures step.Deliver? && step.now == now && Enabled(cfg, s, step) && BaseInv(cfg, Next(cfg, s, step))
    ensures Potential(cfg, Next(cfg, s, step)) < Potential(cfg, s)
  {
    assert CopyOk(cfg, s, c);
    var chosen := PickFanout(cfg.fanout, Eligible(Links(cfg, c.to), s.locals[c.to].routes, c.msg, Inbound(c.trail), now));
    step := Deliver(c, now, chosen);
    DeliveryPotential(cfg, s, step);
    NextKeepsBase(cfg, s, step);
  }

  /** Delivering whatever is in flight empties the network, within the potential of the state. */
  lemma {:induction false} Quiescence(cfg: Config, s: State, now: int) returns (steps: seq<Step>, end: State)
    requires ValidConfig(cfg) && BaseInv(cfg, s)
    ensures Run(cfg, s, steps, end) && DeliveriesAt(steps, now)
    ensures |end.net| == 0 && |steps| <= Potential(cfg, s)
    decreases Potential(cfg, s)
  {
    if |s.net| == 0 {
      steps, end := [], s;
    } else {
      var c :| c in s.net;
      var step := CanDeliver(cfg, s, c, now);
      steps, end := Quiescence(cfg, Next(cfg, s, step), now);
      PrependRun(cfg, s, step, steps, end);
      PrependDelivery(step, steps, now);
      steps := [step] + steps;
    }
  }
}
