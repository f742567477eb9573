/** What a run that loses no copy of a message achieves once no copy of it is in flight: gossip covers the
    publisher's component, routing converges, and topic messages find every subscriber through transit
    nodes. Whatever happens to other messages does not matter. */
module Coverage {
  import opened Common
  import opened TopicRouting
  import opened Gossip
  import opened Network
  import opened PathVector
  import opened LoopFreedom

  ghost predicate InFlightTo(s: State, id: Id, p: Peer) {
    exists c :: c in s.net && c.msg.id == id && c.to == p
  }

  ghost predicate Quiet(s: State, id: Id) {
    forall c :: c in s.net ==> c.msg.id != id
  }

  /** Peer `p` has seen the message or has a copy on the way. */
  ghost predicate Reaching(s: State, id: Id, p: Peer) {
    id in Seen(s, p) || InFlightTo(s, id, p)
  }

  /** The peers that each node is to pass a message to. */
  type Duty = Peer -> set<Peer>

  /** Everyone that some node which has seen the message is to pass it to is being reached. */
  ghost predicate Served(s: State, id: Id, duty: Duty) {
    forall x, p :: id in Seen(s, x) && p in duty(x) ==> Reaching(s, id, p)
  }

  ghost predicate WithinLinks(cfg: Config, duty: Duty) {
    forall x :: duty(x) <= Links(cfg, x)
  }

  lemma NetGrowsReaching(s: State, t: State, id: Id, p: Peer)
    requires Reaching(s, id, p) && Seen(s, p) <= Seen(t, p)
    requires forall c :: c in s.net && c.msg.id == id && c.to == p ==> c in t.net
    ensures Reaching(t, id, p)
  {
  }

  /** A node whose message has no TTL left is the last one that had not seen it. */
  lemma LastNode(cfg: Config, s: State, n: Peer, m: Message, trail: seq<Peer>)
    requires Acceptable(cfg, s, n, m, trail) && m.id !in Seen(s, n)
    requires |Nodes(cfg)| <= cfg.maxTtl && m.ttl <= 1
    ensures forall p :: p in Nodes(cfg) ==> p == n || m.id in Seen(s, p)
  {
    NoDupWithin(trail + [n], Nodes(cfg));
    forall p | p in Nodes(cfg) ensures p == n || m.id in Seen(s, p) {
      assert p in trail + [n];
    }
  }

  /** Processing a message keeps it served if a node that can still forward it does so to everyone it
      is to pass it to, the nodes that have it already excepted. */
  lemma ArriveServes(cfg: Config, s: State, n: Peer, m: Message, trail: seq<Peer>, now: int, chosen: set<Peer>, duty: Duty)
    requires ValidConfig(cfg) && s.locals.Keys == Nodes(cfg) && |Nodes(cfg)| <= cfg.maxTtl
    requires Acceptable(cfg, s, n, m, trail) && WithinLinks(cfg, duty)
    requires forall x, p :: m.id in Seen(s, x) && p in duty(x) ==> p == n || Reaching(s, m.id, p)
    requires m.id !in Seen(s, n) && m.ttl > 1 ==>
               duty(n) - Set(trail) <= Receive(n, Links(cfg, n), s.locals[n], m, Inbound(trail), now, chosen).targets
    ensures Served(Arrive(cfg, s, n, m, trail, now, chosen), m.id, duty)
  {
    var t := Arrive(cfg, s, n, m, trail, now, chosen);
    var e := Receive(n, Links(cfg, n), s.locals[n], m, Inbound(trail), now, chosen);
    ArriveFrame(cfg, s, n, m, trail, now, chosen);
    forall x, p | m.id in Seen(t, x) && p in duty(x) ensures Reaching(t, m.id, p) {
      if p == n {
      } else if m.id in Seen(s, x) {
        NetGrowsReaching(s, t, m.id, p);
      } else if m.ttl <= 1 {
        LastNode(cfg, s, n, m, trail);
        assert p in Nodes(cfg);
      } else if p !in Set(trail) {
        CopiesMembers(cfg.pools[n], n, e.targets, e.message, trail + [n], Copy(n, p, e.message, trail + [n]));
        assert Copy(n, p, e.message, trail + [n]) in t.net;
      }
    }
  }

  lemma OthersServed(cfg: Config, s: State, n: Peer, m: Message, trail: seq<Peer>, now: int, chosen: set<Peer>,
                     id: Id, duty: Duty)
    requires n in cfg.pools && n in s.locals && id != m.id
    requires Served(s, id, duty)
    ensures Served(Arrive(cfg, s, n, m, trail, now, chosen), id, duty)
  {
    var t := Arrive(cfg, s, n, m, trail, now, chosen);
    ArriveFrame(cfg, s, n, m, trail, now, chosen);
    forall x, p | id in Seen(t, x) && p in duty(x) ensures Reaching(t, id, p) {
      NetGrowsReaching(s, t, id, p);
    }
  }

  /** Taking a copy out of the network leaves everyone reached but its receiver. */
  lemma TakenServes(s: State, c: Copy, id: Id, duty: Duty)
    requires c in s.net && Served(s, id, duty)
    ensures forall x, p :: id in Seen(Taken(s, c), x) && p in duty(x) ==> p == c.to || Reaching(Taken(s, c), id, p)
    ensures id != c.msg.id ==> Served(Taken(s, c), id, duty)
  {
    var t := Taken(s, c);
    forall x, p | id in Seen(t, x) && p in duty(x) && (p != c.to || id != c.msg.id) ensures Reaching(t, id, p) {
      NetGrowsReaching(s, t, id, p);
    }
  }

  /** In a quiet state everyone at the end of a chain of duties has seen the message. */
  lemma {:induction false} ServedAlong(s: State, id: Id, duty: Duty, p: seq<Peer>)
    requires Served(s, id, duty) && Quiet(s, id)
    requires p != [] && id in Seen(s, p[0])
    requires forall i :: 0 <= i < |p| - 1 ==> p[i + 1] in duty(p[i])
    ensures id in Seen(s, p[|p| - 1])
    decreases |p|
  {
    if |p| > 1 {
      assert Reaching(s, id, p[1]);
      ServedAlong(s, id, duty, p[1..]);
    }
  }

  // ---- Ordinary messages ----

  /** The message that a step makes a node process, with the node and the trail. */
  ghost predicate Processes(step: Step) { step.Publish? || step.Deliver? }

  ghost function At(step: Step): Peer
    requires Processes(step)
  {
    if step.Publish? then step.node else step.copy.to
  }

  ghost function Processed(cfg: Config, s: State, step: Step): Message
    requires Processes(step)
  {
    if step.Publish? then NewMessage(cfg, step, s) else step.copy.msg
  }

  ghost function TrailOf(step: Step): seq<Peer>
    requires Processes(step)
  {
    if step.Publish? then [] else step.copy.trail
  }

  /** No copy of the message is lost. */
  predicate Spares(step: Step, id: Id) { step.Lose? ==> step.copy.msg.id != id }

  ghost predicate Lossless(steps: seq<Step>, id: Id) {
    forall i :: 0 <= i < |steps| ==> Spares(steps[i], id)
  }

  /** The fan-out is no limit for this message in this step. */
  ghost predicate Roomy(cfg: Config, s: State, step: Step, id: Id)
    requires Enabled(cfg, s, step)
  {
    Processes(step) && Processed(cfg, s, step).id == id && Processed(cfg, s, step).kind.Ordinary? ==>
      |Eligible(Links(cfg, At(step)), s.locals[At(step)].routes, Processed(cfg, s, step), Inbound(TrailOf(step)), step.now)|
      <= cfg.fanout
  }

  ghost predicate RunRoomy(cfg: Config, s: State, steps: seq<Step>, id: Id)
    decreases |steps|
  {
    steps != [] ==>
      Enabled(cfg, s, steps[0]) && Roomy(cfg, s, steps[0], id) && RunRoomy(cfg, Next(cfg, s, steps[0]), steps[1..], id)
  }

  /** Nodes with at most `fanout` neighbours are never limited by it. */
  lemma {:induction false} SmallDegreeIsRoomy(cfg: Config, s: State, steps: seq<Step>, end: State, id: Id)
    requires Run(cfg, s, steps, end)
    requires forall n :: |Links(cfg, n)| <= cfg.fanout
    ensures RunRoomy(cfg, s, steps, id)
    decreases |steps|
  {
    if steps != [] {
      var step := steps[0];
      if Processes(step) {
        SubsetSize(Eligible(Links(cfg, At(step)), s.locals[At(step)].routes, Processed(cfg, s, step),
                            Inbound(TrailOf(step)), step.now), Links(cfg, At(step)));
      }
      SmallDegreeIsRoomy(cfg, Next(cfg, s, step), steps[1..], end, id);
    }
  }

  /** What a node must still know when it processes the message: the peers of its duty are eligible. */
  ghost predicate DutyEligible(cfg: Config, s: State, step: Step, id: Id, duty: Duty)
    requires Enabled(cfg, s, step)
  {
    Processes(step) && Processed(cfg, s, step).id == id ==>
      var m := Processed(cfg, s, step);
      duty(At(step)) - {m.sender} - OfOption(Inbound(TrailOf(step)))
      <= Eligible(Links(cfg, At(step)), s.locals[At(step)].routes, m, Inbound(TrailOf(step)), step.now)
  }

  /** A step that loses no copy of an ordinary message keeps it served, or starts serving it. */
  lemma StepServes(cfg: Config, s: State, step: Step, id: Id, duty: Duty)
    requires ValidConfig(cfg) && BaseInv(cfg, s) && Enabled(cfg, s, step) && Spares(step, id)
    requires |Nodes(cfg)| <= cfg.maxTtl && WithinLinks(cfg, duty)
    requires Roomy(cfg, s, step, id) && DutyEligible(cfg, s, step, id, duty)
    requires id in s.log ==> s.log[id].kind.Ordinary?
    requires step.Advertise? ==> step.id != id
    requires Served(s, id, duty)
    ensures Served(Next(cfg, s, step), id, duty)
  {
    if step.Deliver? {
      DeliverServes(cfg, s, step, id, duty);
    } else if step.Publish? || step.Advertise? {
      OriginationServes(cfg, s, step, id, duty);
    } else if step.Lose? {
      TakenServes(s, step.copy, id, duty);
    } else {
      IdleServes(cfg, s, step, id, duty);
    }
  }

  lemma IdleServes(cfg: Config, s: State, step: Step, id: Id, duty: Duty)
    requires Enabled(cfg, s, step) && !step.Lose? && !step.Deliver? && !step.Publish? && !step.Advertise?
    requires Served(s, id, duty)
    ensures Served(Next(cfg, s, step), id, duty)
  {
    var t := Next(cfg, s, step);
    forall x, p | id in Seen(t, x) && p in duty(x) ensures Reaching(t, id, p) {
      assert id in Seen(s, x);
      NetGrowsReaching(s, t, id, p);
    }
  }

  lemma DeliverServes(cfg: Config, s: State, step: Step, id: Id, duty: Duty)
    requires ValidConfig(cfg) && BaseInv(cfg, s) && Enabled(cfg, s, step) && step.Deliver?
    requires |Nodes(cfg)| <= cfg.maxTtl && WithinLinks(cfg, duty)
    requires Roomy(cfg, s, step, id) && DutyEligible(cfg, s, step, id, duty)
    requires id in s.log ==> s.log[id].kind.Ordinary?
    requires Served(s, id, duty)
    ensures Served(Next(cfg, s, step), id, duty)
  {
    var c, t := step.copy, Taken(s, step.copy);
    TakenKeepsBase(cfg, s, c);
    TakenServes(s, c, id, duty);
    if c.msg.id == id {
      FullFanout(cfg, s, step, duty);
      ArriveServes(cfg, t, c.to, c.msg, c.trail, step.now, step.chosen, duty);
    } else {
      OthersServed(cfg, t, c.to, c.msg, c.trail, step.now, step.chosen, id, duty);
    }
  }

  /** With room for all, the chosen peers are all the eligible ones. */
  lemma FullFanout(cfg: Config, s: State, step: Step, duty: Duty)
    requires Enabled(cfg, s, step) && Processes(step) && s.locals.Keys == Nodes(cfg) && At(step) in Nodes(cfg)
    requires var m := Processed(cfg, s, step);
             && m.kind.Ordinary? && DutyEligible(cfg, s, step, m.id, duty)
             && (if TrailOf(step) == [] then m.sender == At(step) else TrailOf(step)[0] == m.sender)
    requires Roomy(cfg, s, step, Processed(cfg, s, step).id) && At(step) !in duty(At(step))
    ensures var m, n, trail := Processed(cfg, s, step), At(step), TrailOf(step);
            m.id !in Seen(s, n) && m.ttl > 1 ==>
              duty(n) - Set(trail) <= Receive(n, Links(cfg, n), s.locals[n], m, Inbound(trail), step.now, step.chosen).targets
  {
    var m, n, trail := Processed(cfg, s, step), At(step), TrailOf(step);
    if m.id !in Seen(s, n) && m.ttl > 1 {
      var eligible := Eligible(Links(cfg, n), s.locals[n].routes, m, Inbound(trail), step.now);
      assert FanoutChoice(cfg.fanout, eligible, step.chosen);
      SubsetOfSameSize(step.chosen, eligible);
    }
  }

  lemma OriginationServes(cfg: Config, s: State, step: Step, id: Id, duty: Duty)
    requires ValidConfig(cfg) && BaseInv(cfg, s) && Enabled(cfg, s, step) && (step.Publish? || step.Advertise?)
    requires |Nodes(cfg)| <= cfg.maxTtl && WithinLinks(cfg, duty)
    requires Roomy(cfg, s, step, id) && DutyEligible(cfg, s, step, id, duty)
    requires step.Advertise? ==> step.id != id
    requires Served(s, id, duty)
    ensures Served(Next(cfg, s, step), id, duty)
  {
    var t, m := Originated(cfg, s, step), NewMessage(cfg, step, s);
    OriginatedKeepsBase(cfg, s, step);
    OriginatedAcceptable(cfg, s, step);
    forall x, p | id in Seen(t, x) && p in duty(x) ensures Reaching(t, id, p) {
      assert id in Seen(s, x);
      NetGrowsReaching(s, t, id, p);
    }
    if step.id == id {
      FullFanout(cfg, s, step, duty);
      ArriveServes(cfg, t, step.node, m, [], step.now, step.chosen, duty);
    } else {
      OthersServed(cfg, t, step.node, m, [], step.now, if step.Publish? then step.chosen else {}, id, duty);
    }
  }

  // ---- Runs ----

  lemma {:induction false} RunGrows(cfg: Config, s: State, steps: seq<Step>, end: State)
    requires ValidConfig(cfg) && BaseInv(cfg, s) && Run(cfg, s, steps, end)
    ensures HistoryGrows(s, end) && BaseInv(cfg, end)
    decreases |steps|
  {
    if steps != [] {
      NextKeepsBase(cfg, s, steps[0]);
      RunGrows(cfg, Next(cfg, s, steps[0]), steps[1..], end);
      HistoryTransitive(s, Next(cfg, s, steps[0]), end);
    }
  }

  /** Every originator has seen what it originated. */
  ghost predicate OriginatorsSaw(s: State) {
    forall id :: id in s.log ==> id in Seen(s, s.log[id].sender)
  }

  lemma OriginatorSaw(cfg: Config, s: State, step: Step)
    requires Enabled(cfg, s, step) && (step.Publish? || step.Advertise?)
    ensures var t := Next(cfg, s, step);
            t.log == s.log[step.id := NewMessage(cfg, step, s)] && step.id in Seen(t, step.node)
  {
  }

  lemma LogUnchanged(cfg: Config, s: State, step: Step)
    requires Enabled(cfg, s, step) && !step.Publish? && !step.Advertise?
    ensures Next(cfg, s, step).log == s.log
  {
  }

  lemma NextOriginatorsSaw(cfg: Config, s: State, step: Step)
    requires OriginatorsSaw(s) && Enabled(cfg, s, step) && HistoryGrows(s, Next(cfg, s, step))
    ensures OriginatorsSaw(Next(cfg, s, step))
  {
    var t := Next(cfg, s, step);
    if step.Publish? || step.Advertise? {
      OriginatorSaw(cfg, s, step);
    } else {
      LogUnchanged(cfg, s, step);
    }
    forall id | id in t.log ensures id in Seen(t, t.log[id].sender) {
      if id in s.log { assert Seen(s, s.log[id].sender) <= Seen(t, s.log[id].sender); }
    }
  }

  lemma {:induction false} RunOriginatorsSaw(cfg: Config, s: State, steps: seq<Step>, end: State)
    requires ValidConfig(cfg) && BaseInv(cfg, s) && OriginatorsSaw(s) && Run(cfg, s, steps, end)
    ensures OriginatorsSaw(end)
    decreases |steps|
  {
    if steps != [] {
      NextKeepsBase(cfg, s, steps[0]);
      NextOriginatorsSaw(cfg, s, steps[0]);
      RunOriginatorsSaw(cfg, Next(cfg, s, steps[0]), steps[1..], end);
    }
  }

  /** An id that names an ordinary message in the end names the same one in every step before. */
  lemma OrdinaryThroughout(cfg: Config, s: State, step: Step, end: State, id: Id)
    requires BaseInv(cfg, s) && Enabled(cfg, s, step) && HistoryGrows(s, end) && HistoryGrows(Next(cfg, s, step), end)
    requires id in end.log && end.log[id].kind.Ordinary?
    ensures id in s.log ==> s.log[id] == end.log[id]
    ensures step.Advertise? ==> step.id != id
    ensures Processes(step) && Processed(cfg, s, step).id == id ==> Processed(cfg, s, step).topic == end.log[id].topic
  {
    if step.Publish? || step.Advertise? {
      OriginatorSaw(cfg, s, step);
    } else if step.Deliver? {
      assert CopyOk(cfg, s, step.copy);
    }
  }

  ghost predicate RunDuty(cfg: Config, s: State, steps: seq<Step>, id: Id, duty: Duty)
    decreases |steps|
  {
    steps != [] ==>
      Enabled(cfg, s, steps[0]) && DutyEligible(cfg, s, steps[0], id, duty) && RunDuty(cfg, Next(cfg, s, steps[0]), steps[1..], id, duty)
  }

  /** A run that loses no copy of an ordinary message serves it to the end. */
  lemma {:induction false} RunServes(cfg: Config, s: State, steps: seq<Step>, end: State, id: Id, duty: Duty)
    requires ValidConfig(cfg) && BaseInv(cfg, s) && Run(cfg, s, steps, end)
    requires Lossless(steps, id) && RunRoomy(cfg, s, steps, id) && |Nodes(cfg)| <= cfg.maxTtl
    requires WithinLinks(cfg, duty) && RunDuty(cfg, s, steps, id, duty)
    requires id in end.log && end.log[id].kind.Ordinary?
    requires Served(s, id, duty)
    ensures Served(end, id, duty)
    decreases |steps|
  {
    if steps != [] {
      var t := Next(cfg, s, steps[0]);
      RunGrows(cfg, s, steps, end);
      NextKeepsBase(cfg, s, steps[0]);
      RunGrows(cfg, t, steps[1..], end);
      OrdinaryThroughout(cfg, s, steps[0], end, id);
      assert Spares(steps[0], id);
      StepServes(cfg, s, steps[0], id, duty);
      RunServes(cfg, t, steps[1..], end, id, duty);
    }
  }

  function LinksDuty(cfg: Config): Duty { x => Links(cfg, x) }

  lemma {:induction false} GlobalRunDuty(cfg: Config, s: State, steps: seq<Step>, end: State, id: Id)
    requires ValidConfig(cfg) && BaseInv(cfg, s) && Run(cfg, s, steps, end)
    requires id in end.log && end.log[id].kind.Ordinary? && !Scoped(end.log[id].topic)
    ensures RunDuty(cfg, s, steps, id, LinksDuty(cfg))
    decreases |steps|
  {
    if steps != [] {
      var t := Next(cfg, s, steps[0]);
      RunGrows(cfg, s, steps, end);
      NextKeepsBase(cfg, s, steps[0]);
      RunGrows(cfg, t, steps[1..], end);
      OrdinaryThroughout(cfg, s, steps[0], end, id);
      GlobalRunDuty(cfg, t, steps[1..], end, id);
    }
  }

  /** Global gossip coverage: once no copy of a global message is in flight, in a run that lost none of
      its copies, with enough fan-out for it and at most maxTtl nodes, every node connected to the
      publisher has handed it over exactly once. */
  lemma GossipCovers(cfg: Config, steps: seq<Step>, s: State, id: Id, n: Peer)
    requires ValidConfig(cfg) && Run(cfg, Initial(cfg), steps, s)
    requires Lossless(steps, id) && RunRoomy(cfg, Initial(cfg), steps, id) && |Nodes(cfg)| <= cfg.maxTtl
    requires id in s.log && s.log[id].kind.Ordinary? && !Scoped(s.log[id].topic) && Quiet(s, id)
    requires Connected(cfg, s.log[id].sender, n)
    ensures id in Seen(s, n) && s.emitted[(n, id)] == 1
  {
    InitialBase(cfg);
    StateFacts(cfg, steps, s);
    GlobalRunDuty(cfg, Initial(cfg), steps, s, id);
    RunServes(cfg, Initial(cfg), steps, s, id, LinksDuty(cfg));
    var p :| Joins(cfg, p, s.log[id].sender, n);
    ServedAlong(s, id, LinksDuty(cfg), p);
    assert OnceOk(s, n, id);
  }

  // ---- Topic messages ----

  /** The next hops towards the subscriber, as they stand in state `s`. */
  ghost function HopsTo(s: State, topic: Topic, subscriber: Peer): map<Peer, Peer> {
    map n | n in s.locals && n != subscriber && Entry(s, n, topic, subscriber).Some? ::
      Entry(s, n, topic, subscriber).value.nextHop
  }

  /** In this state the routes to the subscriber lead where `hops` says, and the one that a step looks
      up has not expired. */
  ghost predicate RoutesHold(cfg: Config, s: State, step: Step, topic: Topic, subscriber: Peer, hops: map<Peer, Peer>) {
    forall n :: n in hops ==>
      var e := Entry(s, n, topic, subscriber);
      && e.Some? && e.value.nextHop == hops[n]
      && (Processes(step) && At(step) == n ==> step.now <= e.value.expiresAt)
  }

  ghost predicate RunRoutesHold(cfg: Config, s: State, steps: seq<Step>, topic: Topic, subscriber: Peer, hops: map<Peer, Peer>)
    decreases |steps|
  {
    steps != [] ==>
      && Enabled(cfg, s, steps[0]) && RoutesHold(cfg, s, steps[0], topic, subscriber, hops)
      && RunRoutesHold(cfg, Next(cfg, s, steps[0]), steps[1..], topic, subscriber, hops)
  }

  function HopsDuty(cfg: Config, hops: map<Peer, Peer>): Duty {
    x => if x in hops then {hops[x]} * Links(cfg, x) else {}
  }

  lemma HopsEligible(cfg: Config, s: State, step: Step, id: Id, topic: Topic, subscriber: Peer, hops: map<Peer, Peer>)
    requires Enabled(cfg, s, step) && RoutesHold(cfg, s, step, topic, subscriber, hops)
    requires Processes(step) && Processed(cfg, s, step).id == id ==> Processed(cfg, s, step).topic == topic
    ensures DutyEligible(cfg, s, step, id, HopsDuty(cfg, hops))
  {
    if Processes(step) && Processed(cfg, s, step).id == id && At(step) in hops {
      PeersForTopicMeaning(s.locals[At(step)].routes, topic, step.now, hops[At(step)]);
      assert Lookup(s.locals[At(step)].routes, topic, subscriber) == Entry(s, At(step), topic, subscriber);
    }
  }

  lemma {:induction false} TopicRunDuty(cfg: Config, s: State, steps: seq<Step>, end: State, id: Id,
                                        subscriber: Peer, hops: map<Peer, Peer>)
    requires ValidConfig(cfg) && BaseInv(cfg, s) && Run(cfg, s, steps, end)
    requires id in end.log && end.log[id].kind.Ordinary?
    requires RunRoutesHold(cfg, s, steps, end.log[id].topic, subscriber, hops)
    ensures RunDuty(cfg, s, steps, id, HopsDuty(cfg, hops))
    decreases |steps|
  {
    if steps != [] {
      var t := Next(cfg, s, steps[0]);
      RunGrows(cfg, s, steps, end);
      NextKeepsBase(cfg, s, steps[0]);
      RunGrows(cfg, t, steps[1..], end);
      OrdinaryThroughout(cfg, s, steps[0], end, id);
      HopsEligible(cfg, s, steps[0], id, end.log[id].topic, subscriber, hops);
      TopicRunDuty(cfg, t, steps[1..], end, id, subscriber, hops);
    }
  }

  /** Delivery through transit nodes. Routes to a subscriber are learned in a first run that deletes none of
      them. In a second run they hold and live; then a message published on the topic by any node that has
      such a route, and of which no copy is lost, is handed over at the subscriber, exactly once, as soon as
      no copy of it is in flight, although every node forwards it once only and never back. */
  lemma TopicDelivery(cfg: Config, learning: seq<Step>, s0: State, steps: seq<Step>, s: State, id: Id, subscriber: Peer)
    requires ValidConfig(cfg) && Run(cfg, Initial(cfg), learning, s0)
    requires Run(cfg, s0, steps, s) && Lossless(steps, id) && RunRoomy(cfg, s0, steps, id) && |Nodes(cfg)| <= cfg.maxTtl
    requires id !in s0.log && id in s.log && s.log[id].kind.Ordinary? && Quiet(s, id)
    requires RunKeeps(cfg, Initial(cfg), learning, s.log[id].topic, subscriber)
    requires RunRoutesHold(cfg, s0, steps, s.log[id].topic, subscriber, HopsTo(s0, s.log[id].topic, subscriber))
    requires Entry(s0, s.log[id].sender, s.log[id].topic, subscriber).Some?
    ensures id in Seen(s, subscriber) && s.emitted[(subscriber, id)] == 1
  {
    NoSteps(cfg, Initial(cfg));
    DeliveryFromRoutes(cfg, [], Initial(cfg), learning, s0, steps, s, id, subscriber);
  }

  /** The same after any past: the routes may have been learned in a later stretch that deletes none of them. */
  lemma DeliveryFromRoutes(cfg: Config, past: seq<Step>, base: State, learning: seq<Step>, s0: State,
                           steps: seq<Step>, s: State, id: Id, subscriber: Peer)
    requires ValidConfig(cfg) && Run(cfg, Initial(cfg), past, base) && Run(cfg, base, learning, s0)
    requires Run(cfg, s0, steps, s) && Lossless(steps, id) && RunRoomy(cfg, s0, steps, id) && |Nodes(cfg)| <= cfg.maxTtl
    requires id !in s0.log && id in s.log && s.log[id].kind.Ordinary? && Quiet(s, id)
    requires RunKeeps(cfg, base, learning, s.log[id].topic, subscriber)
    requires RunRoutesHold(cfg, s0, steps, s.log[id].topic, subscriber, HopsTo(s0, s.log[id].topic, subscriber))
    requires NewEntry(Scope(base, s.log[id].topic, subscriber), s0, s.log[id].sender)
    ensures id in Seen(s, subscriber) && s.emitted[(subscriber, id)] == 1
  {
    hide RouteInv, Run, RunRoutesHold, RunRoomy, Lossless, RunKeeps, Served, WalkTo, NewEntry;
    var topic, publisher := s.log[id].topic, s.log[id].sender;
    var k := Scope(base, topic, subscriber);
    StateFacts(cfg, past, base);
    RunGrows(cfg, base, learning, s0);
    RunOriginatorsSaw(cfg, base, learning, s0);
    RunOriginatorsSaw(cfg, s0, steps, s);
    RunKeepsBase(cfg, s0, steps, s);
    TopicServed(cfg, s0, steps, s, id, subscriber);
    RoutesAfter(cfg, past, k, learning, s0);
    NewRouteReachesOrigin(cfg, k, s0, publisher);
    var w :| WalkTo(s0, topic, subscriber, publisher, w) && NoDup(w) && Linked(cfg, w);
    WalkStart(s0, topic, subscriber, publisher, w);
    ServedOnWalk(cfg, s0, s, id, topic, subscriber, w);
    assert OnceOk(s, subscriber, id);
  }

  lemma WalkStart(s: State, topic: Topic, origin: Peer, n: Peer, w: seq<Peer>)
    requires WalkTo(s, topic, origin, n, w)
    ensures w != [] && w[0] == n
  {
  }

  lemma TopicServed(cfg: Config, s0: State, steps: seq<Step>, s: State, id: Id, subscriber: Peer)
    requires ValidConfig(cfg) && BaseInv(cfg, s0)
    requires Run(cfg, s0, steps, s) && Lossless(steps, id) && RunRoomy(cfg, s0, steps, id) && |Nodes(cfg)| <= cfg.maxTtl
    requires id !in s0.log && id in s.log && s.log[id].kind.Ordinary?
    requires RunRoutesHold(cfg, s0, steps, s.log[id].topic, subscriber, HopsTo(s0, s.log[id].topic, subscriber))
    ensures Served(s, id, HopsDuty(cfg, HopsTo(s0, s.log[id].topic, subscriber)))
  {
    var hops := HopsTo(s0, s.log[id].topic, subscriber);
    TopicRunDuty(cfg, s0, steps, s, id, subscriber, hops);
    assert Served(s0, id, HopsDuty(cfg, hops)) by { assert forall x :: Seen(s0, x) <= s0.log.Keys; }
    RunServes(cfg, s0, steps, s, id, HopsDuty(cfg, hops));
  }

  lemma StateFacts(cfg: Config, steps: seq<Step>, s: State)
    requires ValidConfig(cfg) && Run(cfg, Initial(cfg), steps, s)
    ensures BaseInv(cfg, s) && OriginatorsSaw(s)
  {
    InitialBase(cfg);
    RunKeepsBase(cfg, Initial(cfg), steps, s);
    RunOriginatorsSaw(cfg, Initial(cfg), steps, s);
  }

  lemma ServedOnWalk(cfg: Config, s0: State, s: State, id: Id, topic: Topic, subscriber: Peer, w: seq<Peer>)
    requires w != [] && WalkTo(s0, topic, subscriber, w[0], w) && Linked(cfg, w)
    requires Served(s, id, HopsDuty(cfg, HopsTo(s0, topic, subscriber))) && Quiet(s, id) && id in Seen(s, w[0])
    ensures id in Seen(s, subscriber)
  {
    ServedAlong(s, id, HopsDuty(cfg, HopsTo(s0, topic, subscriber)), w);
  }

  // ---- Convergence ----

  /** No entry for an origin is newer than what the origin has advertised. */
  lemma EntryNotNewer(cfg: Config, k: Scope, s: State, n: Peer)
    requires RouteInv(cfg, k, s) && EntryIn(k, s, n).Some?
    ensures EntryIn(k, s, n).value.sequenceNumber <= SequenceOf(s, k.origin, k.topic)
  {
    assert TableShaped(cfg, s, n, s.locals[n].routes);
    assert Shaped(cfg, s, n, k.topic, k.origin, EntryIn(k, s, n).value);
  }

  /** This id belongs to the newest advertisement of the origin for the topic, and that is a JOIN. */
  ghost predicate NewestJoin(k: Scope, s: State, id: Id) {
    id in s.log && IsNewJoin(k, s.log[id]) && s.log[id].kind.payload.sequenceNumber == SequenceOf(s, k.origin, k.topic)
  }

  /** This step loses no copy of the advertisement. */
  ghost predicate SparesAd(step: Step, topic: Topic, origin: Peer, sequence: int) {
    step.Lose? ==> !IsAd(step.copy.msg, topic, origin, sequence)
  }

  ghost predicate LosslessAd(steps: seq<Step>, topic: Topic, origin: Peer, sequence: int) {
    forall i :: 0 <= i < |steps| ==> SparesAd(steps[i], topic, origin, sequence)
  }

  /** Every advertised sequence number has its message. */
  ghost predicate HasNewest(s: State, origin: Peer, topic: Topic) {
    SequenceOf(s, origin, topic) >= 1 ==> exists id :: id in s.log && IsAd(s.log[id], topic, origin, SequenceOf(s, origin, topic))
  }

  /** A node that has not seen the newest JOIN installs it and passes it to all who lack it. */
  lemma NewestForwarded(cfg: Config, k: Scope, s: State, n: Peer, m: Message, trail: seq<Peer>, now: int, chosen: set<Peer>)
    requires ValidConfig(cfg) && RouteInv(cfg, k, s) && Acceptable(cfg, s, n, m, trail) && NewestJoin(k, s, m.id)
    ensures m.id !in Seen(s, n) && m.ttl > 1 ==>
              LinksDuty(cfg)(n) - Set(trail) <= Receive(n, Links(cfg, n), s.locals[n], m, Inbound(trail), now, chosen).targets
  {
    if m.id !in Seen(s, n) && m.ttl > 1 {
      var e := EntryIn(k, s, n);
      if e.Some? {
        EntryNotNewer(cfg, k, s, n);
        NotSeenNotStored(cfg, k, s, n, m.id);
      }
      assert Installs(e, AdOffer(n, m, Inbound(trail), now).route);
      assert n !in Links(cfg, n);
    }
  }

  lemma NotSeenNotStored(cfg: Config, k: Scope, s: State, n: Peer, id: Id)
    requires RouteInv(cfg, k, s) && NewestJoin(k, s, id) && id !in Seen(s, n) && EntryIn(k, s, n).Some?
    ensures EntryIn(k, s, n).value.sequenceNumber != s.log[id].kind.payload.sequenceNumber
  {
    var q := s.log[id].kind.payload.sequenceNumber;
    if EntryIn(k, s, n).value.sequenceNumber == q {
      assert EntryOk(cfg, k, s, n);
      var id2 :| id2 in s.log && id2 in Seen(s, n) && IsAd(s.log[id2], k.topic, k.origin, q);
      assert SameAd(s.log[id], s.log[id2]);
    }
  }

  lemma AdBefore(cfg: Config, s: State, step: Step, id: Id)
    requires Enabled(cfg, s, step) && id in Next(cfg, s, step).log
    requires (step.Publish? || step.Advertise?) ==> step.id != id
    ensures id in s.log && s.log[id] == Next(cfg, s, step).log[id]
  {
    if step.Publish? || step.Advertise? {
      OriginatorSaw(cfg, s, step);
    } else {
      LogUnchanged(cfg, s, step);
    }
  }

  /** Sequence numbers never go back. */
  lemma SequenceGrows(cfg: Config, s: State, step: Step, topic: Topic, origin: Peer)
    requires Enabled(cfg, s, step)
    ensures SequenceOf(s, origin, topic) <= SequenceOf(Next(cfg, s, step), origin, topic)
  {
    hide Receive, Copies;
  }

  lemma {:induction false} RunSequenceGrows(cfg: Config, s: State, steps: seq<Step>, end: State, topic: Topic, origin: Peer)
    requires Run(cfg, s, steps, end)
    ensures SequenceOf(s, origin, topic) <= SequenceOf(end, origin, topic)
    decreases |steps|
  {
    if steps != [] {
      SequenceGrows(cfg, s, steps[0], topic, origin);
      RunSequenceGrows(cfg, Next(cfg, s, steps[0]), steps[1..], end, topic, origin);
    }
  }

  lemma AdvertisedServed(cfg: Config, k: Scope, s: State, step: Step)
    requires ValidConfig(cfg) && RouteInv(cfg, k, s) && Enabled(cfg, s, step) && step.Advertise? && |Nodes(cfg)| <= cfg.maxTtl
    requires step.node == k.origin && step.topic == k.topic && step.action == Join
    ensures Served(Next(cfg, s, step), step.id, LinksDuty(cfg))
  {
    var t, m := Originated(cfg, s, step), NewMessage(cfg, step, s);
    OriginatedKeepsRoutes(cfg, k, s, step);
    OriginatedAcceptable(cfg, s, step);
    NewJoinIsNewest(cfg, k, s, step);
    NewestForwarded(cfg, k, t, step.node, m, [], step.now, {});
    assert forall x :: Seen(t, x) == Seen(s, x) && Seen(s, x) <= s.log.Keys;
    hide RouteInv, NewestJoin, Acceptable;
    AdServedFromStart(cfg, t, step, m);
  }

  lemma NewJoinIsNewest(cfg: Config, k: Scope, s: State, step: Step)
    requires Enabled(cfg, s, step) && step.Advertise? && SequencesGrow(k.base, s)
    requires step.node == k.origin && step.topic == k.topic && step.action == Join
    ensures NewestJoin(k, Originated(cfg, s, step), step.id)
  {
    assert SequenceOf(k.base, k.origin, k.topic) <= SequenceOf(s, k.origin, k.topic);
  }

  lemma AdServedFromStart(cfg: Config, t: State, step: Step, m: Message)
    requires ValidConfig(cfg) && t.locals.Keys == Nodes(cfg) && |Nodes(cfg)| <= cfg.maxTtl && step.Advertise? && m.id == step.id
    requires Acceptable(cfg, t, step.node, m, []) && forall x :: m.id !in Seen(t, x)
    requires m.ttl > 1 ==>
               LinksDuty(cfg)(step.node) - Set([]) <= Receive(step.node, Links(cfg, step.node), t.locals[step.node], m, Inbound([]), step.now, {}).targets
    ensures Served(Arrive(cfg, t, step.node, m, [], step.now, {}), step.id, LinksDuty(cfg))
  {
    ArriveServes(cfg, t, step.node, m, [], step.now, {}, LinksDuty(cfg));
  }

  lemma OldServedByOrigination(cfg: Config, s: State, step: Step, id: Id)
    requires Enabled(cfg, s, step) && (step.Publish? || step.Advertise?) && step.id != id
    requires Served(s, id, LinksDuty(cfg))
    ensures Served(Next(cfg, s, step), id, LinksDuty(cfg))
  {
    var t, m := Originated(cfg, s, step), NewMessage(cfg, step, s);
    forall x, p | id in Seen(t, x) && p in LinksDuty(cfg)(x) ensures Reaching(t, id, p) {
      assert id in Seen(s, x);
      NetGrowsReaching(s, t, id, p);
    }
    OthersServed(cfg, t, step.node, m, [], step.now, if step.Publish? then step.chosen else {}, id, LinksDuty(cfg));
  }

  lemma NewestServedByDelivery(cfg: Config, k: Scope, s: State, step: Step, id: Id)
    requires ValidConfig(cfg) && RouteInv(cfg, k, s) && Enabled(cfg, s, step) && step.Deliver?
    requires |Nodes(cfg)| <= cfg.maxTtl && NewestJoin(k, s, id) && Served(s, id, LinksDuty(cfg))
    ensures Served(Next(cfg, s, step), id, LinksDuty(cfg))
  {
    var c, t := step.copy, Taken(s, step.copy);
    TakenKeepsBase(cfg, s, c);
    TakenServes(s, c, id, LinksDuty(cfg));
    if c.msg.id == id {
      TakenKeepsRoutes(cfg, k, s, c);
      NewestForwarded(cfg, k, t, c.to, c.msg, c.trail, step.now, step.chosen);
      hide RouteInv, NewestJoin;
      ArriveServes(cfg, t, c.to, c.msg, c.trail, step.now, step.chosen, LinksDuty(cfg));
    } else {
      OthersServed(cfg, t, c.to, c.msg, c.trail, step.now, step.chosen, id, LinksDuty(cfg));
    }
  }

  /** A JOIN that no later advertisement replaces stays served, if none of its copies is lost. */
  lemma NextJoinServed(cfg: Config, k: Scope, s: State, step: Step, id: Id)
    requires ValidConfig(cfg) && RouteInv(cfg, k, s) && Enabled(cfg, s, step) && |Nodes(cfg)| <= cfg.maxTtl
    requires NewestJoin(k, Next(cfg, s, step), id)
    requires SparesAd(step, k.topic, k.origin, SequenceOf(Next(cfg, s, step), k.origin, k.topic))
    requires id in s.log ==> Served(s, id, LinksDuty(cfg))
    ensures Served(Next(cfg, s, step), id, LinksDuty(cfg))
  {
    if (step.Publish? || step.Advertise?) && step.id == id {
      OriginatorSaw(cfg, s, step);
      AdvertisedServed(cfg, k, s, step);
    } else {
      AdBefore(cfg, s, step, id);
      OldJoinServed(cfg, k, s, step, id);
    }
  }

  lemma OldJoinServed(cfg: Config, k: Scope, s: State, step: Step, id: Id)
    requires ValidConfig(cfg) && RouteInv(cfg, k, s) && Enabled(cfg, s, step) && |Nodes(cfg)| <= cfg.maxTtl
    requires id in s.log && IsNewJoin(k, s.log[id])
    requires s.log[id].kind.payload.sequenceNumber == SequenceOf(Next(cfg, s, step), k.origin, k.topic)
    requires (step.Publish? || step.Advertise?) ==> step.id != id
    requires SparesAd(step, k.topic, k.origin, SequenceOf(Next(cfg, s, step), k.origin, k.topic)) && Served(s, id, LinksDuty(cfg))
    ensures Served(Next(cfg, s, step), id, LinksDuty(cfg))
  {
    if step.Publish? || step.Advertise? {
      OldServedByOrigination(cfg, s, step, id);
    } else if step.Deliver? {
      SequenceGrows(cfg, s, step, k.topic, k.origin);
      assert LoggedOk(cfg, s, id);
      NewestServedByDelivery(cfg, k, s, step, id);
    } else if step.Lose? {
      assert CopyOk(cfg, s, step.copy);
      TakenServes(s, step.copy, id, LinksDuty(cfg));
    } else {
      IdleServes(cfg, s, step, id, LinksDuty(cfg));
    }
  }

  lemma NextHasNewest(cfg: Config, s: State, step: Step, origin: Peer, topic: Topic)
    requires Enabled(cfg, s, step) && HasNewest(s, origin, topic) && HistoryGrows(s, Next(cfg, s, step))
    ensures HasNewest(Next(cfg, s, step), origin, topic)
  {
    var t := Next(cfg, s, step);
    if step.Advertise? && step.node == origin && step.topic == topic {
      OriginatorSaw(cfg, s, step);
      assert IsAd(t.log[step.id], topic, origin, SequenceOf(t, origin, topic));
    } else if SequenceOf(s, origin, topic) >= 1 {
      var id :| id in s.log && IsAd(s.log[id], topic, origin, SequenceOf(s, origin, topic));
      assert id in t.log && t.log[id] == s.log[id];
    }
  }

  /** Once the newest JOIN is out it stays served; before that there is none. */
  lemma {:induction false} RunServesJoin(cfg: Config, k: Scope, s: State, steps: seq<Step>, end: State, id: Id)
    requires ValidConfig(cfg) && RouteInv(cfg, k, s) && Run(cfg, s, steps, end) && RunKeeps(cfg, s, steps, k.topic, k.origin)
    requires NewestJoin(k, end, id) && LosslessAd(steps, k.topic, k.origin, SequenceOf(end, k.origin, k.topic))
    requires |Nodes(cfg)| <= cfg.maxTtl && (id in s.log ==> Served(s, id, LinksDuty(cfg)))
    ensures Served(end, id, LinksDuty(cfg))
    decreases |steps|
  {
    if steps != [] {
      var t := Next(cfg, s, steps[0]);
      NextKeepsRoutes(cfg, k, s, steps[0]);
      RunGrows(cfg, t, steps[1..], end);
      RunSequenceGrows(cfg, t, steps[1..], end, k.topic, k.origin);
      TailLossless(steps, k.topic, k.origin, SequenceOf(end, k.origin, k.topic));
      if id in t.log {
        StillNewest(cfg, k, t, end, id);
        NextJoinServed(cfg, k, s, steps[0], id);
      }
      hide RouteInv, Next, Enabled, LosslessAd, Served, NewestJoin, HistoryGrows;
      RunServesJoin(cfg, k, t, steps[1..], end, id);
    }
  }

  lemma TailLossless(steps: seq<Step>, topic: Topic, origin: Peer, q: int)
    requires steps != [] && LosslessAd(steps, topic, origin, q)
    ensures SparesAd(steps[0], topic, origin, q) && LosslessAd(steps[1..], topic, origin, q)
  {
  }

  /** An advertisement that is the newest in the end was so from the moment it was issued. */
  lemma StillNewest(cfg: Config, k: Scope, t: State, end: State, id: Id)
    requires BaseInv(cfg, t) && HistoryGrows(t, end) && NewestJoin(k, end, id) && id in t.log
    requires SequenceOf(t, k.origin, k.topic) <= SequenceOf(end, k.origin, k.topic)
    ensures NewestJoin(k, t, id) && SequenceOf(t, k.origin, k.topic) == SequenceOf(end, k.origin, k.topic)
  {
    assert LoggedOk(cfg, t, id);
  }

  /** Convergence: when none of the copies in flight is the newest advertisement of an origin for a topic,
      in a run without deletions that lost none of its copies, and with at most maxTtl nodes, every
      connected node holds the route of that advertisement, and its next hops lead to the origin. */
  lemma Convergence(cfg: Config, steps: seq<Step>, s: State, topic: Topic, origin: Peer, n: Peer)
    requires ValidConfig(cfg) && Run(cfg, Initial(cfg), steps, s) && Keeping(steps)
    requires LosslessAd(steps, topic, origin, SequenceOf(s, origin, topic))
    requires |Nodes(cfg)| <= cfg.maxTtl && SequenceOf(s, origin, topic) >= 1
    requires forall c :: c in s.net ==> !IsAd(c.msg, topic, origin, SequenceOf(s, origin, topic))
    requires Connected(cfg, origin, n)
    ensures Entry(s, n, topic, origin).Some?
    ensures Entry(s, n, topic, origin).value.sequenceNumber == SequenceOf(s, origin, topic)
    ensures exists w :: WalkTo(s, topic, origin, n, w) && NoDup(w) && Linked(cfg, w)
  {
    hide Run, LosslessAd, Keeping, RunKeeps, WalkTo;
    NoDeletionsKeep(cfg, steps, s, topic, origin);
    NoSteps(cfg, Initial(cfg));
    PastHasNewest(cfg, steps, s, origin, topic);
    StateFacts(cfg, steps, s);
    var id :| id in s.log && IsAd(s.log[id], topic, origin, SequenceOf(s, origin, topic));
    assert LoggedOk(cfg, s, id) && !IsLeave(s.log[id]);
    Recovery(cfg, [], Initial(cfg), steps, s, topic, origin, id, n);
  }

  /** Recovery: whatever was deleted or lost before, one JOIN that is issued later, in a stretch that deletes
      no entry of its origin and topic and loses none of its copies, brings every connected node up to date,
      whatever happens to other routes and messages. */
  lemma Recovery(cfg: Config, past: seq<Step>, base: State, steps: seq<Step>, s: State, topic: Topic, origin: Peer, id: Id, n: Peer)
    requires ValidConfig(cfg) && Run(cfg, Initial(cfg), past, base)
    requires Run(cfg, base, steps, s) && RunKeeps(cfg, base, steps, topic, origin)
    requires NewestJoin(Scope(base, topic, origin), s, id)
    requires LosslessAd(steps, topic, origin, SequenceOf(s, origin, topic)) && |Nodes(cfg)| <= cfg.maxTtl
    requires forall c :: c in s.net ==> !IsAd(c.msg, topic, origin, SequenceOf(s, origin, topic))
    requires Connected(cfg, origin, n)
    ensures Entry(s, n, topic, origin).Some?
    ensures Entry(s, n, topic, origin).value.sequenceNumber == SequenceOf(s, origin, topic)
    ensures exists w :: WalkTo(s, topic, origin, n, w) && NoDup(w) && Linked(cfg, w)
  {
    hide Run, RouteInv, Served, LosslessAd, RunKeeps, WalkTo;
    var k := Scope(base, topic, origin);
    StateFacts(cfg, past, base);
    RunOriginatorsSaw(cfg, base, steps, s);
    RoutesAtBase(cfg, past, k);
    RunGrows(cfg, base, steps, s);
    IssuedLater(cfg, k, s, id);
    RunServesJoin(cfg, k, base, steps, s, id);
    RoutesAfter(cfg, past, k, steps, s);
    NewestEverywhere(cfg, k, s, n, id);
    NewRouteReachesOrigin(cfg, k, s, n);
  }

  lemma IssuedLater(cfg: Config, k: Scope, s: State, id: Id)
    requires BaseInv(cfg, k.base) && HistoryGrows(k.base, s) && NewestJoin(k, s, id)
    ensures id !in k.base.log
  {
    forall old_ | old_ in k.base.log ensures !IsNewJoin(k, k.base.log[old_]) { assert LoggedOk(cfg, k.base, old_); }
  }

  lemma RoutesAtBase(cfg: Config, past: seq<Step>, k: Scope)
    requires ValidConfig(cfg) && Run(cfg, Initial(cfg), past, k.base)
    ensures RouteInv(cfg, k, k.base)
  {
    NoSteps(cfg, k.base);
    RoutesAfter(cfg, past, k, [], k.base);
  }

  lemma PastHasNewest(cfg: Config, past: seq<Step>, base: State, origin: Peer, topic: Topic)
    requires ValidConfig(cfg) && Run(cfg, Initial(cfg), past, base)
    ensures HasNewest(base, origin, topic)
  {
    InitialBase(cfg);
    RunHasNewest(cfg, Initial(cfg), past, base, origin, topic);
  }

  lemma {:induction false} RunHasNewest(cfg: Config, s: State, steps: seq<Step>, end: State, origin: Peer, topic: Topic)
    requires ValidConfig(cfg) && BaseInv(cfg, s) && Run(cfg, s, steps, end) && HasNewest(s, origin, topic)
    ensures HasNewest(end, origin, topic)
    decreases |steps|
  {
    if steps != [] {
      NextKeepsBase(cfg, s, steps[0]);
      NextHasNewest(cfg, s, steps[0], origin, topic);
      RunHasNewest(cfg, Next(cfg, s, steps[0]), steps[1..], end, origin, topic);
    }
  }

  lemma NewestEverywhere(cfg: Config, k: Scope, s: State, n: Peer, id: Id)
    requires RouteInv(cfg, k, s) && OriginatorsSaw(s) && NewestJoin(k, s, id) && Served(s, id, LinksDuty(cfg))
    requires forall c :: c in s.net ==> !IsAd(c.msg, k.topic, k.origin, SequenceOf(s, k.origin, k.topic))
    requires Connected(cfg, k.origin, n)
    ensures EntryIn(k, s, n).Some?
    ensures EntryIn(k, s, n).value.sequenceNumber == SequenceOf(s, k.origin, k.topic)
    ensures NewEntry(k, s, n)
  {
    assert Quiet(s, id) by {
      forall c | c in s.net ensures c.msg.id != id { assert CopyOk(cfg, s, c); }
    }
    var p :| Joins(cfg, p, k.origin, n);
    ServedAlong(s, id, LinksDuty(cfg), p);
    assert SeenAdOk(k, s, n, id);
    EntryNotNewer(cfg, k, s, n);
  }

  /** Both together, after any past: once a subscriber's newest JOIN has spread, messages on its topic reach it
      from every node it is connected to. */
  lemma DeliveryAfterConvergence(cfg: Config, past: seq<Step>, base: State, learning: seq<Step>, s0: State,
                                 steps: seq<Step>, s: State, id: Id, subscriber: Peer, join: Id)
    requires ValidConfig(cfg) && Run(cfg, Initial(cfg), past, base) && Run(cfg, base, learning, s0)
    requires Run(cfg, s0, steps, s) && Lossless(steps, id) && RunRoomy(cfg, s0, steps, id) && |Nodes(cfg)| <= cfg.maxTtl
    requires id !in s0.log && id in s.log && s.log[id].kind.Ordinary? && Quiet(s, id)
    requires var topic := s.log[id].topic;
             var q := SequenceOf(s0, subscriber, topic);
             && RunKeeps(cfg, base, learning, topic, subscriber) && NewestJoin(Scope(base, topic, subscriber), s0, join)
             && Connected(cfg, subscriber, s.log[id].sender)
             && LosslessAd(learning, topic, subscriber, q) && forall c :: c in s0.net ==> !IsAd(c.msg, topic, subscriber, q)
    requires RunRoutesHold(cfg, s0, steps, s.log[id].topic, subscriber, HopsTo(s0, s.log[id].topic, subscriber))
    ensures s.emitted[(subscriber, id)] == 1
  {
    hide Run, RunKeeps, RunRoomy, RunRoutesHold, Lossless, LosslessAd, Quiet, Connected;
    Recovery(cfg, past, base, learning, s0, s.log[id].topic, subscriber, join, s.log[id].sender);
    DeliveryFromRoutes(cfg, past, base, learning, s0, steps, s, id, subscriber);
  }
}
