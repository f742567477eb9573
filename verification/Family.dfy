/** All nodes together: as long as every call on a node is one of the listed ones, the nodes agree with one
    state of a run of the network model. */
module Family {
  import opened Common
  import opened TopicRouting
  import opened Gossip
  import opened Network
  import opened Transport
  import opened Node

  /** The node whose tables or counters a step may change. */
  function PlaceOf(step: Step): Option<Peer> {
    match step
    case Publish(n, _, _, _, _) => Some(n)
    case Advertise(n, _, _, _, _) => Some(n)
    case Deliver(c, _, _) => Some(c.to)
    case Lose(_) => None
    case Duplicate(_) => None
    case Handshake(n, _, _, _) => Some(n)
    case Collect(n, _) => Some(n)
    case Disconnect(n, _) => Some(n)
  }

  ghost predicate NotAt(steps: seq<Step>, n: Peer) {
    forall i :: 0 <= i < |steps| ==> PlaceOf(steps[i]) != Some(n)
  }

  lemma ArrivalElsewhere(cfg: Config, s: State, v: View, n: Peer, m: Message, trail: seq<Peer>, now: int, chosen: set<Peer>)
    requires Matches(cfg, s, v) && n in cfg.pools && n in s.locals && n != v.self
    ensures Matches(cfg, Arrive(cfg, s, n, m, trail, now, chosen), v)
  {
    hide Receive, Copies;
    var t := Arrive(cfg, s, n, m, trail, now, chosen);
    forall id ensures t.emitted[(v.self, id)] == v.emitted[id] { assert s.emitted[(v.self, id)] == v.emitted[id]; }
    forall topic ensures SequenceOf(t, v.self, topic) == Counter(v.sequences, topic) {
      assert SequenceOf(s, v.self, topic) == Counter(v.sequences, topic);
    }
  }

  lemma OriginationElsewhere(cfg: Config, s: State, v: View, step: Step)
    requires Matches(cfg, s, v) && (step.Publish? || step.Advertise?) && step.node != v.self
    ensures Matches(cfg, Originated(cfg, s, step), v)
  {
    var t := Originated(cfg, s, step);
    forall topic ensures SequenceOf(t, v.self, topic) == Counter(v.sequences, topic) {
      assert SequenceOf(s, v.self, topic) == Counter(v.sequences, topic);
    }
  }

  lemma TableStepElsewhere(cfg: Config, s: State, v: View, n: Peer, table: Table)
    requires Matches(cfg, s, v) && n in s.locals && n != v.self
    ensures Matches(cfg, WithRoutes(s, n, table), v)
  {
    var t := WithRoutes(s, n, table);
    assert forall topic :: SequenceOf(t, v.self, topic) == SequenceOf(s, v.self, topic);
  }

  lemma NetStepElsewhere(cfg: Config, s: State, v: View, net: multiset<Copy>)
    requires Matches(cfg, s, v)
    ensures Matches(cfg, s.(net := net), v)
  {
    var t := s.(net := net);
    assert forall topic :: SequenceOf(t, v.self, topic) == SequenceOf(s, v.self, topic);
  }

  /** A step elsewhere, or in the network alone, keeps a node in agreement. */
  lemma FrameMatches(cfg: Config, s: State, v: View, step: Step)
    requires Matches(cfg, s, v) && Enabled(cfg, s, step) && PlaceOf(step) != Some(v.self)
    ensures Matches(cfg, Next(cfg, s, step), v)
  {
    hide Matches, Arrive, Accept, Collected, Cleared;
    match step
    case Publish(n, _, _, now, chosen) =>
      OriginationElsewhere(cfg, s, v, step);
      ArrivalElsewhere(cfg, Originated(cfg, s, step), v, n, NewMessage(cfg, step, s), [], now, chosen);
    case Advertise(n, _, _, _, now) =>
      OriginationElsewhere(cfg, s, v, step);
      ArrivalElsewhere(cfg, Originated(cfg, s, step), v, n, NewMessage(cfg, step, s), [], now, {});
    case Deliver(c, now, chosen) =>
      NetStepElsewhere(cfg, s, v, s.net - multiset{c});
      ArrivalElsewhere(cfg, Taken(s, c), v, c.to, c.msg, c.trail, now, chosen);
    case Lose(c) => NetStepElsewhere(cfg, s, v, s.net - multiset{c});
    case Duplicate(c) => NetStepElsewhere(cfg, s, v, s.net + multiset{c});
    case Handshake(n, _, _, _) => TableStepElsewhere(cfg, s, v, n, Next(cfg, s, step).locals[n].routes);
    case Collect(n, _) => TableStepElsewhere(cfg, s, v, n, Next(cfg, s, step).locals[n].routes);
    case Disconnect(n, _) => TableStepElsewhere(cfg, s, v, n, Next(cfg, s, step).locals[n].routes);
  }

  lemma {:induction false} RunElsewhere(cfg: Config, s: State, v: View, steps: seq<Step>, t: State)
    requires Matches(cfg, s, v) && Run(cfg, s, steps, t) && NotAt(steps, v.self)
    ensures Matches(cfg, t, v)
    decreases |steps|
  {
    hide Matches, Next, Enabled;
    if steps != [] {
      assert PlaceOf(steps[0]) != Some(v.self);
      FrameMatches(cfg, s, v, steps[0]);
      RunElsewhere(cfg, Next(cfg, s, steps[0]), v, steps[1..], t);
    }
  }

  /** A new node agrees with the initial state. */
  lemma InitialMatches(cfg: Config, n: Peer)
    requires n in Nodes(cfg)
    ensures Matches(cfg, Initial(cfg), View(n, cfg.pools[n], cfg.fanout, cfg.maxTtl, Local({}, map[]), map[], multiset{}))
  {
  }

  // ---- The nodes ----

  type Members = map<Peer, P2PNode>

  function Footprint(node: P2PNode): set<object> {
    {node, node.gossipEngine, node.gossipEngine.topicRouter, node.gossipEngine.rateLimiter, node.connectionPool}
  }

  /** No two nodes share an object. */
  ghost predicate Apart(nodes: Members) {
    && (forall n :: n in nodes ==> nodes[n].peerId == n)
    && (forall n, m :: n in nodes && m in nodes && n != m ==> Footprint(nodes[n]) !! Footprint(nodes[m]))
  }

  ghost function Footprints(nodes: Members): set<object> {
    set n, o | n in nodes && o in Footprint(nodes[n]) :: o
  }

  ghost predicate AllAgree(nodes: Members, cfg: Config, s: State)
    reads Footprints(nodes)
  {
    && nodes.Keys == Nodes(cfg)
    && forall n :: n in nodes ==>
         (assert forall o :: o in Footprint(nodes[n]) ==> o in Footprints(nodes); nodes[n].Agrees(cfg, s))
  }

  /** What can be asked of a node. */
  datatype Call =
    | Receiving(copy: Copy, powValid: bool, signatureValid: bool, now: int)
    | Publishing(id: Id, topic: Topic, now: int)
    | Subscribing(topic: Topic, id: Id, now: int)
    | Unsubscribing(topic: Topic, id: Id, now: int)
    | RefreshingAll(ids: seq<Id>, now: int)
    | Registering(peer: Peer, subscriptions: seq<Topic>, now: int)
    | LosingPeer(peer: Peer)
    | Collecting(now: int)

  /** The message is there, the ids are new, the peer is connected. */
  ghost predicate Possible(node: P2PNode, call: Call, s: State)
    reads node, node.connectionPool
  {
    match call
    case Receiving(c, _, _, _) => c in s.net && c.to == node.peerId && Inbound(c.trail) == Some(c.from)
    case Publishing(id, _, _) => id !in s.log
    case Subscribing(_, id, _) => id !in s.log
    case Unsubscribing(_, id, _) => id !in s.log
    case RefreshingAll(ids, _) => |ids| == |node.localSubscriptions| && UnusedFrom(ids, 0, s.log.Keys)
    case Registering(peer, _, _) => peer in node.connectionPool.Peers()
    case LosingPeer(peer) => peer in node.connectionPool.Peers()
    case Collecting(_) => true
  }

  /** What the call takes from the network. */
  function Consumed(call: Call): multiset<Copy> {
    if call.Receiving? then multiset{call.copy} else multiset{}
  }

  /** What a call must come to in the network, for a node with these subscriptions. */
  ghost predicate Answers(more: seq<Step>, call: Call, n: Peer, subscribed: set<Topic>) {
    match call
    case Receiving(c, powValid, signatureValid, now) =>
      |more| == 1 && (more[0] == Lose(c)
                      || (powValid && signatureValid && more[0].Deliver? && more[0].copy == c && more[0].now == now))
    case Publishing(id, topic, now) =>
      |more| == 1 && more[0].Publish? && more[0].node == n && more[0].id == id && more[0].topic == topic && more[0].now == now
    case Subscribing(topic, id, now) => more == if topic in subscribed then [] else [Advertise(n, id, topic, Join, now)]
    case Unsubscribing(topic, id, now) => more == if topic in subscribed then [Advertise(n, id, topic, Leave, now)] else []
    case RefreshingAll(ids, now) => |more| == |subscribed| && Refreshing(more, ids, n, subscribed, now)
    case Registering(peer, subscriptions, now) =>
      |more| == |subscriptions| && forall i :: 0 <= i < |more| ==> more[i] == Handshake(n, peer, subscriptions[i], now)
    case LosingPeer(peer) => more == [Disconnect(n, peer)]
    case Collecting(now) => more == [Collect(n, now)]
  }

  /** All steps of a run that change a node change this one. */
  ghost predicate OnlyAt(steps: seq<Step>, n: Peer) {
    forall i :: 0 <= i < |steps| ==> PlaceOf(steps[i]) == Some(n) || PlaceOf(steps[i]) == None
  }

  lemma OnlyAtNotElsewhere(steps: seq<Step>, n: Peer, m: Peer)
    requires OnlyAt(steps, n) && n != m
    ensures NotAt(steps, m)
  {
  }

  lemma OneStepRun(cfg: Config, s: State, step: Step, n: Peer)
    requires Enabled(cfg, s, step) && (PlaceOf(step) == Some(n) || PlaceOf(step) == None)
    ensures Run(cfg, s, [step], Next(cfg, s, step)) && OnlyAt([step], n)
  {
    NoSteps(cfg, s);
    RunSnoc(cfg, s, [], s, step);
    assert [] + [step] == [step];
  }

  /** One call on one node, as steps of the network. */
  method Perform(node: P2PNode, call: Call, ghost cfg: Config, ghost s: State) returns (ghost more: seq<Step>, ghost t: State)
    requires node.Agrees(cfg, s) && Possible(node, call, s)
    modifies Footprint(node)
    ensures node.Agrees(cfg, t) && Run(cfg, s, more, t) && OnlyAt(more, node.peerId)
    ensures Answers(more, call, node.peerId, old(node.localSubscriptions))
    ensures t.net + old(node.connectionPool.sent) == s.net - Consumed(call) + node.connectionPool.sent
  {
    hide Matches, Next, Enabled, Run;
    ghost var step;
    match call {
      case Receiving(c, powValid, signatureValid, now) =>
        step, t := node.OnGossip(c, powValid, signatureValid, now, cfg, s);
        OneStepRun(cfg, s, step, node.peerId);
        more := [step];
      case Publishing(id, topic, now) =>
        step, t := node.Publish(id, topic, now, cfg, s);
        OneStepRun(cfg, s, step, node.peerId);
        more := [step];
      case Subscribing(topic, id, now) => more, t := node.Subscribe(topic, id, now, cfg, s);
      case Unsubscribing(topic, id, now) => more, t := node.Unsubscribe(topic, id, now, cfg, s);
      case RefreshingAll(ids, now) => more, t := node.RefreshSubscriptions(ids, now, cfg, s);
      case Registering(peer, subscriptions, now) => more, t := node.RegisterSubscriptions(peer, subscriptions, now, cfg, s);
      case LosingPeer(peer) =>
        t := node.OnPeerGone(peer, cfg, s);
        OneStepRun(cfg, s, Disconnect(node.peerId, peer), node.peerId);
        more := [Disconnect(node.peerId, peer)];
      case Collecting(now) =>
        t := node.CollectRoutes(now, cfg, s);
        OneStepRun(cfg, s, Collect(node.peerId, now), node.peerId);
        more := [Collect(node.peerId, now)];
    }
  }

  /** A call on any node of the family continues the run: all nodes agree with its new last state, and what
      is in flight is what was there, less what the call consumed, plus what it sent. */
  method Act(nodes: Members, n: Peer, call: Call, ghost cfg: Config, ghost steps: seq<Step>, ghost s: State)
    returns (ghost more: seq<Step>, ghost t: State)
    requires Apart(nodes) && AllAgree(nodes, cfg, s) && Run(cfg, Initial(cfg), steps, s)
    requires n in nodes && Possible(nodes[n], call, s)
    modifies Footprint(nodes[n])
    ensures AllAgree(nodes, cfg, t) && Run(cfg, Initial(cfg), steps + more, t)
    ensures Answers(more, call, nodes[n].peerId, old(nodes[n].localSubscriptions))
    ensures t.net + old(nodes[n].connectionPool.sent) == s.net - Consumed(call) + nodes[n].connectionPool.sent
  {
    hide Matches, Next, Enabled, Run;
    more, t := Perform(nodes[n], call, cfg, s);
    RunAppend(cfg, Initial(cfg), steps, s, more, t);
    forall m | m in nodes ensures nodes[m].Agrees(cfg, t) {
      if m != n {
        OnlyAtNotElsewhere(more, n, m);
        RunElsewhere(cfg, s, nodes[m].Holds(), more, t);
      }
    }
  }

  /** Between the calls the network may lose and duplicate what is in flight. */
  lemma NetworkActs(nodes: Members, cfg: Config, steps: seq<Step>, s: State, step: Step)
    requires AllAgree(nodes, cfg, s) && Run(cfg, Initial(cfg), steps, s)
    requires Enabled(cfg, s, step) && (step.Lose? || step.Duplicate?)
    ensures AllAgree(nodes, cfg, Next(cfg, s, step)) && Run(cfg, Initial(cfg), steps + [step], Next(cfg, s, step))
  {
    hide Matches;
    RunSnoc(cfg, Initial(cfg), steps, s, step);
    forall m | m in nodes ensures nodes[m].Agrees(cfg, Next(cfg, s, step)) {
      FrameMatches(cfg, s, nodes[m].Holds(), step);
    }
  }
}
