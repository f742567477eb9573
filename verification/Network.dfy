/** The protocol as a step system: many nodes, messages in flight, and everything that can happen next. */
module Network {
  import opened Common
  import opened TopicRouting
  import opened Gossip

  /** A node's connections; a peer may be connected both ways and then gets a broadcast twice. */
  datatype Pool = Pool(outbound: set<Peer>, inbound: set<Peer>)

  datatype Config = Config(pools: map<Peer, Pool>, maxTtl: nat, fanout: nat)

  function Links(cfg: Config, n: Peer): set<Peer> {
    if n in cfg.pools then cfg.pools[n].outbound + cfg.pools[n].inbound else {}
  }

  function Nodes(cfg: Config): set<Peer> { cfg.pools.Keys }

  /** Every connection is seen from both of its ends, and none leads back to its own node. */
  ghost predicate ValidConfig(cfg: Config) {
    && (forall n, m :: m in Links(cfg, n) ==> m in Nodes(cfg) && n in Links(cfg, m) && n != m)
  }

  /** A message on its way. `trail` is history: the nodes that forwarded it, originator first. */
  datatype Copy = Copy(from: Peer, to: Peer, msg: Message, trail: seq<Peer>)

  /** `log`, `emitted` and `forwarded` are history: messages as originated, hand-overs to the
      application, and broadcasts. */
  datatype State = State(locals: map<Peer, Local>, net: multiset<Copy>, sequences: map<(Peer, Topic), nat>,
                         log: map<Id, Message>, emitted: multiset<(Peer, Id)>, forwarded: multiset<(Peer, Id)>)

  datatype Step =
    | Publish(node: Peer, id: Id, topic: Topic, now: int, chosen: set<Peer>)
    | Advertise(node: Peer, id: Id, topic: Topic, action: Action, now: int)
    | Deliver(copy: Copy, now: int, chosen: set<Peer>)
    | Lose(copy: Copy)  // lost on the way, or refused before deduplication (proof of work, rate limit, signature)
    | Duplicate(copy: Copy)
    | Handshake(node: Peer, peer: Peer, topic: Topic, now: int)
    | Collect(node: Peer, now: int)
    | Disconnect(node: Peer, peer: Peer)

  function Initial(cfg: Config): State {
    State(map n | n in Nodes(cfg) :: Local({}, map[]), multiset{}, map[], map[], multiset{}, multiset{})
  }

  function SequenceOf(s: State, n: Peer, topic: Topic): nat {
    if (n, topic) in s.sequences then s.sequences[(n, topic)] else 0
  }

  function OneWay(peers: set<Peer>, self: Peer, targets: set<Peer>, m: Message, trail: seq<Peer>): set<Copy> {
    set p | p in targets * peers :: Copy(self, p, m, trail)
  }

  /** One transmission per connection to a target. */
  function Copies(pool: Pool, self: Peer, targets: set<Peer>, m: Message, trail: seq<Peer>): multiset<Copy> {
    multiset(OneWay(pool.outbound, self, targets, m, trail)) + multiset(OneWay(pool.inbound, self, targets, m, trail))
  }

  /** Node `n` processes message `m`, which came along `trail`. */
  function Arrive(cfg: Config, s: State, n: Peer, m: Message, trail: seq<Peer>, now: int, chosen: set<Peer>): State
    requires n in cfg.pools && n in s.locals
  {
    var e := Receive(n, Links(cfg, n), s.locals[n], m, Inbound(trail), now, chosen);
    s.(locals := s.locals[n := e.local],
       net := s.net + Copies(cfg.pools[n], n, e.targets, e.message, trail + [n]),
       emitted := if e.emitted then s.emitted + multiset{(n, m.id)} else s.emitted,
       forwarded := if e.targets != {} then s.forwarded + multiset{(n, m.id)} else s.forwarded)
  }

  /** The neighbour a message came from; none for the node's own messages. */
  function Inbound(trail: seq<Peer>): Option<Peer> {
    if trail == [] then None else Some(trail[|trail| - 1])
  }

  function NewMessage(cfg: Config, step: Step, s: State): Message
    requires step.Publish? || step.Advertise?
  {
    if step.Publish? then Message(step.id, Ordinary, step.node, step.topic, cfg.maxTtl, [])
    else Message(step.id, Control(SubAd(step.topic, SequenceOf(s, step.node, step.topic) + 1, step.action)),
                 step.node, "global", cfg.maxTtl, [])
  }

  /** The state in which an originator starts to process its own new message. */
  function Originated(cfg: Config, s: State, step: Step): State
    requires step.Publish? || step.Advertise?
  {
    var s1 := s.(log := s.log[step.id := NewMessage(cfg, step, s)]);
    if step.Publish? then s1
    else s1.(sequences := s.sequences[(step.node, step.topic) := SequenceOf(s, step.node, step.topic) + 1])
  }

  /** The state in which a delivered copy is processed: it is in flight no more. */
  function Taken(s: State, c: Copy): State { s.(net := s.net - multiset{c}) }

  ghost predicate ChoiceOk(cfg: Config, l: Local, n: Peer, m: Message, trail: seq<Peer>, now: int, chosen: set<Peer>) {
    m.kind.Ordinary? && m.id !in l.seen ==>
      FanoutChoice(cfg.fanout, Eligible(Links(cfg, n), l.routes, m, Inbound(trail), now), chosen)
  }

  ghost predicate Enabled(cfg: Config, s: State, step: Step) {
    s.locals.Keys == Nodes(cfg) &&
    match step
    case Publish(n, id, topic, now, chosen) =>
      n in Nodes(cfg) && id !in s.log && ChoiceOk(cfg, s.locals[n], n, NewMessage(cfg, step, s), [], now, chosen)
    case Advertise(n, id, topic, action, now) => n in Nodes(cfg) && id !in s.log && action != Unknown
    case Deliver(c, now, chosen) => c in s.net && c.to in Nodes(cfg) && ChoiceOk(cfg, s.locals[c.to], c.to, c.msg, c.trail, now, chosen)
    case Lose(c) => c in s.net
    case Duplicate(c) => c in s.net
    case Handshake(n, peer, topic, now) => n in Nodes(cfg) && peer in Links(cfg, n)
    case Collect(n, now) => n in Nodes(cfg)
    case Disconnect(n, peer) => n in Nodes(cfg) && peer in Links(cfg, n)
  }

  function WithRoutes(s: State, n: Peer, t: Table): State
    requires n in s.locals
  {
    s.(locals := s.locals[n := s.locals[n].(routes := t)])
  }

  ghost function Next(cfg: Config, s: State, step: Step): State
    requires Enabled(cfg, s, step)
  {
    match step
    case Publish(n, id, topic, now, chosen) =>
      Arrive(cfg, Originated(cfg, s, step), n, NewMessage(cfg, step, s), [], now, chosen)
    case Advertise(n, id, topic, action, now) =>
      Arrive(cfg, Originated(cfg, s, step), n, NewMessage(cfg, step, s), [], now, {})
    case Deliver(c, now, chosen) => Arrive(cfg, Taken(s, c), c.to, c.msg, c.trail, now, chosen)
    case Lose(c) => Taken(s, c)
    case Duplicate(c) => s.(net := s.net + multiset{c})
    case Handshake(n, peer, topic, now) =>
      WithRoutes(s, n, Accept(s.locals[n].routes, Offer(topic, peer, Route(peer, 0, 0, [], now + ROUTE_LEASE_MS))))
    case Collect(n, now) => WithRoutes(s, n, Collected(s.locals[n].routes, now))
    case Disconnect(n, peer) => WithRoutes(s, n, Cleared(s.locals[n].routes, peer))
  }

  // ---- Runs ----

  /** `steps` is a run of the network from `s` that ends in `end`. */
  ghost predicate Run(cfg: Config, s: State, steps: seq<Step>, end: State)
    decreases |steps|
  {
    if steps == [] then end == s
    else Enabled(cfg, s, steps[0]) && Run(cfg, Next(cfg, s, steps[0]), steps[1..], end)
  }

  lemma {:induction false} RunSnoc(cfg: Config, s: State, steps: seq<Step>, mid: State, step: Step)
    requires Run(cfg, s, steps, mid) && Enabled(cfg, mid, step)
    ensures Run(cfg, s, steps + [step], Next(cfg, mid, step))
    decreases |steps|
  {
    hide Enabled, Next;
    var all := steps + [step];
    if steps == [] {
      assert all[1..] == [];
    } else {
      assert all[1..] == steps[1..] + [step];
      RunSnoc(cfg, Next(cfg, s, steps[0]), steps[1..], mid, step);
    }
  }

  lemma NoSteps(cfg: Config, s: State)
    ensures Run(cfg, s, [], s)
  {
  }

  lemma {:induction false} RunAppend(cfg: Config, s: State, xs: seq<Step>, mid: State, ys: seq<Step>, end: State)
    requires Run(cfg, s, xs, mid) && Run(cfg, mid, ys, end)
    ensures Run(cfg, s, xs + ys, end)
    decreases |xs|
  {
    hide Enabled, Next;
    if xs == [] {
      assert xs + ys == ys;
    } else {
      RunAppend(cfg, Next(cfg, s, xs[0]), xs[1..], mid, ys, end);
      PrependRun(cfg, s, xs[0], xs[1..] + ys, end);
      assert [xs[0]] + (xs[1..] + ys) == xs + ys;
    }
  }

  /** Nothing but deliveries, all at this time. */
  ghost predicate DeliveriesAt(steps: seq<Step>, now: int) {
    forall i :: 0 <= i < |steps| ==> steps[i].Deliver? && steps[i].now == now
  }

  lemma PrependRun(cfg: Config, s: State, step: Step, rest: seq<Step>, end: State)
    requires Enabled(cfg, s, step) && Run(cfg, Next(cfg, s, step), rest, end)
    ensures Run(cfg, s, [step] + rest, end)
  {
    var all := [step] + rest;
    hide Enabled, Next;
    assert all[1..] == rest;
  }

  lemma PrependDelivery(step: Step, rest: seq<Step>, now: int)
    requires step.Deliver? && step.now == now && DeliveriesAt(rest, now)
    ensures DeliveriesAt([step] + rest, now)
  {
    var all := [step] + rest;
    forall i | 0 <= i < |all| ensures all[i].Deliver? && all[i].now == now {
      if i > 0 { assert all[i] == rest[i - 1]; }
    }
  }

  /** Steps that never delete a route. */
  predicate KeepsRoutes(step: Step) {
    !step.Collect? && !step.Disconnect? && !(step.Advertise? && step.action != Join)
  }

  predicate IsLeave(m: Message) { m.kind.Control? && m.kind.payload.SubAd? && m.kind.payload.action == Leave }

  ghost predicate Keeping(steps: seq<Step>) {
    forall i :: 0 <= i < |steps| ==> KeepsRoutes(steps[i])
  }

  /** The clock reading of a step. */
  function ClockOf(step: Step): Option<int> {
    match step
    case Publish(_, _, _, now, _) => Some(now)
    case Advertise(_, _, _, _, now) => Some(now)
    case Deliver(_, now, _) => Some(now)
    case Handshake(_, _, _, now) => Some(now)
    case Collect(_, now) => Some(now)
    case Lose(_) => None
    case Duplicate(_) => None
    case Disconnect(_, _) => None
  }

  /** No clock reads later than this. */
  ghost predicate Until(steps: seq<Step>, now: int) {
    forall i :: 0 <= i < |steps| && ClockOf(steps[i]).Some? ==> ClockOf(steps[i]).value <= now
  }

  /** No clock of any node ever reads earlier than one has read before. */
  ghost predicate Chronological(steps: seq<Step>) {
    forall i, j :: 0 <= i < j < |steps| && ClockOf(steps[i]).Some? && ClockOf(steps[j]).Some? ==>
      ClockOf(steps[i]).value <= ClockOf(steps[j]).value
  }

  // ---- Vocabulary of the properties ----

  function Seen(s: State, n: Peer): set<Id> {
    if n in s.locals then s.locals[n].seen else {}
  }

  function Entry(s: State, n: Peer, topic: Topic, origin: Peer): Option<Route> {
    if n in s.locals then Lookup(s.locals[n].routes, topic, origin) else None
  }

  ghost predicate NoDup<T>(p: seq<T>) {
    forall i, j :: 0 <= i < j < |p| ==> p[i] != p[j]
  }

  ghost predicate Linked(cfg: Config, p: seq<Peer>) {
    forall i :: 0 <= i < |p| - 1 ==> p[i + 1] in Links(cfg, p[i])
  }

  /** A path of links from the first to the second node. */
  ghost predicate Joins(cfg: Config, p: seq<Peer>, a: Peer, b: Peer) {
    p != [] && p[0] == a && p[|p| - 1] == b && Linked(cfg, p)
  }

  ghost predicate Connected(cfg: Config, a: Peer, b: Peer) {
    exists p :: Joins(cfg, p, a, b)
  }
}
