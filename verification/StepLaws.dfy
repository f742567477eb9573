/** What single steps of the network do, told from table entries, connections and clock readings alone: where
    copies of ordinary messages go, what an advertisement changes and where it is passed on, and which steps
    delete or renew an entry. */
module StepLaws {
  import opened Common
  import opened TopicRouting
  import opened Gossip
  import opened Network
  import opened Transport

  /** The steps in which some node processes a message. */
  predicate Handles(step: Step) { step.Publish? || step.Advertise? || step.Deliver? }

  function Handler(step: Step): Peer
    requires Handles(step)
  {
    if step.Deliver? then step.copy.to else step.node
  }

  function Handled(cfg: Config, s: State, step: Step): Message
    requires Handles(step)
  {
    if step.Deliver? then step.copy.msg else NewMessage(cfg, step, s)
  }

  function Trail(step: Step): seq<Peer>
    requires Handles(step)
  {
    if step.Deliver? then step.copy.trail else []
  }

  /** The neighbour that the message was received from, if it was. */
  predicate CameFrom(step: Step, p: Peer)
    requires Handles(step)
  {
    Trail(step) != [] && Trail(step)[|Trail(step)| - 1] == p
  }

  /** How often `p` gets a transmission that is meant for it: once over each of its connections. */
  function Connections(cfg: Config, n: Peer, p: Peer): nat {
    if n in cfg.pools then (if p in cfg.pools[n].outbound then 1 else 0) + if p in cfg.pools[n].inbound then 1 else 0 else 0
  }

  /** The network afterwards: without the copy that was delivered, and with one copy of `m` over each
      connection to a receiver. */
  ghost predicate SentTo(cfg: Config, s: State, step: Step, t: State, m: Message, receivers: set<Peer>)
    requires Handles(step)
  {
    forall c :: t.net[c] + (if step.Deliver? && c == step.copy then 1 else 0) ==
                s.net[c] + if c == Copy(Handler(step), c.to, m, Trail(step) + [Handler(step)]) && c.to in receivers
                           then Connections(cfg, Handler(step), c.to) else 0
  }

  /** What the node makes of the message. */
  function OutcomeOf(cfg: Config, s: State, step: Step): Outcome
    requires Handles(step) && Handler(step) in s.locals
  {
    Receive(Handler(step), Links(cfg, Handler(step)), s.locals[Handler(step)], Handled(cfg, s, step), Inbound(Trail(step)), step.now,
            if step.Advertise? then {} else step.chosen)
  }

  lemma ArrivalSends(cfg: Config, s: State, n: Peer, m: Message, trail: seq<Peer>, now: int, chosen: set<Peer>)
    requires n in cfg.pools && n in s.locals
    ensures var e := Receive(n, Links(cfg, n), s.locals[n], m, Inbound(trail), now, chosen);
            forall c :: Arrive(cfg, s, n, m, trail, now, chosen).net[c] ==
                        s.net[c] + if c == Copy(n, c.to, e.message, trail + [n]) && c.to in e.targets then Connections(cfg, n, c.to) else 0
  {
    var e := Receive(n, Links(cfg, n), s.locals[n], m, Inbound(trail), now, chosen);
    forall c { CopiesCount(cfg.pools[n], n, e.targets, e.message, trail + [n], c); }
    hide Receive, Copies;
  }

  /** The state in which the message is processed. */
  function Before(cfg: Config, s: State, step: Step): State
    requires Handles(step)
  {
    if step.Deliver? then Taken(s, step.copy) else Originated(cfg, s, step)
  }

  lemma HandlingIsArrival(cfg: Config, s: State, step: Step)
    requires Handles(step) && Enabled(cfg, s, step)
    ensures Handler(step) in cfg.pools && Before(cfg, s, step).locals == s.locals && Handler(step) in s.locals
    ensures Next(cfg, s, step) == Arrive(cfg, Before(cfg, s, step), Handler(step), Handled(cfg, s, step), Trail(step), step.now,
                                         if step.Advertise? then {} else step.chosen)
  {
    hide Arrive;
  }

  lemma HandlingSends(cfg: Config, s: State, step: Step)
    requires Handles(step) && Enabled(cfg, s, step)
    ensures var e := OutcomeOf(cfg, s, step); SentTo(cfg, s, step, Next(cfg, s, step), e.message, e.targets)
  {
    var e := OutcomeOf(cfg, s, step);
    forall c ensures Next(cfg, s, step).net[c] + (if step.Deliver? && c == step.copy then 1 else 0) ==
                     s.net[c] + if c == Copy(Handler(step), c.to, e.message, Trail(step) + [Handler(step)]) && c.to in e.targets
                                then Connections(cfg, Handler(step), c.to) else 0
    {
      HandlingSendsCopy(cfg, s, step, c);
    }
  }

  lemma HandlingSendsCopy(cfg: Config, s: State, step: Step, c: Copy)
    requires Handles(step) && Enabled(cfg, s, step)
    ensures var e := OutcomeOf(cfg, s, step);
            Next(cfg, s, step).net[c] + (if step.Deliver? && c == step.copy then 1 else 0) ==
            s.net[c] + if c == Copy(Handler(step), c.to, e.message, Trail(step) + [Handler(step)]) && c.to in e.targets
                       then Connections(cfg, Handler(step), c.to) else 0
  {
    HandlingIsArrival(cfg, s, step);
    ArrivalSends(cfg, Before(cfg, s, step), Handler(step), Handled(cfg, s, step), Trail(step), step.now,
                 if step.Advertise? then {} else step.chosen);
    hide Receive, Arrive, Connections, Links;
  }

  lemma HandlingEffect(cfg: Config, s: State, step: Step)
    requires Handles(step) && Enabled(cfg, s, step)
    ensures var e, t, n := OutcomeOf(cfg, s, step), Next(cfg, s, step), Handler(step);
            && t.locals == s.locals[n := e.local]
            && forall x, id :: t.emitted[(x, id)] == s.emitted[(x, id)] + if x == n && id == Handled(cfg, s, step).id && e.emitted then 1 else 0
  {
    hide Receive, Copies;
  }

  // ---- Origination ----

  /** A new message starts with the whole TTL and no path. An advertisement carries the next sequence number of
      its node and topic, goes to everybody, and no other counter changes. */
  lemma Origination(cfg: Config, s: State, step: Step)
    requires Enabled(cfg, s, step) && (step.Publish? || step.Advertise?)
    ensures var t, next := Next(cfg, s, step), SequenceOf(s, step.node, if step.Advertise? then step.topic else "") + 1;
            && t.log == s.log[step.id := Handled(cfg, s, step)]
            && Handled(cfg, s, step) ==
               (if step.Publish? then Message(step.id, Ordinary, step.node, step.topic, cfg.maxTtl, [])
                else Message(step.id, Control(SubAd(step.topic, next, step.action)), step.node, "global", cfg.maxTtl, []))
            && forall n, topic :: SequenceOf(t, n, topic) ==
                 if step.Advertise? && n == step.node && topic == step.topic then next else SequenceOf(s, n, topic)
  {
  }

  // ---- Ordinary messages ----

  /** Peer `p` is connected, neither the sender nor the neighbour the message came from, and, unless the topic is
      empty or "global", the next hop of some unexpired entry for the topic. */
  ghost predicate Target(cfg: Config, s: State, step: Step, p: Peer)
    requires Handles(step)
  {
    var n, m := Handler(step), Handled(cfg, s, step);
    && p in Links(cfg, n) && p != m.sender && !CameFrom(step, p)
    && (m.topic == "" || m.topic == "global"
        || exists o :: Entry(s, n, m.topic, o).Some? && Entry(s, n, m.topic, o).value.nextHop == p
                       && Entry(s, n, m.topic, o).value.expiresAt >= step.now)
  }

  /** A choice among the targets that takes as many as the fan-out allows. */
  ghost predicate Chooses(cfg: Config, s: State, step: Step, receivers: set<Peer>)
    requires Handles(step)
  {
    && (forall p :: p in receivers ==> Target(cfg, s, step, p)) && |receivers| <= cfg.fanout
    && (|receivers| < cfg.fanout ==> forall p :: Target(cfg, s, step, p) ==> p in receivers)
  }

  lemma EligibleAreTargets(cfg: Config, s: State, step: Step, p: Peer)
    requires Handles(step) && Handler(step) in s.locals
    ensures p in Eligible(Links(cfg, Handler(step)), s.locals[Handler(step)].routes, Handled(cfg, s, step), Inbound(Trail(step)), step.now)
            <==> Target(cfg, s, step, p)
  {
    var n, m := Handler(step), Handled(cfg, s, step);
    EligibleMeaning(Links(cfg, n), s.locals[n].routes, m, Inbound(Trail(step)), step.now, p);
    assert forall o :: Entry(s, n, m.topic, o) == Lookup(s.locals[n].routes, m.topic, o);
    assert Inbound(Trail(step)) == Some(p) <==> CameFrom(step, p);
  }

  lemma ChoiceChooses(cfg: Config, s: State, step: Step)
    requires Enabled(cfg, s, step) && (step.Publish? || step.Deliver?)
    requires Handled(cfg, s, step).kind.Ordinary? && Handled(cfg, s, step).id !in s.locals[Handler(step)].seen
    ensures Chooses(cfg, s, step, step.chosen)
  {
    var eligible := Eligible(Links(cfg, Handler(step)), s.locals[Handler(step)].routes, Handled(cfg, s, step), Inbound(Trail(step)), step.now);
    forall p { EligibleAreTargets(cfg, s, step, p); }
    hide Eligible, Target;
    ChoiceMeaning(cfg.fanout, eligible, step.chosen);
  }

  lemma OrdinaryOutcome(cfg: Config, s: State, step: Step)
    requires Handles(step) && Handler(step) in s.locals && Handled(cfg, s, step).kind.Ordinary?
    ensures var e, m, l := OutcomeOf(cfg, s, step), Handled(cfg, s, step), s.locals[Handler(step)];
            && e.targets == (if m.id in l.seen || m.ttl <= 1 then {} else if step.Advertise? then {} else step.chosen)
            && (e.targets != {} ==> e.message == m.(ttl := m.ttl - 1))
            && e.local == Local(l.seen + {m.id}, l.routes) && (e.emitted <==> m.id !in l.seen)
    ensures !step.Advertise?
  {
    var m, l := Handled(cfg, s, step), s.locals[Handler(step)];
    if m.id in l.seen { assert l.seen + {m.id} == l.seen; }
  }

  /** What the message is does not matter if nobody gets it. */
  lemma SentAs(cfg: Config, s: State, step: Step, t: State, receivers: set<Peer>, m: Message, m': Message)
    requires Handles(step) && SentTo(cfg, s, step, t, m, receivers) && (receivers != {} ==> m == m')
    ensures SentTo(cfg, s, step, t, m', receivers)
  {
  }

  lemma OrdinarySent(cfg: Config, s: State, step: Step)
    requires Handles(step) && Enabled(cfg, s, step) && Handled(cfg, s, step).kind.Ordinary?
    ensures var m := Handled(cfg, s, step);
            SentTo(cfg, s, step, Next(cfg, s, step), m.(ttl := m.ttl - 1), OutcomeOf(cfg, s, step).targets)
  {
    var m, e := Handled(cfg, s, step), OutcomeOf(cfg, s, step);
    HandlingSends(cfg, s, step);
    OrdinaryOutcome(cfg, s, step);
    hide *;
    SentAs(cfg, s, step, Next(cfg, s, step), e.targets, e.message, m.(ttl := m.ttl - 1));
  }

  /** Forwarding of an ordinary message. A node that has seen it, or gets it with no TTL left beyond its own hop,
      sends nothing. Any other sends it, with the TTL reduced by one, to a choice of targets of the size of the
      fan-out, or to all of them if there are no more. Only the first arrival is handed to the application, and no
      table entry changes. */
  lemma Forwarding(cfg: Config, s: State, step: Step) returns (receivers: set<Peer>)
    requires Handles(step) && Enabled(cfg, s, step) && Handled(cfg, s, step).kind.Ordinary?
    ensures var n, m, t := Handler(step), Handled(cfg, s, step), Next(cfg, s, step);
            && (if m.id !in s.locals[n].seen && m.ttl > 1 then Chooses(cfg, s, step, receivers) else receivers == {})
            && SentTo(cfg, s, step, t, m.(ttl := m.ttl - 1), receivers)
            && t.locals == s.locals[n := Local(s.locals[n].seen + {m.id}, s.locals[n].routes)]
            && forall x, id :: t.emitted[(x, id)] ==
                 s.emitted[(x, id)] + if x == n && id == m.id && m.id !in s.locals[n].seen then 1 else 0
  {
    var n, m := Handler(step), Handled(cfg, s, step);
    receivers := OutcomeOf(cfg, s, step).targets;
    OrdinarySent(cfg, s, step);
    HandlingEffect(cfg, s, step);
    if m.id !in s.locals[n].seen {
      ChoiceChooses(cfg, s, step);
    }
    OrdinaryOutcome(cfg, s, step);
    hide *;
  }

  /** Topic scoping: whenever a copy of a message with a topic of its own is sent, its receiver is the next hop of
      an entry for this topic at the sending node, and the entry has not expired. */
  lemma ScopedCopiesFollowRoutes(cfg: Config, s: State, step: Step, c: Copy) returns (o: Peer)
    requires Enabled(cfg, s, step) && !step.Duplicate? && Next(cfg, s, step).net[c] > s.net[c]
    requires c.msg.kind.Ordinary? && c.msg.topic != "" && c.msg.topic != "global"
    ensures ClockOf(step).Some? && Entry(s, c.from, c.msg.topic, o).Some?
    ensures var r := Entry(s, c.from, c.msg.topic, o).value; r.nextHop == c.to && ClockOf(step).value <= r.expiresAt
  {
    SendersHandle(cfg, s, step, c);
    var receivers := Forwarding(cfg, s, step);
    hide Next, Enabled, Chooses;
    assert Target(cfg, s, step, c.to) by {
      assert c.to in receivers;
      ChosenIsTarget(cfg, s, step, receivers, c.to);
    }
    o :| Entry(s, c.from, c.msg.topic, o).Some? && Entry(s, c.from, c.msg.topic, o).value.nextHop == c.to
         && Entry(s, c.from, c.msg.topic, o).value.expiresAt >= step.now;
  }

  lemma ChosenIsTarget(cfg: Config, s: State, step: Step, receivers: set<Peer>, p: Peer)
    requires Handles(step) && Chooses(cfg, s, step, receivers) && p in receivers
    ensures Target(cfg, s, step, p)
  {
  }

  /** Only a node that handles a message sends copies, of that kind of message. */
  lemma SendersHandle(cfg: Config, s: State, step: Step, c: Copy)
    requires Enabled(cfg, s, step) && !step.Duplicate? && Next(cfg, s, step).net[c] > s.net[c]
    ensures Handles(step) && c.from == Handler(step)
    ensures c.msg.kind == Handled(cfg, s, step).kind && c.msg.topic == Handled(cfg, s, step).topic
  {
    if Handles(step) {
      HandlingSends(cfg, s, step);
      OutcomeKeepsKind(cfg, s, step);
      hide Next, Receive, Copies;
    }
  }

  lemma OutcomeKeepsKind(cfg: Config, s: State, step: Step)
    requires Handles(step) && Handler(step) in s.locals
    ensures var e := OutcomeOf(cfg, s, step).message; e.kind == Handled(cfg, s, step).kind && e.topic == Handled(cfg, s, step).topic
  {
  }

  // ---- Advertisements ----

  /** An advertisement that the node can read comes for the first time, and not back to a node on its path. */
  predicate Heard(cfg: Config, s: State, step: Step, action: Action)
    requires Handles(step) && Handler(step) in s.locals
  {
    var n, m := Handler(step), Handled(cfg, s, step);
    && m.kind.Control? && m.kind.payload.SubAd? && m.kind.payload.action == action
    && m.id !in s.locals[n].seen && n !in m.routingPath
  }

  /** The route that an advertisement brings. */
  function Brought(cfg: Config, s: State, step: Step): Route
    requires Handles(step) && Handled(cfg, s, step).kind.Control? && Handled(cfg, s, step).kind.payload.SubAd?
  {
    var m := Handled(cfg, s, step);
    Route(if Trail(step) == [] then Handler(step) else Trail(step)[|Trail(step)| - 1], |m.routingPath|,
          m.kind.payload.sequenceNumber, m.routingPath, step.now + 30000)
  }

  /** Nothing is held, or something with a lower sequence number, or with the same one and more hops. */
  predicate Improves(r: Route, held: Option<Route>) {
    held.None? || held.value.sequenceNumber < r.sequenceNumber
    || (held.value.sequenceNumber == r.sequenceNumber && held.value.hopCount > r.hopCount)
  }

  /** The same sequence number through the same next hop, with a longer lease. */
  predicate Prolongs(r: Route, held: Route) {
    held.sequenceNumber == r.sequenceNumber && held.nextHop == r.nextHop && held.expiresAt < r.expiresAt
  }

  /** What an advertisement changes. A JOIN that is heard replaces the entry of its sender for its topic if it is
      better, and otherwise at most prolongs its lease; a LEAVE removes it, whatever its sequence number is. No
      entry of another topic, another origin or another node changes, and nothing else changes one. */
  lemma Advertisement(cfg: Config, s: State, step: Step, x: Peer, topic: Topic, origin: Peer)
    requires Handles(step) && Enabled(cfg, s, step) && Handled(cfg, s, step).kind.Control?
    ensures var m, held, after := Handled(cfg, s, step), Entry(s, x, topic, origin), Entry(Next(cfg, s, step), x, topic, origin);
            if x == Handler(step) && origin == m.sender && m.kind.payload.SubAd? && topic == m.kind.payload.topic then
              if Heard(cfg, s, step, Join) then
                var r := Brought(cfg, s, step);
                after == Some(if Improves(r, held) then r
                              else if Prolongs(r, held.value) then held.value.(expiresAt := r.expiresAt) else held.value)
              else after == if Heard(cfg, s, step, Leave) then None else held
            else after == held
    ensures Next(cfg, s, step).locals[Handler(step)].seen == s.locals[Handler(step)].seen + {Handled(cfg, s, step).id}
  {
    var n, m := Handler(step), Handled(cfg, s, step);
    HandlingEffect(cfg, s, step);
    hide Next, Enabled, Receive, Heard, Improves, Prolongs;
    if m.id in s.locals[n].seen { assert s.locals[n].seen + {m.id} == s.locals[n].seen; }
    SeenAfter(cfg, s, step);
    if x == n { OwnTable(cfg, s, step, topic, origin); }
  }

  lemma SeenAfter(cfg: Config, s: State, step: Step)
    requires Handles(step) && Handler(step) in s.locals
    ensures OutcomeOf(cfg, s, step).local.seen == s.locals[Handler(step)].seen + {Handled(cfg, s, step).id}
  {
    var n, m := Handler(step), Handled(cfg, s, step);
    if m.id in s.locals[n].seen { assert s.locals[n].seen + {m.id} == s.locals[n].seen; }
    hide Advertised, AdTargets;
  }

  /** The table after an advertisement. */
  lemma OwnTable(cfg: Config, s: State, step: Step, topic: Topic, origin: Peer)
    requires Handles(step) && Handler(step) in s.locals && Handled(cfg, s, step).kind.Control?
    ensures var n, m := Handler(step), Handled(cfg, s, step);
            var held, after := Lookup(s.locals[n].routes, topic, origin), Lookup(OutcomeOf(cfg, s, step).local.routes, topic, origin);
            if origin == m.sender && m.kind.payload.SubAd? && topic == m.kind.payload.topic then
              if Heard(cfg, s, step, Join) then
                var r := Brought(cfg, s, step);
                after == Some(if Improves(r, held) then r
                              else if Prolongs(r, held.value) then held.value.(expiresAt := r.expiresAt) else held.value)
              else after == if Heard(cfg, s, step, Leave) then None else held
            else after == held
  {
    var n, m := Handler(step), Handled(cfg, s, step);
    hide AdTargets;
    if m.kind.payload.SubAd? && m.id !in s.locals[n].seen && n !in m.routingPath {
      if m.kind.payload.action == Join {
        LookupAccept(s.locals[n].routes, AdOffer(n, m, Inbound(Trail(step)), step.now), topic, origin);
        hide Accept;
      } else if m.kind.payload.action == Leave {
        RemovedExactly(s.locals[n].routes, m.kind.payload.topic, m.sender, topic, origin);
        hide Without;
      }
    }
  }

  /** The advertisement changes the table to something better, or removes an entry that is there. */
  predicate ChangesTable(cfg: Config, s: State, step: Step)
    requires Handles(step) && Handler(step) in s.locals
  {
    var m := Handled(cfg, s, step);
    || (Heard(cfg, s, step, Join) && Improves(Brought(cfg, s, step), Entry(s, Handler(step), m.kind.payload.topic, m.sender)))
    || (Heard(cfg, s, step, Leave) && Entry(s, Handler(step), m.kind.payload.topic, m.sender).Some?)
  }

  /** Where an advertisement is passed on: exactly when it changes the table and has TTL left beyond its own hop, to
      exactly the connected peers that are neither on its path nor its sender nor the neighbour it came from, with
      the TTL reduced by one and the path extended by the node. */
  lemma AdvertisementPassedOn(cfg: Config, s: State, step: Step) returns (receivers: set<Peer>)
    requires Handles(step) && Enabled(cfg, s, step) && Handled(cfg, s, step).kind.Control?
    ensures var n, m, t := Handler(step), Handled(cfg, s, step), Next(cfg, s, step);
            && (forall p :: p in receivers <==>
                  && ChangesTable(cfg, s, step) && m.ttl > 1
                  && p in Links(cfg, n) && p != n && p !in m.routingPath && p != m.sender && !CameFrom(step, p))
            && SentTo(cfg, s, step, t, m.(ttl := m.ttl - 1, routingPath := m.routingPath + [n]), receivers)
            && forall y, id :: t.emitted[(y, id)] ==
                 s.emitted[(y, id)] + if y == n && id == m.id && (Heard(cfg, s, step, Join) || Heard(cfg, s, step, Leave) || Heard(cfg, s, step, Unknown)) then 1 else 0
  {
    receivers := OutcomeOf(cfg, s, step).targets;
    PassedOn(cfg, s, step);
    AdvertisementSent(cfg, s, step);
    AdvertisementEmitted(cfg, s, step);
    hide *;
  }

  lemma AdvertisementSent(cfg: Config, s: State, step: Step)
    requires Handles(step) && Enabled(cfg, s, step) && Handled(cfg, s, step).kind.Control?
    ensures var n, m, e := Handler(step), Handled(cfg, s, step), OutcomeOf(cfg, s, step);
            SentTo(cfg, s, step, Next(cfg, s, step), m.(ttl := m.ttl - 1, routingPath := m.routingPath + [n]), e.targets)
  {
    var n, m, e, t := Handler(step), Handled(cfg, s, step), OutcomeOf(cfg, s, step), Next(cfg, s, step);
    HandlingSends(cfg, s, step);
    PassedOn(cfg, s, step);
    hide *;
    SentAs(cfg, s, step, t, e.targets, e.message, m.(ttl := m.ttl - 1, routingPath := m.routingPath + [n]));
  }

  lemma AdvertisementEmitted(cfg: Config, s: State, step: Step)
    requires Handles(step) && Enabled(cfg, s, step) && Handled(cfg, s, step).kind.Control?
    ensures var n, m, t := Handler(step), Handled(cfg, s, step), Next(cfg, s, step);
            forall y, id :: t.emitted[(y, id)] ==
              s.emitted[(y, id)] + if y == n && id == m.id && (Heard(cfg, s, step, Join) || Heard(cfg, s, step, Leave) || Heard(cfg, s, step, Unknown)) then 1 else 0
  {
    HandlingEffect(cfg, s, step);
    PassedOn(cfg, s, step);
    hide *;
  }

  lemma PassedOn(cfg: Config, s: State, step: Step)
    requires Handles(step) && Handler(step) in s.locals && Handled(cfg, s, step).kind.Control?
    ensures var n, m, e := Handler(step), Handled(cfg, s, step), OutcomeOf(cfg, s, step);
            && (forall p :: p in e.targets <==>
                  && ChangesTable(cfg, s, step) && m.ttl > 1
                  && p in Links(cfg, n) && p != n && p !in m.routingPath && p != m.sender && !CameFrom(step, p))
            && (e.targets != {} ==> e.message == m.(ttl := m.ttl - 1, routingPath := m.routingPath + [n]))
            && (e.emitted <==> Heard(cfg, s, step, Join) || Heard(cfg, s, step, Leave) || Heard(cfg, s, step, Unknown))
  {
    var n, m := Handler(step), Handled(cfg, s, step);
    AdTargetsAre(n, Links(cfg, n), m, step);
    hide AdTargets, Accept, Without;
  }

  lemma AdTargetsAre(n: Peer, peers: set<Peer>, m: Message, step: Step)
    requires Handles(step)
    ensures forall p :: p in AdTargets(n, peers, m, Inbound(Trail(step))) <==>
                        p in peers && p != n && p !in m.routingPath && p != m.sender && !CameFrom(step, p)
  {
    assert forall p :: p in m.routingPath + [n] <==> p in m.routingPath || p == n;
    assert forall p :: Inbound(Trail(step)) == Some(p) <==> CameFrom(step, p);
  }

  // ---- What deletes an entry ----

  /** Exactly which steps delete an entry: the arrival of its origin's LEAVE for its topic, the collection after
      its lease, and the loss of its next hop or of its origin as a neighbour. */
  lemma DeletesIff(cfg: Config, s: State, step: Step, n: Peer, topic: Topic, origin: Peer)
    requires Enabled(cfg, s, step) && Entry(s, n, topic, origin).Some?
    ensures Entry(Next(cfg, s, step), n, topic, origin).None? <==>
            || (Handles(step) && n == Handler(step) && Heard(cfg, s, step, Leave)
                && Handled(cfg, s, step).sender == origin && Handled(cfg, s, step).kind.payload.topic == topic)
            || (step.Collect? && step.node == n && Entry(s, n, topic, origin).value.expiresAt < step.now)
            || (step.Disconnect? && step.node == n && (Entry(s, n, topic, origin).value.nextHop == step.peer || origin == step.peer))
  {
    if Handles(step) {
      HandledDeletes(cfg, s, step, n, topic, origin);
    } else if step.Collect? && step.node == n {
      CollectedExactly(s.locals[n].routes, step.now, topic, origin);
    } else if step.Disconnect? && step.node == n {
      ClearedExactly(s.locals[n].routes, step.peer, topic, origin);
    } else if step.Handshake? && step.node == n {
      LookupAccept(s.locals[n].routes, Offer(step.topic, step.peer, Route(step.peer, 0, 0, [], step.now + ROUTE_LEASE_MS)), topic, origin);
    }
  }

  /** The network itself, the collection timer and the loss of a neighbour never enter or change a route. */
  lemma OthersOnlyDelete(cfg: Config, s: State, step: Step, n: Peer, topic: Topic, origin: Peer)
    requires Enabled(cfg, s, step) && !Handles(step) && !step.Handshake?
    ensures var after := Entry(Next(cfg, s, step), n, topic, origin); after == None || after == Entry(s, n, topic, origin)
  {
    if step.Collect? && step.node == n {
      CollectedExactly(s.locals[n].routes, step.now, topic, origin);
    } else if step.Disconnect? && step.node == n {
      ClearedExactly(s.locals[n].routes, step.peer, topic, origin);
    }
  }

  lemma OrdinaryKeepsEntries(cfg: Config, s: State, step: Step, n: Peer, topic: Topic, origin: Peer)
    requires Enabled(cfg, s, step) && Handles(step) && !Handled(cfg, s, step).kind.Control?
    ensures Entry(Next(cfg, s, step), n, topic, origin) == Entry(s, n, topic, origin)
  {
    HandlingEffect(cfg, s, step);
    OrdinaryOutcome(cfg, s, step);
    hide Next, Receive, Copies;
  }

  lemma HandledDeletes(cfg: Config, s: State, step: Step, n: Peer, topic: Topic, origin: Peer)
    requires Enabled(cfg, s, step) && Entry(s, n, topic, origin).Some? && Handles(step)
    ensures Entry(Next(cfg, s, step), n, topic, origin).None? <==>
            n == Handler(step) && Heard(cfg, s, step, Leave)
            && Handled(cfg, s, step).sender == origin && Handled(cfg, s, step).kind.payload.topic == topic
  {
    if Handled(cfg, s, step).kind.Control? {
      Advertisement(cfg, s, step, n, topic, origin);
    } else {
      OrdinaryKeepsEntries(cfg, s, step, n, topic, origin);
    }
    hide Next, Enabled, Receive, Improves, Prolongs, Brought, Lookup;
  }

  /** A handshake enters a direct route with sequence number 0 and a lease of 30 seconds where there is none,
      renews one with this number, and leaves what was advertised. */
  lemma HandshakeEntry(cfg: Config, s: State, step: Step, n: Peer, topic: Topic, origin: Peer)
    requires Enabled(cfg, s, step) && step.Handshake?
    ensures var held, after, r := Entry(s, n, topic, origin), Entry(Next(cfg, s, step), n, topic, origin), Route(step.peer, 0, 0, [], step.now + 30000);
            if n == step.node && topic == step.topic && origin == step.peer then
              after == Some(if Improves(r, held) then r
                            else if Prolongs(r, held.value) then held.value.(expiresAt := r.expiresAt) else held.value)
            else after == held
  {
    if n == step.node {
      LookupAccept(s.locals[n].routes, Offer(step.topic, step.peer, Route(step.peer, 0, 0, [], step.now + ROUTE_LEASE_MS)), topic, origin);
    }
  }
}
